/** Advisory locks: when transactions can wait for each other in a circle, and when they never do. */
module LockOrder {

  /** The lock classes, in the order the services take them. */
  datatype LockClass =
    | Booking | Request | Account | DirectResponse | ProviderStart | ProviderListings | SeekerRequests
    | DirectBooking | PaymentAttempt | Payment | OfferSelection | OfferBooking | ProviderQueue
  {
    function Rank(): nat {
      match this
      case Booking => 0
      case Request => 1
      case Account => 2
      case DirectResponse => 3
      case ProviderStart => 4
      case ProviderListings => 5
      case SeekerRequests => 6
      case DirectBooking => 7
      case PaymentAttempt => 8
      case Payment => 9
      case OfferSelection => 10
      case OfferBooking => 11
      case ProviderQueue => 12
    }
  }

  /** A lock key: its class and the identity within the class. */
  datatype Lock = Lock(class_: LockClass, id: nat)

  predicate Below(a: Lock, b: Lock) {
    a.class_.Rank() < b.class_.Rank() || (a.class_ == b.class_ && a.id < b.id)
  }

  /** A transaction's locks in the order it asks for them, and how many it has been granted. */
  datatype Transaction = Transaction(program: seq<Lock>, granted: nat)
  {
    predicate Done() { granted >= |program| }
    function Held(): set<Lock> { if granted <= |program| then set l | l in program[..granted] else {} }
    function Wanted(): Lock
      requires !Done()
    {
      program[granted]
    }
  }

  /** Every lock is either held already or above all those taken before it. */
  ghost predicate InOrder(program: seq<Lock>) {
    forall i, j | 0 <= i < j < |program| :: Below(program[i], program[j]) || program[j] in program[..j]
  }

  type System = map<nat, Transaction>

  /** A finished transaction has committed and released its locks. */
  predicate HeldBy(s: System, t: nat, l: Lock)
    requires t in s
  {
    !s[t].Done() && l in s[t].Held()
  }

  predicate Blocked(s: System, t: nat)
    requires t in s
  {
    !s[t].Done() && exists u | u in s :: u != t && HeldBy(s, u, s[t].Wanted())
  }

  /** Grant the next lock to a transaction that is not blocked. */
  function Grant(s: System, t: nat): System {
    if t !in s || s[t].Done() || Blocked(s, t) then s else s[t := s[t].(granted := s[t].granted + 1)]
  }

  function Begin(s: System, t: nat, program: seq<Lock>): System {
    if t in s then s else s[t := Transaction(program, 0)]
  }

  datatype Step = NewTransaction(t: nat, program: seq<Lock>) | Take(t: nat) | Abort(t: nat)

  /** An aborted transaction releases its locks too. */
  function Do(s: System, e: Step): System {
    match e
    case NewTransaction(t, program) => Begin(s, t, program)
    case Take(t) => Grant(s, t)
    case Abort(t) => if t in s then s[t := Transaction([], 0)] else s
  }

  function Run(s: System, steps: seq<Step>): System
    decreases |steps|
  {
    if steps == [] then s else Run(Do(s, steps[0]), steps[1..])
  }

  /** No lock is held by two unfinished transactions. */
  ghost predicate Exclusive(s: System) {
    && (forall t | t in s :: s[t].granted <= |s[t].program|)
    && (forall t, u, l | t in s && u in s && t != u && HeldBy(s, t, l) :: !HeldBy(s, u, l))
  }

  lemma GrantedHolds(s: System, t: nat, l: Lock)
    requires t in s && !s[t].Done() && !Blocked(s, t) && HeldBy(Grant(s, t), t, l)
    ensures l == s[t].Wanted() || HeldBy(s, t, l)
  {
    assert s[t].program[..s[t].granted + 1] == s[t].program[..s[t].granted] + [s[t].Wanted()];
  }

  lemma GrantExcludes(s: System, t: nat, u: nat, l: Lock)
    requires Exclusive(s) && t in s && !s[t].Done() && !Blocked(s, t) && u in s && u != t && HeldBy(Grant(s, t), t, l)
    ensures !HeldBy(Grant(s, t), u, l)
  {
    GrantedHolds(s, t, l);
    assert Grant(s, t)[u] == s[u];
  }

  lemma GrantKeeps(s: System, t: nat)
    requires Exclusive(s)
    ensures Exclusive(Grant(s, t))
  {
    if t in s && !s[t].Done() && !Blocked(s, t) {
      var r := Grant(s, t);
      forall u, v, l | u in r && v in r && u != v && HeldBy(r, u, l) ensures !HeldBy(r, v, l) {
        if u == t {
          GrantExcludes(s, t, v, l);
        } else if v == t {
          if HeldBy(r, t, l) { GrantExcludes(s, t, u, l); }
        } else {
          assert HeldBy(s, u, l) && r[v] == s[v];
        }
      }
    }
  }

  lemma StepExcludes(s: System, e: Step)
    requires Exclusive(s)
    ensures Exclusive(Do(s, e))
  {
    if e.Take? {
      GrantKeeps(s, e.t);
    } else {
      var r := Do(s, e);
      forall u, v, l | u in r && v in r && u != v && HeldBy(r, u, l) ensures !HeldBy(r, v, l) {
        assert u in s && HeldBy(s, u, l);
        if v in s { assert !HeldBy(s, v, l); }
      }
    }
  }

  lemma {:induction false} RunExcludes(s: System, steps: seq<Step>)
    requires Exclusive(s)
    ensures Exclusive(Run(s, steps))
    decreases |steps|
  {
    if steps != [] {
      StepExcludes(s, steps[0]);
      RunExcludes(Do(s, steps[0]), steps[1..]);
    }
  }

  /** Every transaction that starts runs an allowed program. */
  ghost predicate Starts(steps: seq<Step>, allowed: seq<Lock> -> bool) {
    forall k | 0 <= k < |steps| && steps[k].NewTransaction? :: allowed(steps[k].program)
  }

  /** Aborted transactions have the empty program; every other one runs a program it started with. */
  ghost predicate Runs(s: System, allowed: seq<Lock> -> bool) {
    forall t | t in s :: s[t].program == [] || allowed(s[t].program)
  }

  lemma {:induction false} RunsWhatStarts(s: System, steps: seq<Step>, allowed: seq<Lock> -> bool)
    requires Runs(s, allowed) && Starts(steps, allowed)
    ensures Runs(Run(s, steps), allowed)
    decreases |steps|
  {
    if steps != [] {
      var rest := steps[1..];
      forall k | 0 <= k < |rest| && rest[k].NewTransaction? ensures allowed(rest[k].program) {
        assert rest[k] == steps[k + 1];
      }
      RunsWhatStarts(Do(s, steps[0]), rest, allowed);
    }
  }

  // -------------------------------------------------------- circles of waits

  /** `t` waits for a lock that `u` holds. */
  ghost predicate WaitsFor(s: System, t: nat, u: nat) {
    t in s && u in s && t != u && !s[t].Done() && HeldBy(s, u, s[t].Wanted())
  }

  /** Everybody waits for the next one, and the last is the first. */
  ghost predicate Circle(s: System, chain: seq<nat>) {
    && |chain| >= 2 && chain[0] == chain[|chain| - 1]
    && forall k | 0 <= k < |chain| - 1 :: WaitsFor(s, chain[k], chain[k + 1])
  }

  /** `t` waits for `u`, which waits for a lock that is not above the one `t` wants. */
  ghost predicate Strays(s: System, t: nat, u: nat) {
    WaitsFor(s, t, u) && Blocked(s, u) && !Below(s[t].Wanted(), s[u].Wanted())
  }

  /** Along a chain of waits in which nobody strays the wanted locks only go up. */
  lemma {:induction false} ChainClimbs(s: System, chain: seq<nat>)
    requires |chain| >= 2
    requires forall k | 0 <= k < |chain| :: chain[k] in s && !s[chain[k]].Done()
    requires forall k | 0 <= k < |chain| - 1 :: Below(s[chain[k]].Wanted(), s[chain[k + 1]].Wanted())
    ensures Below(s[chain[0]].Wanted(), s[chain[|chain| - 1]].Wanted())
    decreases |chain|
  {
    assert Below(s[chain[0]].Wanted(), s[chain[0 + 1]].Wanted());
    if |chain| > 2 {
      var rest := chain[1..];
      forall k | 0 <= k < |rest| - 1 ensures Below(s[rest[k]].Wanted(), s[rest[k + 1]].Wanted()) {
        assert rest[k] == chain[k + 1] && rest[k + 1] == chain[k + 1 + 1];
      }
      ChainClimbs(s, rest);
    }
  }

  /** In every circle of waits somebody strays. */
  lemma CircleStrays(s: System, chain: seq<nat>) returns (k: nat)
    requires Circle(s, chain)
    ensures k < |chain| - 1 && Strays(s, chain[k], chain[k + 1])
  {
    forall k | 0 <= k < |chain| ensures chain[k] in s && Blocked(s, chain[k]) {
      var m := if k == |chain| - 1 then 0 else k;
      assert chain[m] == chain[k] && WaitsFor(s, chain[m], chain[m + 1]);
    }
    if forall k | 0 <= k < |chain| - 1 :: Below(s[chain[k]].Wanted(), s[chain[k + 1]].Wanted()) {
      ChainClimbs(s, chain);
      assert false;
    }
    k :| 0 <= k < |chain| - 1 && !Below(s[chain[k]].Wanted(), s[chain[k + 1]].Wanted());
    assert WaitsFor(s, chain[k], chain[k + 1]);
  }

  /** A transaction that asks for the highest lock among the given ones. */
  lemma {:induction false} HighestWanted(s: System, ts: set<nat>) returns (t: nat)
    requires ts != {} && forall u | u in ts :: u in s && !s[u].Done()
    ensures t in ts && forall u | u in ts :: !Below(s[t].Wanted(), s[u].Wanted())
    decreases ts
  {
    t :| t in ts;
    if ts != {t} {
      var u := HighestWanted(s, ts - {t});
      if !Below(s[u].Wanted(), s[t].Wanted()) { t := u; }
    }
  }

  ghost predicate Unfinished(s: System) { exists t | t in s :: !s[t].Done() }

  /** Every unfinished transaction waits for another one. */
  ghost predicate Deadlocked(s: System) {
    Unfinished(s) && forall t {:trigger Blocked(s, t)} | t in s && !s[t].Done() :: Blocked(s, t)
  }

  lemma HolderFor(s: System, t: nat) returns (u: nat)
    requires t in s && Blocked(s, t)
    ensures WaitsFor(s, t, u)
  {
    u :| u in s && u != t && HeldBy(s, u, s[t].Wanted());
  }

  /** When nobody can go on, somebody strays. */
  lemma DeadlockStrays(s: System) returns (t: nat, u: nat)
    requires Deadlocked(s)
    ensures Strays(s, t, u)
  {
    var ts := set v | v in s && !s[v].Done();
    var w :| w in s && !s[w].Done();
    assert w in ts;
    t := HighestWanted(s, ts);
    assert Blocked(s, t);
    u := HolderFor(s, t);
    assert u in ts && Blocked(s, u);
  }

  /** A transaction whose program is in order never strays. */
  lemma InOrderNeverStrays(s: System, t: nat, u: nat)
    requires Exclusive(s) && u in s && InOrder(s[u].program)
    ensures !Strays(s, t, u)
  {
    if Strays(s, t, u) {
      StraysPast(s, t, u);
    }
  }

  /** Who strays asks for a lock not above an earlier one of its program, and not among them. */
  lemma StraysPast(s: System, t: nat, u: nat)
    requires Exclusive(s) && Strays(s, t, u)
    ensures var p, g := s[u].program, s[u].granted;
            g < |p| && p[g] !in p[..g] && exists i :: 0 <= i < g && p[i] == s[t].Wanted() && !Below(p[i], p[g])
  {
    var p, g := s[u].program, s[u].granted;
    var v :| v in s && v != u && HeldBy(s, v, s[u].Wanted());
    assert !HeldBy(s, u, s[u].Wanted());
    var i :| 0 <= i < g && p[i] == s[t].Wanted();
  }

  /** No run of transactions whose programs are in order reaches a circle of waits. */
  lemma NoWaitsForCycle(steps: seq<Step>, chain: seq<nat>)
    requires Starts(steps, p => InOrder(p))
    ensures !Circle(Run(map[], steps), chain)
  {
    var s := Run(map[], steps);
    RunExcludes(map[], steps);
    RunsWhatStarts(map[], steps, p => InOrder(p));
    if Circle(s, chain) {
      var k := CircleStrays(s, chain);
      InOrderNeverStrays(s, chain[k], chain[k + 1]);
    }
  }

  /** Whenever some such transaction is unfinished, one of them can go on. */
  lemma SomeoneCanGoOn(steps: seq<Step>)
    requires Starts(steps, p => InOrder(p))
    ensures !Deadlocked(Run(map[], steps))
  {
    var s := Run(map[], steps);
    RunExcludes(map[], steps);
    RunsWhatStarts(map[], steps, p => InOrder(p));
    if Deadlocked(s) {
      var t, u := DeadlockStrays(s);
      InOrderNeverStrays(s, t, u);
    }
  }

  // ------------------------------------- which programs can end up in a circle

  function Next(k: nat, n: nat): nat { if k + 1 == n then 0 else k + 1 }

  /** Transactions that run these programs, each waiting for the next, the last for the first. */
  ghost predicate CircleOf(s: System, ids: seq<nat>, programs: seq<seq<Lock>>) {
    && |ids| == |programs|
    && (forall k, m | 0 <= k < m < |ids| :: ids[k] != ids[m])
    && forall k | 0 <= k < |ids| ::
         ids[k] in s && s[ids[k]].program == programs[k] && WaitsFor(s, ids[k], ids[Next(k, |ids|)])
  }

  /** Where each program can be cut so that what lies before the cuts is disjoint and what each asks
      for next lies before the next one's cut. */
  ghost predicate Interlocked(programs: seq<seq<Lock>>, cuts: seq<nat>) {
    && |cuts| == |programs|
    && (forall k | 0 <= k < |cuts| :: cuts[k] < |programs[k]|)
    && (forall k | 0 <= k < |cuts| ::
          programs[k][cuts[k]] in programs[Next(k, |cuts|)][..cuts[Next(k, |cuts|)]])
    && forall k, m, l | 0 <= k < |cuts| && 0 <= m < |cuts| && k != m && l in programs[k][..cuts[k]] ::
         l !in programs[m][..cuts[m]]
  }

  ghost predicate CanCircle(programs: seq<seq<Lock>>) {
    exists steps: seq<Step>, ids: seq<nat> :: CircleOf(Run(map[], steps), ids, programs)
  }

  lemma CircleCuts(s: System, ids: seq<nat>, programs: seq<seq<Lock>>) returns (cuts: seq<nat>)
    requires Exclusive(s) && CircleOf(s, ids, programs)
    ensures Interlocked(programs, cuts)
  {
    cuts := seq(|ids|, k requires 0 <= k < |ids| => s[ids[k]].granted);
    forall k | 0 <= k < |cuts|
      ensures cuts[k] < |programs[k]|
      ensures programs[k][cuts[k]] in programs[Next(k, |cuts|)][..cuts[Next(k, |cuts|)]]
    {
      assert WaitsFor(s, ids[k], ids[Next(k, |ids|)]);
    }
    forall k, m, l | 0 <= k < |cuts| && 0 <= m < |cuts| && k != m && l in programs[k][..cuts[k]]
      ensures l !in programs[m][..cuts[m]]
    {
      assert WaitsFor(s, ids[k], ids[Next(k, |ids|)]) && WaitsFor(s, ids[m], ids[Next(m, |ids|)]);
      assert HeldBy(s, ids[k], l);
      assert !HeldBy(s, ids[m], l);
    }
  }

  lemma {:induction false} RunSnoc(s: System, steps: seq<Step>, e: Step)
    ensures Run(s, steps + [e]) == Do(Run(s, steps), e)
    decreases |steps|
  {
    if steps != [] {
      assert (steps + [e])[1..] == steps[1..] + [e];
      RunSnoc(Do(s, steps[0]), steps[1..], e);
    }
  }

  /** The first `m` transactions stand at their cuts. */
  function AtCuts(programs: seq<seq<Lock>>, cuts: seq<nat>, m: nat): System
    requires m <= |programs| == |cuts|
  {
    map k: nat | k < m :: Transaction(programs[k], cuts[k])
  }

  lemma TakesFreely(programs: seq<seq<Lock>>, cuts: seq<nat>, m: nat, j: nat)
    requires Interlocked(programs, cuts) && m < |programs| && j < cuts[m]
    ensures var s := AtCuts(programs, cuts, m)[m := Transaction(programs[m], j)];
            Do(s, Take(m)) == AtCuts(programs, cuts, m)[m := Transaction(programs[m], j + 1)]
  {
    var s := AtCuts(programs, cuts, m)[m := Transaction(programs[m], j)];
    var l := programs[m][j];
    assert l in programs[m][..cuts[m]];
    forall u | u in s && u != m ensures !HeldBy(s, u, l) {
      assert l !in programs[u][..cuts[u]];
    }
    assert !Blocked(s, m);
  }

  /** Transactions led to their cuts one after the other. */
  lemma {:induction false} LedToCuts(programs: seq<seq<Lock>>, cuts: seq<nat>, m: nat, j: nat)
      returns (steps: seq<Step>)
    requires Interlocked(programs, cuts) && m < |programs| && j <= cuts[m]
    ensures Run(map[], steps) == AtCuts(programs, cuts, m)[m := Transaction(programs[m], j)]
    ensures forall k | 0 <= k < |steps| && steps[k].NewTransaction? :: steps[k].program in programs
    decreases m, j
  {
    if j > 0 {
      var before := LedToCuts(programs, cuts, m, j - 1);
      steps := before + [Take(m)];
      RunSnoc(map[], before, Take(m));
      TakesFreely(programs, cuts, m, j - 1);
    } else if m > 0 {
      var before := LedToCuts(programs, cuts, m - 1, cuts[m - 1]);
      steps := before + [NewTransaction(m, programs[m])];
      RunSnoc(map[], before, NewTransaction(m, programs[m]));
      assert AtCuts(programs, cuts, m - 1)[m - 1 := Transaction(programs[m - 1], cuts[m - 1])]
          == AtCuts(programs, cuts, m);
    } else {
      steps := [NewTransaction(0, programs[0])];
      assert AtCuts(programs, cuts, 0) == map[];
      RunSnoc(map[], [], steps[0]);
    }
  }

  /** Interlocked programs do end up in a circle. */
  lemma CutsCircle(programs: seq<seq<Lock>>, cuts: seq<nat>) returns (steps: seq<Step>, ids: seq<nat>)
    requires |programs| >= 2 && Interlocked(programs, cuts)
    ensures CircleOf(Run(map[], steps), ids, programs)
    ensures forall k | 0 <= k < |steps| && steps[k].NewTransaction? :: steps[k].program in programs
    ensures ids == seq(|programs|, k => k)
  {
    var n := |programs|;
    ids := seq(n, k => k);
    steps := LedToCuts(programs, cuts, n - 1, cuts[n - 1]);
    var s := Run(map[], steps);
    assert s == AtCuts(programs, cuts, n);
    forall k | 0 <= k < n ensures WaitsFor(s, ids[k], ids[Next(k, n)]) {
      var m := Next(k, n);
      assert programs[k][cuts[k]] in programs[m][..cuts[m]];
      assert s[k] == Transaction(programs[k], cuts[k]) && s[m] == Transaction(programs[m], cuts[m]);
    }
  }

  /** Transactions with these programs can wait for each other in a circle exactly when the programs interlock. */
  lemma CircleExactlyWhenInterlocked(programs: seq<seq<Lock>>)
    requires |programs| >= 2
    ensures CanCircle(programs) <==> exists cuts :: Interlocked(programs, cuts)
  {
    if CanCircle(programs) {
      var steps: seq<Step>, ids: seq<nat> :| CircleOf(Run(map[], steps), ids, programs);
      RunExcludes(map[], steps);
      var cuts := CircleCuts(Run(map[], steps), ids, programs);
    }
    if cuts :| Interlocked(programs, cuts) {
      var steps, ids := CutsCircle(programs, cuts);
    }
  }

  /** Both prefixes are disjoint and each program asks next for a lock of the other's prefix. */
  ghost predicate MeetAt(p: seq<Lock>, q: seq<Lock>, i: nat, j: nat) {
    && i < |p| && j < |q| && p[i] in q[..j] && q[j] in p[..i]
    && forall l | l in p[..i] :: l !in q[..j]
  }

  ghost predicate CanMeet(p: seq<Lock>, q: seq<Lock>) { exists i: nat, j: nat :: MeetAt(p, q, i, j) }

  lemma MeetIsInterlock(p: seq<Lock>, q: seq<Lock>, i: nat, j: nat)
    ensures MeetAt(p, q, i, j) <==> Interlocked([p, q], [i, j])
  {
    var ps, cuts := [p, q], [i, j];
    assert Next(0, 2) == 1 && Next(1, 2) == 0;
    if MeetAt(p, q, i, j) {
      forall k | 0 <= k < 2 ensures ps[k][cuts[k]] in ps[Next(k, 2)][..cuts[Next(k, 2)]] {}
    }
    if Interlocked(ps, cuts) {
      assert cuts[0] < |ps[0]| && cuts[1] < |ps[1]|;
      assert ps[0][cuts[0]] in ps[Next(0, 2)][..cuts[Next(0, 2)]];
      assert ps[1][cuts[1]] in ps[Next(1, 2)][..cuts[Next(1, 2)]];
      forall l | l in p[..i] ensures l !in q[..j] { assert l in ps[0][..cuts[0]]; assert l !in ps[1][..cuts[1]]; }
    }
  }

  /** Two transactions can wait for each other exactly when their programs meet. */
  lemma MutualWaitExactly(p: seq<Lock>, q: seq<Lock>)
    ensures CanCircle([p, q]) <==> CanMeet(p, q)
  {
    CircleExactlyWhenInterlocked([p, q]);
    if cuts :| Interlocked([p, q], cuts) {
      assert cuts == [cuts[0], cuts[1]];
      MeetIsInterlock(p, q, cuts[0], cuts[1]);
    }
    if i: nat, j: nat :| MeetAt(p, q, i, j) {
      MeetIsInterlock(p, q, i, j);
    }
  }
}
