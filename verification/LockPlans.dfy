/** The services' lock programs: all but one keep the lock order, and what the one that does not can reach. */
module LockPlans {
  import opened BookingRows
  import opened LockOrder

  /** Insert into a sorted list without repeating. */
  function Insert(s: seq<Id>, x: Id): seq<Id> {
    if s == [] then [x]
    else if x < s[0] then [x] + s
    else if x == s[0] then s
    else [s[0]] + Insert(s[1..], x)
  }

  /** The distinct ids in increasing order. */
  function SortedIds(ids: seq<Id>): seq<Id> {
    if ids == [] then [] else Insert(SortedIds(ids[1..]), ids[0])
  }

  ghost predicate Increasing(s: seq<Id>) { forall i, j | 0 <= i < j < |s| :: s[i] < s[j] }

  lemma {:induction false} InsertFits(s: seq<Id>, x: Id)
    requires Increasing(s)
    ensures Increasing(Insert(s, x)) && forall y: Id :: y in Insert(s, x) <==> y in s || y == x
    decreases |s|
  {
    if s != [] && s[0] < x {
      InsertFits(s[1..], x);
      var t := Insert(s[1..], x);
      assert s == [s[0]] + s[1..];
      forall k | 0 <= k < |t| ensures s[0] < t[k] { assert t[k] in t; }
    }
  }

  lemma {:induction false} SortedIdsFit(ids: seq<Id>)
    ensures Increasing(SortedIds(ids)) && forall y: Id :: y in SortedIds(ids) <==> y in ids
    decreases |ids|
  {
    if ids != [] {
      SortedIdsFit(ids[1..]);
      InsertFits(SortedIds(ids[1..]), ids[0]);
      assert ids == [ids[0]] + ids[1..];
    }
  }

  function AccountLocks(ids: seq<Id>): seq<Lock> {
    seq(|ids|, i requires 0 <= i < |ids| => Lock(LockClass.Account, ids[i]))
  }

  /** What a service asks for: its booking, its request, the accounts of its first account call, any
      later account calls, locks of later classes, and at last locks it has already. */
  datatype Plan = Plan(booking: Option<Id>, request: Option<Id>, accounts: seq<Id>, again: seq<seq<Id>>,
                       others: seq<Lock>, late: seq<Lock>)

  function Maybe(c: LockClass, id: Option<Id>): seq<Lock> { if id.Some? then [Lock(c, id.value)] else [] }

  function Retaken(again: seq<seq<Id>>): seq<Lock>
    decreases |again|
  {
    if again == [] then [] else AccountLocks(SortedIds(again[0])) + Retaken(again[1..])
  }

  function Front(p: Plan): seq<Lock> { Maybe(LockClass.Booking, p.booking) + Maybe(LockClass.Request, p.request) }

  function Accounts(p: Plan): seq<Lock> { AccountLocks(SortedIds(p.accounts)) + Retaken(p.again) }

  function Program(p: Plan): seq<Lock> { Front(p) + Accounts(p) + p.others + p.late }

  /** Later account calls only ask again for accounts already locked, the later classes come in their
      order, and what is asked for at last is held already. */
  ghost predicate Proper(p: Plan) {
    && (forall k | 0 <= k < |p.again| :: forall x | x in p.again[k] :: x in p.accounts)
    && (forall i, j | 0 <= i < j < |p.others| :: Below(p.others[i], p.others[j]))
    && (forall l | l in p.others :: l.class_.Rank() > LockClass.Account.Rank())
    && forall l | l in p.late :: l in Front(p) + Accounts(p) + p.others
  }

  /** Appending locks of a higher class, or held ones, keeps the order. */
  lemma AppendHigher(a: seq<Lock>, b: seq<Lock>, rank: nat)
    requires InOrder(a) && InOrder(b) && (forall l | l in a :: l.class_.Rank() < rank)
    requires forall l | l in b :: l.class_.Rank() >= rank
    ensures InOrder(a + b)
  {
    var c := a + b;
    forall i, j | 0 <= i < j < |c| ensures Below(c[i], c[j]) || c[j] in c[..j] {
      if j < |a| {
        assert c[..j] == a[..j];
      } else if i < |a| {
        assert c[i] in a && c[j] in b;
      } else {
        assert Below(b[i - |a|], b[j - |a|]) || b[j - |a|] in b[..j - |a|];
        assert c[..j] == a + b[..j - |a|];
      }
    }
  }

  lemma AppendHeld(a: seq<Lock>, b: seq<Lock>)
    requires InOrder(a) && forall l | l in b :: l in a
    ensures InOrder(a + b)
  {
    var c := a + b;
    forall i, j | 0 <= i < j < |c| ensures Below(c[i], c[j]) || c[j] in c[..j] {
      if j < |a| {
        assert c[..j] == a[..j];
      } else {
        assert c[j] in b && c[..j] == a + b[..j - |a|];
      }
    }
  }

  lemma AccountsInOrder(ids: seq<Id>)
    ensures InOrder(AccountLocks(SortedIds(ids)))
  {
    SortedIdsFit(ids);
  }

  lemma {:induction false} RetakenAreHeld(again: seq<seq<Id>>, accounts: seq<Id>)
    requires forall k | 0 <= k < |again| :: forall x | x in again[k] :: x in accounts
    ensures forall l | l in Retaken(again) :: l in AccountLocks(SortedIds(accounts))
    decreases |again|
  {
    if again != [] {
      var locks := AccountLocks(SortedIds(accounts));
      forall l | l in AccountLocks(SortedIds(again[0])) ensures l in locks {
        SortedIdsFit(again[0]);
        SortedIdsFit(accounts);
        var ids := SortedIds(again[0]);
        var i :| 0 <= i < |ids| && l == Lock(LockClass.Account, ids[i]);
        assert ids[i] in ids && ids[i] in again[0];
        var k :| 0 <= k < |SortedIds(accounts)| && SortedIds(accounts)[k] == ids[i];
        assert locks[k] == l;
      }
      forall k | 0 <= k < |again[1..]| ensures forall x | x in again[1..][k] :: x in accounts {
        assert again[1..][k] == again[k + 1];
      }
      RetakenAreHeld(again[1..], accounts);
    }
  }

  lemma AccountsFacts(p: Plan)
    requires Proper(p)
    ensures InOrder(Accounts(p)) && forall l | l in Accounts(p) :: l.class_.Account? && l.id in p.accounts
    ensures forall x | x in p.accounts :: Lock(LockClass.Account, x) in Accounts(p)
  {
    var accounts := AccountLocks(SortedIds(p.accounts));
    AccountsInOrder(p.accounts);
    RetakenAreHeld(p.again, p.accounts);
    AppendHeld(accounts, Retaken(p.again));
    SortedIdsFit(p.accounts);
    var ids := SortedIds(p.accounts);
    forall l | l in accounts ensures l.class_.Account? && l.id in p.accounts {
      var i :| 0 <= i < |ids| && l == Lock(LockClass.Account, ids[i]);
      assert ids[i] in ids;
    }
    forall x | x in p.accounts ensures Lock(LockClass.Account, x) in Accounts(p) {
      var i :| 0 <= i < |ids| && ids[i] == x;
      assert accounts[i] == Lock(LockClass.Account, x);
    }
  }

  /** Every such plan asks for its locks in order. */
  lemma PlansAreInOrder(p: Plan)
    requires Proper(p)
    ensures InOrder(Program(p))
  {
    AccountsFacts(p);
    AppendHigher(Maybe(LockClass.Booking, p.booking), Maybe(LockClass.Request, p.request), 1);
    AppendHigher(Front(p), Accounts(p), 2);
    AppendHigher(Front(p) + Accounts(p), p.others, 3);
    AppendHeld(Front(p) + Accounts(p) + p.others, p.late);
  }

  /** A plan's booking and account locks are the ones it names. */
  lemma PlanLocks(p: Plan, l: Lock)
    requires Proper(p)
    ensures l.class_.Booking? ==> (l in Program(p) <==> p.booking == Some(l.id))
    ensures l.class_.Account? ==> (l in Program(p) <==> l.id in p.accounts)
  {
    AccountsFacts(p);
    assert p.booking.Some? ==> Lock(LockClass.Booking, p.booking.value) in Maybe(LockClass.Booking, p.booking);
  }

  // ------------------------------------------------------------- the services

  /** The transactions of the services that take these locks, the accepting provider's aside. */
  datatype Service =
    | SafetyReport(booking: Id, seeker: Id, provider: Id)
    | PenaltyCheck(booking: Id, user: Id)
    | EndPaidBooking(booking: Id, provider: Id)
    | StartJob(booking: Id, provider: Id)
    | DeclineDirect(booked: Option<Id>, response: Id)
    | AcceptUnbooked(provider: Id, response: Id)
    | BookDirectly(seeker: Id, provider: Id, key: Id)
    | SubmitOffer(request: Id, provider: Id, seeker: Id)
    | SelectForCash(request: Id, seeker: Id, provider: Id, offer: Id)
    | InitiatePayment(offeredOn: Option<Id>, seeker: Id, provider: Id, key: Id, selected: Option<Id>)
    | CloseAttempt(offeredOn: Option<Id>, attempt: Id)
    | FinalizeCapture(offeredOn: Option<Id>, seeker: Id, provider: Id, attempt: Id, key: Id)
    | ChangeRequest(request: Id, seeker: Id)
    | PostRequest(seeker: Id)
    | ChangeListing(provider: Id)
    | Membership(provider: Id)
    | JoinWaitlist(provider: Id)

  function PlanOf(x: Service): Plan {
    match x
    case SafetyReport(b, seeker, provider) => Plan(Some(b), None, [seeker, provider], [], [], [])
    case PenaltyCheck(b, user) => Plan(Some(b), None, [user], [], [], [])
    case EndPaidBooking(b, provider) =>
      var queue := Lock(ProviderQueue, provider);
      Plan(Some(b), None, [], [], [queue], [queue, queue])
    case StartJob(b, provider) =>
      var queue := Lock(ProviderQueue, provider);
      Plan(Some(b), None, [], [], [Lock(ProviderStart, provider), queue], [queue])
    case DeclineDirect(b, response) => Plan(b, None, [], [], [Lock(DirectResponse, response)], [])
    case AcceptUnbooked(provider, response) =>
      Plan(None, None, [provider], [], [Lock(DirectResponse, response)], [Lock(LockClass.Account, provider)])
    case BookDirectly(seeker, provider, key) =>
      Plan(None, None, [seeker, provider], [[provider]], [Lock(DirectBooking, key)], [])
    case SubmitOffer(r, provider, seeker) => Plan(None, Some(r), [provider, seeker], [[provider]], [], [])
    case SelectForCash(r, seeker, provider, offer) =>
      Plan(None, Some(r), [seeker, provider], [[provider]],
          [Lock(OfferSelection, offer), Lock(OfferBooking, offer)], [])
    case InitiatePayment(r, seeker, provider, key, offer) =>
      Plan(None, r, [seeker, provider], [[provider]], [Lock(Payment, key)] + Maybe(OfferSelection, offer), [])
    case CloseAttempt(r, attempt) => Plan(None, r, [], [], [Lock(PaymentAttempt, attempt)], [])
    case FinalizeCapture(r, seeker, provider, attempt, key) =>
      var queue := Lock(ProviderQueue, provider);
      Plan(None, r, [seeker, provider], [], [Lock(PaymentAttempt, attempt), Lock(Payment, key), queue], [queue])
    case ChangeRequest(r, seeker) => Plan(None, Some(r), [seeker], [], [], [])
    case PostRequest(seeker) => Plan(None, None, [seeker], [], [Lock(SeekerRequests, seeker)], [])
    case ChangeListing(provider) =>
      Plan(None, None, [provider], [], [Lock(ProviderListings, provider)], [Lock(LockClass.Account, provider)])
    case Membership(provider) => Plan(None, None, [provider], [[provider]], [], [])
    case JoinWaitlist(provider) => Plan(None, None, [provider], [], [Lock(ProviderQueue, provider)], [])
  }

  lemma RetakesHeldAccounts(x: Service)
    ensures var p := PlanOf(x);
            forall k | 0 <= k < |p.again| :: forall y | y in p.again[k] :: y in p.accounts
  {
  }

  lemma LaterClassesRise(x: Service)
    ensures var others := PlanOf(x).others;
            && (forall i, j | 0 <= i < j < |others| :: Below(others[i], others[j]))
            && forall l | l in others :: l.class_.Rank() > LockClass.Account.Rank()
  {
  }

  lemma LateAreHeld(x: Service)
    ensures var p := PlanOf(x);
            forall l | l in p.late :: l in Front(p) + Accounts(p) + p.others
  {
    if x.AcceptUnbooked? || x.ChangeListing? {
      assert SortedIds([x.provider]) == [x.provider];
      assert AccountLocks([x.provider])[0] == Lock(LockClass.Account, x.provider);
    }
  }

  /** Every one of these transactions takes its locks in order. */
  lemma ServicesAreProper(x: Service)
    ensures Proper(PlanOf(x)) && InOrder(Program(PlanOf(x)))
  {
    RetakesHeldAccounts(x);
    LaterClassesRise(x);
    LateAreHeld(x);
    PlansAreInOrder(PlanOf(x));
  }

  /** Whose account each of them holds when it is through. */
  lemma AccountsHeld(x: Service, id: Id)
    ensures Lock(LockClass.Account, id) in Program(PlanOf(x)) <==>
              match x
              case SafetyReport(_, seeker, provider) => id == seeker || id == provider
              case PenaltyCheck(_, user) => id == user
              case AcceptUnbooked(provider, _) => id == provider
              case BookDirectly(seeker, provider, _) => id == seeker || id == provider
              case SubmitOffer(_, provider, seeker) => id == seeker || id == provider
              case SelectForCash(_, seeker, provider, _) => id == seeker || id == provider
              case InitiatePayment(_, seeker, provider, _, _) => id == seeker || id == provider
              case FinalizeCapture(_, seeker, provider, _, _) => id == seeker || id == provider
              case ChangeRequest(_, seeker) => id == seeker
              case PostRequest(seeker) => id == seeker
              case ChangeListing(provider) => id == provider
              case Membership(provider) => id == provider
              case JoinWaitlist(provider) => id == provider
              case _ => false
  {
    ServicesAreProper(x);
    PlanLocks(PlanOf(x), Lock(LockClass.Account, id));
  }

  /** Which booking, and which provider's queue. */
  lemma BookingsAndQueuesHeld(x: Service, id: Id)
    ensures Lock(LockClass.Booking, id) in Program(PlanOf(x)) <==>
              match x
              case SafetyReport(b, _, _) => id == b
              case PenaltyCheck(b, _) => id == b
              case EndPaidBooking(b, _) => id == b
              case StartJob(b, _) => id == b
              case DeclineDirect(b, _) => b == Some(id)
              case _ => false
    ensures Lock(LockClass.ProviderQueue, id) in PlanOf(x).others <==>
              match x
              case EndPaidBooking(_, provider) => id == provider
              case StartJob(_, provider) => id == provider
              case FinalizeCapture(_, _, provider, _, _) => id == provider
              case JoinWaitlist(provider) => id == provider
              case _ => false
  {
    ServicesAreProper(x);
    PlanLocks(PlanOf(x), Lock(LockClass.Booking, id));
  }

  /** A provider accepting a booking that waits for approval locks the account before the booking. */
  datatype Acceptance = Acceptance(provider: Id, booking: Id, response: Id)
  {
    function AccountLock(): Lock { Lock(LockClass.Account, provider) }
    function BookingLock(): Lock { Lock(LockClass.Booking, booking) }
    function Locks(): seq<Lock> { [AccountLock(), BookingLock(), Lock(DirectResponse, response), AccountLock()] }
  }

  ghost predicate Known(program: seq<Lock>) {
    || (exists p: Plan :: Proper(p) && program == Program(p))
    || (exists a: Acceptance :: program == a.Locks())
  }

  // ----------------------------------------------------- two transactions meet

  lemma FirstPlace(q: seq<Lock>, l: Lock) returns (j: nat)
    requires l in q
    ensures j < |q| && q[j] == l && l !in q[..j]
  {
    j := 0;
    while q[j] != l
      decreases |q| - j
      invariant j < |q| && l !in q[..j] && l in q[j..]
    {
      assert q[..j + 1] == q[..j] + [q[j]] && q[j..] == [q[j]] + q[j + 1..];
      j := j + 1;
    }
  }

  /** Programs in order never meet. */
  lemma InOrderNeverMeet(p: seq<Lock>, q: seq<Lock>)
    requires InOrder(p) && InOrder(q)
    ensures !CanMeet(p, q)
  {
    if i: nat, j: nat :| MeetAt(p, q, i, j) {
      MeetsPast(p, q, i, j);
    }
  }

  /** Who meets a program in order asks for a lock below one it has. */
  lemma MeetsPast(p: seq<Lock>, q: seq<Lock>, i: nat, j: nat)
    requires InOrder(q) && MeetAt(p, q, i, j)
    ensures p[i] !in p[..i] && exists n :: 0 <= n < i && !Below(p[n], p[i])
  {
    var m :| 0 <= m < j && q[m] == p[i];
    var n :| 0 <= n < i && p[n] == q[j];
    assert Below(q[m], q[j]);
  }

  /** An acceptance is out of order only where it asks for its booking. */
  lemma OutOfOrderAtBooking(a: Acceptance, i: nat, n: nat)
    requires n < i < |a.Locks()| && a.Locks()[i] !in a.Locks()[..i] && !Below(a.Locks()[n], a.Locks()[i])
    ensures i == 1 && n == 0
  {
    assert a.Locks()[0] in a.Locks()[..i];
  }

  /** Where an acceptance can be cut: between its first two locks. */
  lemma AcceptanceCut(a: Acceptance, p: Plan, i: nat, j: nat)
    requires Proper(p) && MeetAt(a.Locks(), Program(p), i, j)
    ensures i == 1
  {
    PlansAreInOrder(p);
    MeetsPast(a.Locks(), Program(p), i, j);
    var n :| 0 <= n < i && !Below(a.Locks()[n], a.Locks()[i]);
    OutOfOrderAtBooking(a, i, n);
  }

  /** An acceptance and a plan can wait for each other exactly when the plan locks the booking that is
      being accepted and the accepting provider's account. */
  lemma AcceptanceMeetsExactly(a: Acceptance, p: Plan)
    requires Proper(p)
    ensures CanCircle([a.Locks(), Program(p)]) <==> p.booking == Some(a.booking) && a.provider in p.accounts
  {
    var locks, q := a.Locks(), Program(p);
    MutualWaitExactly(locks, q);
    PlanLocks(p, a.BookingLock());
    PlanLocks(p, a.AccountLock());
    if i: nat, j: nat :| MeetAt(locks, q, i, j) {
      AcceptanceCut(a, p, i, j);
      assert a.BookingLock() in q && locks[..1] == [a.AccountLock()];
    }
    if p.booking == Some(a.booking) && a.provider in p.accounts {
      var j := MeetingPlace(a, p);
    }
  }

  lemma MeetingPlace(a: Acceptance, p: Plan) returns (j: nat)
    requires Proper(p) && p.booking == Some(a.booking) && a.provider in p.accounts
    ensures MeetAt(a.Locks(), Program(p), 1, j)
  {
    var locks, q := a.Locks(), Program(p);
    PlanLocks(p, a.AccountLock());
    j := FirstPlace(q, a.AccountLock());
    assert q[0] == a.BookingLock() && q[..j][0] == q[0];
    assert locks[..1] == [a.AccountLock()];
  }

  /** Two acceptances never wait for each other alone. */
  lemma AcceptancesNeverMeet(a: Acceptance, b: Acceptance)
    ensures !CanCircle([a.Locks(), b.Locks()])
  {
    MutualWaitExactly(a.Locks(), b.Locks());
    forall i: nat, j: nat ensures !MeetAt(a.Locks(), b.Locks(), i, j) {
      AcceptancesApart(a, b, i, j);
    }
  }

  lemma AcceptancesApart(a: Acceptance, b: Acceptance, i: nat, j: nat)
    ensures !MeetAt(a.Locks(), b.Locks(), i, j)
  {
    var p, q := a.Locks(), b.Locks();
    if i > 0 && i < 4 && j > 0 && j < 4 {
      assert p[0] in p[..i] && q[0] in q[..j];
      assert i == 1 ==> p[..i] == [p[0]];
      assert j == 1 ==> q[..j] == [q[0]];
    }
  }

  /** A run that ends with the acceptance of a booking and its safety report waiting for each other. */
  lemma AcceptanceStuckWithSafetyReport(a: Acceptance, seeker: Id) returns (steps: seq<Step>)
    ensures Starts(steps, p => Known(p))
    ensures CircleOf(Run(map[], steps), [0, 1],
              [a.Locks(), Program(PlanOf(SafetyReport(a.booking, seeker, a.provider)))])
  {
    var p := PlanOf(SafetyReport(a.booking, seeker, a.provider));
    var programs := [a.Locks(), Program(p)];
    ServicesAreProper(SafetyReport(a.booking, seeker, a.provider));
    var j := MeetingPlace(a, p);
    MeetIsInterlock(a.Locks(), Program(p), 1, j);
    var ids;
    steps, ids := CutsCircle(programs, [1, j]);
    assert ids == [0, 1];
    assert forall q | q in programs :: Known(q);
  }

  // ---------------------------------------------------- any number of transactions

  /** An unfinished acceptance that has its account and asks for its booking. */
  ghost predicate AwaitsBooking(s: System, t: nat, a: Acceptance) {
    t in s && s[t].program == a.Locks() && s[t].granted == 1
  }

  lemma OnlyAcceptancesStray(s: System, t: nat, u: nat) returns (a: Acceptance)
    requires Exclusive(s) && Runs(s, p => Known(p)) && Strays(s, t, u)
    ensures AwaitsBooking(s, u, a) && s[t].Wanted() == a.AccountLock()
  {
    StraysPast(s, t, u);
    var program := s[u].program;
    assert Known(program);
    if p: Plan :| Proper(p) && program == Program(p) {
      PlansAreInOrder(p);
      InOrderNeverStrays(s, t, u);
    }
    a :| program == a.Locks();
    var i :| 0 <= i < s[u].granted && program[i] == s[t].Wanted() && !Below(program[i], program[s[u].granted]);
    OutOfOrderAtBooking(a, s[u].granted, i);
  }

  /** Every circle of waits passes through an acceptance: it asks for its booking while the one before
      it in the circle asks for its provider's account. */
  lemma CirclePassesAnAcceptance(steps: seq<Step>, chain: seq<nat>) returns (k: nat, a: Acceptance)
    requires Starts(steps, p => Known(p)) && Circle(Run(map[], steps), chain)
    ensures var s := Run(map[], steps);
            && k < |chain| - 1 && AwaitsBooking(s, chain[k + 1], a)
            && chain[k] in s && !s[chain[k]].Done() && s[chain[k]].Wanted() == a.AccountLock()
  {
    var s := Run(map[], steps);
    RunExcludes(map[], steps);
    RunsWhatStarts(map[], steps, p => Known(p));
    k := CircleStrays(s, chain);
    a := OnlyAcceptancesStray(s, chain[k], chain[k + 1]);
  }

  /** No unfinished transaction locks the booking that another unfinished one is accepting. */
  ghost predicate BookingsApart(s: System) {
    forall t, u, a: Acceptance | t in s && u in s && t != u && AwaitsBooking(s, t, a) && !s[u].Done() ::
      a.BookingLock() !in s[u].program
  }

  lemma AwaitedIsShared(s: System, u: nat, a: Acceptance)
    requires AwaitsBooking(s, u, a) && Blocked(s, u)
    ensures !BookingsApart(s)
  {
    var v := HolderFor(s, u);
    assert a.BookingLock() in s[v].program;
  }

  /** While the bookings being accepted are apart, any number of plans and acceptances are in no circle
      and one of the unfinished can go on. */
  lemma NoCircleWhenApart(steps: seq<Step>)
    requires Starts(steps, p => Known(p)) && BookingsApart(Run(map[], steps))
    ensures !Deadlocked(Run(map[], steps))
    ensures forall chain :: !Circle(Run(map[], steps), chain)
  {
    var s := Run(map[], steps);
    RunExcludes(map[], steps);
    RunsWhatStarts(map[], steps, p => Known(p));
    if Deadlocked(s) {
      var t, u := DeadlockStrays(s);
      var a := OnlyAcceptancesStray(s, t, u);
      AwaitedIsShared(s, u, a);
    }
    forall chain ensures !Circle(s, chain) {
      if Circle(s, chain) {
        var k := CircleStrays(s, chain);
        var a := OnlyAcceptancesStray(s, chain[k], chain[k + 1]);
        AwaitedIsShared(s, chain[k + 1], a);
      }
    }
  }

  /** An acceptance, a penalty for its seeker and an offer of its provider on a request of that seeker. */
  function ThreePrograms(a: Acceptance, seeker: Id, request: Id): seq<seq<Lock>> {
    [a.Locks(), Program(PlanOf(PenaltyCheck(a.booking, seeker))),
        Program(PlanOf(SubmitOffer(request, a.provider, seeker)))]
  }

  /** Three transactions can be stuck of which no two can: pairs alone do not decide. */
  lemma ThreeStuckNoTwo(a: Acceptance, seeker: Id, request: Id)
    requires seeker < a.provider
    ensures var ps := ThreePrograms(a, seeker, request);
            CanCircle(ps) && !CanCircle([ps[0], ps[1]]) && !CanCircle([ps[0], ps[2]]) && !CanCircle([ps[1], ps[2]])
  {
    var ps := ThreePrograms(a, seeker, request);
    var penalty, offer := PlanOf(PenaltyCheck(a.booking, seeker)), PlanOf(SubmitOffer(request, a.provider, seeker));
    ServicesAreProper(PenaltyCheck(a.booking, seeker));
    ServicesAreProper(SubmitOffer(request, a.provider, seeker));
    AcceptanceMeetsExactly(a, penalty);
    AcceptanceMeetsExactly(a, offer);
    InOrderNeverMeet(ps[1], ps[2]);
    MutualWaitExactly(ps[1], ps[2]);
    ThreeInterlock(a, seeker, request);
    CircleExactlyWhenInterlocked(ps);
  }

  lemma ThreeInterlock(a: Acceptance, seeker: Id, request: Id)
    requires seeker < a.provider
    ensures Interlocked(ThreePrograms(a, seeker, request), [1, 1, 2])
  {
    var ps := ThreePrograms(a, seeker, request);
    assert SortedIds([seeker]) == [seeker];
    assert SortedIds([a.provider]) == [a.provider];
    assert [a.provider, seeker][1..] == [seeker];
    assert SortedIds([a.provider, seeker]) == Insert([seeker], a.provider);
    assert Insert([seeker], a.provider) == [seeker] + Insert([], a.provider);
    assert Next(0, 3) == 1 && Next(1, 3) == 2 && Next(2, 3) == 0;
    assert ps[0][..1] == [a.AccountLock()];
    assert ps[1][..2] == [a.BookingLock(), Lock(LockClass.Account, seeker)] && ps[1][..1] == [a.BookingLock()];
    assert ps[2][..3] == [Lock(LockClass.Request, request), Lock(LockClass.Account, seeker), a.AccountLock()];
    assert ps[2][..2] == [Lock(LockClass.Request, request), Lock(LockClass.Account, seeker)];
    assert ps[1][1] == ps[1][..2][1] && ps[2][2] == ps[2][..3][2];
  }
}
