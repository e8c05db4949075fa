/** What reindexing does to the queue, and what holds over whole runs of
    joining, starting, finishing and cancelling. */
module QueueRuns {
  import opened BookingRows
  import opened WorkQueue

  // ------------------------------------------------------- one reindexing

  lemma PlacedKeepsIdentity(rows: seq<Entry>, cash: Option<Option<nat>>, i: nat)
    requires i < |rows|
    ensures var e := Reindexed(rows, cash)[i];
            e.status == rows[i].status && e.joined == rows[i].joined && e.duration == rows[i].duration
  {
  }

  lemma SortedAt(rows: seq<Entry>, s: seq<nat>, k: nat, l: nat)
    requires Sorted(rows, s) && k < |s| && l < |s|
    ensures k < l ==> Before(rows, s[k], s[l])
  {
  }

  /** Two sorted listings of the same entries are the same listing. */
  lemma {:induction false} OneSortedListing(rows: seq<Entry>, s: seq<nat>, t: seq<nat>)
    requires Sorted(rows, s) && Sorted(rows, t) && forall j: nat :: j in s <==> j in t
    ensures s == t
    decreases |s|
  {
    assert t != [] ==> t[0] in t;
    if s != [] {
      assert s[0] in s;
      var l := WorkQueue.Rank(t, s[0]);
      assert t[0] in t;
      var k := WorkQueue.Rank(s, t[0]);
      SortedAt(rows, s, 0, k);
      SortedAt(rows, t, 0, l);
      assert s[0] == t[0];
      forall j: nat ensures j in s[1..] <==> j in t[1..] {
        TailMembers(rows, s, j);
        TailMembers(rows, t, j);
      }
      OneSortedListing(rows, s[1..], t[1..]);
      assert s == [s[0]] + s[1..] && t == [t[0]] + t[1..];
    }
  }

  lemma TailMembers(rows: seq<Entry>, s: seq<nat>, j: nat)
    requires Sorted(rows, s) && s != []
    ensures j in s[1..] <==> j in s && j != s[0]
  {
    if j in s && j != s[0] {
      var k := WorkQueue.Rank(s, j);
      assert s[1..][k - 1] == j;
    }
    if j in s[1..] {
      var k := WorkQueue.Rank(s[1..], j);
      assert s[k + 1] == j && Before(rows, s[0], s[k + 1]);
    }
  }

  lemma PositionsAfter(rows: seq<Entry>, cash: Option<Option<nat>>, k: nat)
    requires k < |Listing(rows)|
    ensures var e := Reindexed(rows, cash)[Listing(rows)[k]];
            e.position == Base(rows) + k && e.wait == WaitBefore(rows, Listing(rows), k, Seed(rows, cash))
  {
    PlacedEntry(rows, cash, k);
    ListingSorts(rows);
    assert Listing(rows)[k] in Listing(rows);
  }

  lemma {:induction false} SameServing(a: seq<Entry>, b: seq<Entry>, n: nat)
    requires |a| == |b| && n <= |a| && forall i | 0 <= i < |a| :: a[i].status == b[i].status
    ensures ServingFrom(a, n) == ServingFrom(b, n)
    decreases |a| - n
  {
    if n < |a| {
      SameServing(a, b, n + 1);
    }
  }

  /** Reindexing keeps the order of the waiting entries, and who is being served. */
  lemma OrderKept(rows: seq<Entry>, cash: Option<Option<nat>>)
    ensures Listing(Reindexed(rows, cash)) == Listing(rows) && Serving(Reindexed(rows, cash)) == Serving(rows)
  {
    var after := Reindexed(rows, cash);
    var s := Listing(rows);
    ListingSorts(rows);
    ListingSorts(after);
    forall i: nat | i < |rows| ensures after[i].status == rows[i].status { PlacedKeepsIdentity(rows, cash, i); }
    SameServing(rows, after, 0);
    forall k, l | 0 <= k < l < |s| ensures Before(after, s[k], s[l]) {
      PositionsAfter(rows, cash, k);
      PositionsAfter(rows, cash, l);
    }
    forall j: nat ensures j in s <==> j in Listing(after) {
      if j < |rows| { assert after[j].status == rows[j].status; }
    }
    OneSortedListing(after, s, Listing(after));
  }

  lemma {:induction false} SameWaits(a: seq<Entry>, b: seq<Entry>, s: seq<nat>, k: nat, seed: nat)
    requires |a| == |b| && k <= |s| && Indices(a, s) && forall i | 0 <= i < |a| :: a[i].duration == b[i].duration
    ensures WaitBefore(a, s, k, seed) == WaitBefore(b, s, k, seed)
  {
    if k > 0 { SameWaits(a, b, s, k - 1, seed); }
  }

  /** Contiguous from the front, each wait the sum of the work ahead. */
  ghost predicate Tidy(rows: seq<Entry>, cash: Option<Option<nat>>) {
    && (forall k | 0 <= k < |Listing(rows)| ::
          && rows[Listing(rows)[k]].position == Base(rows) + k
          && rows[Listing(rows)[k]].wait == WaitBefore(rows, Listing(rows), k, Seed(rows, cash)))
    && (Serving(rows).Some? ==> rows[Serving(rows).value].position == 1 && rows[Serving(rows).value].wait == 0)
  }

  lemma ReindexingTidies(rows: seq<Entry>, cash: Option<Option<nat>>)
    ensures Tidy(Reindexed(rows, cash), cash)
  {
    var after := Reindexed(rows, cash);
    OrderKept(rows, cash);
    forall i: nat | i < |rows| ensures after[i].duration == rows[i].duration { PlacedKeepsIdentity(rows, cash, i); }
    forall k: nat | k < |Listing(after)|
      ensures after[Listing(after)[k]].position == Base(after) + k
      ensures after[Listing(after)[k]].wait == WaitBefore(after, Listing(after), k, Seed(after, cash))
    {
      PositionsAfter(rows, cash, k);
      SameWaits(rows, after, Listing(rows), k, Seed(rows, cash));
    }
  }

  /** Rows already in order are left as they are: reindexing is a fixed point. */
  lemma TidyIsFixed(rows: seq<Entry>, cash: Option<Option<nat>>)
    requires Tidy(rows, cash)
    ensures Reindexed(rows, cash) == rows
  {
    forall i: nat | i < |rows| ensures Placed(rows, cash, i) == rows[i] {
      if Serving(rows) != Some(i) && i in Listing(rows) {
        var k := WorkQueue.Rank(Listing(rows), i);
        assert rows[Listing(rows)[k]].position == Base(rows) + k;
      }
    }
  }

  lemma ReindexingTwice(rows: seq<Entry>, cash: Option<Option<nat>>)
    ensures Reindexed(Reindexed(rows, cash), cash) == Reindexed(rows, cash)
  {
    ReindexingTidies(rows, cash);
    TidyIsFixed(Reindexed(rows, cash), cash);
  }

  /** Nobody is moved back. */
  lemma NeverMovedBack(rows: seq<Entry>, cash: Option<Option<nat>>, i: nat)
    requires Unique(rows) && ServingFirst(rows) && i < |rows|
    ensures Reindexed(rows, cash)[i].position <= rows[i].position
  {
    if Serving(rows) != Some(i) && i in Listing(rows) {
      CompressDownward(rows, WorkQueue.Rank(Listing(rows), i));
    }
  }

  // ----------------------------------------------------------- whole runs

  /** Each step ends with a reindexing that sees the cash job under way. */
  datatype Step =
    | Join(joined: nat, duration: Option<nat>, cash: Option<Option<nat>>)
    | Begin(i: nat, cash: Option<Option<nat>>)
    | Finish(i: nat, cash: Option<Option<nat>>)
    | Drop(i: nat, cash: Option<Option<nat>>)
    | Recount(cash: Option<Option<nat>>)

  function SetStatus(rows: seq<Entry>, i: nat, status: QueueStatus): seq<Entry>
    requires i < |rows|
  {
    rows[i := rows[i].(status := status)]
  }

  function Occupancy(rows: seq<Entry>): nat { Base(rows) - 1 + |Listing(rows)| }

  /** The rows just before the reindexing; None when the step is refused. */
  function Changed(rows: seq<Entry>, s: Step): Option<seq<Entry>> {
    match s
    case Join(joined, duration, _) => Some(rows + [Entry(QWaiting, Occupancy(rows) + 1, 0, joined, duration)])
    case Begin(i, _) =>
      if Serving(rows).Some? || Listing(rows) == [] || Listing(rows)[0] != i then None
      else Some(rows[i := rows[i].(status := QServing, position := 1, wait := 0)])
    case Finish(i, _) => if i >= |rows| || rows[i].status != QServing then None else Some(SetStatus(rows, i, QDone))
    case Drop(i, _) => if i >= |rows| || !rows[i].Active() then None else Some(SetStatus(rows, i, QCancelled))
    case Recount(_) => Some(rows)
  }

  function Do(rows: seq<Entry>, s: Step): seq<Entry> {
    var changed := Changed(rows, s);
    if changed.Some? then Reindexed(changed.value, s.cash) else rows
  }

  function Run(rows: seq<Entry>, steps: seq<Step>): seq<Entry>
    decreases |steps|
  {
    if steps == [] then rows else Run(Do(rows, steps[0]), steps[1..])
  }

  /** First come, first served: earlier rows stand before later ones. */
  ghost predicate FirstCome(rows: seq<Entry>) {
    forall i, j | 0 <= i < j < |rows| && rows[i].status == QWaiting && rows[j].status == QWaiting ::
        rows[i].position < rows[j].position
  }

  /** The positions of active rows are exactly 1 .. Occupancy. */
  ghost predicate Packed(rows: seq<Entry>) {
    && (forall k | 0 <= k < |Listing(rows)| :: rows[Listing(rows)[k]].position == Base(rows) + k)
    && (Serving(rows).Some? ==> rows[Serving(rows).value].position == 1)
  }

  ghost predicate Orderly(rows: seq<Entry>) {
    Unique(rows) && ServingFirst(rows) && FirstCome(rows) && Packed(rows)
  }

  lemma RankOrder(rows: seq<Entry>, i: nat, j: nat)
    requires i in Listing(rows) && j in Listing(rows) && Before(rows, i, j)
    ensures WorkQueue.Rank(Listing(rows), i) < WorkQueue.Rank(Listing(rows), j)
  {
    ListingSorts(rows);
    var k, l := WorkQueue.Rank(Listing(rows), i), WorkQueue.Rank(Listing(rows), j);
    SortedAt(rows, Listing(rows), l, k);
  }

  /** Where an active row stands after reindexing. */
  lemma ActiveAfter(rows: seq<Entry>, cash: Option<Option<nat>>, i: nat)
    requires Unique(rows) && i < |rows| && rows[i].Active()
    ensures rows[i].status == QServing ==> Serving(rows) == Some(i) && Reindexed(rows, cash)[i].position == 1
    ensures rows[i].status == QWaiting ==>
              i in Listing(rows) && Reindexed(rows, cash)[i].position == Base(rows) + WorkQueue.Rank(Listing(rows), i)
  {
    ListingSorts(rows);
    if rows[i].status == QServing {
      OnlyOneServes(rows, i);
    }
  }

  /** How two active rows stand to each other after reindexing. */
  lemma PairAfter(rows: seq<Entry>, cash: Option<Option<nat>>, i: nat, j: nat)
    requires Unique(rows) && FirstCome(rows) && i < j < |rows| && rows[i].Active() && rows[j].Active()
    ensures var after := Reindexed(rows, cash);
            && (rows[i].status == QServing ==> after[i].position < after[j].position)
            && (rows[j].status == QServing ==> after[j].position < after[i].position)
            && (rows[i].status == QWaiting && rows[j].status == QWaiting ==> after[i].position < after[j].position)
  {
    ActiveAfter(rows, cash, i);
    ActiveAfter(rows, cash, j);
    if rows[i].status == QWaiting && rows[j].status == QWaiting {
      RankOrder(rows, i, j);
    }
  }

  /** The same rows with the same statuses, in positions that keep every order there was. */
  ghost predicate Arranged(rows: seq<Entry>, after: seq<Entry>) {
    && |after| == |rows|
    && (forall i | 0 <= i < |rows| ::
          after[i].status == rows[i].status && (rows[i].Active() ==> after[i].position >= 1))
    && (forall i, j | 0 <= i < j < |rows| && rows[i].Active() && rows[j].Active() ::
          && (rows[i].status == QServing ==> after[i].position < after[j].position)
          && (rows[j].status == QServing ==> after[j].position < after[i].position)
          && (rows[i].status == QWaiting && rows[j].status == QWaiting ==> after[i].position < after[j].position))
  }

  lemma ReindexingArranges(rows: seq<Entry>, cash: Option<Option<nat>>)
    requires Unique(rows) && FirstCome(rows)
    ensures Arranged(rows, Reindexed(rows, cash))
  {
    var after := Reindexed(rows, cash);
    forall i: nat | i < |rows| ensures after[i].status == rows[i].status
        && (rows[i].Active() ==> after[i].position >= 1) {
      PlacedKeepsIdentity(rows, cash, i);
      if rows[i].Active() { ActiveAfter(rows, cash, i); }
    }
    forall i: nat, j: nat | i < j < |rows| && rows[i].Active() && rows[j].Active()
      ensures rows[i].status == QServing ==> after[i].position < after[j].position
      ensures rows[j].status == QServing ==> after[j].position < after[i].position
      ensures rows[i].status == QWaiting && rows[j].status == QWaiting ==> after[i].position < after[j].position
    {
      PairAfter(rows, cash, i, j);
    }
  }

  lemma ArrangedIsOrderly(rows: seq<Entry>, after: seq<Entry>)
    requires Unique(rows) && Arranged(rows, after) && Packed(after)
    ensures Orderly(after)
  {
  }

  lemma ReindexingOrders(rows: seq<Entry>, cash: Option<Option<nat>>)
    requires Unique(rows) && FirstCome(rows)
    ensures Orderly(Reindexed(rows, cash))
  {
    ReindexingArranges(rows, cash);
    ReindexingTidies(rows, cash);
    ArrangedIsOrderly(rows, Reindexed(rows, cash));
  }

  lemma PackedBound(rows: seq<Entry>, i: nat)
    requires Unique(rows) && Packed(rows) && i < |rows| && rows[i].Active()
    ensures rows[i].position <= Occupancy(rows)
  {
    ListingSorts(rows);
    if rows[i].status == QServing {
      OnlyOneServes(rows, i);
    } else {
      var k := WorkQueue.Rank(Listing(rows), i);
      assert rows[Listing(rows)[k]].position == Base(rows) + k;
    }
  }

  /** What the reindexing loop needs of a change, and that it moves nobody back. */
  ghost predicate Fits(rows: seq<Entry>, c: seq<Entry>) {
    && Unique(c) && ServingFirst(c) && FirstCome(c) && |rows| <= |c|
    && forall i | 0 <= i < |rows| :: c[i].position <= rows[i].position
  }

  lemma JoinFits(rows: seq<Entry>, e: Entry)
    requires Orderly(rows) && e.status == QWaiting && e.position == Occupancy(rows) + 1
    ensures Fits(rows, rows + [e])
  {
    forall i: nat | i < |rows| && rows[i].Active() ensures rows[i].position <= Occupancy(rows) { PackedBound(rows, i); }
    var c := rows + [e];
    assert forall i | 0 <= i < |rows| :: c[i] == rows[i];
  }

  lemma BeginFits(rows: seq<Entry>, i: nat)
    requires Orderly(rows) && Serving(rows).None? && Listing(rows) != [] && Listing(rows)[0] == i
    ensures Fits(rows, rows[i := rows[i].(status := QServing, position := 1, wait := 0)])
  {
    ListingSorts(rows);
    assert i in Listing(rows);
    assert rows[Listing(rows)[0]].position == Base(rows) + 0;
  }

  lemma EndFits(rows: seq<Entry>, i: nat, status: QueueStatus)
    requires Orderly(rows) && i < |rows| && (status == QDone || status == QCancelled)
    ensures Fits(rows, SetStatus(rows, i, status))
  {
  }

  lemma ChangesFit(rows: seq<Entry>, s: Step)
    requires Orderly(rows) && Changed(rows, s).Some?
    ensures Fits(rows, Changed(rows, s).value)
  {
    match s {
      case Join(joined, duration, _) => JoinFits(rows, Entry(QWaiting, Occupancy(rows) + 1, 0, joined, duration));
      case Begin(i, _) => BeginFits(rows, i);
      case Finish(i, _) => EndFits(rows, i, QDone);
      case Drop(i, _) => EndFits(rows, i, QCancelled);
      case Recount(_) =>
    }
  }

  lemma StepOrders(rows: seq<Entry>, s: Step)
    requires Orderly(rows)
    ensures Orderly(Do(rows, s)) && |rows| <= |Do(rows, s)|
    ensures forall i | 0 <= i < |rows| :: Do(rows, s)[i].position <= rows[i].position
  {
    var changed := Changed(rows, s);
    if changed.Some? {
      ChangesFit(rows, s);
      ReindexingOrders(changed.value, s.cash);
      forall i: nat | i < |rows| ensures Do(rows, s)[i].position <= rows[i].position {
        NeverMovedBack(changed.value, s.cash, i);
      }
    }
  }

  lemma {:induction false} RunOrders(rows: seq<Entry>, steps: seq<Step>)
    requires Orderly(rows)
    ensures Orderly(Run(rows, steps)) && |rows| <= |Run(rows, steps)|
    ensures forall i | 0 <= i < |rows| :: Run(rows, steps)[i].position <= rows[i].position
    decreases |steps|
  {
    if steps != [] {
      StepOrders(rows, steps[0]);
      RunOrders(Do(rows, steps[0]), steps[1..]);
    }
  }

  lemma {:induction false} RunSplits(rows: seq<Entry>, first: seq<Step>, later: seq<Step>)
    ensures Run(rows, first + later) == Run(Run(rows, first), later)
    decreases |first|
  {
    if first == [] {
      assert first + later == later;
    } else {
      assert (first + later)[1..] == first[1..] + later;
      RunSplits(Do(rows, first[0]), first[1..], later);
    }
  }

  lemma LongestWaiting(rows: seq<Entry>, j: nat)
    requires Unique(rows) && FirstCome(rows) && j < |rows| && rows[j].status == QWaiting
    ensures Listing(rows) != [] && Listing(rows)[0] <= j
  {
    ListingSorts(rows);
    assert Listing(rows)[0] in Listing(rows);
    SortedAt(rows, Listing(rows), 0, WorkQueue.Rank(Listing(rows), j));
  }

  // ---------------------------------------------------------- main results

  /** Over every run the queue is in order of joining, packed from the front with at
      most one row being served, and a step that starts a job starts the one that has waited longest. */
  lemma FirstComeFirstServed(steps: seq<Step>, i: nat, cash: Option<Option<nat>>)
    ensures var rows := Run([], steps);
            && Orderly(rows)
            && (Changed(rows, Begin(i, cash)).Some? ==>
                  i < |rows| && rows[i].status == QWaiting && forall j | 0 <= j < i :: rows[j].status != QWaiting)
  {
    var rows := Run([], steps);
    assert Orderly([]);
    RunOrders([], steps);
    if Changed(rows, Begin(i, cash)).Some? {
      ListingSorts(rows);
      assert i in Listing(rows);
      forall j: nat | j < |rows| && rows[j].status == QWaiting ensures i <= j { LongestWaiting(rows, j); }
    }
  }

  /** A position never rises, however long the run. */
  lemma PositionsNeverRise(first: seq<Step>, later: seq<Step>, i: nat)
    requires i < |Run([], first)|
    ensures i < |Run([], first + later)| && Run([], first + later)[i].position <= Run([], first)[i].position
  {
    assert Orderly([]);
    RunOrders([], first);
    RunSplits([], first, later);
    RunOrders(Run([], first), later);
  }

  /** After every accepted step each wait is exactly the sum of the work ahead. */
  lemma WaitsAreSums(steps: seq<Step>, s: Step)
    requires Changed(Run([], steps), s).Some?
    ensures Tidy(Do(Run([], steps), s), s.cash)
  {
    ReindexingTidies(Changed(Run([], steps), s).value, s.cash);
  }
}
