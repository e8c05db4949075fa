/** The queue after every step, told on the rows alone: who waits how long, where everyone stands, and what each step
    changes. */
module QueueEffects {
  import opened BookingRows
  import opened WorkQueue
  import opened QueueRuns

  predicate WaitsAt(rows: seq<Entry>, i: int) { 0 <= i < |rows| && rows[i].status == QWaiting }

  predicate ServedAt(rows: seq<Entry>, i: int) { 0 <= i < |rows| && rows[i].status == QServing }

  /** Nobody waits in front of the row. */
  ghost predicate FirstInLine(rows: seq<Entry>, i: int) {
    WaitsAt(rows, i) && forall j | WaitsAt(rows, j) :: rows[i].position <= rows[j].position
  }

  /** The first in line waits for the row being served, then for the cash job under way, and else for nothing; an
      estimate that is missing there counts as no time. */
  ghost predicate FirstWaits(rows: seq<Entry>, cash: Option<Option<nat>>) {
    forall i | FirstInLine(rows, i) ::
      && (forall s | ServedAt(rows, s) ::
            rows[i].position == 2 && rows[i].wait == (if rows[s].duration.Some? then rows[s].duration.value else 0))
      && ((forall s :: !ServedAt(rows, s)) ==>
            && rows[i].position == 1
            && rows[i].wait == (if cash.Some? && cash.value.Some? then cash.value.value else 0))
  }

  /** Everyone else waits longer than the row in front, by that row's estimate or, without one, an hour. */
  ghost predicate NextWaits(rows: seq<Entry>) {
    forall i, j | WaitsAt(rows, i) && WaitsAt(rows, j) && rows[j].position == rows[i].position + 1 ::
      rows[j].wait == rows[i].wait + (if rows[i].duration.Some? then rows[i].duration.value else 60)
  }

  /** There is such a row in front of everyone who is not first in line. */
  ghost predicate NoGaps(rows: seq<Entry>) {
    forall j | WaitsAt(rows, j) && !FirstInLine(rows, j) ::
      exists i :: WaitsAt(rows, i) && rows[j].position == rows[i].position + 1
  }

  ghost predicate ServedInFront(rows: seq<Entry>) {
    forall s | ServedAt(rows, s) :: rows[s].position == 1 && rows[s].wait == 0
  }

  // ------------------------------------------------------------ from listings

  lemma Ranked(rows: seq<Entry>, cash: Option<Option<nat>>, i: int) returns (k: nat)
    requires Tidy(rows, cash) && WaitsAt(rows, i)
    ensures k < |Listing(rows)| && Listing(rows)[k] == i && rows[i].position == Base(rows) + k
    ensures rows[i].wait == WaitBefore(rows, Listing(rows), k, Seed(rows, cash))
  {
    ListingSorts(rows);
    k := WorkQueue.Rank(Listing(rows), i);
    assert rows[Listing(rows)[k]].position == Base(rows) + k;
  }

  lemma ListedWaits(rows: seq<Entry>, k: nat)
    requires k < |Listing(rows)|
    ensures WaitsAt(rows, Listing(rows)[k])
  {
    ListingSorts(rows);
    assert Listing(rows)[k] in Listing(rows);
  }

  ghost predicate OneServed(rows: seq<Entry>) {
    forall i, j | ServedAt(rows, i) && ServedAt(rows, j) :: i == j
  }

  lemma ServedIsServing(rows: seq<Entry>, i: int)
    requires OneServed(rows) && ServedAt(rows, i)
    ensures Serving(rows) == Some(i)
  {
    assert ServedAt(rows, Serving(rows).value);
  }

  lemma TidyFirst(rows: seq<Entry>, cash: Option<Option<nat>>, i: int)
    requires Tidy(rows, cash) && OneServed(rows) && FirstInLine(rows, i)
    ensures forall s | ServedAt(rows, s) ::
              rows[i].position == 2 && rows[i].wait == (if rows[s].duration.Some? then rows[s].duration.value else 0)
    ensures (forall s :: !ServedAt(rows, s)) ==>
              && rows[i].position == 1
              && rows[i].wait == (if cash.Some? && cash.value.Some? then cash.value.value else 0)
  {
    var k := Ranked(rows, cash, i);
    ListedWaits(rows, 0);
    assert rows[Listing(rows)[0]].position == Base(rows) + 0;
    assert k == 0;
    forall s | ServedAt(rows, s) ensures Serving(rows) == Some(s) { ServedIsServing(rows, s); }
    if Serving(rows).Some? { assert ServedAt(rows, Serving(rows).value); }
  }

  lemma TidyNext(rows: seq<Entry>, cash: Option<Option<nat>>, i: int, j: int)
    requires Tidy(rows, cash) && WaitsAt(rows, i) && WaitsAt(rows, j) && rows[j].position == rows[i].position + 1
    ensures rows[j].wait == rows[i].wait + (if rows[i].duration.Some? then rows[i].duration.value else 60)
  {
    var k := Ranked(rows, cash, i);
    var l := Ranked(rows, cash, j);
    OneMoreAhead(rows, Listing(rows), k, l, Seed(rows, cash));
  }

  lemma OneMoreAhead(rows: seq<Entry>, s: seq<nat>, k: nat, l: nat, seed: nat)
    requires Indices(rows, s) && l == k + 1 && l < |s|
    ensures WaitBefore(rows, s, l, seed)
              == WaitBefore(rows, s, k, seed) + (if rows[s[k]].duration.Some? then rows[s[k]].duration.value else 60)
  {
  }

  lemma TidyGaps(rows: seq<Entry>, cash: Option<Option<nat>>, j: int) returns (i: int)
    requires Tidy(rows, cash) && WaitsAt(rows, j) && !FirstInLine(rows, j)
    ensures WaitsAt(rows, i) && rows[j].position == rows[i].position + 1
  {
    var k := Ranked(rows, cash, j);
    var h :| WaitsAt(rows, h) && rows[h].position < rows[j].position;
    var l := Ranked(rows, cash, h);
    i := ListedAt(rows, cash, k - 1);
  }

  lemma ListedAt(rows: seq<Entry>, cash: Option<Option<nat>>, k: nat) returns (i: int)
    requires Tidy(rows, cash) && k < |Listing(rows)|
    ensures WaitsAt(rows, i) && rows[i].position == Base(rows) + k
  {
    i := Listing(rows)[k];
    ListedWaits(rows, k);
  }

  /** What a reindexed queue looks like. */
  ghost predicate InLine(rows: seq<Entry>, cash: Option<Option<nat>>) {
    FirstWaits(rows, cash) && NextWaits(rows) && NoGaps(rows) && ServedInFront(rows)
  }

  lemma TidyIsInLine(rows: seq<Entry>, cash: Option<Option<nat>>)
    requires Tidy(rows, cash) && OneServed(rows)
    ensures InLine(rows, cash)
  {
    forall i | FirstInLine(rows, i)
      ensures forall s | ServedAt(rows, s) ::
                rows[i].position == 2 && rows[i].wait == (if rows[s].duration.Some? then rows[s].duration.value else 0)
      ensures (forall s :: !ServedAt(rows, s)) ==>
                && rows[i].position == 1
                && rows[i].wait == (if cash.Some? && cash.value.Some? then cash.value.value else 0)
    {
      TidyFirst(rows, cash, i);
    }
    forall i, j | WaitsAt(rows, i) && WaitsAt(rows, j) && rows[j].position == rows[i].position + 1
      ensures rows[j].wait == rows[i].wait + (if rows[i].duration.Some? then rows[i].duration.value else 60)
    {
      TidyNext(rows, cash, i, j);
    }
    forall j | WaitsAt(rows, j) && !FirstInLine(rows, j)
      ensures exists i :: WaitsAt(rows, i) && rows[j].position == rows[i].position + 1
    {
      var i := TidyGaps(rows, cash, j);
    }
    forall s | ServedAt(rows, s) ensures rows[s].position == 1 && rows[s].wait == 0 { ServedIsServing(rows, s); }
  }

  /** Reindexing any rows of which one at most is served puts them in line, and changes nothing else. */
  lemma ReindexingInLine(rows: seq<Entry>, cash: Option<Option<nat>>)
    requires OneServed(rows)
    ensures InLine(Reindexed(rows, cash), cash) && Alike(rows, Reindexed(rows, cash))
  {
    KeptThrough(rows, cash);
    ReindexingTidies(rows, cash);
    var after := Reindexed(rows, cash);
    forall i, j | ServedAt(after, i) && ServedAt(after, j) ensures i == j {
      assert ServedAt(rows, i) && ServedAt(rows, j);
    }
    TidyIsInLine(after, cash);
  }

  // ------------------------------------------------------------- main results

  /** After every accepted step of every run: the row being served stands first and waits for nothing; the first in
      line waits for the work in progress; each next one waits the previous row's estimate longer. */
  lemma WaitsOnTheRows(steps: seq<Step>, s: Step)
    requires Changed(Run([], steps), s).Some?
    ensures InLine(Do(Run([], steps), s), s.cash)
  {
    assert Orderly([]);
    RunOrders([], steps);
    var changed := Changed(Run([], steps), s).value;
    ChangesFit(Run([], steps), s);
    ReindexingInLine(changed, s.cash);
  }

  /** The rows keep their bookings, and their statuses but for one. */
  ghost predicate OnlyMoves(rows: seq<Entry>, after: seq<Entry>, i: int, status: QueueStatus) {
    && 0 <= i < |rows| && |after| == |rows|
    && forall j | 0 <= j < |rows| ::
         && after[j].joined == rows[j].joined && after[j].duration == rows[j].duration
         && after[j].status == (if j == i then status else rows[j].status)
  }

  ghost predicate Appended(rows: seq<Entry>, after: seq<Entry>, joined: nat, duration: Option<nat>) {
    && |after| == |rows| + 1 && after[|rows|].status == QWaiting
    && after[|rows|].joined == joined && after[|rows|].duration == duration
    && forall j | 0 <= j < |rows| ::
         after[j].joined == rows[j].joined && after[j].duration == rows[j].duration && after[j].status == rows[j].status
  }

  lemma KeptThrough(rows: seq<Entry>, cash: Option<Option<nat>>)
    ensures forall i | 0 <= i < |rows| ::
              var e := Reindexed(rows, cash)[i];
              e.status == rows[i].status && e.joined == rows[i].joined && e.duration == rows[i].duration
  {
    forall i: nat | i < |rows|
      ensures var e := Reindexed(rows, cash)[i];
              e.status == rows[i].status && e.joined == rows[i].joined && e.duration == rows[i].duration
    {
      PlacedKeepsIdentity(rows, cash, i);
    }
  }

  lemma FrontOfListing(rows: seq<Entry>, i: int)
    requires Orderly(rows)
    ensures Listing(rows) != [] && Listing(rows)[0] == i <==> FirstInLine(rows, i)
  {
    ListingSorts(rows);
    forall j | WaitsAt(rows, j) ensures j in Listing(rows) {}
    if Listing(rows) != [] && Listing(rows)[0] == i {
      ListedWaits(rows, 0);
      forall j | WaitsAt(rows, j) ensures rows[i].position <= rows[j].position {
        SortedAt(rows, Listing(rows), 0, WorkQueue.Rank(Listing(rows), j));
      }
    }
    if FirstInLine(rows, i) {
      ListedWaits(rows, 0);
      assert i in Listing(rows);
      SortedAt(rows, Listing(rows), 0, WorkQueue.Rank(Listing(rows), i));
      assert rows[i].position <= rows[Listing(rows)[0]].position;
      if Listing(rows)[0] != i { StrictlyAhead(rows, Listing(rows)[0], i); }
    }
  }

  /** What a step makes of the rows, before they are put in order again. */
  ghost predicate Moves(rows: seq<Entry>, after: seq<Entry>, s: Step) {
    match s
    case Join(joined, duration, _) => Appended(rows, after, joined, duration)
    case Begin(i, _) =>
      if FirstInLine(rows, i) && (forall j :: !ServedAt(rows, j)) then OnlyMoves(rows, after, i, QServing)
      else after == rows
    case Finish(i, _) => if ServedAt(rows, i) then OnlyMoves(rows, after, i, QDone) else after == rows
    case Drop(i, _) =>
      if WaitsAt(rows, i) || ServedAt(rows, i) then OnlyMoves(rows, after, i, QCancelled) else after == rows
    case Recount(_) => after == rows
  }

  lemma ChangedMoves(rows: seq<Entry>, s: Step)
    requires Orderly(rows)
    ensures Moves(rows, if Changed(rows, s).Some? then Changed(rows, s).value else rows, s)
  {
    if s.Begin? {
      FrontOfListing(rows, s.i);
      if Serving(rows).Some? { assert ServedAt(rows, Serving(rows).value); }
    }
  }

  /** The rows are those before them in number, bookings and statuses. */
  ghost predicate Alike(rows: seq<Entry>, after: seq<Entry>) {
    && |after| == |rows|
    && forall i | 0 <= i < |rows| ::
         after[i].status == rows[i].status && after[i].joined == rows[i].joined && after[i].duration == rows[i].duration
  }

  /** A payment joins the waiting rows; the first in line starts when nobody is served; only a served row finishes and
      only an active one is dropped. Every other step but a recount is refused and changes nothing. */
  lemma StepsMove(steps: seq<Step>, s: Step)
    ensures exists moved :: Moves(Run([], steps), moved, s) && Alike(moved, Do(Run([], steps), s))
    ensures Changed(Run([], steps), s).None? ==> Do(Run([], steps), s) == Run([], steps)
  {
    var rows := Run([], steps);
    assert Orderly([]);
    RunOrders([], steps);
    ChangedMoves(rows, s);
    var moved := if Changed(rows, s).Some? then Changed(rows, s).value else rows;
    if Changed(rows, s).Some? { KeptThrough(moved, s.cash); }
    assert Alike(moved, Do(rows, s));
  }
}
