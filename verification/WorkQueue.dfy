/** A provider's paid work queue: the listing it is reindexed by, and the reindexed rows. */
module WorkQueue {
  import opened BookingRows

  /** `duration` is the booking's estimate in minutes, when it has one. A row is
      known by its index; rows are never deleted. */
  datatype Entry = Entry(status: QueueStatus, position: int, wait: nat, joined: nat, duration: Option<nat>)
  {
    predicate Active() { status == QWaiting || status == QServing }
  }

  function Minutes(e: Entry): nat { if e.duration.Some? then e.duration.value else 60 }

  /** The query's order: position, then time of joining, then identity. */
  predicate Before(rows: seq<Entry>, i: nat, j: nat)
    requires i < |rows| && j < |rows|
  {
    || rows[i].position < rows[j].position
    || (rows[i].position == rows[j].position
          && (rows[i].joined < rows[j].joined || (rows[i].joined == rows[j].joined && i < j)))
  }

  ghost predicate Indices(rows: seq<Entry>, s: seq<nat>) { forall k | 0 <= k < |s| :: s[k] < |rows| }

  function Insert(rows: seq<Entry>, s: seq<nat>, i: nat): (r: seq<nat>)
    requires Indices(rows, s) && i < |rows|
    ensures Indices(rows, r)
  {
    if s == [] then [i]
    else if Before(rows, i, s[0]) then [i] + s
    else [s[0]] + Insert(rows, s[1..], i)
  }

  function ListingUpTo(rows: seq<Entry>, n: nat): (r: seq<nat>)
    requires n <= |rows|
    ensures Indices(rows, r)
  {
    if n == 0 then []
    else if rows[n - 1].status == QWaiting then Insert(rows, ListingUpTo(rows, n - 1), n - 1)
    else ListingUpTo(rows, n - 1)
  }

  /** The waiting entries in the order the query returns them. */
  function Listing(rows: seq<Entry>): (r: seq<nat>)
    ensures Indices(rows, r)
  {
    ListingUpTo(rows, |rows|)
  }

  ghost predicate Sorted(rows: seq<Entry>, s: seq<nat>) {
    Indices(rows, s) && forall k, l | 0 <= k < l < |s| :: Before(rows, s[k], s[l])
  }

  lemma {:induction false} InsertSorts(rows: seq<Entry>, s: seq<nat>, i: nat)
    requires Sorted(rows, s) && i < |rows| && i !in s
    ensures Sorted(rows, Insert(rows, s, i))
    ensures forall j: nat :: j in Insert(rows, s, i) <==> j in s || j == i
  {
    if s != [] && !Before(rows, i, s[0]) {
      assert s == [s[0]] + s[1..];
      InsertSorts(rows, s[1..], i);
      var t := Insert(rows, s[1..], i);
      forall k | 0 <= k < |t| ensures Before(rows, s[0], t[k]) {
        assert t[k] in t;
      }
    }
  }

  /** `s` lists exactly the waiting rows among the first `n`. */
  ghost predicate Lists(rows: seq<Entry>, s: seq<nat>, n: nat)
    requires n <= |rows|
  {
    && (forall j | j in s :: j < n && rows[j].status == QWaiting)
    && (forall j | 0 <= j < n && rows[j].status == QWaiting :: j in s)
  }

  lemma {:induction false} ListingUpToSorts(rows: seq<Entry>, n: nat)
    requires n <= |rows|
    ensures Sorted(rows, ListingUpTo(rows, n)) && Lists(rows, ListingUpTo(rows, n), n)
  {
    if n > 0 {
      ListingUpToSorts(rows, n - 1);
      ListOneMore(rows, ListingUpTo(rows, n - 1), n - 1);
    }
  }

  lemma ListOneMore(rows: seq<Entry>, s: seq<nat>, i: nat)
    requires i < |rows| && Sorted(rows, s) && Lists(rows, s, i)
    ensures rows[i].status != QWaiting ==> Lists(rows, s, i + 1)
    ensures rows[i].status == QWaiting ==> Sorted(rows, Insert(rows, s, i)) && Lists(rows, Insert(rows, s, i), i + 1)
  {
    if rows[i].status == QWaiting {
      InsertSorts(rows, s, i);
    }
  }

  /** The listing holds exactly the waiting rows, each once, in order. */
  lemma ListingSorts(rows: seq<Entry>)
    ensures Sorted(rows, Listing(rows)) && Lists(rows, Listing(rows), |rows|)
    ensures forall k, l | 0 <= k < l < |Listing(rows)| :: Listing(rows)[k] != Listing(rows)[l]
  {
    ListingUpToSorts(rows, |rows|);
  }

  function ServingFrom(rows: seq<Entry>, n: nat): (r: Option<nat>)
    requires n <= |rows|
    ensures r.Some? ==> n <= r.value < |rows| && rows[r.value].status == QServing
    ensures r.None? ==> forall i | n <= i < |rows| :: rows[i].status != QServing
    decreases |rows| - n
  {
    if n == |rows| then None else if rows[n].status == QServing then Some(n) else ServingFrom(rows, n + 1)
  }

  function Serving(rows: seq<Entry>): (r: Option<nat>)
    ensures r.Some? ==> r.value < |rows| && rows[r.value].status == QServing
    ensures r.None? ==> forall i | 0 <= i < |rows| :: rows[i].status != QServing
  {
    ServingFrom(rows, 0)
  }

  /** Minutes of work in progress; `cash` is the cash job under way, with its estimate. */
  function Seed(rows: seq<Entry>, cash: Option<Option<nat>>): nat {
    var serving := Serving(rows);
    if serving.Some? then (if rows[serving.value].duration.Some? then rows[serving.value].duration.value else 0)
    else if cash.Some? && cash.value.Some? then cash.value.value
    else 0
  }

  function Base(rows: seq<Entry>): nat { if Serving(rows).Some? then 2 else 1 }

  /** Work in progress plus the minutes of the first `k` entries of `s`. */
  function WaitBefore(rows: seq<Entry>, s: seq<nat>, k: nat, seed: nat): nat
    requires k <= |s| && Indices(rows, s)
  {
    if k == 0 then seed else WaitBefore(rows, s, k - 1, seed) + Minutes(rows[s[k - 1]])
  }

  function Rank(s: seq<nat>, i: nat): (k: nat)
    requires i in s
    ensures k < |s| && s[k] == i
  {
    if s[0] == i then 0 else 1 + Rank(s[1..], i)
  }

  function Placed(rows: seq<Entry>, cash: Option<Option<nat>>, i: nat): Entry
    requires i < |rows|
  {
    if Serving(rows) == Some(i) then rows[i].(position := 1, wait := 0)
    else if i in Listing(rows) then
      var k := Rank(Listing(rows), i);
      rows[i].(position := Base(rows) + k, wait := WaitBefore(rows, Listing(rows), k, Seed(rows, cash)))
    else rows[i]
  }

  /** What recalculateQueueInTransaction leaves behind. */
  function Reindexed(rows: seq<Entry>, cash: Option<Option<nat>>): (r: seq<Entry>)
    ensures |r| == |rows|
  {
    seq(|rows|, i requires 0 <= i < |rows| => Placed(rows, cash, i))
  }

  // ----------------------------------------------- what the index guarantees

  /** The partial unique indexes: distinct positions among active rows, one serving. */
  ghost predicate Unique(rows: seq<Entry>) {
    && (forall i, j | 0 <= i < j < |rows| && rows[i].Active() && rows[j].Active() ::
          rows[i].position != rows[j].position)
    && (forall i, j | 0 <= i < j < |rows| :: !(rows[i].status == QServing && rows[j].status == QServing))
  }

  /** Positions are positive, and a serving row stands before every waiting one. */
  ghost predicate ServingFirst(rows: seq<Entry>) {
    && (forall i | 0 <= i < |rows| && rows[i].Active() :: rows[i].position >= 1)
    && (forall i, j | 0 <= i < |rows| && 0 <= j < |rows| && rows[i].status == QServing && rows[j].status == QWaiting ::
          rows[i].position < rows[j].position)
  }

  /** Under the index, positions only compress downward. */
  lemma {:induction false} CompressDownward(rows: seq<Entry>, k: nat)
    requires Unique(rows) && ServingFirst(rows) && k < |Listing(rows)|
    ensures rows[Listing(rows)[k]].position >= Base(rows) + k
  {
    ListingSorts(rows);
    var s := Listing(rows);
    assert s[k] in s;
    if k > 0 {
      CompressDownward(rows, k - 1);
      assert s[k - 1] in s && Before(rows, s[k - 1], s[k]);
      StrictlyAhead(rows, s[k - 1], s[k]);
    }
  }

  lemma StrictlyAhead(rows: seq<Entry>, i: nat, j: nat)
    requires Unique(rows) && i < |rows| && j < |rows| && Before(rows, i, j) && rows[i].Active() && rows[j].Active()
    ensures rows[i].position < rows[j].position
  {
    if i < j { assert rows[i].position != rows[j].position; }
    if j < i { assert rows[j].position != rows[i].position; }
  }

  lemma {:induction false} RankAt(s: seq<nat>, k: nat)
    requires k < |s| && forall i, j | 0 <= i < j < |s| :: s[i] != s[j]
    ensures s[k] in s && Rank(s, s[k]) == k
  {
    if k > 0 {
      assert s[k] == s[1..][k - 1];
      RankAt(s[1..], k - 1);
    }
  }

  lemma PlacedEntry(rows: seq<Entry>, cash: Option<Option<nat>>, k: nat)
    requires k < |Listing(rows)|
    ensures var e := Listing(rows)[k];
            && rows[e].status == QWaiting && e !in Listing(rows)[..k]
            && Placed(rows, cash, e)
                == rows[e].(position := Base(rows) + k, wait := WaitBefore(rows, Listing(rows), k, Seed(rows, cash)))
  {
    ListingSorts(rows);
    var s := Listing(rows);
    assert s[k] in s;
    RankAt(s, k);
  }

  lemma OnlyOneServes(rows: seq<Entry>, j: nat)
    requires Unique(rows) && j < |rows| && rows[j].status == QServing
    ensures Serving(rows) == Some(j)
  {
    var i := Serving(rows).value;
    if i < j { assert false; } else if j < i { assert false; }
  }
}
