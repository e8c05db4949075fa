/** The reindexing loop, in place and one write at a time under the unique index. */
module QueueService {
  import opened BookingRows
  import opened WorkQueue
  import opened QueueRuns
  import opened QueueEffects

  /** No other active row stands at this position: what the unique index demands of a write. */
  ghost predicate Vacant(rows: seq<Entry>, i: nat, position: int) {
    forall j | 0 <= j < |rows| && j != i && rows[j].Active() :: rows[j].position != position
  }

  /** The serving row and the first `k` listed entries are in place; the rest is untouched. */
  ghost predicate PlacedUpTo(before: seq<Entry>, rows: seq<Entry>, cash: Option<Option<nat>>, k: nat)
    requires k <= |Listing(before)|
  {
    && |rows| == |before|
    && (forall i | 0 <= i < |before| ::
          rows[i] == if Serving(before) == Some(i)
              || i in Listing(before)[..k] then Placed(before, cash, i) else before[i])
  }

  /** While entry `k` is being placed, nobody else stands where it goes. */
  lemma NextPlaceVacant(before: seq<Entry>, rows: seq<Entry>, cash: Option<Option<nat>>, k: nat)
    requires Unique(before) && ServingFirst(before) && k < |Listing(before)| && PlacedUpTo(before, rows, cash, k)
    ensures Vacant(rows, Listing(before)[k], Base(before) + k)
  {
    forall j | 0 <= j < |rows| && j != Listing(before)[k] && rows[j].Active()
      ensures rows[j].position != Base(before) + k
    {
      if Serving(before) != Some(j) { OthersElsewhere(before, rows, cash, k, j); }
    }
  }

  lemma OthersElsewhere(before: seq<Entry>, rows: seq<Entry>, cash: Option<Option<nat>>, k: nat, j: nat)
    requires Unique(before) && ServingFirst(before) && k < |Listing(before)| && PlacedUpTo(before, rows, cash, k)
    requires j < |rows| && j != Listing(before)[k] && rows[j].Active() && Serving(before) != Some(j)
    ensures rows[j].position != Base(before) + k
  {
    var s := Listing(before);
    ListingSorts(before);
    if before[j].status == QServing { OnlyOneServes(before, j); }
    assert before[j].status == QWaiting && j in s;
    var l := WorkQueue.Rank(s, j);
    PlacedEntry(before, cash, l);
    if l < k {
      assert s[..k][l] == j;
    } else {
      PrefixLacks(s, k, l);
      CompressDownward(before, l);
    }
  }

  lemma PrefixLacks(s: seq<nat>, k: nat, l: nat)
    requires k <= l < |s| && forall i, j | 0 <= i < j < |s| :: s[i] != s[j]
    ensures s[l] !in s[..k]
  {
  }

  class PaidQueue {
    var rows: seq<Entry>

    constructor ()
      ensures rows == []
    {
      rows := [];
    }

    /** One update; the database refuses it unless the place is vacant. */
    method Write(i: nat, position: int, wait: nat)
      requires i < |rows| && Vacant(rows, i, position)
      modifies this
      ensures rows == old(rows)[i := old(rows)[i].(position := position, wait := wait)]
    {
      rows := rows[i := rows[i].(position := position, wait := wait)];
    }

    /** The serving row goes to the front. */
    method PlaceServing(ghost cash: Option<Option<nat>>)
      requires Unique(rows) && ServingFirst(rows)
      modifies this
      ensures PlacedUpTo(old(rows), rows, cash, 0)
    {
      var serving := Serving(rows);
      if serving.Some? && (rows[serving.value].position != 1 || rows[serving.value].wait != 0) {
        ServingPlaceVacant(rows, serving.value);
        Write(serving.value, 1, 0);
      }
    }

    /** One turn of the loop. */
    method PlaceNext(ghost before: seq<Entry>, ghost cash: Option<Option<nat>>, ghost k: nat, e: nat, entry: Entry,
        position: nat, wait: nat)
      requires Unique(before) && ServingFirst(before) && k < |Listing(before)| && PlacedUpTo(before, rows, cash, k)
      requires e == Listing(before)[k] && entry == before[e] && position == Base(before) + k
      requires wait == WaitBefore(before, Listing(before), k, Seed(before, cash))
      modifies this
      ensures PlacedUpTo(before, rows, cash, k + 1)
    {
      PlaceOneMore(before, rows, cash, k);
      if entry.position != position || entry.wait != wait {
        NextPlaceVacant(before, rows, cash, k);
        Write(e, position, wait);
      } else {
        assert rows[e := rows[e]] == rows;
      }
    }

    /** recalculateQueueInTransaction: given what the index guarantees, no write of the
        loop collides, and the rows end up reindexed. */
    method Recalculate(cash: Option<Option<nat>>)
      requires Unique(rows) && ServingFirst(rows)
      modifies this
      ensures rows == Reindexed(old(rows), cash)
      ensures InLine(rows, cash) && Alike(old(rows), rows)
    {
      var listed := rows;
      var entries := Listing(rows);
      var base := Base(rows);
      var wait := Seed(rows, cash);
      PlaceServing(cash);
      for k := 0 to |entries|
        invariant PlacedUpTo(listed, rows, cash, k)
        invariant wait == WaitBefore(listed, entries, k, Seed(listed, cash))
      {
        PlaceNext(listed, cash, k, entries[k], listed[entries[k]], base + k, wait);
        wait := wait + Minutes(listed[entries[k]]);
      }
      AllPlaced(listed, rows, cash);
      ReindexingInLine(listed, cash);
    }

    /** A captured payment joins at the end. */
    method Enqueue(joined: nat, duration: Option<nat>, cash: Option<Option<nat>>)
      requires Orderly(rows)
      modifies this
      ensures rows == Do(old(rows), Join(joined, duration, cash)) && Orderly(rows)
    {
      StepOrders(rows, Join(joined, duration, cash));
      ChangesFit(rows, Join(joined, duration, cash));
      rows := rows + [Entry(QWaiting, Occupancy(rows) + 1, 0, joined, duration)];
      Recalculate(cash);
    }

    /** Only the first waiting entry may start, and only when nobody is being served. */
    method Start(i: nat, cash: Option<Option<nat>>) returns (ok: bool)
      requires Orderly(rows)
      modifies this
      ensures rows == Do(old(rows), Begin(i, cash)) && Orderly(rows)
      ensures ok <==> Changed(old(rows), Begin(i, cash)).Some?
    {
      StepOrders(rows, Begin(i, cash));
      var waiting := Listing(rows);
      if Serving(rows).Some? || waiting == [] || waiting[0] != i {
        return false;
      }
      ChangesFit(rows, Begin(i, cash));
      rows := rows[i := rows[i].(status := QServing, position := 1, wait := 0)];
      Recalculate(cash);
      return true;
    }

    /** A finished job leaves the queue. */
    method Complete(i: nat, cash: Option<Option<nat>>) returns (ok: bool)
      requires Orderly(rows)
      modifies this
      ensures rows == Do(old(rows), Finish(i, cash)) && Orderly(rows)
      ensures ok <==> Changed(old(rows), Finish(i, cash)).Some?
    {
      StepOrders(rows, Finish(i, cash));
      if i >= |rows| || rows[i].status != QServing {
        return false;
      }
      ChangesFit(rows, Finish(i, cash));
      rows := rows[i := rows[i].(status := QDone)];
      Recalculate(cash);
      return true;
    }

    /** A cancelled booking leaves the queue, waiting or being served. */
    method Cancel(i: nat, cash: Option<Option<nat>>) returns (ok: bool)
      requires Orderly(rows)
      modifies this
      ensures rows == Do(old(rows), Drop(i, cash)) && Orderly(rows)
      ensures ok <==> Changed(old(rows), Drop(i, cash)).Some?
    {
      StepOrders(rows, Drop(i, cash));
      if i >= |rows| || !rows[i].Active() {
        return false;
      }
      ChangesFit(rows, Drop(i, cash));
      rows := rows[i := rows[i].(status := QCancelled)];
      Recalculate(cash);
      return true;
    }
  }

  lemma PlaceOneMore(before: seq<Entry>, rows: seq<Entry>, cash: Option<Option<nat>>, k: nat)
    requires k < |Listing(before)| && PlacedUpTo(before, rows, cash, k)
    ensures var e := Listing(before)[k];
            var placed := before[e].(position := Base(before) + k,
                wait := WaitBefore(before, Listing(before), k, Seed(before, cash)));
            rows[e] == before[e] && PlacedUpTo(before, rows[e := placed], cash, k + 1)
  {
    PlacedEntry(before, cash, k);
    var s := Listing(before);
    var after := rows[s[k] := Placed(before, cash, s[k])];
    OneMoreListed(s, k);
    forall i | 0 <= i < |before|
      ensures after[i] == if Serving(before) == Some(i) || i in s[..k + 1] then Placed(before, cash, i) else before[i]
    {
      if i != s[k] { assert after[i] == rows[i]; }
    }
  }

  lemma OneMoreListed(s: seq<nat>, k: nat)
    requires k < |s|
    ensures forall i: nat :: i in s[..k + 1] <==> i in s[..k] || i == s[k]
  {
    assert s[..k + 1] == s[..k] + [s[k]];
  }

  lemma AllPlaced(before: seq<Entry>, rows: seq<Entry>, cash: Option<Option<nat>>)
    requires PlacedUpTo(before, rows, cash, |Listing(before)|)
    ensures rows == Reindexed(before, cash)
  {
    assert Listing(before)[..|Listing(before)|] == Listing(before);
  }

  lemma ServingPlaceVacant(rows: seq<Entry>, i: nat)
    requires Unique(rows) && ServingFirst(rows) && i < |rows| && rows[i].status == QServing
    ensures Vacant(rows, i, 1)
  {
  }
}
