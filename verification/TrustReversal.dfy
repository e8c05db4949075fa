/** Clamped scores: what a penalty and its reversal do to everything in between. */
module TrustReversal {
  import opened BookingRows
  import opened TrustLedger

  /** The score after a sequence of requested changes, each clamped. */
  function Fold(score: int, asked: seq<int>): int
    decreases |asked|
  {
    if asked == [] then score else Fold(Clamp(score + asked[0]), asked[1..])
  }

  /** Clamped changes keep order and bring scores no further apart. */
  lemma {:induction false} FoldKeepsDistance(low: int, high: int, asked: seq<int>)
    requires low <= high
    ensures Fold(low, asked) <= Fold(high, asked) <= Fold(low, asked) + (high - low)
    decreases |asked|
  {
    if asked != [] {
      FoldKeepsDistance(Clamp(low + asked[0]), Clamp(high + asked[0]), asked[1..]);
    }
  }

  lemma {:induction false} FoldInRange(score: int, asked: seq<int>)
    requires 0 <= score <= 100
    ensures 0 <= Fold(score, asked) <= 100
    decreases |asked|
  {
    if asked != [] {
      FoldInRange(Clamp(score + asked[0]), asked[1..]);
    }
  }

  /** A recorded change, any requested changes, and its reversal: the final score is never
      on the wrong side of the score without the change, and at most that change beyond it. */
  lemma ReversalBound(score: int, change: int, asked: seq<int>)
    requires 0 <= score <= 100
    ensures var after := Clamp(score + change);
            var delta := after - score;
            var final := Clamp(Fold(after, asked) - delta);
            var without := Fold(score, asked);
            && (delta <= 0 ==> without <= final <= without - delta)
            && (delta >= 0 ==> without - delta <= final <= without)
  {
    var after := Clamp(score + change);
    FoldInRange(score, asked);
    FoldInRange(after, asked);
    if after <= score {
      FoldKeepsDistance(after, score, asked);
    }
    if score <= after {
      FoldKeepsDistance(score, after, asked);
    }
  }

  // ----------------------------------------------------------- the ledger

  /** The score of a user after the first `n` events. */
  function ScoreAt(l: Ledger, n: nat, user: Id): int
    requires n <= |l.events| && user in l.start
  {
    if n == 0 then l.start[user]
    else if l.events[n - 1].user == user then l.events[n - 1].after
    else ScoreAt(l, n - 1, user)
  }

  /** The changes requested of a user by events `i .. j`. */
  function AskedOf(l: Ledger, i: nat, j: nat, user: Id): seq<int>
    requires i <= j <= |l.events|
    decreases j - i
  {
    if i == j then []
    else if l.events[i].user == user then [l.events[i].asked] + AskedOf(l, i + 1, j, user)
    else AskedOf(l, i + 1, j, user)
  }

  function SumOf(events: seq<Event>, n: nat, user: Id): int
    requires n <= |events|
  {
    if n == 0 then 0 else SumOf(events, n - 1, user) + (if events[n - 1].user == user then events[n - 1].Delta() else 0)
  }

  ghost predicate EventChained(l: Ledger, n: nat)
    requires n < |l.events|
  {
    && l.events[n].user in l.start
    && l.events[n].before == ScoreAt(l, n, l.events[n].user)
    && l.events[n].after == Clamp(l.events[n].before + l.events[n].asked)
  }

  /** Every event starts from the score the previous one left, clamped; scores are where the ledger says. */
  ghost predicate Chained(l: Ledger) {
    && l.start.Keys == l.scores.Keys
    && (forall u | u in l.start :: 0 <= l.start[u] <= 100 && 0 <= l.scores[u] <= 100)
    && (forall n | 0 <= n < |l.events| :: EventChained(l, n))
    && (forall u | u in l.start :: l.scores[u] == ScoreAt(l, |l.events|, u))
  }

  lemma {:induction false} ScoreAtFolds(l: Ledger, i: nat, j: nat, user: Id)
    requires Chained(l) && i <= j <= |l.events| && user in l.start
    ensures Fold(ScoreAt(l, i, user), AskedOf(l, i, j, user)) == ScoreAt(l, j, user)
    decreases j - i
  {
    if i < j {
      assert EventChained(l, i);
      ScoreAtFolds(l, i + 1, j, user);
      if l.events[i].user == user {
        assert AskedOf(l, i, j, user)[1..] == AskedOf(l, i + 1, j, user);
      }
    }
  }

  lemma {:induction false} ScoreIsSum(l: Ledger, n: nat, user: Id)
    requires Chained(l) && n <= |l.events| && user in l.start
    ensures ScoreAt(l, n, user) == l.start[user] + SumOf(l.events, n, user)
  {
    if n > 0 {
      assert EventChained(l, n - 1);
      ScoreIsSum(l, n - 1, user);
    }
  }

  lemma {:induction false} ScoreAtInRange(l: Ledger, n: nat, user: Id)
    requires Chained(l) && n <= |l.events| && user in l.start
    ensures 0 <= ScoreAt(l, n, user) <= 100
  {
    if n > 0 {
      assert EventChained(l, n - 1);
      ScoreAtInRange(l, n - 1, user);
    }
  }
}
