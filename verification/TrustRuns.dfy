/** What holds of the trust ledger over every run. */
module TrustRuns {
  import opened BookingRows
  import opened TrustLedger
  import opened TrustReversal

  ghost predicate KeysDistinct(events: seq<Event>) {
    forall i, j | 0 <= i < j < |events| ::
      && events[i].key != events[j].key
      && (events[i].reverses.Some? ==> events[i].reverses != events[j].reverses)
      && (events[i].penaltyFor.Some? ==> events[i].penaltyFor != events[j].penaltyFor)
  }

  /** A reversal takes back exactly what an earlier event of the same user recorded. */
  ghost predicate Reverses(events: seq<Event>, j: nat)
    requires j < |events|
  {
    events[j].reverses.Some? ==>
      var i := events[j].reverses.value;
      && i < j && events[i].user == events[j].user && events[j].asked == -events[i].Delta() && events[i].reverses.None?
      && events[j].category == Correction
  }

  ghost predicate Timed(l: Ledger) {
    && (forall i, j | 0 <= i < j < |l.events| :: l.events[i].time <= l.events[j].time)
    && (forall i | 0 <= i < |l.events| :: l.events[i].time <= l.clock)
  }

  /** A completion event is an award to a party of its booking, under its own key. */
  ghost predicate AwardFits(l: Ledger, i: nat)
    requires i < |l.events|
  {
    l.events[i].category == Completion ==>
      && l.events[i].booking.Some? && l.events[i].booking.value in l.parties && l.events[i].reverses.None?
      && AwardOf(l, i, Pair(l.parties[l.events[i].booking.value]))
  }

  /** Two rewards that stand, for one pair and different bookings. */
  ghost predicate Rivals(l: Ledger, i: nat, j: nat)
    requires i < |l.events| && j < |l.events|
  {
    && l.events[i].category == Completion && l.events[j].category == Completion
    && l.events[i].booking.Some? && l.events[j].booking.Some? && l.events[i].booking != l.events[j].booking
    && l.events[i].booking.value in l.parties && l.events[j].booking.value in l.parties
    && Pair(l.parties[l.events[i].booking.value]) == Pair(l.parties[l.events[j].booking.value])
    && !Reversed(l.events, i) && !Reversed(l.events, j)
  }

  /** Such rewards are a window apart. */
  ghost predicate Spaced(l: Ledger) {
    forall i, j | 0 <= i < j < |l.events| && Rivals(l, i, j) :: l.events[j].time >= l.events[i].time + REWARD_WINDOW
  }

  ghost predicate Good(l: Ledger) {
    && Chained(l) && KeysDistinct(l.events) && Timed(l) && Spaced(l)
    && (forall j | 0 <= j < |l.events| :: Reverses(l.events, j) && AwardFits(l, j))
  }

  ghost predicate Onward(a: Ledger, b: Ledger) {
    a.events <= b.events && a.clock <= b.clock
        && (forall k | k in a.parties :: k in b.parties && b.parties[k] == a.parties[k])
  }

  // --------------------------------------------------------- one recording

  lemma {:induction false} ScoreAtPrefix(a: Ledger, b: Ledger, n: nat, user: Id)
    requires n <= |a.events| && a.events <= b.events && user in a.start && user in b.start
               && a.start[user] == b.start[user]
    ensures ScoreAt(b, n, user) == ScoreAt(a, n, user)
  {
    if n > 0 {
      assert b.events[n - 1] == a.events[n - 1];
      ScoreAtPrefix(a, b, n - 1, user);
    }
  }

  lemma EarlierStaysChained(l: Ledger, ask: Ask, n: nat)
    requires Chained(l) && ask.user in l.scores && n < |l.events|
    ensures EventChained(Record(l, ask), n)
  {
    var r := Record(l, ask);
    assert EventChained(l, n) && r.events[n] == l.events[n];
    ScoreAtPrefix(l, r, n, l.events[n].user);
  }

  lemma NewScores(l: Ledger, ask: Ask, u: Id)
    requires Chained(l) && ask.user in l.scores && u in l.start
    ensures ScoreAt(Record(l, ask), |l.events|, u) == l.scores[u]
    ensures ScoreAt(Record(l, ask), |l.events| + 1, u) == Record(l, ask).scores[u]
  {
    ScoreAtPrefix(l, Record(l, ask), |l.events|, u);
  }

  lemma RecordChains(l: Ledger, ask: Ask)
    requires Chained(l) && ask.user in l.scores
    ensures Chained(Record(l, ask))
  {
    var r := Record(l, ask);
    forall n: nat | n < |r.events| ensures EventChained(r, n) {
      if n < |l.events| {
        EarlierStaysChained(l, ask, n);
      } else {
        NewScores(l, ask, ask.user);
      }
    }
    forall u | u in r.start ensures r.scores[u] == ScoreAt(r, |r.events|, u) {
      NewScores(l, ask, u);
    }
  }

  /** What a recording must bring besides a fresh key. */
  ghost predicate Proper(l: Ledger, ask: Ask) {
    && (ask.reverses.Some? ==>
          && ask.reverses.value < |l.events| && l.events[ask.reverses.value].user == ask.user
          && ask.delta == -l.events[ask.reverses.value].Delta() && l.events[ask.reverses.value].reverses.None?
          && ask.category == Correction)
    && (ask.category == Completion ==>
          && ask.reverses.None? && ask.booking.Some? && ask.booking.value in l.parties
          && (ask.user == l.parties[ask.booking.value].0 || ask.user == l.parties[ask.booking.value].1)
          && !RecentlyRewarded(l, ask.booking.value))
  }

  lemma ReversedGrows(a: seq<Event>, b: seq<Event>, i: nat)
    requires a <= b && Reversed(a, i)
    ensures Reversed(b, i)
  {
    var j :| 0 <= j < |a| && a[j].reverses == Some(i);
    assert b[j].reverses == Some(i);
  }

  lemma RivalsBefore(a: Ledger, b: Ledger, i: nat, j: nat)
    requires Onward(a, b) && i < |a.events| && j < |a.events| && AwardFits(a, i) && AwardFits(a, j) && Rivals(b, i, j)
    ensures Rivals(a, i, j)
  {
    assert b.events[i] == a.events[i] && b.events[j] == a.events[j];
    if Reversed(a.events, i) { ReversedGrows(a.events, b.events, i); }
    if Reversed(a.events, j) { ReversedGrows(a.events, b.events, j); }
  }

  /** A reward recorded now is far enough from every rival. */
  lemma NewRewardIsFar(l: Ledger, ask: Ask, i: nat)
    requires Good(l) && ask.user in l.scores && Proper(l, ask) && i < |l.events|
               && Rivals(Record(l, ask), i, |l.events|)
    ensures l.events[i].time + REWARD_WINDOW <= l.clock
  {
    var r := Record(l, ask);
    assert r.events[i] == l.events[i] && r.events[|l.events|].booking == ask.booking;
    if Reversed(l.events, i) { ReversedGrows(l.events, r.events, i); }
    assert AwardFits(l, i) && !RecentlyRewarded(l, ask.booking.value);
    assert AwardOf(l, i, Pair(l.parties[ask.booking.value]));
  }

  lemma RecordSpaces(l: Ledger, ask: Ask)
    requires Good(l) && ask.user in l.scores && Proper(l, ask)
    ensures Spaced(Record(l, ask))
  {
    var r := Record(l, ask);
    forall i, j | 0 <= i < j < |r.events|
        && Rivals(r, i, j) ensures r.events[j].time >= r.events[i].time + REWARD_WINDOW {
      assert r.events[i] == l.events[i];
      if j < |l.events| {
        assert r.events[j] == l.events[j] && AwardFits(l, i) && AwardFits(l, j);
        RivalsBefore(l, r, i, j);
      } else {
        NewRewardIsFar(l, ask, i);
      }
    }
  }

  lemma RecordKeeps(l: Ledger, ask: Ask)
    requires Good(l) && ask.user in l.scores && Proper(l, ask) && !KeyUsed(l.events, ask.key) && !Clashes(l.events, ask)
    ensures Good(Record(l, ask)) && Onward(l, Record(l, ask))
  {
    var r := Record(l, ask);
    RecordChains(l, ask);
    RecordSpaces(l, ask);
    assert forall i | 0 <= i < |l.events| :: r.events[i] == l.events[i];
    forall j: nat | j < |r.events| ensures Reverses(r.events, j) && AwardFits(r, j) {
      if j < |l.events| {
        assert Reverses(l.events, j) && AwardFits(l, j);
      }
    }
  }

  lemma ApplyKeeps(l: Ledger, ask: Ask)
    requires Good(l) && Proper(l, ask)
    ensures var r := Apply(l, ask); r.Some? ==> Good(r.value) && Onward(l, r.value)
  {
    if ask.user in l.scores && !KeyUsed(l.events, ask.key) && !Clashes(l.events, ask) {
      RecordKeeps(l, ask);
    }
  }

  // ------------------------------------------------------------- the steps

  lemma CorrectKeeps(l: Ledger, user: Id, event: nat, admin: Id, operation: Id, reason: string)
    requires Good(l)
    ensures var r := Correct(l, user, event, admin, operation, reason); r.Some? ==> Good(r.value) && Onward(l, r.value)
  {
    if Correct(l, user, event, admin, operation, reason).Some? {
      ApplyKeeps(l, Ask(user, -l.events[event].Delta(), ManualKey(admin, operation), Correction,
          l.events[event].booking, None, Some(event), true,
                        Why(reason, Some(admin))));
    }
  }

  lemma AppealKeeps(l: Ledger, event: nat, appeal: Id, admin: Id, reason: string)
    requires Good(l)
    ensures var r := Appeal(l, event, appeal, admin, reason); r.Some? ==> Good(r.value) && Onward(l, r.value)
  {
    if Appeal(l, event, appeal, admin, reason).Some? && !Reversed(l.events, event) {
      assert Reverses(l.events, event);
      ApplyKeeps(l, Ask(l.events[event].user, -l.events[event].Delta(), AppealKey(appeal), Correction,
          l.events[event].booking, None, Some(event), false,
                        Why(reason, Some(admin))));
    }
  }

  /** Rewarding one side of a booking does not make the booking its own rival. */
  lemma StillNotRecent(l: Ledger, booking: Id, user: Id)
    requires Good(l) && booking in l.parties && user in l.scores && !RecentlyRewarded(l, booking)
    ensures !RecentlyRewarded(Record(l, AwardAsk(l, booking, user)), booking)
  {
    var r := Record(l, AwardAsk(l, booking, user));
    var pair := Pair(l.parties[booking]);
    forall i: nat | i < |r.events| && AwardOf(r, i, pair) && r.events[i].booking != Some(booking)
        && !Reversed(r.events, i)
      ensures r.events[i].time + REWARD_WINDOW <= r.clock
    {
      assert i < |l.events| && r.events[i] == l.events[i];
      if Reversed(l.events, i) { ReversedGrows(l.events, r.events, i); }
      assert AwardOf(l, i, pair);
    }
  }

  lemma AwardOneKeeps(l: Ledger, booking: Id, user: Id, active: bool)
    requires Good(l) && booking in l.parties && !RecentlyRewarded(l, booking)
    requires user == l.parties[booking].0 || user == l.parties[booking].1
    ensures var r := AwardOne(l, booking, user, active);
            r.Some? ==>
              && Good(r.value) && Onward(l, r.value)
              && booking in r.value.parties && !RecentlyRewarded(r.value, booking)
  {
    var r := AwardOne(l, booking, user, active);
    if r.Some? && r.value != l {
      ApplyKeeps(l, AwardAsk(l, booking, user));
      StillNotRecent(l, booking, user);
    }
  }

  lemma AwardKeeps(l: Ledger, booking: Id, eligible: bool, active: (bool, bool))
    requires Good(l)
    ensures var r := Award(l, booking, eligible, active); r.Some? ==> Good(r.value) && Onward(l, r.value)
  {
    if booking in l.parties && eligible && !RecentlyRewarded(l, booking) {
      var pair := Pair(l.parties[booking]);
      AwardOneKeeps(l, booking, pair.0, active.0);
      var first := AwardOne(l, booking, pair.0, active.0);
      if first.Some? {
        AwardOneKeeps(first.value, booking, pair.1, active.1);
      }
    }
  }

  lemma PenalizeKeeps(l: Ledger, booking: Id, user: Id, admin: Id, cancellation: bool, started: bool, id: Id,
      reason: string)
    requires Good(l)
    ensures var r := Penalize(l, booking, user, admin, cancellation, started, id, reason);
              r.Some? ==> Good(r.value) && Onward(l, r.value)
  {
    ApplyKeeps(l, Ask(user, if cancellation then -5 else -10, if cancellation then CancellationKey(id, user)
        else ReportKey(id),
                      if cancellation then CancellationPenalty
                          else ReportPenalty, Some(booking), Some((booking, user)), None, false,
                          Why(reason, Some(admin))));
  }

  lemma JoinKeeps(l: Ledger, user: Id)
    requires Good(l)
    ensures var r := Join(l, user); r.Some? ==> Good(r.value) && Onward(l, r.value)
  {
    if user !in l.scores {
      var r := Join(l, user).value;
      NoEventsYet(l, |l.events|, user);
      forall u, n: nat | u in l.start && n <= |l.events| ensures ScoreAt(r, n, u) == ScoreAt(l, n, u) {
        ScoreAtPrefix(l, r, n, u);
      }
      forall n: nat | n < |r.events| ensures EventChained(r, n) { assert EventChained(l, n); }
      SameParties(l, r);
    }
  }

  lemma {:induction false} NoEventsYet(l: Ledger, n: nat, user: Id)
    requires Chained(l) && user !in l.scores && n <= |l.events|
    ensures ScoreAt(Join(l, user).value, n, user) == 50
  {
    if n > 0 {
      assert EventChained(l, n - 1);
      NoEventsYet(l, n - 1, user);
    }
  }

  /** Rows that leave events and the parties of known bookings alone. */
  lemma SameParties(a: Ledger, b: Ledger)
    requires Good(a) && b.events == a.events && Onward(a, b)
    ensures Spaced(b) && Timed(b) && KeysDistinct(b.events)
    ensures forall j | 0 <= j < |b.events| :: Reverses(b.events, j) && AwardFits(b, j)
  {
    forall j: nat | j < |b.events| ensures Reverses(b.events, j) && AwardFits(b, j) {
      assert Reverses(a.events, j) && AwardFits(a, j);
    }
    forall i, j | 0 <= i < j < |b.events|
        && Rivals(b, i, j) ensures b.events[j].time >= b.events[i].time + REWARD_WINDOW {
      assert AwardFits(a, i) && AwardFits(a, j);
      RivalsBefore(a, b, i, j);
    }
  }

  lemma OpenKeeps(l: Ledger, booking: Id, provider: Id, seeker: Id, elapsed: nat)
    requires Good(l)
    ensures Good(Later(l, elapsed)) && Onward(l, Later(l, elapsed))
    ensures var r := Open(l, booking, provider, seeker); r.Some? ==> Good(r.value) && Onward(l, r.value)
  {
    SameScores(l, Later(l, elapsed));
    SameParties(l, Later(l, elapsed));
    var r := Open(l, booking, provider, seeker);
    if r.Some? {
      SameScores(l, r.value);
      SameParties(l, r.value);
    }
  }

  lemma SameScores(a: Ledger, b: Ledger)
    requires Chained(a) && b.events == a.events && b.start == a.start && b.scores == a.scores
    ensures Chained(b)
  {
    forall u, n: nat | u in a.start && n <= |a.events| ensures ScoreAt(b, n, u) == ScoreAt(a, n, u) {
      ScoreAtPrefix(a, b, n, u);
    }
    forall n: nat | n < |b.events| ensures EventChained(b, n) { assert EventChained(a, n); }
  }

  lemma AttemptKeeps(l: Ledger, s: Step)
    requires Good(l)
    ensures var r := Attempted(l, s); r.Some? ==> Good(r.value) && Onward(l, r.value)
  {
    match s {
      case NewUser(user) => JoinKeeps(l, user);
      case NewBooking(booking, provider, seeker) => OpenKeeps(l, booking, provider, seeker, 0);
      case Plainly(user, delta, id, category, why) =>
        if category != Completion {
          ApplyKeeps(l, Ask(user, delta, OtherKey(id), category, None, None, None, false, why));
        }
      case CorrectOne(user, event, admin, operation, reason) => CorrectKeeps(l, user, event, admin, operation, reason);
      case Uphold(event, appeal, admin, reason) => AppealKeeps(l, event, appeal, admin, reason);
      case Reward(booking, eligible, active) => AwardKeeps(l, booking, eligible, active);
      case Punish(booking, user, admin, cancellation, started, id, reason) =>
        PenalizeKeeps(l, booking, user, admin, cancellation, started, id, reason);
    }
  }

  lemma StepKeeps(l: Ledger, elapsed: nat, s: Step)
    requires Good(l)
    ensures Good(Do(l, elapsed, s)) && Onward(l, Do(l, elapsed, s))
  {
    OpenKeeps(l, 0, 0, 0, elapsed);
    AttemptKeeps(Later(l, elapsed), s);
  }

  lemma {:induction false} RunKeeps(l: Ledger, steps: seq<(nat, Step)>)
    requires Good(l)
    ensures Good(Run(l, steps)) && Onward(l, Run(l, steps))
    decreases |steps|
  {
    if steps != [] {
      StepKeeps(l, steps[0].0, steps[0].1);
      RunKeeps(Do(l, steps[0].0, steps[0].1), steps[1..]);
    }
  }

  function After(steps: seq<(nat, Step)>): Ledger { Run(EmptyLedger(), steps) }

  lemma AfterIsGood(steps: seq<(nat, Step)>)
    ensures Good(After(steps))
  {
    RunKeeps(EmptyLedger(), steps);
  }

  // ---------------------------------------------------------- main results

  /** Scores stay within 0..100 and are the start plus the sum of the recorded changes. */
  lemma ScoresAreSums(steps: seq<(nat, Step)>, user: Id)
    requires user in After(steps).scores
    ensures var l := After(steps);
            && 0 <= l.scores[user] <= 100 && user in l.start
            && l.scores[user] == l.start[user] + SumOf(l.events, |l.events|, user)
  {
    AfterIsGood(steps);
    ScoreIsSum(After(steps), |After(steps).events|, user);
  }

  /** No key is recorded twice, no event is taken back twice, no booking punishes a user
      twice; and a reversal takes back what an earlier original event of the same user recorded. */
  lemma RecordedOnce(steps: seq<(nat, Step)>, i: nat, j: nat)
    requires i < |After(steps).events| && j < |After(steps).events|
    ensures var e := After(steps).events;
            && (e[i].key == e[j].key ==> i == j)
            && (e[i].reverses.Some? && e[i].reverses == e[j].reverses ==> i == j)
            && (e[i].penaltyFor.Some? && e[i].penaltyFor == e[j].penaltyFor ==> i == j)
            && (e[j].reverses == Some(i) ==>
                  i < j && e[i].user == e[j].user && e[j].asked == -e[i].Delta() && e[i].reverses.None?)
  {
    AfterIsGood(steps);
    assert Reverses(After(steps).events, j);
  }

  lemma ReversalIn(l: Ledger, i: nat, j: nat)
    requires Chained(l) && i < j < |l.events| && Reverses(l.events, j) && l.events[j].reverses == Some(i)
    ensures l.events[i].user in l.start
    ensures var delta := l.events[i].Delta();
            var without := Fold(l.events[i].before, AskedOf(l, i + 1, j, l.events[i].user));
            && (delta <= 0 ==> without <= l.events[j].after <= without - delta)
            && (delta >= 0 ==> without - delta <= l.events[j].after <= without)
  {
    ClampedEvent(l, i);
    ClampedEvent(l, j);
    BeforeReversal(l, i, j);
    ReversalBound(l.events[i].before, l.events[i].asked, AskedOf(l, i + 1, j, l.events[i].user));
  }

  lemma ClampedEvent(l: Ledger, i: nat)
    requires Chained(l) && i < |l.events|
    ensures var e := l.events[i]; e.user in l.start && 0 <= e.before <= 100 && e.after == Clamp(e.before + e.asked)
  {
    assert EventChained(l, i);
    ScoreAtInRange(l, i, l.events[i].user);
  }

  lemma BeforeReversal(l: Ledger, i: nat, j: nat)
    requires Chained(l) && i < j < |l.events| && l.events[i].user == l.events[j].user
    ensures l.events[i].user in l.start
              && l.events[j].before == Fold(l.events[i].after, AskedOf(l, i + 1, j, l.events[i].user))
  {
    assert EventChained(l, i) && EventChained(l, j);
    ScoreAtFolds(l, i + 1, j, l.events[i].user);
  }

  /** Taking back event `i` by event `j`: compared with the same requests made without
      event `i`, a penalised user ends no lower, and higher by at most the recorded
      penalty; the mirror holds for an award. */
  lemma ReversalRestores(steps: seq<(nat, Step)>, i: nat, j: nat)
    requires i < |After(steps).events| && j < |After(steps).events| && After(steps).events[j].reverses == Some(i)
    ensures i < j && After(steps).events[i].user in After(steps).start
    ensures var l := After(steps);
            var delta := l.events[i].Delta();
            var without := Fold(l.events[i].before, AskedOf(l, i + 1, j, l.events[i].user));
            && (delta <= 0 ==> without <= l.events[j].after <= without - delta)
            && (delta >= 0 ==> without - delta <= l.events[j].after <= without)
  {
    AfterIsGood(steps);
    assert Reverses(After(steps).events, j);
    ReversalIn(After(steps), i, j);
  }

  /** Rewards that stand, for one pair and on different bookings, are at least seven days
      apart, whichever side was rewarded and however late. */
  lemma RewardsAreSpaced(steps: seq<(nat, Step)>, i: nat, j: nat)
    requires i < j < |After(steps).events| && Rivals(After(steps), i, j)
    ensures After(steps).events[j].time >= After(steps).events[i].time + 604800000
  {
    AfterIsGood(steps);
  }

  /** A list of rewards that stand, in ledger order, on pairwise different bookings of one pair. */
  ghost predicate RivalList(l: Ledger, s: seq<nat>) {
    && (forall k | 0 <= k < |s| :: s[k] < |l.events|)
    && (forall k, m | 0 <= k < m < |s| :: s[k] < s[m] && Rivals(l, s[k], s[m]))
  }

  /** So n rewarded bookings of a pair span at least 7(n - 1) days. */
  lemma {:induction false} RewardsSpan(steps: seq<(nat, Step)>, s: seq<nat>)
    requires RivalList(After(steps), s) && |s| >= 1
    ensures After(steps).events[s[|s| - 1]].time >= After(steps).events[s[0]].time + 604800000 * (|s| - 1)
    decreases |s|
  {
    if |s| > 1 {
      var l := After(steps);
      var t := s[..|s| - 1];
      forall k, m | 0 <= k < m < |t| ensures t[k] < t[m] && Rivals(l, t[k], t[m]) { assert s[k] < s[m]; }
      RewardsSpan(steps, t);
      assert s[|s| - 2] < s[|s| - 1] && Rivals(l, s[|s| - 2], s[|s| - 1]);
      RewardsAreSpaced(steps, s[|s| - 2], s[|s| - 1]);
    }
  }
}
