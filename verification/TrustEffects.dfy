/** What each trust operation requires and records, told on the ledger's rows alone, and what every event of a kind
    looks like in every run. */
module TrustEffects {
  import opened BookingRows
  import opened TrustLedger
  import opened TrustReversal
  import opened TrustRuns

  // ----------------------------------------------------------- one recording

  /** The score after a change: it never leaves 0..100. */
  predicate Moved(before: int, change: int, after: int) {
    if before + change < 0 then after == 0 else if before + change > 100 then after == 100 else after == before + change
  }

  predicate Used(events: seq<Event>, key: Key) { exists j :: 0 <= j < |events| && events[j].key == key }

  predicate TakenBack(events: seq<Event>, i: int) { exists j :: 0 <= j < |events| && events[j].reverses == Some(i) }

  predicate Punished(events: seq<Event>, booking: Id, user: Id) {
    exists j :: 0 <= j < |events| && events[j].penaltyFor == Some((booking, user))
  }

  /** One event more, and the score it leaves. */
  ghost predicate Recorded(a: Ledger, b: Ledger, user: Id, change: int, key: Key, category: Category,
      booking: Option<Id>, penaltyFor: Option<(Id, Id)>, reverses: Option<nat>, why: Why)
  {
    && user in a.scores && user in b.scores && Moved(a.scores[user], change, b.scores[user])
    && b == a.(scores := a.scores[user := b.scores[user]],
               events := a.events + [Event(user, change, a.scores[user], b.scores[user], key, category, booking,
                                           penaltyFor, reverses, a.clock, why)])
  }

  lemma RecordRecords(l: Ledger, ask: Ask)
    requires ask.user in l.scores
    ensures Recorded(l, Record(l, ask), ask.user, ask.delta, ask.key, ask.category, ask.booking, ask.penaltyFor,
              ask.reverses, ask.why)
  {
  }

  lemma AccountsAndBookings(l: Ledger, elapsed: nat, user: Id, booking: Id, provider: Id, seeker: Id)
    ensures Do(l, elapsed, NewUser(user))
              == if user in l.scores then l.(clock := l.clock + elapsed)
                 else l.(clock := l.clock + elapsed, start := l.start[user := 50], scores := l.scores[user := 50])
    ensures Do(l, elapsed, NewBooking(booking, provider, seeker))
              == if booking in l.parties || provider == seeker then l.(clock := l.clock + elapsed)
                 else l.(clock := l.clock + elapsed, parties := l.parties[booking := (provider, seeker)])
  {
  }

  lemma PlainEffect(l: Ledger, user: Id, change: int, id: Id, category: Category, why: Why)
    ensures var r := Attempted(l, Plainly(user, change, id, category, why));
            if category == Completion || user !in l.scores then r.None?
            else if Used(l.events, OtherKey(id)) then r == Some(l)
            else r.Some? && Recorded(l, r.value, user, change, OtherKey(id), category, None, None, None, why)
  {
  }

  // ---------------------------------------------------------------- penalties

  /** The user is a party of the booking, the administrator is not, the reason is documented, and a fault is only found
      with a started booking. */
  predicate MayPunish(l: Ledger, booking: Id, user: Id, admin: Id, cancellation: bool, started: bool, reason: string) {
    && booking in l.parties && |reason| >= 20 && (cancellation ==> started)
    && (user == l.parties[booking].0 || user == l.parties[booking].1)
    && admin != l.parties[booking].0 && admin != l.parties[booking].1
  }

  /** A booking punishes a user once: by 10 for a report, by 5 for a cancellation. */
  lemma PenaltyEffect(l: Ledger, booking: Id, user: Id, admin: Id, cancellation: bool, started: bool, id: Id,
      reason: string)
    ensures var r := Penalize(l, booking, user, admin, cancellation, started, id, reason);
            var key := if cancellation then CancellationKey(id, user) else ReportKey(id);
            if !MayPunish(l, booking, user, admin, cancellation, started, reason) then r.None?
            else if Punished(l.events, booking, user) then r == Some(l)
            else if user !in l.scores then r.None?
            else if Used(l.events, key) then r == Some(l)
            else r.Some? && Recorded(l, r.value, user, if cancellation then -5 else -10, key,
                              if cancellation then CancellationPenalty else ReportPenalty, Some(booking),
                              Some((booking, user)), None, Why(reason, Some(admin)))
  {
    if MayPunish(l, booking, user, admin, cancellation, started, reason) && !Punished(l.events, booking, user) {
      var ask := Ask(user, if cancellation then -5 else -10, if cancellation then CancellationKey(id, user)
          else ReportKey(id),
                     if cancellation then CancellationPenalty else ReportPenalty, Some(booking), Some((booking, user)),
                     None, false, Why(reason, Some(admin)));
      assert Penalize(l, booking, user, admin, cancellation, started, id, reason) == Apply(l, ask);
      assert !Clashes(l.events, ask);
    }
  }

  // -------------------------------------------------------------- corrections

  /** An administrator, not the user, takes back a recorded change of the user's, with a documented reason: unless it
      was no change, is itself a correction of one, or is protected. */
  predicate MayCorrect(l: Ledger, user: Id, event: nat, admin: Id, reason: string) {
    && admin != user && |reason| >= 20 && event < |l.events| && l.events[event].user == user
    && l.events[event].after != l.events[event].before && l.events[event].reverses.None?
    && l.events[event].category != Untouchable
  }

  lemma CorrectionEffect(l: Ledger, user: Id, event: nat, admin: Id, operation: Id, reason: string)
    requires Good(l)
    ensures var r := Correct(l, user, event, admin, operation, reason);
            var key := ManualKey(admin, operation);
            if !MayCorrect(l, user, event, admin, reason) then r.None?
            else if TakenBack(l.events, event)
            then r == (if exists j ::
                0 <= j < |l.events| && l.events[j].key == key && l.events[j].reverses == Some(event)
                                      && l.events[j].why == Why(reason, Some(admin))
                       then Some(l) else None)
            else if Used(l.events, key) then r.None?
            else r.Some? && Recorded(l, r.value, user, l.events[event].before - l.events[event].after, key, Correction,
                              l.events[event].booking, None, Some(event), Why(reason, Some(admin)))
  {
    if MayCorrect(l, user, event, admin, reason) {
      assert EventChained(l, event);
      if TakenBack(l.events, event) {
        RepeatedCorrection(l, user, event, admin, operation, reason);
      } else {
        FirstCorrection(l, user, event, admin, operation, reason);
      }
    }
  }

  function CorrectionAsk(l: Ledger, user: Id, event: nat, admin: Id, operation: Id, reason: string): Ask
    requires event < |l.events|
  {
    Ask(user, -l.events[event].Delta(), ManualKey(admin, operation), Correction, l.events[event].booking, None,
        Some(event), true, Why(reason, Some(admin)))
  }

  lemma FirstCorrection(l: Ledger, user: Id, event: nat, admin: Id, operation: Id, reason: string)
    requires Good(l) && MayCorrect(l, user, event, admin, reason) && user in l.scores && !TakenBack(l.events, event)
    ensures var r := Correct(l, user, event, admin, operation, reason);
            if Used(l.events, ManualKey(admin, operation)) then r.None?
            else r == Some(Record(l, CorrectionAsk(l, user, event, admin, operation, reason)))
  {
    var ask := CorrectionAsk(l, user, event, admin, operation, reason);
    assert Correct(l, user, event, admin, operation, reason) == Apply(l, ask);
    assert !Clashes(l.events, ask);
    forall j | 0 <= j < |l.events| && l.events[j].key == ask.key ensures Conflicts(l.events[j], ask) {
      assert l.events[j].reverses != Some(event);
    }
  }

  lemma RepeatedCorrection(l: Ledger, user: Id, event: nat, admin: Id, operation: Id, reason: string)
    requires Good(l) && MayCorrect(l, user, event, admin, reason) && user in l.scores && TakenBack(l.events, event)
    ensures Correct(l, user, event, admin, operation, reason)
              == if exists j :: 0 <= j < |l.events| && l.events[j].key == ManualKey(admin, operation)
                                && l.events[j].reverses == Some(event) && l.events[j].why == Why(reason, Some(admin))
                 then Some(l) else None
  {
    var k :| 0 <= k < |l.events| && l.events[k].reverses == Some(event);
    assert Reverses(l.events, k);
    var ask := CorrectionAsk(l, user, event, admin, operation, reason);
    if l.events[k].key == ask.key {
      assert Correct(l, user, event, admin, operation, reason) == Apply(l, ask);
      forall j | 0 <= j < |l.events| && l.events[j].key == ask.key ensures j == k {}
    }
  }

  /** An upheld appeal takes the penalty back, once, whoever asks. */
  lemma AppealEffect(l: Ledger, event: nat, appeal: Id, admin: Id, reason: string)
    requires Good(l)
    ensures var r := Appeal(l, event, appeal, admin, reason);
            if event >= |l.events| || l.events[event].user == admin
               || l.events[event].category !in {ReportPenalty, CancellationPenalty} then r.None?
            else if TakenBack(l.events, event) || Used(l.events, AppealKey(appeal)) then r == Some(l)
            else r.Some? && Recorded(l, r.value, l.events[event].user, l.events[event].before - l.events[event].after,
                              AppealKey(appeal), Correction, l.events[event].booking, None, Some(event),
                              Why(reason, Some(admin)))
  {
    if event < |l.events| { assert EventChained(l, event); }
  }

  // ------------------------------------------------------------------ rewards

  predicate SamePair(p: (Id, Id), q: (Id, Id)) { p == q || (p.0 == q.1 && p.1 == q.0) }

  /** The two were rewarded for another booking less than seven days ago, and the reward stands. */
  ghost predicate RewardedLately(l: Ledger, booking: Id)
    requires booking in l.parties
  {
    exists i :: && 0 <= i < |l.events| && l.events[i].category == Completion && l.events[i].booking.Some?
                && l.events[i].booking.value != booking && l.events[i].booking.value in l.parties
                && SamePair(l.parties[l.events[i].booking.value], l.parties[booking])
                && !TakenBack(l.events, i) && l.clock < l.events[i].time + 604800000
  }

  lemma RecentIsLately(l: Ledger, booking: Id)
    requires Good(l) && booking in l.parties
    ensures RecentlyRewarded(l, booking) <==> RewardedLately(l, booking)
  {
    if RewardedLately(l, booking) {
      var i :| && 0 <= i < |l.events| && l.events[i].category == Completion && l.events[i].booking.Some?
               && l.events[i].booking.value != booking && l.events[i].booking.value in l.parties
               && SamePair(l.parties[l.events[i].booking.value], l.parties[booking])
               && !TakenBack(l.events, i) && l.clock < l.events[i].time + 604800000;
      assert AwardFits(l, i);
      assert AwardOf(l, i, Pair(l.parties[booking])) && !Reversed(l.events, i);
    }
    if RecentlyRewarded(l, booking) {
      var i :| && 0 <= i < |l.events| && AwardOf(l, i, Pair(l.parties[booking]))
               && l.events[i].booking != Some(booking) && !Reversed(l.events, i)
               && l.events[i].time + REWARD_WINDOW > l.clock;
      assert !TakenBack(l.events, i);
    }
  }

  /** A penalty for this booking stands against the user. */
  predicate Faulted(events: seq<Event>, booking: Id, user: Id) {
    exists i :: && 0 <= i < |events| && events[i].booking == Some(booking) && events[i].user == user
                && events[i].category in {ReportPenalty, CancellationPenalty} && !TakenBack(events, i)
  }

  /** One participant's turn: an active one without a standing penalty is rewarded with 3, once per booking and side. */
  ghost predicate Rewarded(a: Ledger, r: Option<Ledger>, booking: Id, user: Id, active: bool)
    requires booking in a.parties
  {
    var key := AwardKey(booking, user == a.parties[booking].0);
    if !active || Faulted(a.events, booking, user) then r == Some(a)
    else if user !in a.scores then r.None?
    else if Used(a.events, key) then r == Some(a)
    else r.Some? && Recorded(a, r.value, user, 3, key, Completion, Some(booking), None, None,
                      Why("Eligible booking completed and payment settled", None))
  }

  lemma AwardOneEffect(l: Ledger, booking: Id, user: Id, active: bool)
    requires booking in l.parties
    ensures Rewarded(l, AwardOne(l, booking, user, active), booking, user, active)
    ensures AwardOne(l, booking, user, active).Some? ==> AwardOne(l, booking, user, active).value.parties == l.parties
  {
    assert AtFault(l.events, booking, user) <==> Faulted(l.events, booking, user);
    assert !Clashes(l.events, AwardAsk(l, booking, user));
  }

  /** An eligible completion rewards both participants, the one with the smaller id first, unless the two were rewarded
      for another booking within seven days; if one cannot be, neither is. */
  lemma AwardEffect(l: Ledger, booking: Id, eligible: bool, active: (bool, bool))
    requires Good(l)
    ensures var r := Award(l, booking, eligible, active);
            if booking !in l.parties then r.None?
            else if !eligible || RewardedLately(l, booking) then r == Some(l)
            else var p := l.parties[booking];
                 exists first ::
                   && Rewarded(l, first, booking, if p.0 <= p.1 then p.0 else p.1, active.0)
                   && (first.None? ==> r.None?)
                   && (first.Some? ==> first.value.parties == l.parties
                                       && Rewarded(first.value, r, booking, if p.0 <= p.1 then p.1 else p.0, active.1))
  {
    if booking in l.parties {
      RecentIsLately(l, booking);
      if eligible && !RecentlyRewarded(l, booking) {
        var pair := Pair(l.parties[booking]);
        var first := AwardOne(l, booking, pair.0, active.0);
        AwardOneEffect(l, booking, pair.0, active.0);
        if first.Some? { AwardOneEffect(first.value, booking, pair.1, active.1); }
      }
    }
  }

  // -------------------------------------------------------- the law of events

  /** What every event looks like: the change clamped; a penalty of a booking's party by someone else, 10 for a report
      and 5 for a cancellation; a reward of a booking's party by 3; a reversal of exactly what was recorded. */
  predicate Lawful(l: Ledger, i: int)
    requires 0 <= i < |l.events|
  {
    var e := l.events[i];
    && Moved(e.before, e.asked, e.after) && e.time <= l.clock
    && (e.penaltyFor.Some? ==>
          var booking := e.penaltyFor.value.0;
          && e.penaltyFor.value.1 == e.user && e.booking == Some(booking) && booking in l.parties && e.reverses.None?
          && (e.user == l.parties[booking].0 || e.user == l.parties[booking].1)
          && e.why.admin.Some? && e.why.admin.value != l.parties[booking].0 && e.why.admin.value != l.parties[booking].1
          && |e.why.reason| >= 20
          && ((e.category == ReportPenalty && e.asked == -10) || (e.category == CancellationPenalty && e.asked == -5)))
    && (e.category == Completion ==>
          && e.asked == 3 && e.reverses.None? && e.booking.Some? && e.booking.value in l.parties
          && (e.user == l.parties[e.booking.value].0 || e.user == l.parties[e.booking.value].1)
          && e.key == AwardKey(e.booking.value, e.user == l.parties[e.booking.value].0))
    && (e.reverses.Some? ==>
          && e.reverses.value < i && e.category == Correction && e.user == l.events[e.reverses.value].user
          && e.asked == l.events[e.reverses.value].before - l.events[e.reverses.value].after
          && e.why.admin.Some? && e.why.admin.value != e.user)
  }

  ghost predicate AllLawful(l: Ledger) { forall i | 0 <= i < |l.events| :: Lawful(l, i) }

  /** More bookings, a later clock and one lawful event more keep the law. */
  lemma LawGrows(a: Ledger, b: Ledger)
    requires AllLawful(a) && Onward(a, b) && |b.events| <= |a.events| + 1
    requires |b.events| > |a.events| ==> Lawful(b, |a.events|)
    ensures AllLawful(b)
  {
    forall i | 0 <= i < |b.events| ensures Lawful(b, i) {
      if i < |a.events| { assert Lawful(a, i); }
    }
  }

  lemma AwardIsLawful(l: Ledger, booking: Id, eligible: bool, active: (bool, bool))
    requires Good(l) && AllLawful(l)
    ensures Award(l, booking, eligible, active).Some? ==> AllLawful(Award(l, booking, eligible, active).value)
  {
    if booking in l.parties && eligible && !RecentlyRewarded(l, booking) {
      var pair := Pair(l.parties[booking]);
      var first := AwardOne(l, booking, pair.0, active.0);
      AwardOneEffect(l, booking, pair.0, active.0);
      if first.Some? {
        LawGrows(l, first.value);
        AwardOneEffect(first.value, booking, pair.1, active.1);
        if AwardOne(first.value, booking, pair.1, active.1).Some? {
          LawGrows(first.value, AwardOne(first.value, booking, pair.1, active.1).value);
        }
      }
    }
  }

  lemma AttemptIsLawful(l: Ledger, s: Step)
    requires Good(l) && AllLawful(l)
    ensures Attempted(l, s).Some? ==> AllLawful(Attempted(l, s).value)
  {
    AttemptKeeps(l, s);
    match s {
      case CorrectOne(user, event, admin, operation, reason) =>
          CorrectionEffect(l, user, event, admin, operation, reason);
      case Uphold(event, appeal, admin, reason) => AppealEffect(l, event, appeal, admin, reason);
      case Reward(booking, eligible, active) => AwardIsLawful(l, booking, eligible, active);
      case Punish(booking, user, admin, cancellation, started, id, reason) =>
        PenaltyEffect(l, booking, user, admin, cancellation, started, id, reason);
      case _ =>
    }
    if Attempted(l, s).Some? && !s.Reward? { LawGrows(l, Attempted(l, s).value); }
  }

  lemma {:induction false} RunIsLawful(l: Ledger, steps: seq<(nat, Step)>)
    requires Good(l) && AllLawful(l)
    ensures AllLawful(Run(l, steps))
    decreases |steps|
  {
    if steps != [] {
      var later := Later(l, steps[0].0);
      OpenKeeps(l, 0, 0, 0, steps[0].0);
      LawGrows(l, later);
      AttemptIsLawful(later, steps[0].1);
      StepKeeps(l, steps[0].0, steps[0].1);
      RunIsLawful(Do(l, steps[0].0, steps[0].1), steps[1..]);
    }
  }

  /** Over every run every event obeys the law of its kind. So a booking's penalty costs its user 10 points for a
      report and 5 for a cancellation, down to 0, and a completed booking's reward brings 3, up to 100. */
  lemma EventsAreLawful(steps: seq<(nat, Step)>, i: nat)
    requires i < |After(steps).events|
    ensures Lawful(After(steps), i)
    ensures var e := After(steps).events[i];
            && 0 <= e.before <= 100
            && (e.penaltyFor.Some? && e.category == ReportPenalty ==>
                  e.after == if e.before >= 10 then e.before - 10 else 0)
            && (e.penaltyFor.Some? && e.category == CancellationPenalty ==>
                  e.after == if e.before >= 5 then e.before - 5 else 0)
            && (e.category == Completion ==> e.after == if e.before <= 97 then e.before + 3 else 100)
  {
    RunIsLawful(EmptyLedger(), steps);
    AfterIsGood(steps);
    ClampedEvent(After(steps), i);
  }
}
