/** The trust services as imperative code: the score is overwritten, the ledger appended to. */
module TrustService {
  import opened BookingRows
  import opened TrustLedger

  class TrustStore {
    const start: map<Id, int>
    const parties: map<Id, (Id, Id)>
    var scores: map<Id, int>
    var events: seq<Event>
    var clock: nat

    ghost function View(): Ledger
      reads this
    {
      Ledger(start, scores, events, parties, clock)
    }

    constructor (start: map<Id, int>, parties: map<Id, (Id, Id)>)
      ensures View() == Ledger(start, start, [], parties, 0)
    {
      this.start, this.parties, scores, events, clock := start, parties, start, [], 0;
    }

    /** applyTrustEventInTransaction */
    method ApplyEvent(ask: Ask) returns (ok: bool, applied: bool)
      modifies this`scores, this`events
      ensures Commits(Apply(old(View()), ask), old(View()), View(), ok)
      ensures applied <==> ok && !KeyUsed(old(events), ask.key)
    {
      if ask.user !in scores {
        return false, false;
      }
      var before := scores[ask.user];
      if KeyUsed(events, ask.key) {
        ok := !(exists j | 0 <= j < |events| :: events[j].key == ask.key && Conflicts(events[j], ask));
        return ok, false;
      }
      if Clashes(events, ask) {
        return false, false;
      }
      var after := if before + ask.delta < 0 then 0 else if before + ask.delta > 100 then 100 else before + ask.delta;
      scores := scores[ask.user := after];
      events := events
          + [Event(ask.user, ask.delta, before, after, ask.key, ask.category, ask.booking, ask.penaltyFor,
          ask.reverses, clock,
                                ask.why)];
      return true, true;
    }

    /** applyManualTrustAdjustment */
    method CorrectEvent(user: Id, event: nat, admin: Id, operation: Id, reason: string) returns (ok: bool)
      modifies this`scores, this`events
      ensures Commits(Correct(old(View()), user, event, admin, operation, reason), old(View()), View(), ok)
    {
      if admin == user || !Documented(reason) || event >= |events| || !Correctable(events[event], user) {
        return false;
      }
      if exists j | 0 <= j < |events| ::
          events[j].reverses == Some(event) && events[j].key != ManualKey(admin, operation) {
        return false;
      }
      var applied;
      ok, applied := ApplyEvent(Ask(user, -events[event].Delta(), ManualKey(admin, operation), Correction,
          events[event].booking, None, Some(event), true,
                                    Why(reason, Some(admin))));
    }

    /** awardBookingCompletionTrust: a loop over the two participants in sorted order. */
    method AwardCompletion(booking: Id, eligible: bool, active: (bool, bool)) returns (ok: bool)
      modifies this`scores, this`events
      ensures Commits(Award(old(View()), booking, eligible, active), old(View()), View(), ok)
    {
      if booking !in parties {
        return false;
      }
      if !eligible || Rewarded(booking) {
        return true;
      }
      var scores0, events0 := scores, events;
      var pair := Pair(parties[booking]);
      var ids := [pair.0, pair.1];
      var accounts := [active.0, active.1];
      ok := true;
      for k := 0 to 2
        invariant ok
        invariant k == 0 ==> View() == old(View())
        invariant k == 1 ==> AwardOne(old(View()), booking, ids[0], accounts[0]) == Some(View())
        invariant k == 2 ==> Award(old(View()), booking, eligible, active) == Some(View())
      {
        ghost var before := View();
        if accounts[k] && !AtFault(events, booking, ids[k]) {
          var ask := Ask(ids[k], 3, AwardKey(booking, ids[k] == parties[booking].0), Completion, Some(booking), None,
              None, false,
                         Why("Eligible booking completed and payment settled", None));
          var applied;
          ok, applied := ApplyEvent(ask);
        }
        assert Commits(AwardOne(before, booking, ids[k], accounts[k]), before, View(), ok);
        if !ok {
          scores, events := scores0, events0;
          return;
        }
      }
    }

    predicate Rewarded(booking: Id)
      requires booking in parties
      reads this
    {
      RecentlyRewarded(Ledger(start, scores, events, parties, clock), booking)
    }
  }
}
