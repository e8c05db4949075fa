/** What becomes of captured money: one booking or one refund, never both. */
module CaptureFate {
  import opened BookingRows
  import opened MarketRows
  import opened MarketSteps

  ghost predicate Owned(deals: map<Id, Deal>, attempt: Id) {
    exists d | d in deals :: deals[d].attempt == Some(attempt)
  }

  /** An attempt owns a booking exactly while it has succeeded. */
  ghost predicate OwnersSucceeded(attempts: map<Id, Attempt>, deals: map<Id, Deal>) {
    && (forall d | d in deals && deals[d].attempt.Some? ::
          deals[d].attempt.value in attempts && attempts[deals[d].attempt.value].status == Succeeded)
    && (forall a | a in attempts && attempts[a].status == Succeeded :: Owned(deals, a))
  }

  /** Money is sent back only for captures whose refund is due, and all of those marked refunded had it sent. */
  ghost predicate RefundsDue(attempts: map<Id, Attempt>, refunding: set<Id>,
      gateway: map<RefundKey, Slip>) {
    && (forall a | a in refunding ::
          a in attempts && attempts[a].captured && attempts[a].status in {RefundRequired, AttemptRefunded})
    && (forall a | AttemptKey(a) in gateway :: a in refunding)
    && (forall a | a in attempts && attempts[a].status == AttemptRefunded :: AttemptKey(a) in gateway)
  }

  ghost predicate SingleFate(m: Market) {
    OwnersSucceeded(m.attempts, m.deals) && RefundsDue(m.attempts, m.refunding, m.gateway)
  }

  /** The provider-error write hits no attempt that has succeeded or is being refunded. */
  predicate SparesDecided(m: Market, s: Step) {
    s.Error? && s.id in m.attempts ==> m.attempts[s.id].status != Succeeded && s.id !in m.refunding
  }

  /** Rewriting attempts that own nothing and are not being refunded. */
  lemma UndecidedAttempts(m: Market, attempts: map<Id, Attempt>)
    requires SingleFate(m) && m.attempts.Keys <= attempts.Keys
    requires forall a | a in attempts :: attempts[a].status == Succeeded || attempts[a].status == AttemptRefunded ==>
               a in m.attempts && m.attempts[a].status == attempts[a].status
    requires forall a | a in m.attempts && (m.attempts[a].status == Succeeded || a in m.refunding) ::
               attempts[a].status == m.attempts[a].status && attempts[a].captured == m.attempts[a].captured
    ensures SingleFate(m.(attempts := attempts))
  {
  }

  lemma ReleaseLeavesFate(m: Market, target: Target)
    ensures SingleFate(ReleaseHold(m, target)) <==> SingleFate(m)
  {
  }

  lemma SweepLeavesFate(m: Market, seeker: Id, target: Target, now: nat)
    requires SingleFate(m)
    ensures SingleFate(ExpireFor(m, seeker, target, now))
  {
    var attempts := map a | a in m.attempts ::
      if Stale(m.attempts[a], seeker, target, now) then m.attempts[a].(status := Expired) else m.attempts[a];
    forall a | a in m.attempts
        && (m.attempts[a].status == Succeeded || a in m.refunding) ensures attempts[a] == m.attempts[a] {}
    UndecidedAttempts(m, attempts);
    ReleaseLeavesFate(m.(attempts := attempts), target);
  }

  lemma StartKeepsFate(m: Market, id: Id, seeker: Id, target: Target, now: nat, ttl: nat, allowed: bool)
    requires SingleFate(m)
    ensures var r := Initiate(m, id, seeker, target, now, ttl, allowed); r.Some? ==> SingleFate(r.value)
  {
    SweepLeavesFate(m, seeker, target, now);
    var swept := ExpireFor(m, seeker, target, now);
    var r := Initiate(m, id, seeker, target, now, ttl, allowed);
    if r.Some? && r.value != swept {
      UndecidedAttempts(swept, r.value.attempts);
    }
  }

  lemma UnwoundKeepsFate(m: Market, id: Id, status: AttemptStatus)
    requires SingleFate(m) && id in m.attempts && m.attempts[id].status != Succeeded && id !in m.refunding
    requires status == AttemptFailed || status == Expired
    ensures SingleFate(ReleaseHold(SetAttempt(m, id, status), m.attempts[id].target))
  {
    UndecidedAttempts(m, SetAttempt(m, id, status).attempts);
    ReleaseLeavesFate(SetAttempt(m, id, status), m.attempts[id].target);
  }

  lemma AttemptStepKeepsFate(m: Market, s: Step)
    requires SingleFate(m) && SparesDecided(m, s) && (s.Save? || s.Error? || s.Fail? || s.Expire?)
    ensures var r := Attempted(m, s); r.Some? ==> SingleFate(r.value)
  {
    if s.id in m.attempts {
      if s.Save? {
        UndecidedAttempts(m, SaveIntent(m, s.id).value.attempts);
      } else if s.Error? || m.attempts[s.id].status == AttemptPending {
        UnwoundKeepsFate(m, s.id, if s.Expire? then Expired else AttemptFailed);
      }
    }
  }

  lemma CreateDealKeepsFate(m: Market, id: Id, withId: bool, deal: Id)
    requires SingleFate(m) && id in m.attempts && m.attempts[id].status !in {RefundRequired, AttemptRefunded}
    requires m.attempts[id].target.ForOffer? ==>
               m.attempts[id].target.offer in m.offers && m.offers[m.attempts[id].target.offer].request in m.requests
    ensures var r := CreateDeal(m, id, withId, deal); r.Some? ==> SingleFate(r.value)
  {
    var r := CreateDeal(m, id, withId, deal);
    if r.Some? {
      assert r.value.attempts == Capture(m, id, Succeeded, withId).attempts;
      assert r.value.deals[deal].attempt == Some(id);
      forall a | a in m.attempts && m.attempts[a].status == Succeeded ensures Owned(r.value.deals, a) {
        var d :| d in m.deals && m.deals[d].attempt == Some(a);
        assert r.value.deals[d].attempt == Some(a);
      }
    }
  }

  lemma FinalizeKeepsFate(m: Market, id: Id, now: nat, matches: bool, fit: bool, withId: bool, deal: Id)
    requires SingleFate(m)
    ensures var r := FinalizeCapture(m, id, now, matches, fit, withId, deal); r.Some? ==> SingleFate(r.value)
  {
    var r := FinalizeCapture(m, id, now, matches, fit, withId, deal);
    if r.Some? && r.value != m {
      var a := m.attempts[id];
      assert a.status != Succeeded;
      if a.expires <= now || !fit || LiveDealFor(m.deals, a.seeker, a.target) {
        UndecidedAttempts(m, Capture(m, id, RefundRequired, withId).attempts);
        ReleaseLeavesFate(Capture(m, id, RefundRequired, withId), a.target);
      } else if a.target.ForOffer?
          && (!HoldValid(m, a.target.offer, a.seeker) || CompetingSelection(m.offers, a.target.offer)) {
        UndecidedAttempts(m, Capture(m, id, RefundRequired, withId).attempts);
      } else {
        CreateDealKeepsFate(m, id, withId, deal);
      }
    }
  }

  /** What the steps of a booking leave alone. */
  ghost predicate DealsOnly(m: Market, d: Market) {
    && d.attempts == m.attempts && d.refunding == m.refunding && d.gateway == m.gateway
    && (forall e | e in m.deals :: e in d.deals && d.deals[e].attempt == m.deals[e].attempt)
    && (forall e | e in d.deals && e !in m.deals :: d.deals[e].attempt.None?)
  }

  /** Bookings keep their attempts, and new ones have none. */
  lemma DealsAside(m: Market, d: Market)
    requires SingleFate(m) && DealsOnly(m, d)
    ensures SingleFate(d)
  {
    forall a | a in m.attempts && m.attempts[a].status == Succeeded ensures Owned(d.deals, a) {
      var e :| e in m.deals && m.deals[e].attempt == Some(a);
      assert d.deals[e].attempt == Some(a);
    }
  }

  lemma CashStepShape(m: Market, s: Step)
    requires (s.TakeCash? || s.BookCash?) && Attempted(m, s).Some?
    ensures DealsOnly(m, Attempted(m, s).value)
  {
  }

  lemma EndingStepShape(m: Market, s: Step)
    requires (s.Complete? || s.Cancel? || s.TurnDown?) && Attempted(m, s).Some?
    ensures DealsOnly(m, Attempted(m, s).value)
  {
  }

  lemma DealStepKeepsFate(m: Market, s: Step)
    requires SingleFate(m) && (s.TakeCash? || s.BookCash? || s.Complete? || s.Cancel? || s.TurnDown?)
    ensures var r := Attempted(m, s); r.Some? ==> SingleFate(r.value)
  {
    if Attempted(m, s).Some? {
      if s.TakeCash? || s.BookCash? { CashStepShape(m, s); } else { EndingStepShape(m, s); }
      DealsAside(m, Attempted(m, s).value);
    }
  }

  lemma OtherStepKeepsFate(m: Market, s: Step)
    requires SingleFate(m)
    requires s.Post? || s.Pause? || s.Reopen? || s.Delete? || s.Remove? || s.Revive? || s.Decline? || s.Submit?
               || s.Reject?
             || s.RefundBegin? || s.RefundSend? || s.RefundEnd? || s.ReturnBegin? || s.ReturnSend?
    ensures var r := Attempted(m, s); r.Some? ==> SingleFate(r.value)
  {
  }

  /** One step keeps single fate exactly when its provider-error write spares decided attempts. */
  lemma StepKeepsFate(m: Market, s: Step)
    requires SingleFate(m)
    ensures SingleFate(Do(m, s)) <==> SparesDecided(m, s)
  {
    if !SparesDecided(m, s) {
      ReleaseLeavesFate(SetAttempt(m, s.id, AttemptFailed), m.attempts[s.id].target);
      ErrorBreaksFate(m, s.id);
    } else if s.Start? {
      StartKeepsFate(m, s.id, s.seeker, s.target, s.now, s.ttl, s.allowed);
    } else if s.Save? || s.Error? || s.Fail? || s.Expire? {
      AttemptStepKeepsFate(m, s);
    } else if s.Finalize? {
      FinalizeKeepsFate(m, s.id, s.now, s.matches, s.fit, s.withId, s.deal);
    } else if s.TakeCash? || s.BookCash? || s.Complete? || s.Cancel? || s.TurnDown? {
      DealStepKeepsFate(m, s);
    } else {
      OtherStepKeepsFate(m, s);
    }
  }

  lemma ErrorBreaksFate(m: Market, id: Id)
    requires SingleFate(m) && id in m.attempts && (m.attempts[id].status == Succeeded || id in m.refunding)
    ensures !SingleFate(SetAttempt(m, id, AttemptFailed))
  {
    if m.attempts[id].status == Succeeded {
      var d :| d in m.deals && m.deals[d].attempt == Some(id);
      assert SetAttempt(m, id, AttemptFailed).deals[d].attempt == Some(id);
    }
  }
}
