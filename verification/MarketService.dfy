/** The payment services as imperative code on the market's rows, proved to do what
    the transactions on values do. */
module MarketService {
  import opened BookingRows
  import opened MarketRows
  import S = MarketSteps

  /** Expire each candidate in turn, as the periodic sweep does. */
  function ExpireEach(m: Market, ids: seq<Id>, now: nat): Market
    decreases |ids|
  {
    if ids == [] then m else S.ExpireAttempt(ExpireEach(m, ids[..|ids| - 1], now), ids[|ids| - 1], now)
  }

  /** Expired attempts stay expired while the sweep goes on. */
  lemma {:induction false} SweepLeavesNoneStale(m: Market, ids: seq<Id>, now: nat, id: Id)
    requires id in ids
    ensures var n := ExpireEach(m, ids, now);
            id in n.attempts ==> !(n.attempts[id].status == AttemptPending && n.attempts[id].expires <= now)
    decreases |ids|
  {
    var last := ids[|ids| - 1];
    var before := ExpireEach(m, ids[..|ids| - 1], now);
    if id != last {
      assert ids == ids[..|ids| - 1] + [last];
      SweepLeavesNoneStale(m, ids[..|ids| - 1], now, id);
    }
  }

  class MarketStore {
    var requests: map<Id, Request>
    var offers: map<Id, Offer>
    var attempts: map<Id, Attempt>
    var deals: map<Id, Deal>
    var queueRows: seq<Id>
    var refunding: set<Id>
    var returning: set<Id>
    var gateway: map<RefundKey, Slip>

    ghost function View(): Market
      reads this
    {
      Market(requests, offers, attempts, deals, queueRows, refunding, returning, gateway)
    }

    constructor ()
      ensures View() == EmptyMarket()
    {
      requests, offers, attempts, deals, queueRows := map[], map[], map[], map[], [];
      refunding, returning, gateway := {}, {}, map[];
    }

    /** releaseOfferHold */
    method ReleaseHold(target: Target)
      modifies this`requests, this`offers
      ensures View() == S.ReleaseHold(old(View()), target)
    {
      if target.ForOffer? && target.offer in offers && offers[target.offer].status == Held {
        var r := offers[target.offer].request;
        offers := offers[target.offer := offers[target.offer].(status := Pending, holdUntil := None)];
        if r in requests && requests[r].status == PaymentPending {
          requests := requests[r := requests[r].(status := Open)];
        }
      }
    }

    /** One candidate of the sweep, under its locks. */
    method ExpireAttempt(id: Id, now: nat) returns (changed: bool)
      modifies this`requests, this`offers, this`attempts
      ensures View() == S.ExpireAttempt(old(View()), id, now)
      ensures changed <==>
                id in old(attempts) && old(attempts[id]).status == AttemptPending && old(attempts[id]).expires <= now
    {
      if id !in attempts || attempts[id].status != AttemptPending || attempts[id].expires > now {
        return false;
      }
      attempts := attempts[id := attempts[id].(status := Expired)];
      ReleaseHold(attempts[id].target);
      return true;
    }

    /** expireStalePaymentAttempts over the candidates it has read. */
    method ExpireStale(candidates: seq<Id>, now: nat) returns (expired: nat)
      modifies this`requests, this`offers, this`attempts
      ensures View() == ExpireEach(old(View()), candidates, now)
      ensures expired <= |candidates|
    {
      expired := 0;
      for i := 0 to |candidates|
        invariant View() == ExpireEach(old(View()), candidates[..i], now)
        invariant expired <= i
      {
        assert candidates[..i + 1][..i] == candidates[..i];
        var changed := ExpireAttempt(candidates[i], now);
        if changed {
          expired := expired + 1;
        }
      }
      assert candidates[..|candidates|] == candidates;
    }

    /** rejectSiblingOffersAndNotify: returns the offers it turned down. */
    method RejectSiblings(request: Id, selected: Id) returns (rejected: set<Id>)
      modifies this`offers
      ensures View() == old(View()).(offers := S.RejectPending(old(offers), request, Some(selected)))
      ensures rejected == set o | o in old(offers) && old(offers)[o].request == request && o != selected
                && old(offers)[o].status == Pending
    {
      var siblings := set o | o in offers && offers[o].request == request && o != selected
          && offers[o].status == Pending;
      var todo := siblings;
      rejected := {};
      while todo != {}
        invariant todo <= siblings && rejected == siblings - todo
        invariant offers.Keys == old(offers).Keys
        invariant forall o | o in offers ::
                    offers[o] == if o in rejected then old(offers)[o].(status := Rejected, holdUntil := None)
                        else old(offers)[o]
        decreases todo
      {
        var o :| o in todo;
        offers := offers[o := offers[o].(status := Rejected, holdUntil := None)];
        rejected := rejected + {o};
        todo := todo - {o};
      }
      assert offers == S.RejectPending(old(offers), request, Some(selected));
    }

    method AcceptOffer(offer: Id) returns (rejected: set<Id>)
      requires offer in offers && offers[offer].request in requests
      modifies this`offers, this`requests
      ensures View() == S.Accept(old(View()), offer)
    {
      var r := offers[offer].request;
      offers := offers[offer := offers[offer].(status := OfferAccepted, holdUntil := None)];
      rejected := RejectSiblings(r, offer);
      requests := requests[r := requests[r].(status := InProgress)];
    }

    method MarkAttemptFailed(id: Id) returns (ok: bool)
      modifies this`requests, this`offers, this`attempts
      ensures Commits(S.MarkAttemptFailed(old(View()), id), old(View()), View(), ok)
    {
      if id !in attempts || !attempts[id].intent {
        return false;
      }
      if attempts[id].status == AttemptPending {
        attempts := attempts[id := attempts[id].(status := AttemptFailed)];
        ReleaseHold(attempts[id].target);
      }
      return true;
    }

    /** The stale attempts of one purchase, expired before a new one is prepared. */
    method ExpireFor(seeker: Id, target: Target, now: nat)
      modifies this`requests, this`offers, this`attempts
      ensures View() == S.ExpireFor(old(View()), seeker, target, now)
    {
      var stale := set a | a in attempts && S.Stale(attempts[a], seeker, target, now);
      ExpiredAreStale(View(), seeker, target, now, stale);
      ExpireAll(stale, target);
    }

    method ExpireAll(stale: set<Id>, target: Target)
      requires stale <= attempts.Keys
      modifies this`requests, this`offers, this`attempts
      ensures View() == Swept(old(View()), stale, target)
    {
      ghost var before := View();
      var todo := stale;
      ghost var done: set<Id> := {};
      assert ExpireSet(attempts, done) == attempts;
      while todo != {}
        invariant done + todo == stale && done !! todo
        invariant View() == Swept(before, done, target)
        decreases todo
      {
        var a :| a in todo;
        SweptOneMore(before, done, a, target);
        ExpireOne(a, target);
        todo, done := todo - {a}, done + {a};
      }
      assert done == stale;
    }

    method ExpireOne(id: Id, target: Target)
      requires id in attempts
      modifies this`requests, this`offers, this`attempts
      ensures View() == S.ReleaseHold(old(View()).(attempts :=
                old(attempts)[id := old(attempts)[id].(status := Expired)]), target)
    {
      attempts := attempts[id := attempts[id].(status := Expired)];
      ReleaseHold(target);
    }

    /** The prepare transaction of initiateOnlinePayment; a throw rolls its sweep back. */
    method Initiate(id: Id, seeker: Id, target: Target, now: nat, ttl: nat, allowed: bool) returns (ok: bool)
      modifies this`requests, this`offers, this`attempts
      ensures Commits(S.Initiate(old(View()), id, seeker, target, now, ttl, allowed), old(View()), View(), ok)
    {
      if id in attempts {
        return false;
      }
      var requests0, offers0, attempts0 := requests, offers, attempts;
      ExpireFor(seeker, target, now);
      if S.StillPending(attempts, seeker, target, now) {
        return true;
      }
      ok := allowed && !S.LiveDealFor(deals, seeker, target);
      if ok {
        ok := NewAttempt(id, Attempt(seeker, target, AttemptPending, now + ttl, false, false));
      }
      if !ok {
        requests, offers, attempts := requests0, offers0, attempts0;
      }
    }

    method NewAttempt(id: Id, attempt: Attempt) returns (ok: bool)
      modifies this`requests, this`offers, this`attempts
      ensures Commits(S.NewAttempt(old(View()), id, attempt), old(View()), View(), ok)
    {
      if attempt.target.ForOffer? {
        var offer := attempt.target.offer;
        if offer !in offers || offers[offer].request !in requests {
          return false;
        }
        var r := offers[offer].request;
        if offers[offer].status != Pending || requests[r].status != Open || requests[r].seeker != attempt.seeker {
          return false;
        }
        offers := offers[offer := offers[offer].(status := Held, holdUntil := Some(attempt.expires))];
        requests := requests[r := requests[r].(status := PaymentPending)];
      }
      attempts := attempts[id := attempt];
      return true;
    }

    /** finalizeSuccessfulPayment */
    method FinalizeCapture(id: Id, now: nat, matches: bool, fit: bool, withId: bool, deal: Id) returns (ok: bool)
      modifies this
      ensures Commits(S.FinalizeCapture(old(View()), id, now, matches, fit, withId, deal), old(View()), View(), ok)
    {
      if id !in attempts || !attempts[id].intent {
        return false;
      }
      var a := attempts[id];
      if (a.status == Succeeded && S.DealTaken(deals, None, Some(id))) || a.status == RefundRequired
          || a.status == AttemptRefunded {
        return true;
      }
      if !matches {
        return false;
      }
      if a.expires <= now || !fit || S.LiveDealFor(deals, a.seeker, a.target) {
        attempts := attempts[id := a.(status := RefundRequired, captured := withId)];
        ReleaseHold(a.target);
        return true;
      }
      ok := BookCapture(id, withId, deal);
    }

    /** The capture is in time and welcome: check the hold, then book it. */
    method BookCapture(id: Id, withId: bool, deal: Id) returns (ok: bool)
      requires id in attempts
      modifies this
      ensures var m := old(View());
              var a := m.attempts[id];
              Commits(if a.target.ForOffer?
                  && !S.HoldValid(m, a.target.offer, a.seeker) then Some(S.Capture(m, id, RefundRequired, withId))
                      else if a.target.ForOffer? && S.CompetingSelection(m.offers, a.target.offer) then
                        Some(S.Capture(m, id, RefundRequired, withId).(
                               offers := m.offers[a.target.offer :=
                                   m.offers[a.target.offer].(status := Rejected, holdUntil := None)]))
                      else S.CreateDeal(m, id, withId, deal), m, View(), ok)
    {
      var a := attempts[id];
      if a.target.ForOffer? {
        var o := a.target.offer;
        if o !in offers || offers[o].request !in requests || offers[o].status != Held || offers[o].holdUntil.None?
           || requests[offers[o].request].status != PaymentPending || requests[offers[o].request].seeker != a.seeker {
          attempts := attempts[id := a.(status := RefundRequired, captured := withId)];
          return true;
        }
        if S.CompetingSelection(offers, o) {
          attempts := attempts[id := a.(status := RefundRequired, captured := withId)];
          offers := offers[o := offers[o].(status := Rejected, holdUntil := None)];
          return true;
        }
      }
      ok := CreateDeal(id, withId, deal);
    }

    method CreateDeal(id: Id, withId: bool, deal: Id) returns (ok: bool)
      requires id in attempts
      requires attempts[id].target.ForOffer? ==>
                 attempts[id].target.offer in offers && offers[attempts[id].target.offer].request in requests
      modifies this
      ensures Commits(S.CreateDeal(old(View()), id, withId, deal), old(View()), View(), ok)
    {
      var a := attempts[id];
      var offer := if a.target.ForOffer? then Some(a.target.offer) else None;
      var service := if a.target.ForService? then Some(a.target.service) else None;
      if deal in deals || S.DealTaken(deals, offer, Some(id)) {
        return false;
      }
      deals := deals[deal := Deal(a.seeker, offer, service, Some(id), Live)];
      queueRows := queueRows + [deal];
      attempts := attempts[id := a.(status := Succeeded, captured := withId)];
      if a.target.ForOffer? {
        var _ := AcceptOffer(a.target.offer);
      }
      return true;
    }
  }

  function ExpireSet(attempts: map<Id, Attempt>, ids: set<Id>): map<Id, Attempt> {
    map a | a in attempts :: if a in ids then attempts[a].(status := Expired) else attempts[a]
  }

  /** The purchase's attempts in `ids` expired, and its hold let go if there were any. */
  function Swept(m: Market, ids: set<Id>, target: Target): Market {
    (if ids == {} then m else S.ReleaseHold(m, target)).(attempts := ExpireSet(m.attempts, ids))
  }

  lemma SweptOneMore(m: Market, ids: set<Id>, a: Id, target: Target)
    requires a in m.attempts && a !in ids
    ensures var n := Swept(m, ids, target);
            a in n.attempts && S.ReleaseHold(n.(attempts := n.attempts[a := n.attempts[a].(status := Expired)]),
                target) == Swept(m, ids + {a}, target)
  {
    ExpireOneMore(m.attempts, ids, a);
    ReleaseTwice(m, ExpireSet(m.attempts, ids + {a}), target);
  }

  lemma ExpireOneMore(attempts: map<Id, Attempt>, ids: set<Id>, a: Id)
    requires a in attempts && a !in ids
    ensures ExpireSet(attempts, ids + {a}) == ExpireSet(attempts, ids)[a := attempts[a].(status := Expired)]
  {
  }

  lemma ExpiredAreStale(m: Market, seeker: Id, target: Target, now: nat, stale: set<Id>)
    requires stale == set a | a in m.attempts && S.Stale(m.attempts[a], seeker, target, now)
    ensures S.ExpireFor(m, seeker, target, now) == Swept(m, stale, target)
  {
    assert ExpireSet(m.attempts, stale)
        == map a | a in m.attempts ::
            if S.Stale(m.attempts[a], seeker, target, now) then m.attempts[a].(status := Expired) else m.attempts[a];
    ReleaseTwice(m, ExpireSet(m.attempts, stale), target);
    if a :| a in m.attempts && S.Stale(m.attempts[a], seeker, target, now) {
      assert a in stale;
    }
  }

  /** A hold that has been let go stays let go. */
  lemma ReleaseTwice(m: Market, attempts: map<Id, Attempt>, target: Target)
    ensures S.ReleaseHold(S.ReleaseHold(m, target).(attempts := attempts), target)
              == S.ReleaseHold(m, target).(attempts := attempts)
    ensures S.ReleaseHold(m.(attempts := attempts), target) == S.ReleaseHold(m, target).(attempts := attempts)
  {
  }
}
