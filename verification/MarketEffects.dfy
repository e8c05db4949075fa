/** What each step of the payment, offer and request protocol requires and changes in a reachable state, told on the
    rows alone. The rows a lemma does not mention stay as they were. */
module MarketEffects {
  import opened BookingRows
  import opened MarketRows
  import opened MarketSteps
  import opened MarketInvariant
  import opened MarketRuns

  // ------------------------------------------------------------ on the rows

  /** The seeker has a live booking of the same purchase. */
  ghost predicate AlreadyBought(m: Market, seeker: Id, target: Target) {
    exists d | d in m.deals ::
      && m.deals[d].seeker == seeker && m.deals[d].progress == Live
      && (target.ForOffer? ==> m.deals[d].offer == Some(target.offer))
      && (target.ForService? ==> m.deals[d].service == Some(target.service))
  }

  /** The offer is held, and its request is the seeker's. */
  predicate HeldFor(m: Market, offer: Id, seeker: Id) {
    && offer in m.offers && m.offers[offer].status == Held
    && m.offers[offer].request in m.requests && m.requests[m.offers[offer].request].seeker == seeker
  }

  ghost predicate Booked(m: Market, attempt: Id) { exists d | d in m.deals :: m.deals[d].attempt == Some(attempt) }

  /** The offer is accepted, its pending siblings are rejected, and its request is in progress. */
  ghost predicate Won(m: Market, n: Market, offer: Id)
    requires offer in m.offers && m.offers[offer].request in m.requests
  {
    var o := m.offers[offer];
    && n.requests == m.requests[o.request := m.requests[o.request].(status := InProgress)]
    && n.offers.Keys == m.offers.Keys
    && forall p | p in m.offers ::
         n.offers[p] == if p == offer then Offer(o.request, o.provider, OfferAccepted, None)
                        else if m.offers[p].request == o.request && m.offers[p].status == Pending
                        then Offer(o.request, m.offers[p].provider, Rejected, None) else m.offers[p]
  }

  /** A held offer of the purchase is pending again and its request open; otherwise nothing is let go. */
  ghost predicate Freed(m: Market, n: Market, target: Target) {
    if target.ForOffer? && target.offer in m.offers && m.offers[target.offer].status == Held
    then var o := m.offers[target.offer];
         && o.request in m.requests && n.offers == m.offers[target.offer := Offer(o.request, o.provider, Pending, None)]
         && n.requests == m.requests[o.request := m.requests[o.request].(status := Open)]
    else n.offers == m.offers && n.requests == m.requests
  }

  lemma ReleaseFrees(m: Market, target: Target)
    requires Lockstep(m)
    ensures Freed(m, ReleaseHold(m, target), target)
    ensures ReleaseHold(m, target)
              == m.(requests := ReleaseHold(m, target).requests, offers := ReleaseHold(m, target).offers)
  {
  }

  // -------------------------------------------------------------- the capture

  /** What a notice that carries a payment for the attempt asks of the rows before it books. */
  ghost predicate Books(m: Market, id: Id, now: nat, fit: bool)
    requires id in m.attempts
  {
    var a := m.attempts[id];
    && now < a.expires && fit && !AlreadyBought(m, a.seeker, a.target)
    && (a.target.ForOffer? ==> HeldFor(m, a.target.offer, a.seeker))
  }

  /** The attempt has succeeded with one new booking of its seeker, queued last; the offer bought is accepted. */
  ghost predicate BookedBy(m: Market, n: Market, id: Id, withId: bool, deal: Id)
    requires Lockstep(m) && id in m.attempts
    requires m.attempts[id].target.ForOffer? ==> m.attempts[id].target.offer in m.offers
  {
    var a := m.attempts[id];
    && n == m.(attempts := m.attempts[id := Attempt(a.seeker, a.target, Succeeded, a.expires, a.intent, withId)],
               deals := n.deals, queueRows := m.queueRows + [deal], requests := n.requests, offers := n.offers)
    && match a.target
       case ForService(s) =>
         && n.deals == m.deals[deal := Deal(a.seeker, None, Some(s), Some(id), Live)]
         && n.offers == m.offers && n.requests == m.requests
       case ForOffer(o) =>
         n.deals == m.deals[deal := Deal(a.seeker, Some(o), None, Some(id), Live)] && Won(m, n, o)
  }

  /** The attempt owes a refund. A hold is let go when the payment came too late, was no longer fit or bought nothing
      new; one that is not the seeker's stays. */
  ghost predicate OwesRefund(m: Market, n: Market, id: Id, now: nat, fit: bool, withId: bool)
    requires id in m.attempts
  {
    var a := m.attempts[id];
    && n == m.(attempts := m.attempts[id := Attempt(a.seeker, a.target, RefundRequired, a.expires, a.intent, withId)],
               requests := n.requests, offers := n.offers)
    && (if a.expires <= now || !fit || AlreadyBought(m, a.seeker, a.target) then Freed(m, n, a.target)
        else n.offers == m.offers && n.requests == m.requests)
  }

  /** The notice has nothing to decide: no such saved intent, a decided attempt, or metadata that does not match. */
  ghost predicate NothingToDecide(m: Market, id: Id, matches: bool) {
    || id !in m.attempts || !m.attempts[id].intent || !matches
    || m.attempts[id].status in {RefundRequired, AttemptRefunded}
    || (m.attempts[id].status == Succeeded && Booked(m, id))
  }

  lemma NoticeInOrder(m: Market, id: Id, now: nat, matches: bool, fit: bool, withId: bool, deal: Id)
    requires Lockstep(m)
    ensures var n := Do(m, Finalize(id, now, matches, fit, withId, deal));
            if NothingToDecide(m, id, matches) then n == m
            else if !Books(m, id, now, fit) then OwesRefund(m, n, id, now, fit, withId)
            else if deal in m.deals || Booked(m, id) then n == m
            else BookedBy(m, n, id, withId, deal)
  {
    if !NothingToDecide(m, id, matches) {
      var a := m.attempts[id];
      BoughtMeans(m, a.seeker, a.target);
      if Books(m, id, now, fit) { NoticeBooks(m, id, now, fit, withId, deal); } else {
        NoticeRefunds(m, id, now, fit, withId, deal);
      }
    }
  }

  lemma BoughtMeans(m: Market, seeker: Id, target: Target)
    ensures AlreadyBought(m, seeker, target) <==> LiveDealFor(m.deals, seeker, target)
  {
  }

  lemma NoticeBooks(m: Market, id: Id, now: nat, fit: bool, withId: bool, deal: Id)
    requires Lockstep(m) && !NothingToDecide(m, id, true) && Books(m, id, now, fit)
    ensures var n := Do(m, Finalize(id, now, true, fit, withId, deal));
            if deal in m.deals || Booked(m, id) then n == m else BookedBy(m, n, id, withId, deal)
  {
    var a := m.attempts[id];
    BoughtMeans(m, a.seeker, a.target);
    assert FinalizeCapture(m, id, now, true, fit, withId, deal) == CreateDeal(m, id, withId, deal);
    CreateBooks(m, id, withId, deal);
  }

  lemma CreateBooks(m: Market, id: Id, withId: bool, deal: Id)
    requires Lockstep(m) && id in m.attempts
    requires m.attempts[id].target.ForOffer? ==> HeldFor(m, m.attempts[id].target.offer, m.attempts[id].seeker)
    ensures var r := CreateDeal(m, id, withId, deal);
            if deal in m.deals || Booked(m, id) then r.None? else r.Some? && BookedBy(m, r.value, id, withId, deal)
  {
    var target := m.attempts[id].target;
    var offer := if target.ForOffer? then Some(target.offer) else None;
    assert DealTaken(m.deals, offer, Some(id)) <==> Booked(m, id);
  }

  lemma NoticeRefunds(m: Market, id: Id, now: nat, fit: bool, withId: bool, deal: Id)
    requires Lockstep(m) && !NothingToDecide(m, id, true) && !Books(m, id, now, fit)
    ensures OwesRefund(m, Do(m, Finalize(id, now, true, fit, withId, deal)), id, now, fit, withId)
  {
    var a := m.attempts[id];
    BoughtMeans(m, a.seeker, a.target);
    ReleaseFrees(Capture(m, id, RefundRequired, withId), a.target);
  }

  /** A notice of a captured payment books exactly when it comes in time and fit for a purchase not made yet, and, for
      an offer, finds it held on a request of the same seeker; otherwise it orders the refund. In every reachable
      state the booking is one new live row of that seeker and attempt, queued last, the offer accepted, its pending
      siblings rejected and its request in progress. */
  lemma NoticeOutcome(steps: seq<Step>, id: Id, now: nat, matches: bool, fit: bool, withId: bool, deal: Id)
    ensures Lockstep(After(steps))
    ensures var m := After(steps);
            var n := Do(m, Finalize(id, now, matches, fit, withId, deal));
            if NothingToDecide(m, id, matches) then n == m
            else if !Books(m, id, now, fit) then OwesRefund(m, n, id, now, fit, withId)
            else if deal in m.deals || Booked(m, id) then n == m
            else BookedBy(m, n, id, withId, deal)
  {
    AfterIsInStep(steps);
    NoticeInOrder(After(steps), id, now, matches, fit, withId, deal);
  }

  // ------------------------------------------------------------- the checkout

  /** A pending attempt of the same purchase whose time is over, and one whose time is not. */
  predicate Overdue(m: Market, x: Id, seeker: Id, target: Target, now: nat) {
    && x in m.attempts && m.attempts[x].seeker == seeker && m.attempts[x].target == target
    && m.attempts[x].status == AttemptPending && m.attempts[x].expires <= now
  }

  predicate Timely(m: Market, x: Id, seeker: Id, target: Target, now: nat) {
    && x in m.attempts && m.attempts[x].seeker == seeker && m.attempts[x].target == target
    && m.attempts[x].status == AttemptPending && now < m.attempts[x].expires
  }

  ghost predicate SomeOverdue(m: Market, seeker: Id, target: Target, now: nat) {
    exists x :: Overdue(m, x, seeker, target, now)
  }

  /** Overdue attempts of the purchase have expired, and their hold is let go. */
  ghost predicate Swept(m: Market, n: Market, seeker: Id, target: Target, now: nat) {
    && n.attempts.Keys == m.attempts.Keys
    && (forall x | x in m.attempts ::
          n.attempts[x] == if Overdue(m, x, seeker, target, now) then m.attempts[x].(status := Expired)
              else m.attempts[x])
    && n == m.(attempts := n.attempts, requests := n.requests, offers := n.offers)
    && (if SomeOverdue(m, seeker, target, now) then Freed(m, n, target)
        else n.offers == m.offers && n.requests == m.requests)
  }

  lemma SweepEffect(m: Market, seeker: Id, target: Target, now: nat)
    requires Lockstep(m)
    ensures Swept(m, ExpireFor(m, seeker, target, now), seeker, target, now)
  {
    var expired := m.(attempts := map x | x in m.attempts ::
                        if Stale(m.attempts[x], seeker, target, now) then m.attempts[x].(status := Expired)
                        else m.attempts[x]);
    OverdueIsStale(m, seeker, target, now);
    ReleaseFrees(expired, target);
    assert ExpireFor(m, seeker, target, now)
        == if SomeOverdue(m, seeker, target, now) then ReleaseHold(expired, target) else expired;
  }

  lemma OverdueIsStale(m: Market, seeker: Id, target: Target, now: nat)
    ensures SomeOverdue(m, seeker, target, now)
            <==> exists x | x in m.attempts :: Stale(m.attempts[x], seeker, target, now)
    ensures forall x | x in m.attempts :: Stale(m.attempts[x], seeker, target, now) <==>
              Overdue(m, x, seeker, target, now)
  {
    if x :| Overdue(m, x, seeker, target, now) { assert Stale(m.attempts[x], seeker, target, now); }
    if x :| x in m.attempts && Stale(m.attempts[x], seeker, target, now) { assert Overdue(m, x, seeker, target, now); }
  }

  /** The sweep touches no attempt that is in time and no booking. */
  lemma SweepSpares(m: Market, n: Market, seeker: Id, target: Target, now: nat)
    requires Swept(m, n, seeker, target, now)
    ensures LiveDealFor(n.deals, seeker, target) <==> AlreadyBought(m, seeker, target)
    ensures StillPending(n.attempts, seeker, target, now) <==> exists x :: Timely(m, x, seeker, target, now)
  {
    BoughtMeans(m, seeker, target);
    if x :| Timely(m, x, seeker, target, now) { assert n.attempts[x] == m.attempts[x]; }
    if x :| x in n.attempts && n.attempts[x].seeker == seeker && n.attempts[x].target == target
            && n.attempts[x].status == AttemptPending && n.attempts[x].expires > now {
      assert Timely(m, x, seeker, target, now);
    }
  }

  /** The offer can be held for the seeker: it is pending on an open request of theirs, or about to be let go. */
  ghost predicate Holdable(m: Market, offer: Id, seeker: Id, overdue: bool) {
    && offer in m.offers && m.offers[offer].request in m.requests
    && m.requests[m.offers[offer].request].seeker == seeker
    && ((m.offers[offer].status == Pending && m.requests[m.offers[offer].request].status == Open)
        || (m.offers[offer].status == Held && overdue))
  }

  /** The new attempt is pending until its time is over; an offer is held as long for it, its request awaits payment. */
  ghost predicate Placed(m: Market, n: Market, id: Id, attempt: Attempt) {
    && n == m.(attempts := m.attempts[id := attempt], requests := n.requests, offers := n.offers)
    && match attempt.target
       case ForService(_) => n.offers == m.offers && n.requests == m.requests
       case ForOffer(o) =>
         && o in m.offers && m.offers[o].request in m.requests
         && n.offers == m.offers[o := Offer(m.offers[o].request, m.offers[o].provider, Held, Some(attempt.expires))]
         && n.requests == m.requests[m.offers[o].request :=
              m.requests[m.offers[o].request].(status := PaymentPending)]
  }

  lemma CheckoutInOrder(m: Market, id: Id, seeker: Id, target: Target, now: nat, ttl: nat, allowed: bool)
    requires Lockstep(m)
    ensures var n := Do(m, Start(id, seeker, target, now, ttl, allowed));
            if id in m.attempts then n == m
            else if exists x :: Timely(m, x, seeker, target, now) then Swept(m, n, seeker, target, now)
            else if && allowed && !AlreadyBought(m, seeker, target)
                    && (target.ForOffer? ==>
                          Holdable(m, target.offer, seeker, SomeOverdue(m, seeker, target, now)))
            then exists swept :: Swept(m, swept, seeker, target, now)
                   && Placed(swept, n, id, Attempt(seeker, target, AttemptPending, now + ttl, false, false))
            else n == m
  {
    SweepEffect(m, seeker, target, now);
    var swept := ExpireFor(m, seeker, target, now);
    SweepSpares(m, swept, seeker, target, now);
    if id !in m.attempts && !(exists x :: Timely(m, x, seeker, target, now)) {
      CheckoutPlaces(m, swept, id, seeker, target, now, ttl);
    }
  }

  lemma CheckoutPlaces(m: Market, swept: Market, id: Id, seeker: Id, target: Target, now: nat, ttl: nat)
    requires Lockstep(m) && Swept(m, swept, seeker, target, now)
    ensures var attempt := Attempt(seeker, target, AttemptPending, now + ttl, false, false);
            var r := NewAttempt(swept, id, attempt);
            if target.ForService? || Holdable(m, target.offer, seeker, SomeOverdue(m, seeker, target, now))
            then r.Some? && Placed(swept, r.value, id, attempt) else r.None?
  {
    PlacedEffect(swept, id, Attempt(seeker, target, AttemptPending, now + ttl, false, false));
    if target.ForOffer? { HoldableOnceSwept(m, swept, target.offer, seeker, now); }
  }

  lemma PlacedEffect(m: Market, id: Id, attempt: Attempt)
    ensures var r := NewAttempt(m, id, attempt);
            if attempt.target.ForService? || Holdable(m, attempt.target.offer, attempt.seeker, false)
            then r.Some? && Placed(m, r.value, id, attempt) else r.None?
  {
  }

  lemma HoldableOnceSwept(m: Market, swept: Market, offer: Id, seeker: Id, now: nat)
    requires Lockstep(m) && Swept(m, swept, seeker, ForOffer(offer), now)
    ensures Holdable(swept, offer, seeker, false)
            <==> Holdable(m, offer, seeker, SomeOverdue(m, seeker, ForOffer(offer), now))
  {
  }

  // --------------------------------------------------------------- attempts

  /** The attempt gets the status and its hold is let go. */
  ghost predicate Ended(m: Market, n: Market, id: Id, status: AttemptStatus) {
    && id in m.attempts && n.attempts == m.attempts[id := m.attempts[id].(status := status)]
    && n == m.(attempts := n.attempts, requests := n.requests, offers := n.offers)
    && Freed(m, n, m.attempts[id].target)
  }

  /** Saving the intent and the error write look at nothing. */
  lemma AttemptInOrder(m: Market, id: Id)
    requires Lockstep(m)
    ensures Do(m, Save(id))
              == if id in m.attempts then m.(attempts := m.attempts[id := m.attempts[id].(intent := true)])
                               else m
    ensures if id in m.attempts then Ended(m, Do(m, Error(id)), id, AttemptFailed) else Do(m, Error(id)) == m
  {
    if id in m.attempts {
      EndsAttempt(m, id, AttemptFailed);
    }
  }

  lemma EndsAttempt(m: Market, id: Id, status: AttemptStatus)
    requires Lockstep(m) && id in m.attempts
    ensures Ended(m, ReleaseHold(SetAttempt(m, id, status), m.attempts[id].target), id, status)
  {
    ReleaseFrees(SetAttempt(m, id, status), m.attempts[id].target);
  }

  /** A failure notice looks at the status, an expiry at the clock too. */
  lemma AttemptGivenUp(m: Market, id: Id, now: nat)
    requires Lockstep(m)
    ensures if id in m.attempts && m.attempts[id].intent && m.attempts[id].status == AttemptPending
            then Ended(m, Do(m, Fail(id)), id, AttemptFailed) else Do(m, Fail(id)) == m
    ensures if id in m.attempts && m.attempts[id].status == AttemptPending && m.attempts[id].expires <= now
            then Ended(m, Do(m, Expire(id, now)), id, Expired) else Do(m, Expire(id, now)) == m
  {
    if id in m.attempts {
      EndsAttempt(m, id, AttemptFailed);
      EndsAttempt(m, id, Expired);
    }
  }

  // --------------------------------------------------------------- requests

  predicate OfRequest(m: Market, d: Deal, r: Id) {
    d.offer.Some? && d.offer.value in m.offers && m.offers[d.offer.value].request == r
  }

  /** A booking from one of its offers that was neither called off nor turned down. */
  ghost predicate HasBooking(m: Market, r: Id) {
    exists d | d in m.deals :: OfRequest(m, m.deals[d], r) && m.deals[d].progress in {Live, Finished}
  }

  /** A payment for one of its offers that is pending, settled or waiting for its refund. */
  ghost predicate HasPayment(m: Market, r: Id) {
    exists a | a in m.attempts ::
      && m.attempts[a].target.ForOffer? && m.attempts[a].target.offer in m.offers
      && m.offers[m.attempts[a].target.offer].request == r
      && m.attempts[a].status in {AttemptPending, Succeeded, RefundRequired}
  }

  lemma RequestMeans(m: Market, r: Id)
    ensures Matched(m, r) <==> HasBooking(m, r)
    ensures PaymentInTheWay(m, r) <==> HasPayment(m, r)
  {
    forall d | d in m.deals
      ensures m.deals[d].progress in {Live, Finished} <==>
                m.deals[d].progress != CalledOff && m.deals[d].progress != TurnedDown {}
  }

  /** The request's pending offers are rejected. */
  ghost predicate OffersTurnedDown(m: Market, n: Market, r: Id) {
    && n.offers.Keys == m.offers.Keys
    && forall o | o in m.offers ::
         n.offers[o] == if m.offers[o].request == r && m.offers[o].status == Pending
                        then Offer(r, m.offers[o].provider, Rejected, None) else m.offers[o]
  }

  lemma RequestSteps(m: Market, id: Id, seeker: Id, targeted: bool, closes: bool)
    requires Lockstep(m)
    ensures Do(m, Post(id, seeker, targeted, closes))
              == if id in m.requests then m
                 else m.(requests := m.requests[id := Request(seeker, Open, targeted, closes, false)])
    ensures Do(m, Pause(id))
              == if id in m.requests && m.requests[id].status == Open
                 then m.(requests := m.requests[id := m.requests[id].(status := Closed)]) else m
    ensures Do(m, Reopen(id))
              == if id in m.requests && m.requests[id].status == Closed && !HasBooking(m, id) && !HasPayment(m, id)
                 then m.(requests := m.requests[id := m.requests[id].(status := Open)]) else m
  {
    RequestMeans(m, id);
  }

  lemma RequestAnswers(m: Market, id: Id)
    requires Lockstep(m)
    ensures Do(m, Decline(id))
              == if id in m.requests && m.requests[id].targeted && m.requests[id].status == Open
                    && !(exists o | o in m.offers ::
                           m.offers[o].request == id && m.offers[o].status in {Pending, Held, OfferAccepted})
                 then m.(requests := m.requests[id := m.requests[id].(status := RequestCanceled)]) else m
    ensures Do(m, Revive(id))
              == if id in m.requests && !m.requests[id].targeted && m.requests[id].removed && !HasPayment(m, id)
                 then m.(requests := m.requests[id := m.requests[id].(status := Open, removed := false)]) else m
  {
    RequestMeans(m, id);
    if id in m.requests && m.requests[id].removed { OpenHasNoSelection(m, id); }
  }

  /** A request is deleted exactly when it is open and no payment is in the way; an administrator removes it, open or
      paused, exactly when neither a booking nor a payment is. */
  lemma RequestEnds(m: Market, id: Id)
    requires Lockstep(m)
    ensures var n := Do(m, Delete(id));
            if id in m.requests && m.requests[id].status == Open && !HasPayment(m, id)
            then && n == m.(requests := m.requests[id := m.requests[id].(status := RequestCanceled)],
                offers := n.offers)
                 && OffersTurnedDown(m, n, id)
            else n == m
    ensures var n := Do(m, Remove(id));
            if && id in m.requests && !m.requests[id].targeted && m.requests[id].status in {Open, Closed}
               && !HasBooking(m, id) && !HasPayment(m, id)
            then && n == m.(requests := m.requests[id := m.requests[id].(status := RequestCanceled, removed := true)],
                            offers := n.offers)
                 && OffersTurnedDown(m, n, id)
            else n == m
  {
    RequestMeans(m, id);
    if id in m.requests && m.requests[id].status == Open {
      OpenHasNoSelection(m, id);
      assert !SomeDeal(m, id, false) && !SomeDeal(m, id, true);
    }
  }

  /** The reason a deletion is refused, read off the request: completed before everything; then where its status says
      that work or a payment is under way; paused or withdrawn only when no payment is in the way. */
  lemma DeletionReason(m: Market, id: Id)
    requires Lockstep(m) && id in m.requests
    ensures DeletionEligibility(m, id)
              == if exists d | d in m.deals :: OfRequest(m, m.deals[d], id) && m.deals[d].progress == Finished
                 then CompletedBooking
                 else match m.requests[id].status
                      case InProgress => ActiveBooking
                      case PaymentPending => PaymentInProgress
                      case Open => if HasPayment(m, id) then PaymentInProgress else Deletable
                      case Closed => if HasPayment(m, id) then PaymentInProgress else Paused
                      case RequestCanceled =>
                        if exists o | o in m.offers :: m.offers[o].request == id && m.offers[o].status == OfferAccepted
                        then AcceptedOffer else if HasPayment(m, id) then PaymentInProgress else NotOpen
  {
    RequestMeans(m, id);
    ReasonFacts(m, id);
  }

  lemma ReasonFacts(m: Market, id: Id)
    requires Lockstep(m) && id in m.requests
    ensures SomeDeal(m, id, false) <==>
              exists d | d in m.deals :: OfRequest(m, m.deals[d], id) && m.deals[d].progress == Finished
    ensures SomeDeal(m, id, true) && !SomeDeal(m, id, false) ==> m.requests[id].status == InProgress
    ensures SomeOffer(m.offers, id, Held) ==> m.requests[id].status == PaymentPending
    ensures SomeOffer(m.offers, id, OfferAccepted) && !SomeDeal(m, id, false) ==>
              m.requests[id].status in {InProgress, RequestCanceled}
  {
    if SomeOffer(m.offers, id, OfferAccepted) {
      var o :| o in m.offers && m.offers[o].request == id && m.offers[o].status == OfferAccepted;
      var d :| d in m.deals && m.deals[d].offer == Some(o);
      assert OfRequest(m, m.deals[d], id);
    }
  }

  // ----------------------------------------------------- offers and bookings

  lemma OfferSteps(m: Market, id: Id, request: Id, provider: Id, byProvider: bool)
    requires Lockstep(m)
    ensures Do(m, Submit(id, request, provider))
              == if id !in m.offers && request in m.requests && m.requests[request].status == Open
                    && !(exists o | o in m.offers :: m.offers[o].request == request && m.offers[o].provider == provider
                           && m.offers[o].status in {Pending, Held, OfferAccepted})
                 then m.(offers := m.offers[id := Offer(request, provider, Pending, None)]) else m
    ensures var n := Do(m, Reject(id, byProvider));
            if id in m.offers && m.offers[id].status == Pending && m.requests[m.offers[id].request].status == Open
            then var r := m.offers[id].request;
                 n == m.(offers := m.offers[id := m.offers[id].(status := if byProvider then Withdrawn else Rejected)],
                         requests := if m.requests[r].closesOnReject
                                     then m.requests[r := m.requests[r].(status := RequestCanceled)] else m.requests)
            else n == m
  {
    if request in m.requests && m.requests[request].status == Open {
      OpenHasNoSelection(m, request);
      assert !Matched(m, request);
    }
  }

  lemma CashSteps(m: Market, id: Id, deal: Id)
    requires Lockstep(m)
    ensures var n := Do(m, TakeCash(id, deal));
            if && id in m.offers && deal !in m.deals && m.offers[id].status == Pending
               && m.requests[m.offers[id].request].status == Open
            then && Won(m, n, id)
                 && n == m.(deals :=
                      m.deals[deal := Deal(m.requests[m.offers[id].request].seeker, Some(id), None, None, Live)],
                            offers := n.offers, requests := n.requests)
            else n == m
  {
    if id in m.offers && m.offers[id].status == Pending {
      assert !DealTaken(m.deals, Some(id), None);
      AcceptWins(m, id);
    }
  }

  lemma AcceptWins(m: Market, id: Id)
    requires id in m.offers && m.offers[id].request in m.requests
    ensures Won(m, Accept(m, id), id)
    ensures Accept(m, id) == m.(offers := Accept(m, id).offers, requests := Accept(m, id).requests)
  {
  }

  lemma ServiceBooked(m: Market, deal: Id, seeker: Id, service: Id)
    ensures Do(m, BookCash(deal, seeker, service))
              == if deal in m.deals then m
                 else m.(deals := m.deals[deal := Deal(seeker, None, Some(service), None, Live)])
  {
  }

  /** How a booking ends, and what becomes of the request it came from. */
  ghost predicate DealEnded(m: Market, n: Market, deal: Id, progress: Progress, request: RequestStatus)
    requires Lockstep(m) && deal in m.deals
  {
    var d := m.deals[deal];
    && n == m.(deals := m.deals[deal := d.(progress := progress)], requests := n.requests)
    && n.requests == (if d.offer.None? then m.requests
                      else var r := m.offers[d.offer.value].request;
                           m.requests[r := m.requests[r].(status := request)])
  }

  lemma DealSteps(m: Market, deal: Id)
    requires Lockstep(m)
    ensures if deal in m.deals && m.deals[deal].progress == Live
            then DealEnded(m, Do(m, Complete(deal)), deal, Finished, Closed) else Do(m, Complete(deal)) == m
  {
  }

  lemma DealCalledOff(m: Market, deal: Id)
    requires Lockstep(m)
    ensures if deal in m.deals && m.deals[deal].progress in {Live, CalledOff}
               && (m.deals[deal].attempt.Some? ==> BookingKey(deal) in m.gateway)
            then DealEnded(m, Do(m, Cancel(deal)), deal, CalledOff, RequestCanceled) else Do(m, Cancel(deal)) == m
    ensures if deal in m.deals && m.deals[deal].progress == Live && m.deals[deal].offer.None?
               && m.deals[deal].attempt.None?
            then Do(m, TurnDown(deal)) == m.(deals := m.deals[deal := m.deals[deal].(progress := TurnedDown)])
            else Do(m, TurnDown(deal)) == m
  {
  }

  // ----------------------------------------------------------------- refunds

  /** A refund key known to the gateway keeps the refund it has. */
  lemma RefundStepsInOrder(m: Market, id: Id, mint: Id)
    ensures Do(m, RefundBegin(id))
              == if id in m.attempts && m.attempts[id].status == RefundRequired && m.attempts[id].captured
                 then m.(refunding := m.refunding + {id}) else m
    ensures Do(m, RefundSend(id, mint))
              == if id in m.refunding && AttemptKey(id) !in m.gateway
                 then m.(gateway := m.gateway[AttemptKey(id) := Slip(mint, id)]) else m
    ensures Do(m, RefundEnd(id))
              == if AttemptKey(id) in m.gateway && id in m.attempts
                 then m.(attempts := m.attempts[id := m.attempts[id].(status := AttemptRefunded)]) else m
  {
  }

  lemma ReturnStepsInOrder(m: Market, deal: Id, mint: Id)
    ensures Do(m, ReturnBegin(deal))
              == if deal in m.deals && m.deals[deal].attempt.Some? && m.deals[deal].progress == Live
                 then m.(returning := m.returning + {deal}) else m
    ensures Do(m, ReturnSend(deal, mint))
              == if deal in m.returning && deal in m.deals && m.deals[deal].attempt.Some?
                  && BookingKey(deal) !in m.gateway
                 then m.(gateway := m.gateway[BookingKey(deal) := Slip(mint, m.deals[deal].attempt.value)]) else m
  {
    assert deal in m.returning ==> m.returning + {deal} == m.returning;
  }

  // ------------------------------------------------------- an offer is bought

  function OfferBought(): seq<Step> {
    [Post(0, 1, false, false), Submit(0, 0, 2), Start(0, 1, ForOffer(0), 0, 10, true), Save(0),
     Finalize(0, 1, true, true, true, 0)]
  }

  function OfferMarket(request: RequestStatus, offer: Offer, attempt: Attempt): Market {
    EmptyMarket().(requests := map[0 := Request(1, request, false, false, false)], offers := map[0 := offer],
                   attempts := map[0 := attempt])
  }

  /** A request, its one offer, a checkout and a notice in time: the offer is accepted and booked. */
  lemma OfferIsBought()
    ensures After(OfferBought()) == OfferBooked()
  {
    var s := OfferBought();
    OfferHeld(s);
    HeldIsBought(s);
    RunFiveInOrder(EmptyMarket(), s);
  }

  function OfferBooked(): Market {
    OfferMarket(InProgress, Offer(0, 2, OfferAccepted, None), Attempt(1, ForOffer(0), Succeeded, 10, true, true))
    .(deals := map[0 := Deal(1, Some(0), None, Some(0), Live)], queueRows := [0])
  }

  lemma HeldIsBought(s: seq<Step>)
    requires s == OfferBought()
    ensures var held := OfferMarket(PaymentPending, Offer(0, 2, Held, Some(10)),
                                    Attempt(1, ForOffer(0), AttemptPending, 10, false, false));
            Do(Do(held, s[3]), s[4]) == OfferBooked()
  {
    var held := OfferMarket(PaymentPending, Offer(0, 2, Held, Some(10)),
                            Attempt(1, ForOffer(0), AttemptPending, 10, false, false));
    var saved := held.(attempts := map[0 := Attempt(1, ForOffer(0), AttemptPending, 10, true, false)]);
    assert Do(held, s[3]) == saved;
    SavedIsBought(saved);
    assert Do(saved, s[4]) == CreateDeal(saved, 0, true, 0).value;
  }

  lemma SavedIsBought(saved: Market)
    requires saved == OfferMarket(PaymentPending, Offer(0, 2, Held, Some(10)),
                                  Attempt(1, ForOffer(0), AttemptPending, 10, true, false))
    ensures CreateDeal(saved, 0, true, 0) == Some(OfferBooked())
  {
    var r := CreateDeal(saved, 0, true, 0).value;
    assert r.offers == OfferBooked().offers && r.requests == OfferBooked().requests;
    assert r.attempts == OfferBooked().attempts && r.deals == OfferBooked().deals && r.queueRows == [0];
  }

  lemma RunFiveInOrder(m: Market, s: seq<Step>)
    requires |s| == 5
    ensures Run(m, s) == Do(Do(Do(Do(Do(m, s[0]), s[1]), s[2]), s[3]), s[4])
  {
    RunThree(m, s[..3]);
    RunSplits(m, s[..3], s[3..]);
    RunTwo(Run(m, s[..3]), s[3..]);
    assert s[..3] + s[3..] == s;
  }

  lemma RunTwo(m: Market, s: seq<Step>)
    requires |s| == 2
    ensures Run(m, s) == Do(Do(m, s[0]), s[1])
  {
    assert Run(Do(m, s[0]), s[1..]) == Run(Do(Do(m, s[0]), s[1]), s[2..]);
  }

  lemma OfferHeld(s: seq<Step>)
    requires s == OfferBought()
    ensures Do(Do(Do(EmptyMarket(), s[0]), s[1]), s[2])
              == OfferMarket(PaymentPending, Offer(0, 2, Held, Some(10)),
                             Attempt(1, ForOffer(0), AttemptPending, 10, false, false))
  {
    var posted := Do(EmptyMarket(), s[0]);
    assert posted == EmptyMarket().(requests := map[0 := Request(1, Open, false, false, false)]);
    var offered := Do(posted, s[1]);
    assert offered == posted.(offers := map[0 := Offer(0, 2, Pending, None)]);
  }
}
