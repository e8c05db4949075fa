/** What every step of the payment, offer and request protocol keeps. */
module MarketInvariant {
  import opened BookingRows
  import opened MarketRows
  import opened MarketSteps

  /** A held offer's request waits for payment; an accepted offer's request is matched or over. */
  ghost predicate OffersFit(requests: map<Id, Request>, offers: map<Id, Offer>) {
    forall o | o in offers ::
      && offers[o].request in requests
      && (offers[o].status == Held ==>
            requests[offers[o].request].status == PaymentPending && offers[o].holdUntil.Some?)
      && (offers[o].status == OfferAccepted ==>
            requests[offers[o].request].status in {InProgress, Closed, RequestCanceled}
                && !requests[offers[o].request].removed)
  }

  ghost predicate OneSelection(offers: map<Id, Offer>) {
    forall o, p | o in offers && p in offers && offers[o].request == offers[p].request && offers[o].Selected()
        && offers[p].Selected() :: o == p
  }

  ghost predicate RequestsFit(requests: map<Id, Request>, offers: map<Id, Offer>) {
    forall r | r in requests ::
      && (requests[r].status == PaymentPending ==> SomeOffer(offers, r, Held))
      && (requests[r].status == InProgress ==> SomeOffer(offers, r, OfferAccepted))
      && (requests[r].removed ==> requests[r].status == RequestCanceled)
  }

  /** The request status that belongs to a booking made from one of its offers. */
  function Mirror(p: Progress): RequestStatus {
    match p
    case Live => InProgress
    case Finished => Closed
    case CalledOff => RequestCanceled
    case TurnedDown => RequestCanceled
  }

  ghost predicate DealsFit(requests: map<Id, Request>, offers: map<Id, Offer>, deals: map<Id, Deal>) {
    forall d | d in deals && deals[d].offer.Some? ::
      var o := deals[d].offer.value;
      && o in offers && offers[o].status == OfferAccepted
      && offers[o].request in requests && requests[offers[o].request].status == Mirror(deals[d].progress)
  }

  ghost predicate OneDeal(deals: map<Id, Deal>) {
    forall d, e | d in deals && e in deals && d != e ::
      && (deals[d].offer.Some? ==> deals[d].offer != deals[e].offer)
      && (deals[d].attempt.Some? ==> deals[d].attempt != deals[e].attempt)
  }

  ghost predicate AcceptedBooked(offers: map<Id, Offer>, deals: map<Id, Deal>) {
    forall o | o in offers && offers[o].status == OfferAccepted :: exists d | d in deals :: deals[d].offer == Some(o)
  }

  /** One queue row per paid booking. */
  ghost predicate QueueFits(deals: map<Id, Deal>, rows: seq<Id>) {
    && (forall d :: d in rows <==> d in deals && deals[d].attempt.Some?)
    && (forall i, j | 0 <= i < j < |rows| :: rows[i] != rows[j])
  }

  ghost predicate Lockstep(m: Market) {
    && OffersFit(m.requests, m.offers)
    && OneSelection(m.offers)
    && RequestsFit(m.requests, m.offers)
    && DealsFit(m.requests, m.offers, m.deals)
    && OneDeal(m.deals)
    && AcceptedBooked(m.offers, m.deals)
    && QueueFits(m.deals, m.queueRows)
  }

  /** What never changes back. */
  ghost predicate Onward(a: Market, b: Market) {
    && (forall o | o in a.offers :: o in b.offers && b.offers[o].request == a.offers[o].request
                                     && (a.offers[o].status == OfferAccepted ==> b.offers[o].status == OfferAccepted))
    && (forall d | d in a.deals ::
          d in b.deals && b.deals[d].offer == a.deals[d].offer && b.deals[d].attempt == a.deals[d].attempt
                                    && (a.deals[d].progress != Live ==> b.deals[d].progress == a.deals[d].progress))
    && a.queueRows <= b.queueRows
    && (forall k | k in a.gateway :: k in b.gateway && b.gateway[k] == a.gateway[k])
  }

  ghost predicate Keeps(m: Market, r: Option<Market>) {
    Lockstep(m) && r.Some? ==> Lockstep(r.value) && Onward(m, r.value)
  }

  // ------------------------------------------------- moves of a request

  /** A request none of whose offers is selected may take any unselected status. */
  lemma IdleRequestMoves(m: Market, id: Id, r: Request)
    requires Lockstep(m) && id in m.requests && m.requests[id].status !in {PaymentPending, InProgress}
    requires !SomeOffer(m.offers, id, OfferAccepted)
    requires r.status in {Open, Closed, RequestCanceled} && (r.removed ==> r.status == RequestCanceled)
    ensures Lockstep(m.(requests := m.requests[id := r])) && Onward(m, m.(requests := m.requests[id := r]))
  {
  }

  lemma OpenHasNoSelection(m: Market, id: Id)
    requires Lockstep(m) && id in m.requests
    requires m.requests[id].status == Open || m.requests[id].removed
               || (m.requests[id].status == Closed && !Matched(m, id))
    ensures !SomeOffer(m.offers, id, OfferAccepted) && !SomeOffer(m.offers, id, Held)
  {
  }

  /** The same offers are selected, held until the same time; others may have been closed or freed. */
  ghost predicate SameSelections(a: map<Id, Offer>, b: map<Id, Offer>) {
    && a.Keys <= b.Keys
    && (forall o | o in a :: b[o].request == a[o].request && (a[o].Selected() ==> b[o] == a[o]))
    && (forall o | o in b && b[o].Selected() :: o in a && a[o].Selected())
  }

  lemma SelectionsSeen(a: map<Id, Offer>, b: map<Id, Offer>, r: Id)
    requires SameSelections(a, b)
    ensures SomeOffer(a, r, Held) <==> SomeOffer(b, r, Held)
    ensures SomeOffer(a, r, OfferAccepted) <==> SomeOffer(b, r, OfferAccepted)
  {
    forall o | o in a && a[o].Selected() ensures o in b && b[o] == a[o] {}
    forall o | o in b && b[o].Selected() ensures o in a && b[o] == a[o] {}
  }

  lemma CalmOffersKeep(m: Market, offers: map<Id, Offer>)
    requires Lockstep(m) && SameSelections(m.offers, offers)
    requires forall o | o in offers :: offers[o].request in m.requests
    ensures Lockstep(m.(offers := offers)) && Onward(m, m.(offers := offers))
  {
    forall r | r in m.requests
      ensures SomeOffer(m.offers, r, Held) <==> SomeOffer(offers, r, Held)
      ensures SomeOffer(m.offers, r, OfferAccepted) <==> SomeOffer(offers, r, OfferAccepted)
    {
      SelectionsSeen(m.offers, offers, r);
    }
  }

  lemma RejectPendingIsCalm(offers: map<Id, Offer>, request: Id, except: Option<Id>)
    ensures SameSelections(offers, RejectPending(offers, request, except))
  {
  }

  /** Close a request nobody has selected an offer of, with its pending offers. */
  lemma WithdrawnRequestKeeps(m: Market, id: Id, r: Request)
    requires Lockstep(m) && id in m.requests
               && (m.requests[id].status == Open || (m.requests[id].status == Closed && !Matched(m, id)))
    requires r.status == RequestCanceled
    ensures var d := m.(requests := m.requests[id := r], offers := RejectPending(m.offers, id, None));
              Lockstep(d) && Onward(m, d)
  {
    OpenHasNoSelection(m, id);
    var d := m.(requests := m.requests[id := r]);
    IdleRequestMoves(m, id, r);
    RejectPendingIsCalm(d.offers, id, None);
    CalmOffersKeep(d, RejectPending(d.offers, id, None));
  }

  lemma NewRequestKeeps(m: Market, id: Id, r: Request)
    requires Lockstep(m) && id !in m.requests && r.status == Open && !r.removed
    ensures var d := m.(requests := m.requests[id := r]); Lockstep(d) && Onward(m, d)
  {
  }

  lemma RequestStepKeeps(m: Market, s: Step)
    requires Lockstep(m) && (s.Post? || s.Pause? || s.Reopen? || s.Delete? || s.Remove? || s.Revive? || s.Decline?)
    ensures Keeps(m, Attempted(m, s))
  {
    var result := Attempted(m, s);
    if result.Some? {
      if s.Post? {
        NewRequestKeeps(m, s.id, result.value.requests[s.id]);
      } else if s.Delete? || s.Remove? {
        WithdrawnRequestKeeps(m, s.id, result.value.requests[s.id]);
      } else if result.value != m {
        OpenHasNoSelection(m, s.id);
        IdleRequestMoves(m, s.id, result.value.requests[s.id]);
      }
    }
  }

  // ---------------------------------------------------- moves of an offer

  lemma SubmitKeeps(m: Market, id: Id, request: Id, provider: Id)
    requires Lockstep(m)
    ensures Keeps(m, SubmitOffer(m, id, request, provider))
  {
    if SubmitOffer(m, id, request, provider).Some? {
      CalmOffersKeep(m, m.offers[id := Offer(request, provider, Pending, None)]);
    }
  }

  lemma RejectKeeps(m: Market, id: Id, byProvider: bool)
    requires Lockstep(m)
    ensures Keeps(m, RejectOffer(m, id, byProvider))
  {
    var result := RejectOffer(m, id, byProvider);
    if result.Some? {
      var o := m.offers[id];
      var offers := m.offers[id := o.(status := if byProvider then Withdrawn else Rejected)];
      CalmOffersKeep(m, offers);
      if m.requests[o.request].closesOnReject {
        var d := m.(offers := offers);
        OpenHasNoSelection(d, o.request);
        IdleRequestMoves(d, o.request, m.requests[o.request].(status := RequestCanceled));
      }
    }
  }

  /** Letting go of the only hold of a request reopens it. */
  lemma ReleaseKeeps(m: Market, target: Target)
    requires Lockstep(m)
    ensures Lockstep(ReleaseHold(m, target)) && Onward(m, ReleaseHold(m, target))
    ensures ReleaseHold(m, target)
              == m.(requests := ReleaseHold(m, target).requests, offers := ReleaseHold(m, target).offers)
  {
    if target.ForOffer? && target.offer in m.offers && m.offers[target.offer].status == Held {
      FreedKeeps(m, target.offer);
    }
  }

  lemma FreedKeeps(m: Market, offer: Id)
    requires Lockstep(m) && offer in m.offers && m.offers[offer].status == Held
    ensures var o := m.offers[offer];
            && o.request in m.requests && m.requests[o.request].status == PaymentPending
            && var d := SetRequest(m, o.request,
                 Open).(offers := m.offers[offer := o.(status := Pending, holdUntil := None)]);
               Lockstep(d) && Onward(m, d)
  {
    var o := m.offers[offer].(status := Pending, holdUntil := None);
    var d := SetRequest(m, o.request, Open).(offers := m.offers[offer := o]);
    FreedRequestsFit(m, offer, d);
    UnmatchedAside(m, offer, o, Open);
  }

  /** An offer that is not accepted, and whose request is not matched, may change with its request. */
  lemma UnmatchedAside(m: Market, offer: Id, o: Offer, status: RequestStatus)
    requires DealsFit(m.requests, m.offers, m.deals) && AcceptedBooked(m.offers, m.deals)
    requires offer in m.offers && m.offers[offer].status != OfferAccepted && o.status != OfferAccepted
               && o.request == m.offers[offer].request
    requires o.request in m.requests && m.requests[o.request].status in {Open, PaymentPending}
    ensures DealsFit(m.requests[o.request := m.requests[o.request].(status := status)], m.offers[offer := o], m.deals)
    ensures AcceptedBooked(m.offers[offer := o], m.deals)
  {
  }

  lemma FreedRequestsFit(m: Market, offer: Id, d: Market)
    requires OffersFit(m.requests, m.offers) && OneSelection(m.offers) && RequestsFit(m.requests, m.offers)
    requires offer in m.offers && m.offers[offer].status == Held && m.offers[offer].request in m.requests
    requires d.offers == m.offers[offer := m.offers[offer].(status := Pending, holdUntil := None)]
    requires d.requests == m.requests[m.offers[offer].request := m.requests[m.offers[offer].request].(status := Open)]
    ensures RequestsFit(d.requests, d.offers)
  {
    forall r | r in m.requests && r != m.offers[offer].request
      ensures SomeOffer(m.offers, r, Held) ==> SomeOffer(d.offers, r, Held)
      ensures SomeOffer(m.offers, r, OfferAccepted) ==> SomeOffer(d.offers, r, OfferAccepted)
    {
      OtherRequestSees(m.offers, d.offers, offer, r);
    }
  }

  lemma OtherRequestSees(a: map<Id, Offer>, b: map<Id, Offer>, o: Id, r: Id)
    requires o in a && o in b && a[o].request != r && b[o].request != r && b == a[o := b[o]]
    ensures SomeOffer(a, r, Held) <==> SomeOffer(b, r, Held)
    ensures SomeOffer(a, r, OfferAccepted) <==> SomeOffer(b, r, OfferAccepted)
  {
    forall p | p in a && a[p].request == r ensures p in b && b[p] == a[p] {}
    forall p | p in b && b[p].request == r ensures p in a && b[p] == a[p] {}
  }

  /** Select a pending offer of a request that has no selection yet. */
  lemma SelectKeeps(m: Market, offer: Id, until: nat)
    requires Lockstep(m) && offer in m.offers && m.offers[offer].status == Pending
               && m.requests[m.offers[offer].request].status == Open
    ensures var o := m.offers[offer];
            var d := SetRequest(m, o.request,
                PaymentPending).(offers := m.offers[offer := o.(status := Held, holdUntil := Some(until))]);
            Lockstep(d) && Onward(m, d)
  {
    var o := m.offers[offer];
    OpenHasNoSelection(m, o.request);
    var offers := m.offers[offer := o.(status := Held, holdUntil := Some(until))];
    UnmatchedAside(m, offer, offers[offer], PaymentPending);
    forall r | r in m.requests && r != o.request
      ensures SomeOffer(m.offers, r, Held) ==> SomeOffer(offers, r, Held)
      ensures SomeOffer(m.offers, r, OfferAccepted) ==> SomeOffer(offers, r, OfferAccepted)
    {
      OtherRequestSees(m.offers, offers, offer, r);
    }
    assert offers[offer].request == o.request && offers[offer].status == Held;
  }

  function Chosen(offers: map<Id, Offer>, offer: Id): map<Id, Offer>
    requires offer in offers
  {
    offers[offer := offers[offer].(status := OfferAccepted, holdUntil := None)]
  }

  /** Pending with an open request, or held: the offer can be accepted. */
  ghost predicate Acceptable(m: Market, offer: Id) {
    && offer in m.offers && m.offers[offer].request in m.requests
    && ((m.offers[offer].status == Pending && m.requests[m.offers[offer].request].status == Open)
          || m.offers[offer].status == Held)
  }

  lemma ChosenFits(m: Market, offer: Id)
    requires Lockstep(m) && Acceptable(m, offer)
    ensures var r := m.offers[offer].request;
            var requests := m.requests[r := m.requests[r].(status := InProgress)];
            && OffersFit(requests, Chosen(m.offers, offer)) && OneSelection(Chosen(m.offers, offer))
            && RequestsFit(requests, Chosen(m.offers, offer)) && DealsFit(requests, Chosen(m.offers, offer), m.deals)
  {
    var o := m.offers[offer];
    var chosen := Chosen(m.offers, offer);
    if o.status == Pending { OpenHasNoSelection(m, o.request); }
    forall r | r in m.requests && r != o.request
      ensures SomeOffer(m.offers, r, Held) ==> SomeOffer(chosen, r, Held)
      ensures SomeOffer(m.offers, r, OfferAccepted) ==> SomeOffer(chosen, r, OfferAccepted)
    {
      OtherRequestSees(m.offers, chosen, offer, r);
    }
    assert chosen[offer].request == o.request && chosen[offer].status == OfferAccepted;
  }

  /** Accept an acceptable offer with its request, and book it. */
  lemma AcceptKeeps(m: Market, offer: Id, deal: Id, d: Deal, rows: seq<Id>)
    requires Lockstep(m) && Acceptable(m, offer) && deal !in m.deals
    requires d.offer == Some(offer) && d.progress == Live && !DealTaken(m.deals, d.offer, d.attempt)
    requires rows == if d.attempt.Some? then m.queueRows + [deal] else m.queueRows
    ensures var e := Accept(m, offer).(deals := m.deals[deal := d], queueRows := rows); Lockstep(e) && Onward(m, e)
  {
    var o := m.offers[offer];
    var chosen := Chosen(m.offers, offer);
    var booked := SetRequest(m, o.request, InProgress).(offers := chosen, deals := m.deals[deal := d],
        queueRows := rows);
    BookedKeeps(m, offer, deal, d, rows);
    RejectPendingIsCalm(chosen, o.request, Some(offer));
    CalmOffersKeep(booked, RejectPending(chosen, o.request, Some(offer)));
    OnwardThrough(m, booked, booked.(offers := RejectPending(chosen, o.request, Some(offer))));
  }

  lemma BookedKeeps(m: Market, offer: Id, deal: Id, d: Deal, rows: seq<Id>)
    requires Lockstep(m) && Acceptable(m, offer) && deal !in m.deals
    requires d.offer == Some(offer) && d.progress == Live && !DealTaken(m.deals, d.offer, d.attempt)
    requires rows == if d.attempt.Some? then m.queueRows + [deal] else m.queueRows
    ensures var booked := SetRequest(m, m.offers[offer].request, InProgress).(
              offers := Chosen(m.offers, offer), deals := m.deals[deal := d], queueRows := rows);
            Lockstep(booked) && Onward(m, booked)
  {
    ChosenFits(m, offer);
    AcceptedOfferBooked(m, offer, deal, d);
    NewDealQueued(m, deal, d, rows);
  }

  lemma AcceptedOfferBooked(m: Market, offer: Id, deal: Id, d: Deal)
    requires Lockstep(m) && offer in m.offers && deal !in m.deals && m.offers[offer].status != OfferAccepted
    requires d.offer == Some(offer) && !DealTaken(m.deals, d.offer, d.attempt)
    ensures AcceptedBooked(Chosen(m.offers, offer), m.deals[deal := d])
    ensures OneDeal(m.deals[deal := d])
  {
    var deals := m.deals[deal := d];
    assert deals[deal].offer == Some(offer);
    forall o | o in m.offers && m.offers[o].status == OfferAccepted ensures exists e | e in deals ::
        deals[e].offer == Some(o) {
      var e :| e in m.deals && m.deals[e].offer == Some(o);
      assert deals[e].offer == Some(o);
    }
  }

  lemma NewDealQueued(m: Market, deal: Id, d: Deal, rows: seq<Id>)
    requires QueueFits(m.deals, m.queueRows) && deal !in m.deals
    requires rows == if d.attempt.Some? then m.queueRows + [deal] else m.queueRows
    ensures QueueFits(m.deals[deal := d], rows) && m.queueRows <= rows
  {
  }

  /** A booking that comes from no offer. */
  lemma DirectDealKeeps(m: Market, deal: Id, d: Deal, rows: seq<Id>)
    requires Lockstep(m) && deal !in m.deals && d.offer.None? && !DealTaken(m.deals, None, d.attempt)
    requires rows == if d.attempt.Some? then m.queueRows + [deal] else m.queueRows
    ensures var e := m.(deals := m.deals[deal := d], queueRows := rows); Lockstep(e) && Onward(m, e)
  {
    NewDealQueued(m, deal, d, rows);
    var deals := m.deals[deal := d];
    forall o | o in m.offers && m.offers[o].status == OfferAccepted ensures exists e | e in deals ::
        deals[e].offer == Some(o) {
      var e :| e in m.deals && m.deals[e].offer == Some(o);
      assert deals[e].offer == Some(o);
    }
  }

  lemma OfferStepKeeps(m: Market, s: Step)
    requires Lockstep(m) && (s.Submit? || s.Reject? || s.TakeCash? || s.BookCash?)
    ensures Keeps(m, Attempted(m, s))
  {
    match s {
      case Submit(id, request, provider) => SubmitKeeps(m, id, request, provider);
      case Reject(id, byProvider) => RejectKeeps(m, id, byProvider);
      case TakeCash(id, deal) =>
        if AcceptCashOffer(m, id, deal).Some? {
          AcceptKeeps(m, id, deal, AcceptCashOffer(m, id, deal).value.deals[deal], m.queueRows);
        }
      case BookCash(deal, seeker, service) =>
        if BookForCash(m, deal, seeker, service).Some? {
          DirectDealKeeps(m, deal, Deal(seeker, None, Some(service), None, Live), m.queueRows);
        }
    }
  }

  // ------------------------------------------------- moves of an attempt

  /** Attempt rows and refund records are not part of the lockstep. */
  lemma AttemptsAside(m: Market, d: Market)
    requires Lockstep(m)
    requires d == m.(attempts := d.attempts, refunding := d.refunding, returning := d.returning, gateway := d.gateway)
    requires forall k | k in m.gateway :: k in d.gateway && d.gateway[k] == m.gateway[k]
    ensures Lockstep(d) && Onward(m, d)
  {
  }

  lemma OnwardThrough(a: Market, b: Market, c: Market)
    requires Onward(a, b) && Onward(b, c)
    ensures Onward(a, c)
  {
  }

  /** Rewrite the attempts, then let a hold go. */
  lemma ReleaseAfter(m: Market, attempts: map<Id, Attempt>, target: Target)
    requires Lockstep(m)
    ensures var d := ReleaseHold(m.(attempts := attempts), target); Lockstep(d) && Onward(m, d)
  {
    AttemptsAside(m, m.(attempts := attempts));
    ReleaseKeeps(m.(attempts := attempts), target);
    OnwardThrough(m, m.(attempts := attempts), ReleaseHold(m.(attempts := attempts), target));
  }

  lemma SweepKeeps(m: Market, seeker: Id, target: Target, now: nat)
    requires Lockstep(m)
    ensures var d := ExpireFor(m, seeker, target, now); Lockstep(d) && Onward(m, d)
  {
    var attempts := map a | a in m.attempts ::
      if Stale(m.attempts[a], seeker, target, now) then m.attempts[a].(status := Expired) else m.attempts[a];
    if exists a | a in m.attempts :: Stale(m.attempts[a], seeker, target, now) {
      ReleaseAfter(m, attempts, target);
    } else {
      AttemptsAside(m, m.(attempts := attempts));
    }
  }

  lemma PlaceHoldKeeps(m: Market, offer: Id, until: nat, attempts: map<Id, Attempt>)
    requires Lockstep(m) && offer in m.offers && m.offers[offer].status == Pending
               && m.requests[m.offers[offer].request].status == Open
    ensures var o := m.offers[offer];
            var d := SetRequest(m, o.request, PaymentPending).(
                       offers := m.offers[offer := o.(status := Held, holdUntil := Some(until))], attempts := attempts);
            Lockstep(d) && Onward(m, d)
  {
    AttemptsAside(m, m.(attempts := attempts));
    SelectKeeps(m.(attempts := attempts), offer, until);
  }

  lemma InitiateKeeps(m: Market, id: Id, seeker: Id, target: Target, now: nat, ttl: nat, allowed: bool)
    requires Lockstep(m)
    ensures Keeps(m, Initiate(m, id, seeker, target, now, ttl, allowed))
  {
    var swept := ExpireFor(m, seeker, target, now);
    SweepKeeps(m, seeker, target, now);
    var attempt := Attempt(seeker, target, AttemptPending, now + ttl, false, false);
    if NewAttempt(swept, id, attempt).Some? {
      NewAttemptKeeps(m, swept, id, attempt);
    }
  }

  lemma NewAttemptKeeps(m: Market, swept: Market, id: Id, attempt: Attempt)
    requires Lockstep(swept) && Onward(m, swept) && NewAttempt(swept, id, attempt).Some?
    ensures Lockstep(NewAttempt(swept, id, attempt).value) && Onward(m, NewAttempt(swept, id, attempt).value)
  {
    var r := NewAttempt(swept, id, attempt).value;
    if attempt.target.ForOffer? {
      PlaceHoldKeeps(swept, attempt.target.offer, attempt.expires, r.attempts);
    } else {
      AttemptsAside(swept, swept.(attempts := r.attempts));
    }
    OnwardThrough(m, swept, r);
  }

  lemma RecordStepKeeps(m: Market, s: Step)
    requires Lockstep(m)
               && (s.Save? || s.RefundBegin? || s.RefundSend? || s.RefundEnd? || s.ReturnBegin? || s.ReturnSend?)
    ensures Keeps(m, Attempted(m, s))
  {
    var result := Attempted(m, s);
    if result.Some? {
      AttemptsAside(m, result.value);
    }
  }

  lemma UnwindStepKeeps(m: Market, s: Step)
    requires Lockstep(m) && (s.Error? || s.Fail? || s.Expire?)
    ensures Keeps(m, Attempted(m, s))
  {
    AttemptsAside(m, m.(attempts := m.attempts));
    if s.id in m.attempts {
      ReleaseAfter(m, SetAttempt(m, s.id, if s.Expire? then Expired else AttemptFailed).attempts,
          m.attempts[s.id].target);
    }
  }

  // --------------------------------------------------------- the capture

  /** The sibling check of a capture never fires: a valid hold is the only selection. */
  lemma NoCompetingSelection(m: Market, offer: Id)
    requires Lockstep(m) && offer in m.offers && m.offers[offer].status == Held
    ensures !CompetingSelection(m.offers, offer)
  {
  }

  lemma CreateDealKeeps(m: Market, id: Id, withId: bool, deal: Id)
    requires Lockstep(m) && id in m.attempts
    requires m.attempts[id].target.ForOffer? ==> HoldValid(m, m.attempts[id].target.offer, m.attempts[id].seeker)
    ensures Keeps(m, CreateDeal(m, id, withId, deal))
  {
    var a := m.attempts[id];
    var result := CreateDeal(m, id, withId, deal);
    if result.Some? {
      var captured := Capture(m, id, Succeeded, withId);
      AttemptsAside(m, m.(attempts := captured.attempts));
      if a.target.ForOffer? {
        AcceptKeeps(captured, a.target.offer, deal, result.value.deals[deal], m.queueRows + [deal]);
        assert result.value
            == Accept(captured, a.target.offer).(deals := result.value.deals, queueRows := m.queueRows + [deal]);
      } else {
        DirectDealKeeps(captured, deal, result.value.deals[deal], m.queueRows + [deal]);
      }
    }
  }

  lemma FinalizeKeeps(m: Market, id: Id, now: nat, matches: bool, fit: bool, withId: bool, deal: Id)
    requires Lockstep(m)
    ensures Keeps(m, FinalizeCapture(m, id, now, matches, fit, withId, deal))
  {
    var result := FinalizeCapture(m, id, now, matches, fit, withId, deal);
    if result.Some? && result.value != m {
      var a := m.attempts[id];
      if a.expires <= now || !fit || LiveDealFor(m.deals, a.seeker, a.target) {
        ReleaseAfter(m, Capture(m, id, RefundRequired, withId).attempts, a.target);
      } else if a.target.ForOffer? && !HoldValid(m, a.target.offer, a.seeker) {
        AttemptsAside(m, m.(attempts := result.value.attempts));
      } else {
        if a.target.ForOffer? { NoCompetingSelection(m, a.target.offer); }
        CreateDealKeeps(m, id, withId, deal);
      }
    }
  }

  // --------------------------------------------------- endings of a booking

  lemma StillBooked(offers: map<Id, Offer>, a: map<Id, Deal>, b: map<Id, Deal>)
    requires AcceptedBooked(offers, a) && forall d | d in a :: d in b && b[d].offer == a[d].offer
    ensures AcceptedBooked(offers, b)
  {
    forall o | o in offers && offers[o].status == OfferAccepted ensures exists e | e in b :: b[e].offer == Some(o) {
      var e :| e in a && a[e].offer == Some(o);
      assert b[e].offer == Some(o);
    }
  }

  /** A request has one booking, so its status may follow that booking. */
  lemma RequestFollowsDeal(m: Market, deal: Id, progress: Progress)
    requires Lockstep(m) && deal in m.deals && m.deals[deal].offer.Some?
               && (progress == Finished || progress == CalledOff)
    ensures m.deals[deal].offer.value in m.offers
    ensures var r := m.offers[m.deals[deal].offer.value].request;
            && r in m.requests
            && var requests := m.requests[r := m.requests[r].(status := Mirror(progress))];
               && OffersFit(requests, m.offers) && RequestsFit(requests, m.offers)
               && DealsFit(requests, m.offers, m.deals[deal := m.deals[deal].(progress := progress)])
  {
    var o := m.deals[deal].offer.value;
    assert m.offers[o].status == OfferAccepted;
    forall e | e in m.deals && m.deals[e].offer.Some? && e != deal
      ensures m.deals[e].offer.value in m.offers && m.offers[m.deals[e].offer.value].request != m.offers[o].request
    {
      assert m.deals[e].offer != m.deals[deal].offer;
    }
  }

  lemma EndedDealFits(m: Market, deal: Id, progress: Progress)
    requires Lockstep(m) && deal in m.deals
    ensures var deals := m.deals[deal := m.deals[deal].(progress := progress)];
            OneDeal(deals) && QueueFits(deals, m.queueRows) && AcceptedBooked(m.offers, deals)
  {
    StillBooked(m.offers, m.deals, m.deals[deal := m.deals[deal].(progress := progress)]);
  }

  lemma EndDealKeeps(m: Market, deal: Id, progress: Progress)
    requires Lockstep(m) && deal in m.deals && m.deals[deal].progress in {Live, progress}
               && (progress == Finished || progress == CalledOff)
    ensures var d := EndDeal(m, deal, progress, Mirror(progress)); Lockstep(d) && Onward(m, d)
  {
    var deals := m.deals[deal := m.deals[deal].(progress := progress)];
    EndedDealFits(m, deal, progress);
    if m.deals[deal].offer.Some? {
      RequestFollowsDeal(m, deal, progress);
    } else {
      assert DealsFit(m.requests, m.offers, deals);
    }
  }

  lemma TurnDownKeeps(m: Market, deal: Id)
    requires Lockstep(m)
    ensures Keeps(m, TurnDownDeal(m, deal))
  {
    if TurnDownDeal(m, deal).Some? {
      StillBooked(m.offers, m.deals, TurnDownDeal(m, deal).value.deals);
    }
  }

  lemma CompleteKeeps(m: Market, deal: Id)
    requires Lockstep(m)
    ensures Keeps(m, CompleteDeal(m, deal))
  {
    if CompleteDeal(m, deal).Some? { EndDealKeeps(m, deal, Finished); }
  }

  lemma CancelKeeps(m: Market, deal: Id)
    requires Lockstep(m)
    ensures Keeps(m, CancelDeal(m, deal))
  {
    if CancelDeal(m, deal).Some? { EndDealKeeps(m, deal, CalledOff); }
  }

  lemma EndingStepKeeps(m: Market, s: Step)
    requires Lockstep(m) && (s.Complete? || s.Cancel? || s.TurnDown?)
    ensures Keeps(m, Attempted(m, s))
  {
    match s {
      case Complete(deal) => CompleteKeeps(m, deal);
      case Cancel(deal) => CancelKeeps(m, deal);
      case TurnDown(deal) => TurnDownKeeps(m, deal);
    }
  }

  /** Every step of every caller keeps the lockstep. */
  lemma StepKeeps(m: Market, s: Step)
    requires Lockstep(m)
    ensures Lockstep(Do(m, s)) && Onward(m, Do(m, s))
  {
    if s.Submit? || s.Reject? || s.TakeCash? || s.BookCash? {
      OfferStepKeeps(m, s);
    } else if s.Start? {
      InitiateKeeps(m, s.id, s.seeker, s.target, s.now, s.ttl, s.allowed);
    } else if s.Save? || s.RefundBegin? || s.RefundSend? || s.RefundEnd? || s.ReturnBegin? || s.ReturnSend? {
      RecordStepKeeps(m, s);
    } else if s.Error? || s.Fail? || s.Expire? {
      UnwindStepKeeps(m, s);
    } else if s.Finalize? {
      FinalizeKeeps(m, s.id, s.now, s.matches, s.fit, s.withId, s.deal);
    } else if s.Complete? || s.Cancel? || s.TurnDown? {
      EndingStepKeeps(m, s);
    } else {
      RequestStepKeeps(m, s);
    }
  }
}
