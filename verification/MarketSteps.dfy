/** Each locked transaction of the payment, offer and request protocol. `None` is a thrown error. */
module MarketSteps {
  import opened BookingRows
  import opened MarketRows

  // ---------------------------------------------------------------- requests

  function PostRequest(m: Market, id: Id, seeker: Id, targeted: bool, closesOnReject: bool): Option<Market> {
    if id in m.requests then None
    else Some(m.(requests := m.requests[id := Request(seeker, Open, targeted, closesOnReject, false)]))
  }

  function SetRequest(m: Market, id: Id, status: RequestStatus): Market
    requires id in m.requests
  {
    m.(requests := m.requests[id := m.requests[id].(status := status)])
  }

  /** A booking of the request that has not been called off or turned down. */
  predicate Matched(m: Market, request: Id) {
    exists d | d in m.deals ::
      && m.deals[d].offer.Some? && m.deals[d].offer.value in m.offers
          && m.offers[m.deals[d].offer.value].request == request
      && m.deals[d].progress != CalledOff && m.deals[d].progress != TurnedDown
  }

  /** A payment that is pending, settled or waiting for its refund. */
  predicate PaymentInTheWay(m: Market, request: Id) {
    exists a | a in m.attempts ::
      && m.attempts[a].target.ForOffer? && m.attempts[a].target.offer in m.offers
      && m.offers[m.attempts[a].target.offer].request == request && m.attempts[a].Protected()
  }

  function PauseRequest(m: Market, id: Id): Option<Market> {
    if id !in m.requests || m.requests[id].status != Open then None else Some(SetRequest(m, id, Closed))
  }

  function ReopenRequest(m: Market, id: Id): Option<Market> {
    if id !in m.requests || m.requests[id].status != Closed || Matched(m, id) || PaymentInTheWay(m, id) then None
    else Some(SetRequest(m, id, Open))
  }

  function RejectPending(offers: map<Id, Offer>, request: Id, except: Option<Id>): map<Id, Offer> {
    map o | o in offers ::
      if offers[o].request == request && Some(o) != except && offers[o].status == Pending
      then offers[o].(status := Rejected, holdUntil := None) else offers[o]
  }

  datatype Deletion =
    | Deletable | CompletedBooking | ActiveBooking | AcceptedOffer | PaymentInProgress | Paused | NotOpen

  predicate SomeDeal(m: Market, request: Id, live: bool) {
    exists d | d in m.deals ::
      && m.deals[d].offer.Some? && m.deals[d].offer.value in m.offers
          && m.offers[m.deals[d].offer.value].request == request
      && (if live then m.deals[d].progress !in {TurnedDown, CalledOff} else m.deals[d].progress == Finished)
  }

  predicate SomeOffer(offers: map<Id, Offer>, request: Id, status: OfferStatus) {
    exists o | o in offers :: offers[o].request == request && offers[o].status == status
  }

  /** requestDeletionEligibility: the first reason that blocks a deletion. */
  function DeletionEligibility(m: Market, id: Id): Deletion
    requires id in m.requests
  {
    var status := m.requests[id].status;
    if SomeDeal(m, id, false) then CompletedBooking
    else if status == InProgress || SomeDeal(m, id, true) then ActiveBooking
    else if SomeOffer(m.offers, id, OfferAccepted) then AcceptedOffer
    else if status == PaymentPending || SomeOffer(m.offers, id, Held) || PaymentInTheWay(m, id) then PaymentInProgress
    else if status == Closed then Paused
    else if status != Open then NotOpen
    else Deletable
  }

  function CancelRequest(m: Market, id: Id): Option<Market> {
    if id !in m.requests || DeletionEligibility(m, id) != Deletable then None
    else Some(SetRequest(m, id, RequestCanceled).(offers := RejectPending(m.offers, id, None)))
  }

  function RemoveRequest(m: Market, id: Id): Option<Market> {
    if id !in m.requests || m.requests[id].targeted || Matched(m, id) || PaymentInTheWay(m, id) then None
    else if m.requests[id].status !in {Open, Closed} then None
    else Some(m.(requests := m.requests[id := m.requests[id].(status := RequestCanceled, removed := true)],
                 offers := RejectPending(m.offers, id, None)))
  }

  function RestoreRequest(m: Market, id: Id): Option<Market> {
    if id !in m.requests || m.requests[id].targeted || Matched(m, id) || PaymentInTheWay(m, id) then None
    else if m.requests[id].status != RequestCanceled || !m.requests[id].removed then None
    else Some(m.(requests := m.requests[id := m.requests[id].(status := Open, removed := false)]))
  }

  /** A provider declines a private inquiry nobody has priced yet. */
  function DeclineInquiry(m: Market, id: Id): Option<Market> {
    if id !in m.requests || !m.requests[id].targeted then None
    else if m.requests[id].status == RequestCanceled then Some(m)
    else if m.requests[id].status != Open
        || (exists o | o in m.offers :: m.offers[o].request == id && m.offers[o].Standing()) then None
    else Some(SetRequest(m, id, RequestCanceled))
  }

  // ------------------------------------------------------------------ offers

  function SubmitOffer(m: Market, id: Id, request: Id, provider: Id): Option<Market> {
    if id in m.offers || request !in m.requests || Matched(m, request) || m.requests[request].status != Open then None
    else if exists o | o in m.offers ::
        m.offers[o].request == request && m.offers[o].provider == provider && m.offers[o].Standing() then None
    else Some(m.(offers := m.offers[id := Offer(request, provider, Pending, None)]))
  }

  function RejectOffer(m: Market, id: Id, byProvider: bool): Option<Market> {
    if id !in m.offers || m.offers[id].request !in m.requests then None
    else
      var o := m.offers[id];
      if o.status != Pending || m.requests[o.request].status != Open then None
      else
        var decided := m.(offers := m.offers[id := o.(status := if byProvider then Withdrawn else Rejected)]);
        Some(if m.requests[o.request].closesOnReject then SetRequest(decided, o.request, RequestCanceled) else decided)
  }

  /** releaseOfferHold: whichever attempt placed it, the hold is let go. */
  function ReleaseHold(m: Market, target: Target): Market {
    if !target.ForOffer? || target.offer !in m.offers || m.offers[target.offer].status != Held then m
    else
      var o := m.offers[target.offer];
      var freed := m.(offers := m.offers[target.offer := o.(status := Pending, holdUntil := None)]);
      if o.request in m.requests
          && m.requests[o.request].status == PaymentPending then SetRequest(freed, o.request, Open) else freed
  }

  predicate LiveDealFor(deals: map<Id, Deal>, seeker: Id, target: Target) {
    exists d | d in deals ::
      && deals[d].seeker == seeker && deals[d].progress == Live
      && (match target case ForOffer(o) => deals[d].offer == Some(o) case ForService(s) => deals[d].service == Some(s))
  }

  /** The unique columns offerId and paymentAttemptId. */
  predicate DealTaken(deals: map<Id, Deal>, offer: Option<Id>, attempt: Option<Id>) {
    exists d | d in deals ::
      (offer.Some? && deals[d].offer == offer) || (attempt.Some? && deals[d].attempt == attempt)
  }

  function AcceptCashOffer(m: Market, offer: Id, deal: Id): Option<Market> {
    if offer !in m.offers || m.offers[offer].request !in m.requests || deal in m.deals then None
    else
      var o := m.offers[offer];
      var r := m.requests[o.request];
      if o.status != Pending || r.status != Open || DealTaken(m.deals, Some(offer), None) then None
      else Some(Accept(m, offer).(deals := m.deals[deal := Deal(r.seeker, Some(offer), None, None, Live)]))
  }

  /** The winning offer is accepted, its siblings rejected, its request matched. */
  function Accept(m: Market, offer: Id): Market
    requires offer in m.offers && m.offers[offer].request in m.requests
  {
    var o := m.offers[offer];
    SetRequest(m, o.request, InProgress).(
      offers := RejectPending(m.offers[offer := o.(status := OfferAccepted, holdUntil := None)], o.request,
          Some(offer)))
  }

  function BookForCash(m: Market, deal: Id, seeker: Id, service: Id): Option<Market> {
    if deal in m.deals then None
    else Some(m.(deals := m.deals[deal := Deal(seeker, None, Some(service), None, Live)]))
  }

  // ---------------------------------------------------------------- attempts

  function SetAttempt(m: Market, id: Id, status: AttemptStatus): Market
    requires id in m.attempts
  {
    m.(attempts := m.attempts[id := m.attempts[id].(status := status)])
  }

  /** An attempt for the same purchase that is still within its window. */
  predicate StillPending(attempts: map<Id, Attempt>, seeker: Id, target: Target, now: nat) {
    exists a | a in attempts ::
      attempts[a].seeker == seeker && attempts[a].target == target && attempts[a].status == AttemptPending
          && attempts[a].expires > now
  }

  predicate Stale(a: Attempt, seeker: Id, target: Target, now: nat) {
    a.seeker == seeker && a.target == target && a.status == AttemptPending && a.expires <= now
  }

  /** Expire the purchase's stale attempts and let go of their holds. */
  function ExpireFor(m: Market, seeker: Id, target: Target, now: nat): Market {
    var expired := m.(attempts := map a | a in m.attempts ::
                        if Stale(m.attempts[a], seeker, target, now) then m.attempts[a].(status := Expired)
                            else m.attempts[a]);
    if exists a | a in m.attempts ::
        Stale(m.attempts[a], seeker, target, now) then ReleaseHold(expired, target) else expired
  }

  /** The prepare transaction of initiateOnlinePayment. `allowed` stands for the
      participants', listing's and queue's own checks. */
  function Initiate(m: Market, id: Id, seeker: Id, target: Target, now: nat, ttl: nat, allowed: bool): Option<Market> {
    var swept := ExpireFor(m, seeker, target, now);
    if id in m.attempts then None
    else if StillPending(swept.attempts, seeker, target, now) then Some(swept)
    else if !allowed || LiveDealFor(swept.deals, seeker, target) then None
    else NewAttempt(swept, id, Attempt(seeker, target, AttemptPending, now + ttl, false, false))
  }

  /** Record the attempt, placing its hold. */
  function NewAttempt(m: Market, id: Id, attempt: Attempt): Option<Market> {
    match attempt.target
    case ForService(_) => Some(m.(attempts := m.attempts[id := attempt]))
    case ForOffer(offer) =>
      if offer !in m.offers || m.offers[offer].request !in m.requests then None
      else
        var o := m.offers[offer];
        var r := m.requests[o.request];
        if o.status != Pending || r.status != Open || r.seeker != attempt.seeker then None
        else Some(SetRequest(m, o.request, PaymentPending).(
                    offers := m.offers[offer := o.(status := Held, holdUntil := Some(attempt.expires))],
                    attempts := m.attempts[id := attempt]))
  }

  function SaveIntent(m: Market, id: Id): Option<Market> {
    if id !in m.attempts then None else Some(m.(attempts := m.attempts[id := m.attempts[id].(intent := true)]))
  }

  /** The provider-error write of initiateOnlinePayment: it does not look at the status. */
  function ProviderError(m: Market, id: Id): Option<Market> {
    if id !in m.attempts then None else Some(ReleaseHold(SetAttempt(m, id, AttemptFailed), m.attempts[id].target))
  }

  function MarkAttemptFailed(m: Market, id: Id): Option<Market> {
    if id !in m.attempts || !m.attempts[id].intent then None
    else if m.attempts[id].status != AttemptPending then Some(m)
    else Some(ReleaseHold(SetAttempt(m, id, AttemptFailed), m.attempts[id].target))
  }

  function ExpireAttempt(m: Market, id: Id, now: nat): Market {
    if id !in m.attempts || m.attempts[id].status != AttemptPending || m.attempts[id].expires > now then m
    else ReleaseHold(SetAttempt(m, id, Expired), m.attempts[id].target)
  }

  // -------------------------------------------------------------- the capture

  function Capture(m: Market, id: Id, status: AttemptStatus, withId: bool): Market
    requires id in m.attempts
  {
    m.(attempts := m.attempts[id := m.attempts[id].(status := status, captured := withId)])
  }

  predicate HoldValid(m: Market, offer: Id, seeker: Id) {
    && offer in m.offers && m.offers[offer].request in m.requests
    && m.offers[offer].status == Held && m.offers[offer].holdUntil.Some?
    && m.requests[m.offers[offer].request].status == PaymentPending
        && m.requests[m.offers[offer].request].seeker == seeker
  }

  predicate CompetingSelection(offers: map<Id, Offer>, offer: Id)
    requires offer in offers
  {
    exists o | o in offers :: o != offer && offers[o].request == offers[offer].request && offers[o].Selected()
  }

  /** finalizeSuccessfulPayment. `matches` is the metadata check, `fit` the checks on
      participants, listing, membership and queue room at capture time, `withId` whether the
      provider's notice carried a payment id. */
  function FinalizeCapture(m: Market, id: Id, now: nat, matches: bool, fit: bool, withId: bool,
      deal: Id): Option<Market> {
    if id !in m.attempts || !m.attempts[id].intent then None
    else
      var a := m.attempts[id];
      if a.status == Succeeded && DealTaken(m.deals, None, Some(id)) then Some(m)
      else if a.status == RefundRequired || a.status == AttemptRefunded then Some(m)
      else if !matches then None
      else if a.expires <= now || !fit || LiveDealFor(m.deals, a.seeker, a.target) then
        Some(ReleaseHold(Capture(m, id, RefundRequired, withId), a.target))
      else if a.target.ForOffer?
          && !HoldValid(m, a.target.offer, a.seeker) then Some(Capture(m, id, RefundRequired, withId))
      else if a.target.ForOffer? && CompetingSelection(m.offers, a.target.offer) then
        Some(Capture(m, id, RefundRequired,
            withId).(offers :=
            m.offers[a.target.offer := m.offers[a.target.offer].(status := Rejected, holdUntil := None)]))
      else CreateDeal(m, id, withId, deal)
  }

  function CreateDeal(m: Market, id: Id, withId: bool, deal: Id): Option<Market>
    requires id in m.attempts
    requires m.attempts[id].target.ForOffer? ==>
               m.attempts[id].target.offer in m.offers && m.offers[m.attempts[id].target.offer].request in m.requests
  {
    var a := m.attempts[id];
    var offer := if a.target.ForOffer? then Some(a.target.offer) else None;
    var service := if a.target.ForService? then Some(a.target.service) else None;
    if deal in m.deals || DealTaken(m.deals, offer, Some(id)) then None
    else
      var booked := Capture(m, id, Succeeded,
          withId).(deals := m.deals[deal := Deal(a.seeker, offer, service, Some(id), Live)],
                                               queueRows := m.queueRows + [deal]);
      Some(if a.target.ForOffer? then Accept(booked, a.target.offer) else booked)
  }

  // --------------------------------------------- refunding a stray capture

  function BeginRefund(m: Market, id: Id): Option<Market> {
    if id !in m.attempts || m.attempts[id].status != RefundRequired || !m.attempts[id].captured then None
    else Some(m.(refunding := m.refunding + {id}))
  }

  /** The gateway answers a request whose key it knows with the refund it has. */
  function Requested(gateway: map<RefundKey, Slip>, key: RefundKey, slip: Slip): map<RefundKey, Slip> {
    if key in gateway then gateway else gateway[key := slip]
  }

  function GatewayRefund(m: Market, id: Id, mint: Id): Option<Market> {
    if id !in m.refunding then None
    else Some(m.(gateway := Requested(m.gateway, AttemptKey(id), Slip(mint, id))))
  }

  function FinishRefund(m: Market, id: Id): Option<Market> {
    if AttemptKey(id) !in m.gateway || id !in m.attempts then None else Some(SetAttempt(m, id, AttemptRefunded))
  }

  // ---------------------------------------------- refunding a paid booking

  /** The reservation of refundBookingPayment: the booking's money is held, or its refund is on record. */
  function BeginReturn(m: Market, deal: Id): Option<Market> {
    if deal !in m.deals || m.deals[deal].attempt.None? || m.deals[deal].progress == Finished then None
    else if deal in m.returning then Some(m)
    else if m.deals[deal].progress != Live then None
    else Some(m.(returning := m.returning + {deal}))
  }

  /** Its gateway request: the payment is the booking's, the key is the booking's own. */
  function GatewayReturn(m: Market, deal: Id, mint: Id): Option<Market> {
    if deal !in m.returning || deal !in m.deals || m.deals[deal].attempt.None? then None
    else Some(m.(gateway := Requested(m.gateway, BookingKey(deal), Slip(mint, m.deals[deal].attempt.value))))
  }

  // ------------------------------------------------------- booking endings

  function EndDeal(m: Market, deal: Id, progress: Progress, request: RequestStatus): Market
    requires deal in m.deals
  {
    var d := m.deals[deal];
    var ended := m.(deals := m.deals[deal := d.(progress := progress)]);
    if d.offer.Some? && d.offer.value in m.offers && m.offers[d.offer.value].request in m.requests
    then SetRequest(ended, m.offers[d.offer.value].request, request) else ended
  }

  function CompleteDeal(m: Market, deal: Id): Option<Market> {
    if deal !in m.deals || m.deals[deal].progress != Live then None else Some(EndDeal(m, deal, Finished, Closed))
  }

  /** A paid booking is cancelled only once its money is on the way back. A repeated cancellation
      writes the request again. */
  function CancelDeal(m: Market, deal: Id): Option<Market> {
    if deal !in m.deals || m.deals[deal].progress !in {Live, CalledOff} then None
    else if m.deals[deal].attempt.Some? && BookingKey(deal) !in m.gateway then None
    else Some(EndDeal(m, deal, CalledOff, RequestCanceled))
  }

  function TurnDownDeal(m: Market, deal: Id): Option<Market> {
    if deal !in m.deals then None
    else if m.deals[deal].progress != Live || m.deals[deal].offer.Some? || m.deals[deal].attempt.Some? then None
    else Some(m.(deals := m.deals[deal := m.deals[deal].(progress := TurnedDown)]))
  }

  // -------------------------------------------------------------------- runs

  datatype Step =
    | Post(id: Id, seeker: Id, targeted: bool, closesOnReject: bool)
    | Pause(id: Id) | Reopen(id: Id) | Delete(id: Id) | Remove(id: Id) | Revive(id: Id) | Decline(id: Id)
    | Submit(id: Id, request: Id, provider: Id)
    | Reject(id: Id, byProvider: bool)
    | TakeCash(id: Id, deal: Id)
    | BookCash(deal: Id, seeker: Id, service: Id)
    | Start(id: Id, seeker: Id, target: Target, now: nat, ttl: nat, allowed: bool)
    | Save(id: Id)
    | Error(id: Id)
    | Fail(id: Id)
    | Expire(id: Id, now: nat)
    | Finalize(id: Id, now: nat, matches: bool, fit: bool, withId: bool, deal: Id)
    | RefundBegin(id: Id) | RefundSend(id: Id, mint: Id) | RefundEnd(id: Id)
    | ReturnBegin(deal: Id) | ReturnSend(deal: Id, mint: Id)
    | Complete(deal: Id) | Cancel(deal: Id) | TurnDown(deal: Id)

  function Attempted(m: Market, s: Step): Option<Market> {
    match s
    case Post(id, seeker, targeted, closes) => PostRequest(m, id, seeker, targeted, closes)
    case Pause(id) => PauseRequest(m, id)
    case Reopen(id) => ReopenRequest(m, id)
    case Delete(id) => CancelRequest(m, id)
    case Remove(id) => RemoveRequest(m, id)
    case Revive(id) => RestoreRequest(m, id)
    case Decline(id) => DeclineInquiry(m, id)
    case Submit(id, request, provider) => SubmitOffer(m, id, request, provider)
    case Reject(id, byProvider) => RejectOffer(m, id, byProvider)
    case TakeCash(id, deal) => AcceptCashOffer(m, id, deal)
    case BookCash(deal, seeker, service) => BookForCash(m, deal, seeker, service)
    case Start(id, seeker, target, now, ttl, allowed) => Initiate(m, id, seeker, target, now, ttl, allowed)
    case Save(id) => SaveIntent(m, id)
    case Error(id) => ProviderError(m, id)
    case Fail(id) => MarkAttemptFailed(m, id)
    case Expire(id, now) => Some(ExpireAttempt(m, id, now))
    case Finalize(id, now, matches, fit, withId, deal) => FinalizeCapture(m, id, now, matches, fit, withId, deal)
    case RefundBegin(id) => BeginRefund(m, id)
    case RefundSend(id, mint) => GatewayRefund(m, id, mint)
    case RefundEnd(id) => FinishRefund(m, id)
    case ReturnBegin(deal) => BeginReturn(m, deal)
    case ReturnSend(deal, mint) => GatewayReturn(m, deal, mint)
    case Complete(deal) => CompleteDeal(m, deal)
    case Cancel(deal) => CancelDeal(m, deal)
    case TurnDown(deal) => TurnDownDeal(m, deal)
  }

  /** A step that throws leaves the market as it was. */
  function Do(m: Market, s: Step): Market {
    var r := Attempted(m, s);
    if r.Some? then r.value else m
  }

  function Run(m: Market, steps: seq<Step>): Market
    decreases |steps|
  {
    if steps == [] then m else Run(Do(m, steps[0]), steps[1..])
  }
}
