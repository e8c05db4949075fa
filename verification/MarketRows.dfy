/** The rows of the payment, offer and request protocol. */
module MarketRows {
  import opened BookingRows

  datatype RequestStatus = Open | PaymentPending | InProgress | Closed | RequestCanceled

  /** `targeted` is a private inquiry about one listing; `closesOnReject` is an inquiry
      without a preferred payment method; `removed` is the ADMIN_REMOVED reason code. */
  datatype Request = Request(seeker: Id, status: RequestStatus, targeted: bool, closesOnReject: bool, removed: bool)

  datatype OfferStatus = Pending | Held | OfferAccepted | Rejected | Withdrawn
  datatype Offer = Offer(request: Id, provider: Id, status: OfferStatus, holdUntil: Option<nat>)
  {
    /** Held for a payment, or accepted. */
    predicate Selected() { status == Held || status == OfferAccepted }
    predicate Standing() { status == Pending || Selected() }
  }

  datatype Target = ForOffer(offer: Id) | ForService(service: Id)

  datatype AttemptStatus = AttemptPending | AttemptFailed | Expired | Succeeded | RefundRequired | AttemptRefunded

  /** `intent` is set once the gateway's intent id is saved; `captured` once a payment id is. */
  datatype Attempt = Attempt(seeker: Id, target: Target, status: AttemptStatus, expires: nat, intent: bool,
      captured: bool)
  {
    /** The money has been captured and its fate decided. */
    predicate Decided() { status == Succeeded || status == RefundRequired || status == AttemptRefunded }
    /** Blocks deleting, reopening or removing the request. */
    predicate Protected() { status == AttemptPending || status == Succeeded || status == RefundRequired }
  }

  datatype Progress = Live | Finished | CalledOff | TurnedDown

  datatype Deal = Deal(seeker: Id, offer: Option<Id>, service: Option<Id>, attempt: Option<Id>, progress: Progress)

  /** The idempotency keys a refund request carries: one form per attempt, one per booking. */
  datatype RefundKey = AttemptKey(attempt: Id) | BookingKey(deal: Id)

  /** A refund the gateway has accepted: its own id and the attempt whose captured payment it sends back. */
  datatype Slip = Slip(refund: Id, payment: Id)

  /** `queueRows` holds the booking of each paid-queue row, `refunding` the attempts and `returning` the
      bookings some caller has begun to refund, `gateway` the payment provider's refund under each key. */
  datatype Market = Market(
    requests: map<Id, Request>,
    offers: map<Id, Offer>,
    attempts: map<Id, Attempt>,
    deals: map<Id, Deal>,
    queueRows: seq<Id>,
    refunding: set<Id>,
    returning: set<Id>,
    gateway: map<RefundKey, Slip>)

  function EmptyMarket(): Market { Market(map[], map[], map[], map[], [], {}, {}, map[]) }
}
