/** The rows one booking owns: the booking itself, its paid-queue entry, its
    refund record and ledger, its three kinds of case, and the staged decision
    records. Every transaction of the resolution protocol runs under the
    booking's advisory lock, so a transaction is a function on these rows. */
module BookingRows {

  datatype Option<+T> = None | Some(value: T)

  type Id = nat

  /** A transaction either commits its result or throws and changes nothing. */
  ghost predicate Commits<T>(r: Option<T>, before: T, after: T, ok: bool) {
    ok == r.Some? && after == (if r.Some? then r.value else before)
  }

  lemma SubsetSize<T>(a: set<T>, b: set<T>)
    requires a <= b
    ensures |a| <= |b|
  {
    assert b == a + (b - a);
  }

  datatype BookingStatus =
    | PendingApproval | Waiting | Accepted | Ongoing | AwaitingConfirmation
    | Disputed | UnderReview | Completed | Canceled | Declined

  datatype PaymentStatus = Unpaid | PaidHeld | FrozenHeld | Refunded | Released | CashConfirmed

  /** `before` is the source's statusBeforeDispute. */
  datatype Booking = Booking(online: bool, status: BookingStatus, before: Option<BookingStatus>,
                             payment: PaymentStatus, started: bool)
  {
    predicate Held() { payment == PaidHeld || payment == FrozenHeld }
    predicate Paused() { status == Disputed || status == UnderReview }
    predicate Terminal() { status == Canceled || status == Completed }
  }

  datatype QueueStatus = QWaiting | QServing | QDone | QCancelled
  datatype QueueRow = QueueRow(status: QueueStatus, payment: PaymentStatus)

  /** Processing is the reservation; any other final gateway status is Submitted. */
  datatype RefundStatus = RProcessing | RFailed | RSubmitted
  datatype Refund = Refund(status: RefundStatus, gatewayId: Option<Id>)

  datatype ReportKind = Safety | CompletionDispute | CancellationEscalation
  datatype ReportStatus = RpPending | RpUnderReview | RpResolved | RpDismissed
  datatype Report = Report(kind: ReportKind, status: ReportStatus)
  {
    predicate Active() { status == RpPending || status == RpUnderReview }
  }

  datatype CancelStatus = CPending | CDeclined | CEscalated | CUnderReview | CApproved | CResolved
  /** `immediate` records the IMMEDIATE_CANCEL_PENDING marker of an unstarted booking. */
  datatype Cancellation = Cancellation(status: CancelStatus, immediate: bool, report: Option<Id>)
  {
    predicate Active() { status == CPending || status == CDeclined || status == CEscalated || status == CUnderReview }
  }

  datatype EscalationStatus = EPending | EUnderReview | EResolved | EDismissed

  predicate OpenEscalation(e: EscalationStatus) { e == EPending || e == EUnderReview }

  datatype CaseKey = ReportCase(id: Id) | CompletionCase(id: Id) | CancellationCase(id: Id) | AdminCase

  datatype Outcome =
    | Dismiss | ResolveSafety | CancelBooking | ReleaseAndComplete
    | RefundSeeker | KeepAwaiting
    | ParticipantApprove | AdminApprove | AdminDeny

  predicate Cancels(o: Outcome) {
    o == CancelBooking || o == RefundSeeker || o == ParticipantApprove || o == AdminApprove
  }

  predicate Financial(o: Outcome) { Cancels(o) || o == ReleaseAndComplete }

  datatype Participant = TheSeeker | TheProvider

  /** `Fault` is the finding of an administrator who approves a cancellation. */
  datatype Penalty = NoPenalty | Warn | TrustDeduct | Suspend | Ban | Fault(party: Participant)

  function FaultFinding(party: Option<Participant>): Penalty { if party.Some? then Fault(party.value) else NoPenalty }

  function NamedParty(p: Penalty): Option<Participant> { if p.Fault? then Some(p.party) else None }

  datatype Stage = Claimed | DecisionReady | Reserved | Established | Finalized

  function Rank(s: Stage): nat {
    match s
    case Claimed => 0
    case DecisionReady => 1
    case Reserved => 2
    case Established => 3
    case Finalized => 4
  }

  datatype OpStatus = Processing | FailedRetryable | Done

  datatype Operation = Operation(stage: Stage, status: OpStatus, outcome: Outcome, penalty: Penalty)
  {
    predicate Finished() { status == Done || stage == Finalized }
    /** An unfinished decision that has reserved or performed a money movement. */
    predicate HoldsMoney() { status != Done && (stage == Reserved || stage == Established) }
    predicate EffectEstablished() { stage == Established || stage == Finalized }
  }

  /** One row per finalization that took effect, with the penalty it applied. */
  datatype Closure = Closure(key: CaseKey, applied: Penalty)

  /** `gateway` is the payment provider's side: the refund accepted under the
      booking's idempotency key. `released` is the completedService row. */
  datatype Db = Db(
    booking: Booking,
    queue: Option<QueueRow>,
    refund: Option<Refund>,
    refundLedger: seq<Id>,
    released: bool,
    reports: map<Id, Report>,
    cancellations: map<Id, Cancellation>,
    escalations: map<Id, EscalationStatus>,
    ops: map<CaseKey, Operation>,
    closures: seq<Closure>,
    gateway: Option<Id>)
  {
    predicate RefundInProgress() { refund.Some? && refund.value.status == RProcessing }
  }

  /** What the surrounding accounts answer when a penalty is checked. */
  datatype Account = Account(penaltyAllowed: bool, unstartedBookings: bool, adminParticipates: bool)

  /** What a service call is for: carrying out a decision, or an immediate cancellation. */
  datatype Task =
    | Resolve(key: CaseKey, outcome: Outcome, penalty: Penalty)
    | Immediate(request: Id)

  datatype GatewayAnswer = Accepts(status: RefundStatus) | AcceptsButAnswerLost | Refuses
}
