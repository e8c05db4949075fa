/** Each locked transaction of the booking's protocol. `None` is a thrown error:
    the transaction rolls back and the rows are unchanged. */
module Transactions {
  import opened BookingRows

  // ---------------------------------------------------------------- guards

  predicate OtherReport(reports: map<Id, Report>, except: Option<Id>) {
    exists r | r in reports :: Some(r) != except && reports[r].Active()
  }

  predicate OtherCancellation(cancellations: map<Id, Cancellation>, except: Option<Id>) {
    exists c | c in cancellations :: Some(c) != except && cancellations[c].Active()
  }

  predicate OtherEscalation(escalations: map<Id, EscalationStatus>, except: Option<Id>) {
    exists e | e in escalations :: Some(e) != except && OpenEscalation(escalations[e])
  }

  predicate OtherBlockingCase(db: Db, report: Option<Id>, cancellation: Option<Id>, escalation: Option<Id>) {
    OtherReport(db.reports, report) || OtherCancellation(db.cancellations, cancellation)
        || OtherEscalation(db.escalations, escalation)
  }

  predicate FinancialReserved(ops: map<CaseKey, Operation>, except: Option<CaseKey>) {
    exists k | k in ops :: Some(k) != except && ops[k].HoldsMoney()
  }

  /** The cancelled final state that finalizations insist on. */
  predicate CancelledFully(b: Booking) {
    b.status == Canceled && (if b.online then b.payment == Refunded else b.payment == Unpaid)
  }

  /** The weaker form used where the cash payment column is not inspected. */
  predicate CancelSettled(b: Booking) {
    b.status == Canceled && (b.online ==> b.payment == Refunded)
  }

  predicate CompletedFully(b: Booking) {
    b.status == Completed && (b.payment == Released || b.payment == CashConfirmed)
  }

  // ------------------------------------------- staged decision bookkeeping

  function BeginResolution(db: Db, key: CaseKey, outcome: Outcome, penalty: Penalty): Option<Db> {
    if key in db.ops then
      var op := db.ops[key];
      if op.outcome != outcome || op.penalty != penalty then None
      else if op.Finished() then Some(db)
      else Some(db.(ops := db.ops[key := op.(status := Processing)]))
    else
      Some(db.(ops := db.ops[key := Operation(Claimed, Processing, outcome, penalty)]))
  }

  function MarkStage(db: Db, key: CaseKey, stage: Stage): Option<Db> {
    if key !in db.ops then None
    else
      var op := db.ops[key];
      if op.Finished() || Rank(stage) < Rank(op.stage) then Some(db)
      else Some(db.(ops := db.ops[key := op.(stage := stage, status := Processing)]))
  }

  function MarkFailed(db: Db, key: CaseKey): Db {
    if key in db.ops && !db.ops[key].Finished()
    then db.(ops := db.ops[key := db.ops[key].(status := FailedRetryable)])
    else db
  }

  /** Recover an effect that committed before its stage marker did. */
  function Reconcile(db: Db, key: CaseKey, outcome: Outcome): Option<Db> {
    if key !in db.ops || db.ops[key].stage != Reserved then Some(db)
    else if EffectCommitted(db, outcome) then MarkStage(db, key, Established)
    else Some(db)
  }

  predicate EffectCommitted(db: Db, outcome: Outcome) {
    if outcome == ReleaseAndComplete then CompletedFully(db.booking) && db.released
    else CancelledFully(db.booking) && (db.booking.online ==> db.refund.Some? && db.refund.value.gatewayId.Some?)
  }

  /** Begin a decision, then adopt an effect that already committed. */
  function Adopt(db: Db, key: CaseKey, outcome: Outcome, penalty: Penalty): Option<Db> {
    var begun := BeginResolution(db, key, outcome, penalty);
    if begun.None? || !Financial(outcome) then begun else Reconcile(begun.value, key, outcome)
  }

  function CloseOp(db: Db, key: CaseKey, applied: Penalty): Db
    requires key in db.ops
  {
    db.(ops := db.ops[key := db.ops[key].(stage := Finalized, status := Done)],
        closures := db.closures + [Closure(key, applied)])
  }

  function Restore(db: Db): Db {
    var b := db.booking;
    if OtherReport(db.reports, None) || OtherCancellation(db.cancellations, None) || !b.Paused()
        || b.before.None? then db
    else
      var payment := if b.online then PaidHeld else Unpaid;
      db.(booking := b.(status := b.before.value, before := None, payment := payment),
          queue := QueuePayment(db.queue, payment))
  }

  function QueuePayment(q: Option<QueueRow>, p: PaymentStatus): Option<QueueRow> {
    if q.Some? then Some(q.value.(payment := p)) else None
  }

  function Freeze(db: Db, status: BookingStatus): Db {
    var b := db.booking;
    var payment := if b.payment == PaidHeld then FrozenHeld else b.payment;
    db.(booking := b.(status := status, before := Some(b.status), payment := payment),
        queue := if b.payment == PaidHeld then QueuePayment(db.queue, FrozenHeld) else db.queue)
  }

  // ----------------------------------------------------------- case openers

  function OpenSafetyReport(db: Db, id: Id): Option<Db> {
    var b := db.booking;
    if id in db.reports then None
    else if b.status !in {Accepted, Ongoing, AwaitingConfirmation, UnderReview, Disputed, Completed, Canceled} then None
    else if db.RefundInProgress() || FinancialReserved(db.ops, None) then None
    else
      var filed := db.(reports := db.reports[id := Report(Safety, RpPending)]);
      Some(if b.status in {Accepted, Ongoing, AwaitingConfirmation} then Freeze(filed, Disputed) else filed)
  }

  function CloseEscalations(es: map<Id, EscalationStatus>, to: EscalationStatus): map<Id, EscalationStatus> {
    map e | e in es :: if OpenEscalation(es[e]) then to else es[e]
  }

  function OpenDispute(db: Db, id: Id): Option<Db> {
    var b := db.booking;
    if id in db.reports || db.RefundInProgress() || FinancialReserved(db.ops, None) then None
    else if exists r | r in db.reports :: db.reports[r].kind == CompletionDispute && db.reports[r].Active() then None
    else if b.status != AwaitingConfirmation then None
    else
      var payment := if b.online then FrozenHeld else Unpaid;
      Some(db.(booking := b.(status := Disputed, before := Some(b.status), payment := payment),
               queue := QueuePayment(db.queue, payment),
               escalations := CloseEscalations(db.escalations, EDismissed),
               reports := db.reports[id := Report(CompletionDispute, RpPending)]))
  }

  function OpenCancellation(db: Db, id: Id): Option<Db> {
    var b := db.booking;
    if id in db.cancellations || OtherCancellation(db.cancellations, None) then None
    else if b.status in {Canceled, Completed, Declined, Disputed, UnderReview} then None
    else if FinancialReserved(db.ops, None) then None
    else
      var filed := db.(cancellations := db.cancellations[id :=
          Cancellation(if b.started then CPending else CUnderReview, !b.started, None)]);
      Some(if b.started then filed else Freeze(filed, UnderReview))
  }

  function DeclineCancellation(db: Db, id: Id): Option<Db> {
    if id !in db.cancellations || db.cancellations[id].status != CPending then None
    else Some(db.(cancellations := db.cancellations[id := db.cancellations[id].(status := CDeclined)]))
  }

  function EscalateCancellation(db: Db, id: Id, report: Id): Option<Db> {
    if id !in db.cancellations || report in db.reports then None
    else if db.cancellations[id].status != CDeclined || FinancialReserved(db.ops, None) then None
    else Some(db.(reports := db.reports[report := Report(CancellationEscalation, RpPending)],
                  cancellations :=
                      db.cancellations[id := db.cancellations[id].(status := CEscalated, report := Some(report))]))
  }

  function OpenEscalationCase(db: Db, id: Id): Option<Db> {
    if id in db.escalations || !db.booking.online || FinancialReserved(db.ops, None) then None
    else if db.booking.status != AwaitingConfirmation || OtherEscalation(db.escalations, None) then None
    else Some(db.(escalations := db.escalations[id := EPending]))
  }

  /** An administrator opens a case for review before deciding it. */
  function StartReportReview(db: Db, id: Id): Option<Db> {
    if id !in db.reports then None
    else if db.reports[id].status != RpPending then Some(db)
    else Some(db.(reports := db.reports[id := db.reports[id].(status := RpUnderReview)],
                  cancellations := map c | c in db.cancellations ::
                    if db.cancellations[c].report == Some(id) && db.cancellations[c].status == CEscalated
                    then db.cancellations[c].(status := CUnderReview) else db.cancellations[c]))
  }

  function StartEscalationReview(db: Db, id: Id): Option<Db> {
    if id !in db.escalations then None
    else if db.escalations[id] != EPending then Some(db)
    else Some(db.(escalations := db.escalations[id := EUnderReview]))
  }

  // ---------------------------------------------------- ordinary lifecycle

  function AcceptCash(db: Db): Option<Db> {
    if db.booking.status != PendingApproval then None
    else Some(db.(booking := db.booking.(status := Accepted, started := false)))
  }

  function DeclineCash(db: Db): Option<Db> {
    if db.booking.status != PendingApproval || db.booking.Held() then None
    else Some(db.(booking := db.booking.(status := Declined)))
  }

  function StartJob(db: Db): Option<Db> {
    var b := db.booking;
    if db.RefundInProgress() || b.started then None
    else if b.online then
      if db.queue.None? || db.queue.value != QueueRow(QWaiting, PaidHeld) || b.payment != PaidHeld
         || b.status !in {Accepted, Waiting}
      then None
      else Some(db.(booking := b.(status := Ongoing, started := true), queue := Some(QueueRow(QServing, PaidHeld))))
    else if b.status != Accepted || b.payment != Unpaid || db.queue.Some? then None
    else Some(db.(booking := b.(status := Ongoing, started := true)))
  }

  function MarkComplete(db: Db): Option<Db> {
    var b := db.booking;
    if db.RefundInProgress() then None
    else if b.status == AwaitingConfirmation then Some(db)
    else if b.status != Ongoing then None
    else Some(db.(booking := b.(status := AwaitingConfirmation),
                  queue := if db.queue.Some? then Some(db.queue.value.(status := QDone)) else None))
  }

  function Settle(db: Db, admin: bool): Option<Db> {
    var b := db.booking;
    if db.RefundInProgress() then None
    else if b.status == Completed && db.released then Some(db)
    else if b.status != AwaitingConfirmation
        && !(admin && b.Paused() && b.before == Some(AwaitingConfirmation)) then None
    else if b.payment != (if !b.online then Unpaid else if admin && b.status == Disputed then FrozenHeld else PaidHeld)
        then None
    else
      var payment := if b.online then Released else CashConfirmed;
      Some(db.(booking := b.(status := Completed, payment := payment, before := None),
               released := true,
               queue := if db.queue.Some? then Some(QueueRow(QDone, payment)) else None,
               escalations := if admin then db.escalations else CloseEscalations(db.escalations, EResolved)))
  }

  // -------------------------------------------------------- refund protocol

  function RefundReserve(db: Db): Option<Db> {
    if db.released || db.booking.status == Completed || db.booking.payment == Released
        || db.booking.payment == CashConfirmed then None
    else if db.refund.Some? && (db.refund.value.gatewayId.Some? || db.refund.value.status == RProcessing) then Some(db)
    else if !db.booking.Held() then None
    else Some(db.(refund := Some(Refund(RProcessing, None))))
  }

  /** The gateway is idempotent by booking: a second request returns the first refund. */
  function AcceptedRefund(db: Db, mint: Id): Id { if db.gateway.Some? then db.gateway.value else mint }

  function RefundMarkFailed(db: Db): Option<Db> {
    if db.refund.None? then None
    else Some(db.(refund := Some(db.refund.value.(status := RFailed))))
  }

  function RefundFinalize(db: Db, resumed: bool, id: Id, status: RefundStatus): Option<Db> {
    var b := db.booking;
    if db.queue.None? then None
    else if b.status == Canceled && b.payment == Refunded then Some(db)
    else if db.released || b.status == Completed || !b.Held() then None
    else if db.refund.None? || (!resumed && db.refund.value.status != RProcessing) then None
    else Some(db.(refund := Some(Refund(status, Some(id))),
                  booking := b.(status := Canceled, payment := Refunded, before := None),
                  queue := Some(QueueRow(QCancelled, Refunded)),
                  refundLedger := if id in db.refundLedger then db.refundLedger else db.refundLedger + [id]))
  }

  /** The closing transaction of performImmediateCancel. */
  function CancelClose(db: Db, held: bool, preStart: bool): Option<Db> {
    var b := db.booking;
    if db.released || b.status in {Completed, Declined} then None
    else if preStart && b.status != Canceled && (b.started || b.status != UnderReview) then None
    else if !held && b.status != Canceled then
      if db.RefundInProgress() then None
      else Some(db.(booking := b.(status := Canceled, before := None),
                    queue := if db.queue.Some? then Some(db.queue.value.(status := QCancelled)) else None))
    else Some(db)
  }

  function ImmediateClose(db: Db, request: Id): Option<Db> {
    if db.booking.status != Canceled || request !in db.cancellations then None
    else Some(db.(cancellations := db.cancellations[request := db.cancellations[request].(status := CApproved)]))
  }

  // ----------------------------------------------------------------- claims

  predicate OutcomeAllowed(b: Booking, r: Report, outcome: Outcome) {
    && r.Active() && r.kind != CancellationEscalation
    && match outcome
       case Dismiss => true
       case ResolveSafety => r.kind == Safety
       case CancelBooking => b.status !in {Completed, Canceled}
       case ReleaseAndComplete => r.kind == CompletionDispute && b.before == Some(AwaitingConfirmation)
       case _ => false
  }

  predicate PenaltyRefused(penalty: Penalty, a: Account) {
    penalty != NoPenalty && (!a.penaltyAllowed || (penalty == Suspend && a.unstartedBookings))
  }

  function ClaimReport(db: Db, id: Id, outcome: Outcome, penalty: Penalty, a: Account): Option<Db> {
    if id !in db.reports || db.reports[id].kind == CancellationEscalation then None
    else
      var r := db.reports[id];
      var key := ReportCase(id);
      var existing := key in db.ops;
      if !r.Active() then (if existing && db.ops[key].status == Done then Some(db) else None)
      else
        var retry := existing && db.ops[key].stage in {Reserved, Established} && db.ops[key].outcome == outcome;
        if (!retry && !OutcomeAllowed(db.booking, r, outcome)) || (outcome == Dismiss && penalty != NoPenalty) then None
        else if !existing && PenaltyRefused(penalty, a) then None
        else ClaimAllowedReport(db, id, outcome, penalty)
  }

  function ClaimAllowedReport(db: Db, id: Id, outcome: Outcome, penalty: Penalty): Option<Db>
    requires id in db.reports
  {
    var adopted := Adopt(db, ReportCase(id), outcome, penalty);
    if adopted.None? || adopted.value.ops[ReportCase(id)].status == Done then adopted
    else ReviewReport(adopted.value, id, outcome)
  }

  /** A claimed report decision takes its report under review. */
  function ReviewReport(db: Db, id: Id, outcome: Outcome): Option<Db>
    requires id in db.reports && ReportCase(id) in db.ops
  {
    var r := db.reports[id];
    var established := db.ops[ReportCase(id)].EffectEstablished();
    if !established && outcome == ReleaseAndComplete
       && (r.kind != CompletionDispute || db.booking.before != Some(AwaitingConfirmation)) then None
    else if !established && Financial(outcome) && OtherBlockingCase(db, Some(id), None, None) then None
    else Some(db.(reports := db.reports[id := r.(status := RpUnderReview)]))
  }

  function ClaimCompletion(db: Db, id: Id, outcome: Outcome): Option<Db> {
    if id !in db.escalations || outcome !in {ReleaseAndComplete, RefundSeeker, KeepAwaiting} then None
    else
      var key := CompletionCase(id);
      if !OpenEscalation(db.escalations[id]) then
        (if key in db.ops && db.ops[key].status == Done then Some(db) else None)
      else
        var adopted := Adopt(db, key, outcome, NoPenalty);
        if adopted.None? then None
        else
          var d := adopted.value;
          var op := d.ops[key];
          var b := d.booking;
          if op.status == Done then adopted
          else if !op.EffectEstablished() && b.status != AwaitingConfirmation
                  && !(b.status == UnderReview && b.before == Some(AwaitingConfirmation) && op.stage == Reserved)
                      then None
          else Some(d.(escalations := d.escalations[id := EUnderReview]))
  }

  function ClaimByParticipant(db: Db, id: Id): Option<Db> {
    if id !in db.cancellations then None
    else
      var key := CancellationCase(id);
      var c := db.cancellations[id];
      if c.status !in {CPending, CUnderReview} then
        (if key in db.ops && db.ops[key].status == Done then Some(db) else None)
      else
        var begun := BeginResolution(db, key, ParticipantApprove, NoPenalty);
        if begun.None? then None
        else if begun.value.ops[key].status == Done then begun
        else Some(begun.value.(cancellations := begun.value.cancellations[id := c.(status := CUnderReview)]))
  }

  function ReviewLinkedReport(reports: map<Id, Report>, id: Id, to: ReportStatus): map<Id, Report> {
    if id in reports && reports[id].Active() then reports[id := reports[id].(status := to)] else reports
  }

  function ClaimByAdmin(db: Db, id: Id, approve: bool, fault: Option<Participant>): Option<Db> {
    if id !in db.cancellations then None
    else
      var key := CancellationCase(id);
      var c := db.cancellations[id];
      var outcome := if approve then AdminApprove else AdminDeny;
      var penalty := FaultFinding(fault);
      if key in db.ops && (db.ops[key].outcome != outcome || db.ops[key].penalty != penalty) then None
      else if fault.Some? && (!approve || !db.booking.started) then None
      else if c.status !in {CEscalated, CUnderReview} then
        (if key in db.ops && db.ops[key].status == Done then Some(db) else None)
      else
        var begun := BeginResolution(db, key, outcome, penalty);
        if begun.None? then None
        else
          var d := begun.value;
          var op := d.ops[key];
          if op.status == Done then begun
          else ReviewCancellation(d, id, approve)
  }

  /** A claimed cancellation decision takes its request and report under review. */
  function ReviewCancellation(db: Db, id: Id, approve: bool): Option<Db>
    requires id in db.cancellations && CancellationCase(id) in db.ops
  {
    var c := db.cancellations[id];
    if c.report.None? || c.report.value !in db.reports then None
    else if approve && !db.ops[CancellationCase(id)].EffectEstablished()
        && OtherBlockingCase(db, c.report, Some(id), None) then None
    else Some(db.(cancellations := db.cancellations[id := c.(status := CUnderReview)],
                  reports := ReviewLinkedReport(db.reports, c.report.value, RpUnderReview)))
  }

  predicate AdminOutcomeAllowed(b: Booking, banned: bool, outcome: Outcome) {
    if outcome == ReleaseAndComplete then banned && b.status == AwaitingConfirmation && b.online
    else (!b.started && b.status in {PendingApproval, Waiting, Accepted})
         || (banned && b.status in {Ongoing, AwaitingConfirmation})
  }

  function ClaimAdmin(db: Db, outcome: Outcome, banned: bool, requireBanned: bool): Option<Db> {
    if outcome !in {CancelBooking, ReleaseAndComplete} then None
    else
      var existing := AdminCase in db.ops;
      if existing && db.ops[AdminCase].status == Done then
        (if db.ops[AdminCase].outcome == outcome then Some(db) else None)
      else if existing && db.ops[AdminCase].stage == Finalized then None
      else if !existing && ((requireBanned && !banned) || !AdminOutcomeAllowed(db.booking, banned, outcome)) then None
      else
        var adopted := Adopt(db, AdminCase, outcome, NoPenalty);
        if adopted.None? then None
        else
          var d := adopted.value;
          var op := d.ops[AdminCase];
          if op.status == Done || op.EffectEstablished() then adopted else ReserveAdmin(d, outcome, banned)
  }

  /** The reservation a direct decision makes in the transaction that claims it. */
  function ReserveAdmin(db: Db, outcome: Outcome, banned: bool): Option<Db>
    requires AdminCase in db.ops
  {
    if db.ops[AdminCase].stage == Reserved then
      (if db.booking.status == UnderReview && db.booking.before.Some? then Some(db) else None)
    else if !AdminOutcomeAllowed(db.booking, banned, outcome)
            || OtherBlockingCase(db, None, None, None) || FinancialReserved(db.ops, Some(AdminCase)) then None
    else MarkStage(db.(booking := db.booking.(status := UnderReview, before := Some(db.booking.status))), AdminCase,
        Reserved)
  }

  function AdminReserved(db: Db, outcome: Outcome): Db {
    db.(booking := db.booking.(status := UnderReview, before := Some(db.booking.status)),
        ops := db.ops[AdminCase := Operation(Reserved, Processing, outcome, NoPenalty)])
  }

  // -------------------------------------------------------------- reserves

  function Reserve(db: Db, key: CaseKey): Option<Db> {
    if key !in db.ops then None
    else
      var op := db.ops[key];
      match key
      case AdminCase => None
      case ReportCase(id) =>
        if id !in db.reports || db.reports[id].status != RpUnderReview then None
        else if op.status == Done || op.EffectEstablished() then Some(db)
        else if OtherBlockingCase(db, Some(id), None, None) then None
        else MarkStage(db, key, Reserved)
      case CancellationCase(id) =>
        if id !in db.cancellations || db.cancellations[id].status != CUnderReview then None
        else if op.status == Done || op.EffectEstablished() then Some(db)
        else if OtherBlockingCase(db, db.cancellations[id].report, Some(id), None) then None
        else MarkStage(db, key, Reserved)
      case CompletionCase(id) =>
        if id !in db.escalations || db.escalations[id] != EUnderReview || op.status == Done then None
        else if op.EffectEstablished() then Some(db)
        else if OtherBlockingCase(db, None, None, Some(id)) then None
        else if db.booking.status == UnderReview
            && db.booking.before == Some(AwaitingConfirmation) then MarkStage(db, key, Reserved)
        else if db.booking.status != AwaitingConfirmation then None
        else MarkStage(db.(booking := db.booking.(status := UnderReview, before := Some(AwaitingConfirmation))), key,
            Reserved)
  }

  // ------------------------------------------------------------- finalizers

  predicate FinalStateReached(b: Booking, outcome: Outcome) {
    (Cancels(outcome) ==> CancelledFully(b)) && (outcome == ReleaseAndComplete ==> CompletedFully(b))
  }

  /** A penalty the account can no longer take is dropped; the decision still closes. */
  function AppliedPenalty(penalty: Penalty, a: Account): Penalty {
    if penalty == NoPenalty || !a.penaltyAllowed then NoPenalty else penalty
  }

  predicate PenaltyThrows(penalty: Penalty, a: Account) {
    a.penaltyAllowed && ((penalty == Suspend && a.unstartedBookings) || (penalty == TrustDeduct && a.adminParticipates))
  }

  function CloseReport(db: Db, id: Id, status: ReportStatus, applied: Penalty): Db
    requires id in db.reports && ReportCase(id) in db.ops
  {
    CloseOp(db, ReportCase(id), applied).(reports := db.reports[id := db.reports[id].(status := status)])
  }

  function CloseCancellation(db: Db, id: Id, approve: bool, applied: Penalty): Db
    requires id in db.cancellations && CancellationCase(id) in db.ops
    requires db.cancellations[id].report.Some? && db.cancellations[id].report.value in db.reports
  {
    var r := db.cancellations[id].report.value;
    CloseOp(db, CancellationCase(id), applied).(
      reports := db.reports[r := db.reports[r].(status := if approve then RpResolved else RpDismissed)],
      cancellations := db.cancellations[id := db.cancellations[id].(status := CResolved)])
  }

  function FinalizeReport(db: Db, id: Id, outcome: Outcome, penalty: Penalty, a: Account): Option<Db> {
    var key := ReportCase(id);
    if key !in db.ops then None
    else if db.ops[key].status == Done then Some(db)
    else if id !in db.reports || db.reports[id].status != RpUnderReview then None
    else if !FinalStateReached(db.booking, outcome) || PenaltyThrows(penalty, a) then None
    else
      var closed := CloseReport(db, id, if outcome == Dismiss then RpDismissed
          else RpResolved, AppliedPenalty(penalty, a));
      Some(if outcome == Dismiss || outcome == ResolveSafety then Restore(closed) else closed)
  }

  function FinalizeCompletion(db: Db, id: Id, outcome: Outcome): Option<Db> {
    var key := CompletionCase(id);
    if key !in db.ops then None
    else if db.ops[key].status == Done then Some(db)
    else if id !in db.escalations || db.escalations[id] != EUnderReview then None
    else if outcome == ReleaseAndComplete && !CompletedFully(db.booking) then None
    else if outcome == RefundSeeker && !CancelSettled(db.booking) then None
    else if outcome == KeepAwaiting && db.booking.status != AwaitingConfirmation then None
    else Some(CloseOp(db.(escalations := db.escalations[id := EResolved]), key, NoPenalty))
  }

  function FinalizeByParticipant(db: Db, id: Id): Option<Db> {
    var key := CancellationCase(id);
    if key !in db.ops || id !in db.cancellations then None
    else if db.ops[key].status == Done then Some(db)
    else if !CancelSettled(db.booking) then None
    else
      var c := db.cancellations[id];
      var reports := if c.report.Some? && c.report.value in db.reports
          && db.reports[c.report.value].kind == CancellationEscalation
                     then ReviewLinkedReport(db.reports, c.report.value, RpResolved) else db.reports;
      Some(CloseOp(db.(cancellations := db.cancellations[id := c.(status := CApproved)], reports := reports), key,
          NoPenalty))
  }

  function FinalizeByAdmin(db: Db, id: Id, approve: bool, penalty: Penalty, a: Account): Option<Db> {
    var key := CancellationCase(id);
    if key !in db.ops || id !in db.cancellations then None
    else if db.ops[key].status == Done then Some(db)
    else
      var c := db.cancellations[id];
      if c.status != CUnderReview || c.report.None? || c.report.value !in db.reports then None
      else if approve && !CancelSettled(db.booking) then None
      else if approve && penalty.Fault? && a.adminParticipates then None
      else
        var closed := CloseCancellation(db, id, approve, if approve then penalty else NoPenalty);
        Some(if approve then closed else Restore(closed))
  }

  function FinalizeAdmin(db: Db, outcome: Outcome): Option<Db> {
    if AdminCase !in db.ops then None
    else if db.ops[AdminCase].status == Done then Some(db)
    else if outcome == CancelBooking && !CancelledFully(db.booking) then None
    else if outcome == ReleaseAndComplete
        && !(db.booking.status == Completed && db.booking.payment == Released) then None
    else Some(CloseOp(db, AdminCase, NoPenalty))
  }

  function Finalize(db: Db, key: CaseKey, outcome: Outcome, penalty: Penalty, a: Account): Option<Db> {
    match key
    case ReportCase(id) => FinalizeReport(db, id, outcome, penalty, a)
    case CompletionCase(id) => FinalizeCompletion(db, id, outcome)
    case CancellationCase(id) =>
      if outcome == ParticipantApprove then FinalizeByParticipant(db, id)
      else FinalizeByAdmin(db, id, outcome == AdminApprove, penalty, a)
    case AdminCase => FinalizeAdmin(db, outcome)
  }
}
