/** The services as the imperative code they are: rows updated field by field,
    one method per transaction, and calls that string transactions together.
    Each transaction is proved to do what its function on values does, and a whole
    undisturbed call is proved to be a solo run of the interleaved model. */
module ResolutionService {
  import opened BookingRows
  import T = Transactions
  import opened TransactionShapes
  import opened Interleaving
  import opened ResolutionInvariant
  import opened CrashRecovery
  import opened RetryFinishes
  import opened CallOutcomes
  import opened ClosingRuns

  /** The call repeats a cancelling decision that already holds the money. */
  ghost predicate RetriesHeld(db: Db, id: Id, outcome: Outcome, penalty: Penalty) {
    && ReportCase(id) in db.ops && db.ops[ReportCase(id)].HoldsMoney() && Cancels(outcome)
    && db.ops[ReportCase(id)].outcome == outcome && db.ops[ReportCase(id)].penalty == penalty
  }

  predicate DecisionDone(db: Db, key: CaseKey) { key in db.ops && db.ops[key].status == Done }

  class BookingStore {
    var booking: Booking
    var queue: Option<QueueRow>
    var refund: Option<Refund>
    var refundLedger: seq<Id>
    var released: bool
    var reports: map<Id, Report>
    var cancellations: map<Id, Cancellation>
    var escalations: map<Id, EscalationStatus>
    var ops: map<CaseKey, Operation>
    var closures: seq<Closure>
    var gateway: Option<Id>

    /** The rows as one value. */
    ghost function View(): Db
      reads this
    {
      Db(booking, queue, refund, refundLedger, released, reports, cancellations, escalations, ops, closures, gateway)
    }

    constructor (b: Booking, q: Option<QueueRow>)
      ensures View() == Db(b, q, None, [], false, map[], map[], map[], map[], [], None)
    {
      booking, queue, refund, refundLedger, released := b, q, None, [], false;
      reports, cancellations, escalations, ops, closures, gateway := map[], map[], map[], map[], [], None;
    }

    // ------------------------------------------------- staged bookkeeping

    method BeginResolution(key: CaseKey, outcome: Outcome, penalty: Penalty) returns (ok: bool)
      modifies this`ops
      ensures Commits(T.BeginResolution(old(View()), key, outcome, penalty), old(View()), View(), ok)
      ensures ok ==> key in ops
    {
      if key in ops {
        if ops[key].outcome != outcome || ops[key].penalty != penalty {
          return false;
        }
        if !ops[key].Finished() {
          ops := ops[key := ops[key].(status := Processing)];
        }
      } else {
        ops := ops[key := Operation(Claimed, Processing, outcome, penalty)];
      }
      return true;
    }

    method MarkStage(key: CaseKey, stage: Stage) returns (ok: bool)
      modifies this`ops
      ensures Commits(T.MarkStage(old(View()), key, stage), old(View()), View(), ok)
    {
      if key !in ops {
        return false;
      }
      var op := ops[key];
      if !op.Finished() && Rank(stage) >= Rank(op.stage) {
        ops := ops[key := op.(stage := stage, status := Processing)];
      }
      return true;
    }

    method MarkFailed(key: CaseKey)
      modifies this`ops
      ensures View() == T.MarkFailed(old(View()), key)
    {
      if key in ops && !ops[key].Finished() {
        ops := ops[key := ops[key].(status := FailedRetryable)];
      }
    }

    method Reconcile(key: CaseKey, outcome: Outcome)
      requires key in ops
      modifies this`ops
      ensures T.Reconcile(old(View()), key, outcome) == Some(View()) && key in ops
    {
      if ops[key].stage != Reserved {
        return;
      }
      var done := released && T.CompletedFully(booking);
      if outcome != ReleaseAndComplete {
        done := T.CancelledFully(booking) && (!booking.online || (refund.Some? && refund.value.gatewayId.Some?));
      }
      assert done == T.EffectCommitted(View(), outcome);
      if done {
        var _ := MarkStage(key, Established);
      }
    }

    method Adopt(key: CaseKey, outcome: Outcome, penalty: Penalty) returns (ok: bool)
      modifies this`ops
      ensures Commits(T.Adopt(old(View()), key, outcome, penalty), old(View()), View(), ok)
      ensures ok ==> key in ops
    {
      ok := BeginResolution(key, outcome, penalty);
      if ok && Financial(outcome) {
        Reconcile(key, outcome);
      }
    }

    method RestoreBooking() returns (restored: bool)
      modifies this`booking, this`queue
      ensures View() == T.Restore(old(View()))
      ensures restored ==> old(booking).before == Some(booking.status) && booking.before.None?
    {
      if T.OtherReport(reports, None) || T.OtherCancellation(cancellations, None) || !booking.Paused()
          || booking.before.None? {
        return false;
      }
      var payment := if booking.online then PaidHeld else Unpaid;
      booking := booking.(status := booking.before.value, before := None, payment := payment);
      if queue.Some? {
        queue := Some(queue.value.(payment := payment));
      }
      return true;
    }

    // --------------------------------------------------- refund protocol

    /** Reserve the refund; `recorded` is the gateway refund already on record. */
    method RefundReserve() returns (ok: bool, recorded: Option<Refund>)
      modifies this`refund
      ensures Commits(T.RefundReserve(old(View())), old(View()), View(), ok)
      ensures ok ==> recorded == (if refund.Some? && refund.value.gatewayId.Some? then refund else None)
    {
      if released || booking.status == Completed || booking.payment == Released || booking.payment == CashConfirmed {
        return false, None;
      }
      if refund.Some? && refund.value.gatewayId.Some? {
        return true, refund;
      }
      if refund.None? || refund.value.status != RProcessing {
        if !booking.Held() {
          return false, None;
        }
        refund := Some(Refund(RProcessing, None));
      }
      return true, None;
    }

    /** The call to the payment provider, keyed by the booking. */
    method AskGateway(answer: GatewayAnswer, mint: Id) returns (id: Option<Id>)
      modifies this`gateway
      ensures View() == old(View()).(gateway := if answer.Refuses? then old(gateway)
                else Some(T.AcceptedRefund(old(View()), mint)))
      ensures id == if answer.Accepts? then Some(T.AcceptedRefund(old(View()), mint)) else None
    {
      if answer.Refuses? {
        return None;
      }
      if gateway.None? {
        gateway := Some(mint);
      }
      return if answer.Accepts? then gateway else None;
    }

    method RefundFinalize(resumed: bool, id: Id, status: RefundStatus) returns (ok: bool)
      modifies this
      ensures Commits(T.RefundFinalize(old(View()), resumed, id, status), old(View()), View(), ok)
    {
      if queue.None? {
        return false;
      }
      if booking.status == Canceled && booking.payment == Refunded {
        return true;
      }
      if released || booking.status == Completed || !booking.Held() {
        return false;
      }
      if refund.None? || (!resumed && refund.value.status != RProcessing) {
        return false;
      }
      refund := Some(Refund(status, Some(id)));
      booking := booking.(status := Canceled, payment := Refunded, before := None);
      queue := Some(QueueRow(QCancelled, Refunded));
      if id !in refundLedger {
        refundLedger := refundLedger + [id];
      }
      return true;
    }

    /** Ask the gateway, then finalize or record the failure. */
    method SubmitRefund(answer: GatewayAnswer, mint: Id) returns (ok: bool)
      requires refund.Some?
      modifies this
      ensures (View(), ok) == SubmittedRefund(old(View()), answer, mint)
    {
      var id := AskGateway(answer, mint);
      if id.Some? {
        ok := RefundFinalize(false, id.value, answer.status);
      } else {
        refund := Some(refund.value.(status := RFailed));
        ok := false;
      }
    }

    /** Reserve the refund and carry it through, or resume one already on record. */
    method ReserveAndSubmit(answer: GatewayAnswer, mint: Id) returns (ok: bool)
      modifies this
      ensures (View(), ok) == ReservedRefund(old(View()), answer, mint)
    {
      var known;
      ok, known := RefundReserve();
      if ok {
        if known.Some? {
          ok := RefundFinalize(true, known.value.gatewayId.value, known.value.status);
        } else {
          ok := SubmitRefund(answer, mint);
        }
      }
    }

    /** refundBookingPayment */
    method RefundBookingPayment(answer: GatewayAnswer, mint: Id) returns (ok: bool)
      modifies this
      ensures (View(), ok) == RefundCall(old(View()), answer, mint)
    {
      var recorded := refund.Some? && refund.value.gatewayId.Some?;
      if queue.None? {
        return false;
      }
      if recorded && booking.status == Canceled && booking.payment == Refunded {
        return true;
      }
      if !recorded && !booking.Held() {
        return false;
      }
      ok := ReserveAndSubmit(answer, mint);
    }

    // ------------------------------------------------------ cancellation

    method CancelClose(held: bool) returns (ok: bool)
      modifies this`booking, this`queue
      ensures Commits(T.CancelClose(old(View()), held, false), old(View()), View(), ok)
    {
      if released || booking.status == Completed || booking.status == Declined {
        return false;
      }
      if !held && booking.status != Canceled {
        if refund.Some? && refund.value.status == RProcessing {
          return false;
        }
        booking := booking.(status := Canceled, before := None);
        if queue.Some? {
          queue := Some(queue.value.(status := QCancelled));
        }
      }
      return true;
    }

    /** performImmediateCancel as a decision calls it. */
    method CancelForDecision(answer: GatewayAnswer, mint: Id) returns (ok: bool)
      modifies this
      ensures (View(), ok) == CancelCall(old(View()), answer, mint)
    {
      if booking.status == Completed || booking.status == Declined {
        return false;
      }
      var held := booking.Held();
      if held {
        ok := RefundBookingPayment(answer, mint);
        if !ok {
          return;
        }
      }
      ok := CancelClose(held);
    }

    // ------------------------------------------------------- case openers

    method Freeze(status: BookingStatus)
      modifies this`booking, this`queue
      ensures View() == T.Freeze(old(View()), status)
    {
      var payment := booking.payment;
      booking := booking.(status := status, before := Some(booking.status), payment := if payment == PaidHeld
          then FrozenHeld else payment);
      if payment == PaidHeld && queue.Some? {
        queue := Some(queue.value.(payment := FrozenHeld));
      }
    }

    /** createSafetyReport */
    method CreateSafetyReport(id: Id) returns (ok: bool)
      modifies this`booking, this`queue, this`reports
      ensures Commits(T.OpenSafetyReport(old(View()), id), old(View()), View(), ok)
    {
      if id in reports
          || booking.status !in {Accepted, Ongoing, AwaitingConfirmation, UnderReview, Disputed, Completed, Canceled} {
        return false;
      }
      if (refund.Some? && refund.value.status == RProcessing) || T.FinancialReserved(ops, None) {
        return false;
      }
      reports := reports[id := Report(Safety, RpPending)];
      if booking.status in {Accepted, Ongoing, AwaitingConfirmation} {
        Freeze(Disputed);
      }
      return true;
    }

    /** The opening transaction of requestCancellation. */
    method RequestCancellation(id: Id) returns (ok: bool)
      modifies this`booking, this`queue, this`cancellations
      ensures Commits(T.OpenCancellation(old(View()), id), old(View()), View(), ok)
    {
      if id in cancellations || T.OtherCancellation(cancellations, None) {
        return false;
      }
      if booking.status in {Canceled, Completed, Declined, Disputed, UnderReview} || T.FinancialReserved(ops, None) {
        return false;
      }
      cancellations :=
          cancellations[id := Cancellation(if booking.started then CPending else CUnderReview, !booking.started, None)];
      if !booking.started {
        Freeze(UnderReview);
      }
      return true;
    }

    /** escalateCancellationRequest */
    method EscalateCancellation(id: Id, report: Id) returns (ok: bool)
      modifies this`reports, this`cancellations
      ensures Commits(T.EscalateCancellation(old(View()), id, report), old(View()), View(), ok)
    {
      if id !in cancellations || report in reports || cancellations[id].status != CDeclined
          || T.FinancialReserved(ops, None) {
        return false;
      }
      reports := reports[report := Report(CancellationEscalation, RpPending)];
      cancellations := cancellations[id := cancellations[id].(status := CEscalated, report := Some(report))];
      return true;
    }

    /** createCompletionEscalation */
    method CreateEscalation(id: Id) returns (ok: bool)
      modifies this`escalations
      ensures Commits(T.OpenEscalationCase(old(View()), id), old(View()), View(), ok)
    {
      if id in escalations || !booking.online || T.FinancialReserved(ops, None) {
        return false;
      }
      if booking.status != AwaitingConfirmation || T.OtherEscalation(escalations, None) {
        return false;
      }
      escalations := escalations[id := EPending];
      return true;
    }

    // ------------------------------------------------ cancellation decisions

    /** The claim of respondToCancellationRequest. */
    method ClaimByParticipant(id: Id) returns (ok: bool)
      modifies this`ops, this`cancellations
      ensures Commits(T.ClaimByParticipant(old(View()), id), old(View()), View(), ok)
    {
      if id !in cancellations {
        return false;
      }
      var key := CancellationCase(id);
      var c := cancellations[id];
      if c.status != CPending && c.status != CUnderReview {
        return key in ops && ops[key].status == Done;
      }
      ok := BeginResolution(key, ParticipantApprove, NoPenalty);
      if ok && ops[key].status != Done {
        cancellations := cancellations[id := c.(status := CUnderReview)];
      }
    }

    /** The claim of adminResolveCancellationRequest, rolled back when a later check throws. */
    method ClaimByAdmin(id: Id, approve: bool, fault: Option<Participant>) returns (ok: bool)
      modifies this`ops, this`cancellations, this`reports
      ensures Commits(T.ClaimByAdmin(old(View()), id, approve, fault), old(View()), View(), ok)
    {
      var key := CancellationCase(id);
      var outcome := if approve then AdminApprove else AdminDeny;
      var penalty := FaultFinding(fault);
      if id !in cancellations || (key in ops && (ops[key].outcome != outcome || ops[key].penalty != penalty)) {
        return false;
      }
      if fault.Some? && (!approve || !booking.started) {
        return false;
      }
      var c := cancellations[id];
      if c.status != CEscalated && c.status != CUnderReview {
        return key in ops && ops[key].status == Done;
      }
      var before := ops;
      ok := BeginResolution(key, outcome, penalty);
      if !ok || ops[key].status == Done {
        return;
      }
      ok := ReviewCancellation(id, approve);
      if !ok {
        ops := before;
      }
    }

    method ReviewCancellation(id: Id, approve: bool) returns (ok: bool)
      requires id in cancellations && CancellationCase(id) in ops
      modifies this`cancellations, this`reports
      ensures Commits(T.ReviewCancellation(old(View()), id, approve), old(View()), View(), ok)
    {
      var c := cancellations[id];
      if c.report.None? || c.report.value !in reports {
        return false;
      }
      if approve && !ops[CancellationCase(id)].EffectEstablished() {
        if T.OtherReport(reports, c.report) || T.OtherCancellation(cancellations, Some(id))
            || T.OtherEscalation(escalations, None) {
          return false;
        }
      }
      cancellations := cancellations[id := c.(status := CUnderReview)];
      reports := T.ReviewLinkedReport(reports, c.report.value, RpUnderReview);
      return true;
    }

    /** reserveCancellationFinancialOutcome */
    method ReserveCancellation(id: Id) returns (ok: bool)
      modifies this`ops
      ensures Commits(T.Reserve(old(View()), CancellationCase(id)), old(View()), View(), ok)
    {
      var key := CancellationCase(id);
      if key !in ops || id !in cancellations || cancellations[id].status != CUnderReview {
        return false;
      }
      if ops[key].status == Done || ops[key].EffectEstablished() {
        return true;
      }
      if T.OtherReport(reports, cancellations[id].report) || T.OtherCancellation(cancellations, Some(id))
          || T.OtherEscalation(escalations, None) {
        return false;
      }
      ok := MarkStage(key, Reserved);
    }

    method CloseOperation(key: CaseKey, applied: Penalty)
      requires key in ops
      modifies this`ops, this`closures
      ensures View() == T.CloseOp(old(View()), key, applied)
    {
      ops := ops[key := ops[key].(stage := Finalized, status := Done)];
      closures := closures + [Closure(key, applied)];
    }

    method FinalizeByParticipant(id: Id) returns (ok: bool)
      modifies this`ops, this`closures, this`cancellations, this`reports
      ensures Commits(T.FinalizeByParticipant(old(View()), id), old(View()), View(), ok)
    {
      var key := CancellationCase(id);
      if key !in ops || id !in cancellations {
        return false;
      }
      if ops[key].status == Done {
        return true;
      }
      if !T.CancelSettled(booking) {
        return false;
      }
      var report := cancellations[id].report;
      cancellations := cancellations[id := cancellations[id].(status := CApproved)];
      if report.Some? && report.value in reports && reports[report.value].kind == CancellationEscalation {
        reports := T.ReviewLinkedReport(reports, report.value, RpResolved);
      }
      CloseOperation(key, NoPenalty);
      return true;
    }

    method FinalizeByAdmin(id: Id, approve: bool, penalty: Penalty, a: Account) returns (ok: bool)
      modifies this
      ensures Commits(T.FinalizeByAdmin(old(View()), id, approve, penalty, a), old(View()), View(), ok)
    {
      var key := CancellationCase(id);
      if key !in ops || id !in cancellations {
        return false;
      }
      if ops[key].status == Done {
        return true;
      }
      var c := cancellations[id];
      if c.status != CUnderReview || c.report.None? || c.report.value !in reports {
        return false;
      }
      if approve && (!T.CancelSettled(booking) || (penalty.Fault? && a.adminParticipates)) {
        return false;
      }
      cancellations := cancellations[id := c.(status := CResolved)];
      reports := reports[c.report.value :=
          reports[c.report.value].(status := if approve then RpResolved else RpDismissed)];
      CloseOperation(key, if approve then penalty else NoPenalty);
      if !approve {
        var _ := RestoreBooking();
      }
      return true;
    }

    // -------------------------------------- completion and direct decisions

    /** The claim of resolveCompletionEscalation, rolled back when a later check throws. */
    method ClaimCompletion(id: Id, outcome: Outcome) returns (ok: bool)
      modifies this`ops, this`escalations
      ensures Commits(T.ClaimCompletion(old(View()), id, outcome), old(View()), View(), ok)
    {
      var key := CompletionCase(id);
      if id !in escalations || outcome !in {ReleaseAndComplete, RefundSeeker, KeepAwaiting} {
        return false;
      }
      if !OpenEscalation(escalations[id]) {
        return key in ops && ops[key].status == Done;
      }
      var before := ops;
      ok := Adopt(key, outcome, NoPenalty);
      if !ok || ops[key].status == Done {
        return;
      }
      var reservedRetry := booking.status == UnderReview && booking.before == Some(AwaitingConfirmation)
          && ops[key].stage == Reserved;
      if !ops[key].EffectEstablished() && booking.status != AwaitingConfirmation && !reservedRetry {
        ops := before;
        return false;
      }
      escalations := escalations[id := EUnderReview];
    }

    /** reserveCompletionFinancialOutcome also holds the booking under review. */
    method ReserveCompletion(id: Id) returns (ok: bool)
      modifies this`ops, this`booking
      ensures Commits(T.Reserve(old(View()), CompletionCase(id)), old(View()), View(), ok)
    {
      var key := CompletionCase(id);
      if key !in ops || id !in escalations || escalations[id] != EUnderReview || ops[key].status == Done {
        return false;
      }
      if ops[key].EffectEstablished() {
        return true;
      }
      if T.OtherReport(reports, None) || T.OtherCancellation(cancellations, None)
          || T.OtherEscalation(escalations, Some(id)) {
        return false;
      }
      if !(booking.status == UnderReview && booking.before == Some(AwaitingConfirmation)) {
        if booking.status != AwaitingConfirmation {
          return false;
        }
        booking := booking.(status := UnderReview, before := Some(AwaitingConfirmation));
      }
      ok := MarkStage(key, Reserved);
    }

    method FinalizeCompletion(id: Id, outcome: Outcome) returns (ok: bool)
      modifies this`ops, this`closures, this`escalations
      ensures Commits(T.FinalizeCompletion(old(View()), id, outcome), old(View()), View(), ok)
    {
      var key := CompletionCase(id);
      if key !in ops {
        return false;
      }
      if ops[key].status == Done {
        return true;
      }
      if id !in escalations || escalations[id] != EUnderReview {
        return false;
      }
      if (outcome == ReleaseAndComplete && !T.CompletedFully(booking))
          || (outcome == RefundSeeker && !T.CancelSettled(booking))
         || (outcome == KeepAwaiting && booking.status != AwaitingConfirmation) {
        return false;
      }
      escalations := escalations[id := EResolved];
      CloseOperation(key, NoPenalty);
      return true;
    }

    /** The claim of resolveAdminBooking: it reserves in the same transaction. */
    method ClaimAdmin(outcome: Outcome, banned: bool, requireBanned: bool) returns (ok: bool)
      modifies this`ops, this`booking
      ensures Commits(T.ClaimAdmin(old(View()), outcome, banned, requireBanned), old(View()), View(), ok)
    {
      if outcome != CancelBooking && outcome != ReleaseAndComplete {
        return false;
      }
      var existing := AdminCase in ops;
      if existing && ops[AdminCase].status == Done {
        return ops[AdminCase].outcome == outcome;
      }
      if existing && ops[AdminCase].stage == Finalized {
        return false;
      }
      if !existing && ((requireBanned && !banned) || !T.AdminOutcomeAllowed(booking, banned, outcome)) {
        return false;
      }
      var before := ops;
      ok := Adopt(AdminCase, outcome, NoPenalty);
      if !ok || ops[AdminCase].status == Done || ops[AdminCase].EffectEstablished() {
        return;
      }
      ok := ReserveAdmin(outcome, banned);
      if !ok {
        ops := before;
      }
    }

    method ReserveAdmin(outcome: Outcome, banned: bool) returns (ok: bool)
      requires AdminCase in ops
      modifies this`ops, this`booking
      ensures Commits(T.ReserveAdmin(old(View()), outcome, banned), old(View()), View(), ok)
    {
      if ops[AdminCase].stage == Reserved {
        return booking.status == UnderReview && booking.before.Some?;
      }
      if !T.AdminOutcomeAllowed(booking, banned, outcome) || T.FinancialReserved(ops, Some(AdminCase)) {
        return false;
      }
      if T.OtherReport(reports, None) || T.OtherCancellation(cancellations, None)
          || T.OtherEscalation(escalations, None) {
        return false;
      }
      booking := booking.(status := UnderReview, before := Some(booking.status));
      ok := MarkStage(AdminCase, Reserved);
    }

    method FinalizeAdmin(outcome: Outcome) returns (ok: bool)
      modifies this`ops, this`closures
      ensures Commits(T.FinalizeAdmin(old(View()), outcome), old(View()), View(), ok)
    {
      if AdminCase !in ops {
        return false;
      }
      if ops[AdminCase].status == Done {
        return true;
      }
      if (outcome == CancelBooking && !T.CancelledFully(booking))
         || (outcome == ReleaseAndComplete && !(booking.status == Completed && booking.payment == Released)) {
        return false;
      }
      CloseOperation(AdminCase, NoPenalty);
      return true;
    }

    // ---------------------------------------------------- report decision

    method ClaimReport(id: Id, outcome: Outcome, penalty: Penalty, a: Account) returns (ok: bool)
      modifies this
      ensures Commits(T.ClaimReport(old(View()), id, outcome, penalty, a), old(View()), View(), ok)
    {
      var key := ReportCase(id);
      if id !in reports || reports[id].kind == CancellationEscalation {
        return false;
      }
      var existing := key in ops;
      if !reports[id].Active() {
        return existing && ops[key].status == Done;
      }
      var retry := existing && ops[key].stage in {Reserved, Established} && ops[key].outcome == outcome;
      if !retry && !T.OutcomeAllowed(booking, reports[id], outcome) {
        return false;
      }
      if (outcome == Dismiss && penalty != NoPenalty) || (!existing && T.PenaltyRefused(penalty, a)) {
        return false;
      }
      ok := ClaimAllowedReport(id, outcome, penalty);
    }

    /** The claim's writes, rolled back as one when a later check throws. */
    method ClaimAllowedReport(id: Id, outcome: Outcome, penalty: Penalty) returns (ok: bool)
      requires id in reports
      modifies this`ops, this`reports
      ensures Commits(T.ClaimAllowedReport(old(View()), id, outcome, penalty), old(View()), View(), ok)
    {
      var key := ReportCase(id);
      var before := ops;
      ok := Adopt(key, outcome, penalty);
      if !ok {
        return;
      }
      if ops[key].status == Done {
        return true;
      }
      ok := ReviewReport(id, outcome);
      if !ok {
        ops := before;
      }
    }

    method ReviewReport(id: Id, outcome: Outcome) returns (ok: bool)
      requires id in reports && ReportCase(id) in ops
      modifies this`reports
      ensures Commits(T.ReviewReport(old(View()), id, outcome), old(View()), View(), ok)
    {
      if !ops[ReportCase(id)].EffectEstablished() && Financial(outcome) {
        if outcome == ReleaseAndComplete
           && (reports[id].kind != CompletionDispute || booking.before != Some(AwaitingConfirmation)) {
          return false;
        }
        if T.OtherReport(reports, Some(id)) || T.OtherCancellation(cancellations, None)
           || T.OtherEscalation(escalations, None) {
          return false;
        }
      }
      reports := reports[id := reports[id].(status := RpUnderReview)];
      return true;
    }

    method ReserveReport(id: Id) returns (ok: bool)
      modifies this`ops
      ensures Commits(T.Reserve(old(View()), ReportCase(id)), old(View()), View(), ok)
    {
      var key := ReportCase(id);
      if key !in ops || id !in reports || reports[id].status != RpUnderReview {
        return false;
      }
      if ops[key].status == Done || ops[key].EffectEstablished() {
        return true;
      }
      if T.OtherReport(reports, Some(id)) || T.OtherCancellation(cancellations, None)
          || T.OtherEscalation(escalations, None) {
        return false;
      }
      ok := MarkStage(key, Reserved);
    }

    method FinalizeReport(id: Id, outcome: Outcome, penalty: Penalty, a: Account) returns (ok: bool)
      modifies this
      ensures Commits(T.FinalizeReport(old(View()), id, outcome, penalty, a), old(View()), View(), ok)
      ensures ok && old(ReportCase(id) in ops && ops[ReportCase(id)].status != Done) ==>
                closures == old(closures) + [Closure(ReportCase(id), if a.penaltyAllowed then penalty else NoPenalty)]
    {
      FinalizedOnce(View(), id, outcome, penalty, a);
      var key := ReportCase(id);
      if key !in ops {
        return false;
      }
      if ops[key].status == Done {
        return true;
      }
      if id !in reports || reports[id].status != RpUnderReview {
        return false;
      }
      if !T.FinalStateReached(booking, outcome) || T.PenaltyThrows(penalty, a) {
        return false;
      }
      reports := reports[id := reports[id].(status := if outcome == Dismiss then RpDismissed else RpResolved)];
      ops := ops[key := ops[key].(stage := Finalized, status := Done)];
      closures := closures + [Closure(key, T.AppliedPenalty(penalty, a))];
      if outcome == Dismiss || outcome == ResolveSafety {
        var _ := RestoreBooking();
      }
      return true;
    }

    /** Settlement by the administrator, as a decision calls it. */
    method SettleForDecision() returns (ok: bool)
      modifies this
      ensures Commits(T.Settle(old(View()), true), old(View()), View(), ok)
    {
      if refund.Some? && refund.value.status == RProcessing {
        return false;
      }
      if booking.status == Completed && released {
        return true;
      }
      if booking.status != AwaitingConfirmation && !(booking.Paused() && booking.before == Some(AwaitingConfirmation)) {
        return false;
      }
      if booking.payment != (if !booking.online then Unpaid else if booking.status == Disputed then FrozenHeld
          else PaidHeld) {
        return false;
      }
      var payment := if booking.online then Released else CashConfirmed;
      booking := booking.(status := Completed, payment := payment, before := None);
      released := true;
      if queue.Some? {
        queue := Some(QueueRow(QDone, payment));
      }
      return true;
    }

    /** Move the money, then record that it was moved. */
    method MoveMoney(key: CaseKey, outcome: Outcome, answer: GatewayAnswer, mint: Id) returns (ok: bool)
      modifies this
      ensures (View(), ok) == EffectCall(old(View()), key, outcome, answer, mint)
    {
      ok := SendMoney(outcome, answer, mint);
      if ok {
        ok := MarkStage(key, Established);
      }
    }

    method SendMoney(outcome: Outcome, answer: GatewayAnswer, mint: Id) returns (ok: bool)
      modifies this
      ensures (View(), ok) == MoneySent(old(View()), outcome, answer, mint)
    {
      if Cancels(outcome) {
        ok := CancelForDecision(answer, mint);
      } else {
        ok := SettleForDecision();
      }
    }

    /** Everything of a claimed report decision before its finalization. */
    method PrepareReport(id: Id, outcome: Outcome, answer: GatewayAnswer, mint: Id) returns (ok: bool)
      requires ReportCase(id) in ops
      modifies this
      ensures (View(), ok) == PreparedReport(old(View()), id, outcome, answer, mint)
    {
      if Financial(outcome) && !ops[ReportCase(id)].EffectEstablished() {
        ok := ReserveReport(id);
        if ok {
          ok := MoveMoney(ReportCase(id), outcome, answer, mint);
        }
      } else {
        ok := MarkStage(ReportCase(id), DecisionReady);
      }
    }

    /** Finalize what was prepared, or, as the catch block does, record that the decision can be retried. */
    method CloseOrFail(prepared: bool, id: Id, outcome: Outcome, penalty: Penalty, a: Account) returns (ok: bool)
      modifies this
      ensures (View(), ok) == ClosedOrFailed((old(View()), prepared), id, outcome, penalty, a)
    {
      ok := prepared;
      if ok {
        ok := FinalizeReport(id, outcome, penalty, a);
      }
      if !ok {
        MarkFailed(ReportCase(id));
      }
    }

    /** A claimed report decision carried to its end. */
    method CarryOutReport(id: Id, outcome: Outcome, penalty: Penalty, a: Account, answer: GatewayAnswer, mint: Id)
        returns (ok: bool)
      requires ReportCase(id) in ops
      modifies this
      ensures (View(), ok) == CarriedReport(old(View()), id, outcome, penalty, a, answer, mint)
    {
      var prepared := PrepareReport(id, outcome, answer, mint);
      ok := CloseOrFail(prepared, id, outcome, penalty, a);
    }

    /** resolveAdminReport: claim, reserve, move the money, mark, finalize. */
    method RunReport(id: Id, outcome: Outcome, penalty: Penalty, a: Account, answer: GatewayAnswer, mint: Id,
        ghost n: nat) returns (ok: bool)
      requires n >= 10
      modifies this
      ensures View() == SoloReport(old(View()), id, outcome, penalty, a, answer, mint, n)
    {
      ok := ClaimReport(id, outcome, penalty, a);
      if ok {
        ClaimThenSolo(old(View()), View(), id, outcome, penalty, a, answer, mint, n);
        if ops[ReportCase(id)].status != Done {
          ok := CarryOutReport(id, outcome, penalty, a, answer, mint);
        }
      }
    }

    /** An undisturbed call leaves what the solo run of the interleaved model leaves, so a retry of a
        held cancelling decision carries it out. */
    method ResolveReport(id: Id, outcome: Outcome, penalty: Penalty, a: Account, answer: GatewayAnswer, mint: Id,
        ghost n: nat) returns (ok: bool)
      requires n >= 10
      modifies this
      ensures View() == SoloReport(old(View()), id, outcome, penalty, a, answer, mint, n)
      ensures closures == old(closures)
                + (if DecisionDone(View(), ReportCase(id)) && !DecisionDone(old(View()), ReportCase(id))
                   then [Closure(ReportCase(id), if a.penaltyAllowed then penalty else NoPenalty)] else [])
      ensures Good(old(View())) && RetriesHeld(old(View()), id, outcome, penalty) && answer.Accepts?
              && PenaltyGoesThrough(Resolve(ReportCase(id), outcome, penalty), a)
              ==> CarriedOut(old(View()), View(), Resolve(ReportCase(id), outcome, penalty), a)
    {
      RetryCarriesOut(View(), id, outcome, penalty, a, answer, mint, n);
      SoloReportCloses(View(), id, outcome, penalty, a, answer, mint, n);
      ok := RunReport(id, outcome, penalty, a, answer, mint, n);
    }
  }

  /** What the interleaved model leaves after a claim and an undisturbed run of at least `n` steps. */
  function SoloReport(db: Db, id: Id, outcome: Outcome, penalty: Penalty, a: Account, answer: GatewayAnswer, mint: Id,
      n: nat): Db {
    var claimed := T.ClaimReport(db, id, outcome, penalty, a);
    if claimed.None? || ReportCase(id) !in claimed.value.ops then db
    else SoloFromClaim(claimed.value, id, outcome, penalty, a, answer, mint, n)
  }

  function SoloFromClaim(db: Db, id: Id, outcome: Outcome, penalty: Penalty, a: Account, answer: GatewayAnswer,
      mint: Id, n: nat): Db
    requires ReportCase(id) in db.ops
  {
    Alone(db, Call(Resolve(ReportCase(id), outcome, penalty), StartOf(ReportCase(id), db.ops[ReportCase(id)])), a,
        answer, mint, n)
  }

  lemma SoloAfterClaim(db: Db, id: Id, outcome: Outcome, penalty: Penalty, a: Account, answer: GatewayAnswer, mint: Id,
      n: nat)
    requires n >= 10 && ReportCase(id) in db.ops
               && (db.ops[ReportCase(id)].status != Done ==> db.ops[ReportCase(id)].outcome == outcome)
    ensures SoloFromClaim(db, id, outcome, penalty, a, answer, mint, n)
              == if db.ops[ReportCase(id)].status == Done then db
                  else CarriedReport(db, id, outcome, penalty, a, answer, mint).0
  {
    var t := Resolve(ReportCase(id), outcome, penalty);
    if db.ops[ReportCase(id)].status == Done {
      StoppedStays(db, Call(t, Stopped), a, answer, mint, n);
    } else {
      CarriedIsSolo(db, id, t, a, answer, mint, n);
    }
  }

  lemma ClaimThenSolo(db: Db, d: Db, id: Id, outcome: Outcome, penalty: Penalty, a: Account, answer: GatewayAnswer,
      mint: Id, n: nat)
    requires n >= 10 && T.ClaimReport(db, id, outcome, penalty, a) == Some(d)
    ensures ReportCase(id) in d.ops
    ensures SoloReport(db, id, outcome, penalty, a, answer, mint, n)
              == if d.ops[ReportCase(id)].status == Done then d
                  else CarriedReport(d, id, outcome, penalty, a, answer, mint).0
  {
    ClaimedOperation(db, id, outcome, penalty, a);
    SoloAfterClaim(d, id, outcome, penalty, a, answer, mint, n);
  }

  lemma RetryCarriesOut(db: Db, id: Id, outcome: Outcome, penalty: Penalty, a: Account, answer: GatewayAnswer, mint: Id,
      n: nat)
    requires n >= 10
    ensures Good(db) && RetriesHeld(db, id, outcome, penalty) && answer.Accepts?
            && PenaltyGoesThrough(Resolve(ReportCase(id), outcome, penalty), a)
            ==> CarriedOut(db, SoloReport(db, id, outcome, penalty, a, answer, mint, n),
                Resolve(ReportCase(id), outcome, penalty), a)
  {
    if Good(db) && RetriesHeld(db, id, outcome, penalty) && answer.Accepts?
       && PenaltyGoesThrough(Resolve(ReportCase(id), outcome, penalty), a) {
      RetriedReportFinishes(db, id, a, answer, mint, n);
    }
  }

  /** The whole call closes its decision at most once, with the penalty the account may receive. */
  lemma SoloReportCloses(db: Db, id: Id, outcome: Outcome, penalty: Penalty, a: Account, answer: GatewayAnswer,
      mint: Id, n: nat)
    ensures var d := SoloReport(db, id, outcome, penalty, a, answer, mint, n);
            d.closures == db.closures
              + (if DecisionDone(d, ReportCase(id)) && !DecisionDone(db, ReportCase(id))
                 then [Closure(ReportCase(id), if a.penaltyAllowed then penalty else NoPenalty)] else [])
  {
    var claimed := T.ClaimReport(db, id, outcome, penalty, a);
    if claimed.Some? && ReportCase(id) in claimed.value.ops {
      ReportClaimsCloseNothing(db, id, outcome, penalty, a);
      ReportClaimsFinishNothing(db, id, outcome, penalty, a);
      var t := Resolve(ReportCase(id), outcome, penalty);
      var c := Call(t, StartOf(t.key, claimed.value.ops[t.key]));
      AloneCloses(claimed.value, c, a, answer, mint, n);
      if DecisionDone(db, t.key) { DoneClaimsStay(db, id, outcome, penalty, a); }
    }
  }

  lemma FinalizedOnce(db: Db, id: Id, outcome: Outcome, penalty: Penalty, a: Account)
    ensures var r := T.FinalizeReport(db, id, outcome, penalty, a);
            r.Some? && db.ops[ReportCase(id)].status != Done ==>
              r.value.closures
              == db.closures + [Closure(ReportCase(id), if a.penaltyAllowed then penalty else NoPenalty)]
  {
  }

  lemma DoneClaimsStay(db: Db, id: Id, outcome: Outcome, penalty: Penalty, a: Account)
    requires DecisionDone(db, ReportCase(id)) && T.ClaimReport(db, id, outcome, penalty, a).Some?
    ensures DecisionDone(T.ClaimReport(db, id, outcome, penalty, a).value, ReportCase(id))
  {
  }

  /** A successful claim leaves the decision it was asked for. */
  lemma ClaimedOperation(db: Db, id: Id, outcome: Outcome, penalty: Penalty, a: Account)
    requires T.ClaimReport(db, id, outcome, penalty, a).Some?
    ensures ReportCase(id) in T.ClaimReport(db, id, outcome, penalty, a).value.ops
    ensures var op := T.ClaimReport(db, id, outcome, penalty, a).value.ops[ReportCase(id)];
            op.status != Done ==> op.outcome == outcome && op.penalty == penalty
  {
    if T.ClaimReport(db, id, outcome, penalty, a).value != db {
      ClaimReportShape(db, id, outcome, penalty, a);
      AdoptedOperation(db, T.ClaimReport(db, id, outcome, penalty, a).value, ReportCase(id), outcome, penalty);
    }
  }

  lemma AdoptedOperation(db: Db, d: Db, key: CaseKey, outcome: Outcome, penalty: Penalty)
    requires T.Adopt(db, key, outcome, penalty).Some? && d.ops == T.Adopt(db, key, outcome, penalty).value.ops
    ensures key in d.ops && d.ops[key].outcome == outcome && d.ops[key].penalty == penalty
  {
    var op := AdoptShape(db, key, outcome, penalty);
  }
}
