/** The invariant of the rows of one booking, and how the rows may change over time. */
module ResolutionInvariant {
  import opened BookingRows
  import opened Transactions

  ghost predicate MoneyGood(b: Booking, queue: Option<QueueRow>, released: bool) {
    && (b.online ==>
          && b.payment in {PaidHeld, FrozenHeld, Refunded, Released}
          && (b.status == Canceled <==> b.payment == Refunded)
          && (b.status == Completed <==> b.payment == Released)
          && b.status !in {PendingApproval, Waiting, Declined}
          && (b.before.Some? ==> b.before.value !in {PendingApproval, Waiting})
          && queue.Some? && queue.value.payment == b.payment
          && (b.status == Canceled ==> queue.value.status == QCancelled))
    && (!b.online ==>
          && b.payment in {Unpaid, CashConfirmed}
          && (b.status == Completed <==> b.payment == CashConfirmed)
          && queue.None?)
    && (released <==> b.status == Completed)
    && (b.before.Some? <==> b.Paused())
    && (b.before.Some? ==> b.before.value in {PendingApproval, Waiting, Accepted, Ongoing, AwaitingConfirmation})
    && (b.payment == FrozenHeld ==> b.Paused())
    && (b.status == PendingApproval || b.before == Some(PendingApproval) ==> !b.started)
  }

  ghost predicate RefundGood(b: Booking, refund: Option<Refund>, ledger: seq<Id>, gateway: Option<Id>) {
    && (refund.Some? ==> b.online)
    && (b.payment == Refunded <==> refund.Some? && refund.value.gatewayId.Some?)
    && (b.payment == Refunded ==> gateway == refund.value.gatewayId && ledger == [gateway.value])
    && (b.payment != Refunded ==> ledger == [])
  }

  ghost predicate LinksGood(reports: map<Id, Report>, cancellations: map<Id, Cancellation>) {
    forall c | c in cancellations ::
      cancellations[c].report.Some? ==>
        && cancellations[c].report.value in reports
        && reports[cancellations[c].report.value].kind == CancellationEscalation
  }

  /** The request of an immediate cancellation stays under review until the booking is cancelled. */
  ghost predicate ImmediateGood(cancellations: map<Id, Cancellation>, canceled: bool) {
    forall c | c in cancellations && cancellations[c].immediate ::
      && cancellations[c].report.None?
      && (cancellations[c].status == CUnderReview || (canceled && !cancellations[c].Active()))
  }

  /** An open safety report or completion dispute keeps the booking off the ordinary path. */
  ghost predicate ParkedGood(reports: map<Id, Report>, parked: bool) {
    parked || forall r | r in reports :: reports[r].Active() ==> reports[r].kind == CancellationEscalation
  }

  predicate Parked(b: Booking) { b.Paused() || b.Terminal() }

  ghost predicate Reached(b: Booking, o: Outcome) {
    (Cancels(o) ==> b.status == Canceled) && (o == ReleaseAndComplete ==> b.status == Completed)
  }

  ghost predicate OpShape(key: CaseKey, op: Operation) {
    && (op.status == Done <==> op.stage == Finalized)
    && (op.HoldsMoney() ==> Financial(op.outcome))
    && match key
       case ReportCase(_) => op.outcome in {Dismiss, ResolveSafety, CancelBooking, ReleaseAndComplete}
       case CompletionCase(_) =>
         op.outcome in {ReleaseAndComplete, RefundSeeker, KeepAwaiting} && op.penalty == NoPenalty
       case CancellationCase(_) =>
         && op.outcome in {ParticipantApprove, AdminApprove, AdminDeny}
         && (op.penalty == NoPenalty || (op.outcome == AdminApprove && op.penalty.Fault?))
       case AdminCase =>
         op.outcome in {CancelBooking, ReleaseAndComplete} && op.penalty == NoPenalty && Rank(op.stage) >= 2
  }

  /** Mutual exclusion: at most one unfinished decision holds the money. */
  ghost predicate OpsShaped(ops: map<CaseKey, Operation>) {
    && (forall k | k in ops :: OpShape(k, ops[k]))
    && (forall j, k | j in ops && k in ops && ops[j].HoldsMoney() && ops[k].HoldsMoney() :: j == k)
  }

  ghost predicate OpOnBooking(key: CaseKey, op: Operation, b: Booking) {
    && (Financial(op.outcome) && Rank(op.stage) >= 3 ==> Reached(b, op.outcome))
    && match key
       case ReportCase(_) => op.status != Done && op.outcome == CancelBooking ==> b.status != Completed
       case CompletionCase(_) =>
         b.online && (op.HoldsMoney() ==>
             (Reached(b, op.outcome) || (b.status == UnderReview && b.before == Some(AwaitingConfirmation))))
       case CancellationCase(_) => op.penalty.Fault? ==> b.started
       case AdminCase => op.HoldsMoney() ==> (Reached(b, op.outcome) || b.status == UnderReview)
  }

  ghost predicate OpsOnBooking(ops: map<CaseKey, Operation>, b: Booking) {
    forall k | k in ops :: OpOnBooking(k, ops[k], b)
  }

  ghost predicate OpOnReports(key: CaseKey, op: Operation, reports: map<Id, Report>,
      cancellations: map<Id, Cancellation>) {
    && (key.ReportCase? ==>
          && key.id in reports && reports[key.id].kind != CancellationEscalation
          && (op.status != Done ==> reports[key.id].Active()))
    && (op.HoldsMoney() ==> !OtherReport(reports,
          match key
          case ReportCase(id) => Some(id)
          case CancellationCase(id) => if id in cancellations then cancellations[id].report else None
          case _ => None))
  }

  ghost predicate OpOnCancellations(key: CaseKey, op: Operation, cancellations: map<Id, Cancellation>) {
    && (key.CancellationCase? ==>
          && key.id in cancellations
          && (op.outcome != ParticipantApprove ==> cancellations[key.id].report.Some?))
    && (op.HoldsMoney() ==> !OtherCancellation(cancellations, if key.CancellationCase? then Some(key.id) else None))
  }

  ghost predicate OpOnEscalations(key: CaseKey, op: Operation, escalations: map<Id, EscalationStatus>) {
    && (key.CompletionCase? ==> key.id in escalations && (op.HoldsMoney() ==> escalations[key.id] == EUnderReview))
    && (op.HoldsMoney() ==> !OtherEscalation(escalations, if key.CompletionCase? then Some(key.id) else None))
  }

  ghost predicate OpsOnReports(ops: map<CaseKey, Operation>, reports: map<Id, Report>,
      cancellations: map<Id, Cancellation>) {
    forall k | k in ops :: OpOnReports(k, ops[k], reports, cancellations)
  }

  ghost predicate OpsOnCancellations(ops: map<CaseKey, Operation>, cancellations: map<Id, Cancellation>) {
    forall k | k in ops :: OpOnCancellations(k, ops[k], cancellations)
  }

  ghost predicate OpsOnEscalations(ops: map<CaseKey, Operation>, escalations: map<Id, EscalationStatus>) {
    forall k | k in ops :: OpOnEscalations(k, ops[k], escalations)
  }

  /** One closure per finished decision, and none for the others. */
  ghost predicate ClosuresGood(ops: map<CaseKey, Operation>, closures: seq<Closure>) {
    && (forall i, j | 0 <= i < j < |closures| :: closures[i].key != closures[j].key)
    && (forall i | 0 <= i < |closures| ::
          && closures[i].key in ops && ops[closures[i].key].status == Done
          && (closures[i].applied == NoPenalty || closures[i].applied == ops[closures[i].key].penalty))
    && (forall k | k in ops && ops[k].status == Done :: exists i | 0 <= i < |closures| :: closures[i].key == k)
  }

  ghost predicate Good(db: Db) {
    && MoneyGood(db.booking, db.queue, db.released)
    && RefundGood(db.booking, db.refund, db.refundLedger, db.gateway)
    && LinksGood(db.reports, db.cancellations)
    && ParkedGood(db.reports, Parked(db.booking))
    && ImmediateGood(db.cancellations, db.booking.status == Canceled)
    && (db.booking.online || db.escalations == map[])
    && OpsShaped(db.ops)
    && OpsOnBooking(db.ops, db.booking)
    && OpsOnReports(db.ops, db.reports, db.cancellations)
    && OpsOnCancellations(db.ops, db.cancellations)
    && OpsOnEscalations(db.ops, db.escalations)
    && ClosuresGood(db.ops, db.closures)
  }

  ghost predicate BookingEvolves(a: Booking, b: Booking) {
    b.online == a.online && (a.started ==> b.started) && (a.Terminal() ==> b == a)
  }

  ghost predicate OpsEvolve(a: map<CaseKey, Operation>, b: map<CaseKey, Operation>) {
    forall k | k in a ::
      && k in b && b[k].outcome == a[k].outcome && b[k].penalty == a[k].penalty
      && Rank(a[k].stage) <= Rank(b[k].stage)
      && (a[k].status == Done ==> b[k] == a[k])
  }

  ghost predicate ReportsEvolve(a: map<Id, Report>, b: map<Id, Report>) {
    forall r | r in a :: r in b && b[r].kind == a[r].kind && (!a[r].Active() ==> !b[r].Active())
  }

  ghost predicate CancellationsEvolve(a: map<Id, Cancellation>, b: map<Id, Cancellation>) {
    forall c | c in a :: c in b && b[c].immediate == a[c].immediate && (!a[c].Active() ==> !b[c].Active())
  }

  ghost predicate EscalationsEvolve(a: map<Id, EscalationStatus>, b: map<Id, EscalationStatus>) {
    forall e | e in a :: e in b && (!OpenEscalation(a[e]) ==> b[e] == a[e])
  }

  /** What may happen to the rows over any stretch of time: terminal bookings,
      closed cases, recorded decisions and stage ranks only move one way. */
  ghost predicate Evolves(a: Db, b: Db) {
    && BookingEvolves(a.booking, b.booking)
    && (a.gateway.Some? ==> b.gateway == a.gateway)
    && (a.refund.Some? ==> b.refund.Some?)
    && a.refundLedger <= b.refundLedger && a.closures <= b.closures
    && OpsEvolve(a.ops, b.ops)
    && ReportsEvolve(a.reports, b.reports)
    && CancellationsEvolve(a.cancellations, b.cancellations)
    && EscalationsEvolve(a.escalations, b.escalations)
  }

  lemma EvolvesReflexive(db: Db)
    ensures Evolves(db, db)
  {
  }

  lemma EvolvesTransitive(a: Db, b: Db, c: Db)
    requires Evolves(a, b) && Evolves(b, c)
    ensures Evolves(a, c)
  {
  }

  ghost predicate Keeps(db: Db, r: Option<Db>) {
    Good(db) && r.Some? ==> Good(r.value) && Evolves(db, r.value)
  }

  ghost predicate Is(a: Db, b: Db) { a == b }

  /** `d` is in order and continues `a`, as one fact that proofs hand on whole. */
  ghost predicate Continues(a: Db, d: Db) { forall x | Is(x, d) :: Good(x) && Evolves(a, x) }

  lemma ContinuesMeans(a: Db, d: Db)
    ensures Continues(a, d) <==> Good(d) && Evolves(a, d)
  {
    assert Is(d, d);
  }

  lemma Chain(a: Db, b: Db, c: Db)
    requires Good(b) && Evolves(a, b) && Keeps(b, Some(c))
    ensures Good(c) && Evolves(a, c)
  {
    EvolvesTransitive(a, b, c);
  }
}
