/** Crash recovery. From any reachable state in which a cancelling decision has
    been reserved, one undisturbed retry of the same decision finishes it. */
module CrashRecovery {
  import opened BookingRows
  import opened Transactions
  import opened Interleaving
  import opened ResolutionInvariant
  import opened DecisionSteps
  import opened RefundSteps

  /** The decision's own case is still under review; a direct decision has none. */
  ghost predicate OwnCaseUnderReview(db: Db, key: CaseKey) {
    match key
    case ReportCase(id) => id in db.reports && db.reports[id].status == RpUnderReview
    case CompletionCase(id) => id in db.escalations && db.escalations[id] == EUnderReview
    case CancellationCase(id) => id in db.cancellations && db.cancellations[id].status == CUnderReview
    case AdminCase => true
  }

  /** A cancelling decision that can be carried to its end. */
  ghost predicate Ready(db: Db, t: Task) {
    && Good(db) && t.Resolve? && Cancels(t.outcome)
    && t.key in db.ops && db.ops[t.key].HoldsMoney()
    && db.ops[t.key].outcome == t.outcome && db.ops[t.key].penalty == t.penalty
    && OwnCaseUnderReview(db, t.key)
    && db.booking.status != Completed && db.booking.status != Declined
  }

  /** The finalizing transaction does not refuse the penalty. */
  predicate PenaltyGoesThrough(t: Task, a: Account) {
    t.Resolve? &&
    match t.key
    case ReportCase(_) =>
      a.penaltyAllowed ==>
        !(t.penalty == Suspend && a.unstartedBookings) && !(t.penalty == TrustDeduct && a.adminParticipates)
    case CancellationCase(_) => !(t.penalty.Fault? && a.adminParticipates)
    case _ => true
  }

  /** Only this call runs, `n` times. */
  function Alone(db: Db, c: Call, a: Account, answer: GatewayAnswer, mint: Id, n: nat): Db
    decreases n
  {
    if n == 0 then db
    else
      var (db', c') := AdvanceCall(db, c, a, answer, mint);
      Alone(db', c', a, answer, mint, n - 1)
  }

  /** Where the decision takes the booking and its money. */
  predicate AsDecided(b: Booking, outcome: Outcome) {
    match outcome
    case CancelBooking | RefundSeeker | ParticipantApprove | AdminApprove =>
      b.status == Canceled && b.payment == (if b.online then Refunded else Unpaid)
    case ReleaseAndComplete => b.status == Completed && b.payment == (if b.online then Released else CashConfirmed)
    case _ => true
  }

  /** One closure was added. It applies the recorded penalty, except that a report's penalty is dropped when the
      account may no longer receive it. */
  predicate ClosedOnce(before: Db, db: Db, t: Task, a: Account)
    requires t.Resolve?
  {
    var applied := if t.key.ReportCase? && !a.penaltyAllowed then NoPenalty else t.penalty;
    db.closures == before.closures + [Closure(t.key, applied)]
  }

  /** The decision is finished: the booking cancelled or completed as it says, one closure added. */
  ghost predicate CarriedOut(before: Db, db: Db, t: Task, a: Account) {
    && t.Resolve? && t.key in db.ops && db.ops[t.key].status == Done && db.ops[t.key].stage == Finalized
    && t.outcome !in {Dismiss, ResolveSafety, KeepAwaiting, AdminDeny} && AsDecided(db.booking, t.outcome)
    && ClosedOnce(before, db, t, a)
  }

  lemma {:induction false} StoppedStays(db: Db, c: Call, a: Account, answer: GatewayAnswer, mint: Id, n: nat)
    requires c.pc.Stopped?
    ensures Alone(db, c, a, answer, mint, n) == db
  {
    if n > 0 {
      StoppedStays(db, c, a, answer, mint, n - 1);
    }
  }

  ghost predicate EndsIn(db: Db, c: Call, a: Account, answer: GatewayAnswer, mint: Id, n: nat, end: Db) {
    end == Alone(db, c, a, answer, mint, n)
  }

  /** The solo run of a call carries its decision out. */
  ghost predicate Finishes(db: Db, c: Call, a: Account, answer: GatewayAnswer, mint: Id, n: nat) {
    forall end | EndsIn(db, c, a, answer, mint, n, end) :: CarriedOut(db, end, c.task, a)
  }

  /** One step of a solo run. */
  lemma OneStep(d: Db, c: Call, d': Db, c': Call, a: Account, answer: GatewayAnswer, mint: Id, n: nat)
    requires n >= 1 && AdvanceCall(d, c, a, answer, mint) == (d', c')
    ensures Alone(d, c, a, answer, mint, n) == Alone(d', c', a, answer, mint, n - 1)
  {
  }

  /** A step that closes nothing, followed by a run that carries the decision out. */
  lemma StepThen(d: Db, c: Call, d': Db, c': Call, a: Account, answer: GatewayAnswer, mint: Id, n: nat)
    requires n >= 1 && AdvanceCall(d, c, a, answer, mint) == (d', c') && d'.closures == d.closures && c'.task == c.task
    requires Finishes(d', c', a, answer, mint, n - 1)
    ensures Finishes(d, c, a, answer, mint, n)
  {
    OneStep(d, c, d', c', a, answer, mint, n);
    assert EndsIn(d', c', a, answer, mint, n - 1, Alone(d, c, a, answer, mint, n));
  }

  lemma CancelledIsFull(db: Db)
    requires Good(db) && db.booking.status == Canceled
    ensures CancelledFully(db.booking)
  {
  }

  /** With the booking cancelled, the finalizing transaction goes through. */
  lemma FinalizeGoesThrough(db: Db, t: Task, a: Account)
    requires Ready(db, t) && db.booking.status == Canceled && PenaltyGoesThrough(t, a)
    ensures Finalize(db, t.key, t.outcome, t.penalty, a).Some?
    ensures CarriedOut(db, Finalize(db, t.key, t.outcome, t.penalty, a).value, t, a)
  {
    CancelledIsFull(db);
    assert OpShape(t.key, db.ops[t.key]);
    match t.key {
      case ReportCase(id) => CancelledReportCloses(db, id, t, a);
      case CompletionCase(id) =>
      case CancellationCase(id) => CancelledRequestCloses(db, id, t, a);
      case AdminCase =>
    }
  }

  lemma CancelledReportCloses(db: Db, id: Id, t: Task, a: Account)
    requires Ready(db, t) && t.key == ReportCase(id) && CancelledFully(db.booking) && PenaltyGoesThrough(t, a)
    ensures t.outcome == CancelBooking && id in db.reports
    ensures FinalizeReport(db, id, t.outcome, t.penalty, a)
              == Some(CloseReport(db, id, RpResolved, AppliedPenalty(t.penalty, a)))
  {
    assert OpShape(t.key, db.ops[t.key]);
  }

  lemma CancelledRequestCloses(db: Db, id: Id, t: Task, a: Account)
    requires Ready(db, t) && t.key == CancellationCase(id) && CancelledFully(db.booking) && PenaltyGoesThrough(t, a)
    ensures id in db.cancellations
    ensures t.outcome == ParticipantApprove ==> FinalizeByParticipant(db, id).Some?
    ensures t.outcome == AdminApprove ==>
              && db.cancellations[id].report.Some? && db.cancellations[id].report.value in db.reports
              && FinalizeByAdmin(db, id, true, t.penalty, a) == Some(CloseCancellation(db, id, true, t.penalty))
  {
    assert OpShape(t.key, db.ops[t.key]) && OpOnCancellations(t.key, db.ops[t.key], db.cancellations);
  }

  /** A finalization that goes through ends the call. */
  lemma ClosesThenStops(db: Db, t: Task, a: Account, answer: GatewayAnswer, mint: Id, n: nat)
    requires t.Resolve? && n >= 1 && Finalize(db, t.key, t.outcome, t.penalty, a).Some?
    requires CarriedOut(db, Finalize(db, t.key, t.outcome, t.penalty, a).value, t, a)
    ensures Finishes(db, Call(t, AtFinalize), a, answer, mint, n)
  {
    var d := Finalize(db, t.key, t.outcome, t.penalty, a).value;
    OneStep(db, Call(t, AtFinalize), d, Call(t, Stopped), a, answer, mint, n);
    StoppedStays(d, Call(t, Stopped), a, answer, mint, n - 1);
  }

  lemma FromFinalize(db: Db, t: Task, a: Account, answer: GatewayAnswer, mint: Id, n: nat)
    requires Ready(db, t) && db.booking.status == Canceled && PenaltyGoesThrough(t, a) && n >= 1
    ensures Finishes(db, Call(t, AtFinalize), a, answer, mint, n)
  {
    FinalizeGoesThrough(db, t, a);
    ClosesThenStops(db, t, a, answer, mint, n);
  }

  /** Ready survives a step of its own call that leaves its case and closures alone. */
  lemma StaysReady(db: Db, d: Db, t: Task)
    requires Ready(db, t) && Good(d) && Evolves(db, d)
    requires d.reports == db.reports && d.cancellations == db.cancellations && d.escalations == db.escalations
    requires d.ops[t.key].status != Done && d.booking.status != Completed && d.booking.status != Declined
    ensures Ready(d, t)
  {
    assert OpShape(t.key, d.ops[t.key]);
  }

  lemma EstablishStaysReady(db: Db, t: Task) returns (d: Db)
    requires Ready(db, t) && db.booking.status == Canceled
    ensures MarkStage(db, t.key, Established) == Some(d)
    ensures Ready(d, t) && d.booking == db.booking && d.closures == db.closures
  {
    d := db.(ops := db.ops[t.key := db.ops[t.key].(stage := Established, status := Processing)]);
    assert MarkStage(db, t.key, Established) == Some(d);
    MarkStageKeeps(db, t.key, Established);
    StaysReady(db, d, t);
  }

  lemma FromMarkEstablished(db: Db, t: Task, a: Account, answer: GatewayAnswer, mint: Id, n: nat)
    requires Ready(db, t) && db.booking.status == Canceled && PenaltyGoesThrough(t, a) && n >= 2
    ensures Finishes(db, Call(t, AtMarkEstablished), a, answer, mint, n)
  {
    var d := EstablishStaysReady(db, t);
    FromFinalize(d, t, a, answer, mint, n - 1);
    StepThen(db, Call(t, AtMarkEstablished), d, Call(t, AtFinalize), a, answer, mint, n);
  }

  lemma ReadyMarkIsIdle(db: Db, t: Task, a: Account, answer: GatewayAnswer, mint: Id)
    requires t.Resolve? && t.key in db.ops && db.ops[t.key].HoldsMoney()
    ensures AdvanceCall(db, Call(t, AtMarkReady), a, answer, mint) == (db, Call(t, AtFinalize))
  {
  }

  lemma FromMarkReady(db: Db, t: Task, a: Account, answer: GatewayAnswer, mint: Id, n: nat)
    requires Ready(db, t) && db.booking.status == Canceled && PenaltyGoesThrough(t, a) && n >= 2
    ensures Finishes(db, Call(t, AtMarkReady), a, answer, mint, n)
  {
    FromFinalize(db, t, a, answer, mint, n - 1);
    ReadyMarkIsIdle(db, t, a, answer, mint);
    StepThen(db, Call(t, AtMarkReady), db, Call(t, AtFinalize), a, answer, mint, n);
  }

  lemma CloseStaysReady(db: Db, t: Task, held: bool) returns (d: Db)
    requires Ready(db, t)
               && (if held then db.booking.status == Canceled else !db.booking.online || db.booking.status == Canceled)
    ensures CancelClose(db, held, false) == Some(d)
    ensures Ready(d, t) && d.booking.status == Canceled && d.closures == db.closures
  {
    CancelCloseKeeps(db, t, held);
    assert CancelClose(db, held, false).Some?;
    d := CancelClose(db, held, false).value;
    StaysReady(db, d, t);
  }

  lemma FromCancelClose(db: Db, t: Task, held: bool, a: Account, answer: GatewayAnswer, mint: Id, n: nat)
    requires Ready(db, t) && PenaltyGoesThrough(t, a) && n >= 3
    requires if held then db.booking.status == Canceled else !db.booking.online || db.booking.status == Canceled
    ensures Finishes(db, Call(t, AtCancelClose(held)), a, answer, mint, n)
  {
    var d := CloseStaysReady(db, t, held);
    FromMarkEstablished(d, t, a, answer, mint, n - 1);
    StepThen(db, Call(t, AtCancelClose(held)), d, Call(t, AtMarkEstablished), a, answer, mint, n);
  }

  lemma RefundStaysReady(db: Db, t: Task, resumed: bool, id: Id, status: RefundStatus) returns (d: Db)
    requires Ready(db, t) && db.booking.online && db.gateway == Some(id)
               && (db.booking.Held() ==> db.RefundInProgress())
    ensures RefundFinalize(db, resumed, id, status) == Some(d)
    ensures Ready(d, t) && d.booking.status == Canceled && d.closures == db.closures
  {
    RefundFinalizeKeeps(db, t, resumed, id, status);
    assert RefundFinalize(db, resumed, id, status).Some?;
    d := RefundFinalize(db, resumed, id, status).value;
    StaysReady(db, d, t);
  }

  lemma FromRefundFinalize(db: Db, t: Task, id: Id, status: RefundStatus, a: Account, answer: GatewayAnswer, mint: Id,
      n: nat)
    requires Ready(db, t) && db.booking.online && db.gateway == Some(id)
               && (db.booking.Held() ==> db.RefundInProgress())
    requires PenaltyGoesThrough(t, a) && n >= 4
    ensures Finishes(db, Call(t, AtRefundFinalize(false, id, status)), a, answer, mint, n)
  {
    var d := RefundStaysReady(db, t, false, id, status);
    FromCancelClose(d, t, true, a, answer, mint, n - 1);
    StepThen(db, Call(t, AtRefundFinalize(false, id, status)), d, Call(t, AtCancelClose(true)), a, answer, mint, n);
  }

  lemma FromGateway(db: Db, t: Task, a: Account, answer: GatewayAnswer, mint: Id, n: nat)
    requires Ready(db, t) && db.booking.online && db.booking.Held() && db.RefundInProgress()
    requires answer.Accepts? && PenaltyGoesThrough(t, a) && n >= 5
    ensures Finishes(db, Call(t, AtGateway), a, answer, mint, n)
  {
    var id := AcceptedRefund(db, mint);
    var d := db.(gateway := Some(id));
    GatewayKeeps(db, mint);
    StaysReady(db, d, t);
    FromRefundFinalize(d, t, id, answer.status, a, answer, mint, n - 1);
    StepThen(db, Call(t, AtGateway), d, Call(t, AtRefundFinalize(false, id, answer.status)), a, answer, mint, n);
  }

  lemma RefundReserveStaysReady(db: Db, t: Task) returns (d: Db)
    requires Ready(db, t) && db.booking.online && db.booking.Held()
    ensures RefundReserve(db) == Some(d) && d.RefundInProgress() && d.refund.value.gatewayId.None?
    ensures Ready(d, t) && d.closures == db.closures && d.booking == db.booking
  {
    RefundReserveKeeps(db);
    assert RefundReserve(db).Some?;
    d := RefundReserve(db).value;
    StaysReady(db, d, t);
  }

  lemma FromRefundReserve(db: Db, t: Task, a: Account, answer: GatewayAnswer, mint: Id, n: nat)
    requires Ready(db, t) && db.booking.online && db.booking.Held()
    requires answer.Accepts? && PenaltyGoesThrough(t, a) && n >= 6
    ensures Finishes(db, Call(t, AtRefundReserve), a, answer, mint, n)
  {
    var d := RefundReserveStaysReady(db, t);
    FromGateway(d, t, a, answer, mint, n - 1);
    StepThen(db, Call(t, AtRefundReserve), d, Call(t, AtGateway), a, answer, mint, n);
  }

  /** What the unlocked reads of a call on a held booking see. */
  lemma ReadsSeeHeld(db: Db, t: Task, a: Account, answer: GatewayAnswer, mint: Id)
    requires Good(db) && db.booking.Held() && t.Resolve?
    ensures db.booking.online
    ensures AdvanceCall(db, Call(t, AtCancelRead), a, answer, mint) == (db, Call(t, AtRefundRead))
    ensures AdvanceCall(db, Call(t, AtRefundRead), a, answer, mint) == (db, Call(t, AtRefundReserve))
  {
  }

  lemma ReadsThen(db: Db, t: Task, a: Account, answer: GatewayAnswer, mint: Id, n: nat)
    requires n >= 2 && Finishes(db, Call(t, AtRefundReserve), a, answer, mint, n - 2)
    requires AdvanceCall(db, Call(t, AtCancelRead), a, answer, mint) == (db, Call(t, AtRefundRead))
    requires AdvanceCall(db, Call(t, AtRefundRead), a, answer, mint) == (db, Call(t, AtRefundReserve))
    ensures Finishes(db, Call(t, AtCancelRead), a, answer, mint, n)
  {
    StepThen(db, Call(t, AtRefundRead), db, Call(t, AtRefundReserve), a, answer, mint, n - 1);
    StepThen(db, Call(t, AtCancelRead), db, Call(t, AtRefundRead), a, answer, mint, n);
  }

  lemma FromHeldRead(db: Db, t: Task, a: Account, answer: GatewayAnswer, mint: Id, n: nat)
    requires Ready(db, t) && db.booking.Held() && answer.Accepts? && PenaltyGoesThrough(t, a) && n >= 8
    ensures Finishes(db, Call(t, AtCancelRead), a, answer, mint, n)
  {
    ReadsSeeHeld(db, t, a, answer, mint);
    FromRefundReserve(db, t, a, answer, mint, n - 2);
    ReadsThen(db, t, a, answer, mint, n);
  }

  lemma FromUnheldRead(db: Db, t: Task, a: Account, answer: GatewayAnswer, mint: Id, n: nat)
    requires Ready(db, t) && !db.booking.Held() && PenaltyGoesThrough(t, a) && n >= 4
    ensures Finishes(db, Call(t, AtCancelRead), a, answer, mint, n)
  {
    FromCancelClose(db, t, false, a, answer, mint, n - 1);
    StepThen(db, Call(t, AtCancelRead), db, Call(t, AtCancelClose(false)), a, answer, mint, n);
  }

  lemma FromCancelRead(db: Db, t: Task, a: Account, answer: GatewayAnswer, mint: Id, n: nat)
    requires Ready(db, t) && answer.Accepts? && PenaltyGoesThrough(t, a) && n >= 8
    ensures Finishes(db, Call(t, AtCancelRead), a, answer, mint, n)
  {
    if db.booking.Held() {
      FromHeldRead(db, t, a, answer, mint, n);
    } else {
      FromUnheldRead(db, t, a, answer, mint, n);
    }
  }

  lemma ReserveGoesThrough(db: Db, t: Task)
    requires Ready(db, t) && !t.key.AdminCase? && db.ops[t.key].stage == Reserved
    requires t.key.CompletionCase? ==> db.booking.status != Canceled
    ensures Reserve(db, t.key) == Some(db.(ops := db.ops[t.key := db.ops[t.key].(status := Processing)]))
  {
    var op := db.ops[t.key];
    assert OpShape(t.key, op) && OpOnBooking(t.key, op, db.booking);
    assert OpOnReports(t.key, op, db.reports, db.cancellations) && OpOnCancellations(t.key, op, db.cancellations);
    assert OpOnEscalations(t.key, op, db.escalations);
  }

  lemma ReserveStaysReady(db: Db, t: Task) returns (d: Db)
    requires Ready(db, t) && !t.key.AdminCase? && db.ops[t.key].stage == Reserved
    requires t.key.CompletionCase? ==> db.booking.status != Canceled
    ensures Reserve(db, t.key) == Some(d) && Ready(d, t) && d.closures == db.closures
  {
    ReserveGoesThrough(db, t);
    ReserveKeeps(db, t.key);
    d := Reserve(db, t.key).value;
    StaysReady(db, d, t);
  }

  lemma FromReserve(db: Db, d: Db, t: Task, a: Account, answer: GatewayAnswer, mint: Id, n: nat)
    requires Ready(d, t) && Reserve(db, t.key) == Some(d) && d.closures == db.closures
    requires answer.Accepts? && PenaltyGoesThrough(t, a) && n >= 9
    ensures Finishes(db, Call(t, AtReserve), a, answer, mint, n)
  {
    FromCancelRead(d, t, a, answer, mint, n - 1);
    StepThen(db, Call(t, AtReserve), d, Call(t, AtCancelRead), a, answer, mint, n);
  }

  lemma StartFinishes(db: Db, t: Task, a: Account, answer: GatewayAnswer, mint: Id, n: nat)
    requires n >= 9 && Ready(db, t) && answer.Accepts? && PenaltyGoesThrough(t, a)
    requires t.key.CompletionCase? && db.ops[t.key].stage == Reserved ==> db.booking.status != Canceled
    ensures Finishes(db, Call(t, StartOf(t.key, db.ops[t.key])), a, answer, mint, n)
  {
    var op := db.ops[t.key];
    assert OpShape(t.key, op) && OpOnBooking(t.key, op, db.booking);
    match StartOf(t.key, op) {
      case AtReserve =>
        var d := ReserveStaysReady(db, t);
        FromReserve(db, d, t, a, answer, mint, n);
      case AtCancelRead => FromCancelRead(db, t, a, answer, mint, n);
      case AtMarkReady => FromMarkReady(db, t, a, answer, mint, n);
      case _ => FromFinalize(db, t, a, answer, mint, n);
    }
  }

  /** A retried claim that lands at its start finishes the decision. */
  lemma FromStart(db: Db, t: Task, a: Account, answer: GatewayAnswer, mint: Id, n: nat)
    requires n >= 9 && Ready(db, t) && answer.Accepts? && PenaltyGoesThrough(t, a)
    requires t.key.CompletionCase? && db.ops[t.key].stage == Reserved ==> db.booking.status != Canceled
    ensures CarriedOut(db, Alone(db, Call(t, StartOf(t.key, db.ops[t.key])), a, answer, mint, n), t, a)
  {
    StartFinishes(db, t, a, answer, mint, n);
    var c := Call(t, StartOf(t.key, db.ops[t.key]));
    assert EndsIn(db, c, a, answer, mint, n, Alone(db, c, a, answer, mint, n));
  }
}
