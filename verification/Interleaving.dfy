/** Any number of service calls, interleaved transaction by transaction. A call
    keeps what it read outside a lock in its program counter, so stale reads are
    part of the model. A crash is a call that is never advanced again. */
module Interleaving {
  import opened BookingRows
  import opened Transactions

  /** The point between two transactions at which a call stands. */
  datatype Pc =
    | AtReserve
    | AtCancelRead | AtRefundRead | AtRefundReserve | AtGateway | AtGatewayError
    | AtRefundFinalize(resumed: bool, id: Id, status: RefundStatus)
    | AtCancelClose(held: bool)
    | AtSettle
    | AtMarkEstablished | AtMarkReady | AtFinalize
    | AtImmediateClose
    | AtFailure
    | Stopped

  datatype Call = Call(task: Task, pc: Pc)

  datatype World = World(db: Db, calls: map<nat, Call>)

  datatype Step =
    | FileSafetyReport(id: Id)
    | FileDispute(id: Id)
    | FileCancellation(id: Id, tid: nat)
    | RetryImmediate(id: Id, tid: nat)
    | RespondDecline(id: Id)
    | Escalate(id: Id, report: Id)
    | FileEscalation(id: Id)
    | ReviewReport(id: Id)
    | ReviewEscalation(id: Id)
    | ProviderAccepts
    | ProviderDeclines
    | ProviderStarts
    | ProviderFinishes
    | SeekerConfirms
    | CallReport(tid: nat, id: Id, outcome: Outcome, penalty: Penalty, a: Account)
    | CallCompletion(tid: nat, id: Id, outcome: Outcome)
    | CallParticipant(tid: nat, id: Id)
    | CallAdminCancellation(tid: nat, id: Id, approve: bool, fault: Option<Participant>)
    | CallAdminBooking(tid: nat, outcome: Outcome, banned: bool, requireBanned: bool)
    | Advance(tid: nat, a: Account, answer: GatewayAnswer, mint: Id)
    | Throw(tid: nat)

  function Failed(c: Call): Call {
    c.(pc := if c.task.Resolve? then AtFailure else Stopped)
  }

  function Commit(db: Db, r: Option<Db>, c: Call, next: Pc): (Db, Call) {
    if r.Some? then (r.value, c.(pc := next)) else (db, Failed(c))
  }

  function AfterCancel(t: Task): Pc { if t.Resolve? then AtMarkEstablished else AtImmediateClose }

  predicate ImmediateStillPending(db: Db, request: Id) {
    && request in db.cancellations
    && db.cancellations[request].status == CUnderReview && db.cancellations[request].immediate
    && !db.booking.started && db.booking.status == UnderReview
  }

  /** One transaction, one unlocked read or one gateway request of a call. */
  function AdvanceCall(db: Db, c: Call, a: Account, answer: GatewayAnswer, mint: Id): (Db, Call) {
    var b := db.booking;
    match c.pc
    case AtReserve =>
      if !c.task.Resolve? then (db, Failed(c))
      else Commit(db, Reserve(db, c.task.key), c, if Cancels(c.task.outcome) then AtCancelRead else AtSettle)
    case AtCancelRead =>
      if b.status in {Completed, Declined} then (db, Failed(c))
      else if c.task.Immediate? && b.status != Canceled
          && !ImmediateStillPending(db, c.task.request) then (db, Failed(c))
      else (db, c.(pc := if b.Held() then AtRefundRead else AtCancelClose(false)))
    case AtRefundRead =>
      if db.queue.None? then (db, Failed(c))
      else
        var recorded := db.refund.Some? && db.refund.value.gatewayId.Some?;
        if recorded && b.status == Canceled && b.payment == Refunded then (db, c.(pc := AtCancelClose(true)))
        else if !recorded && !b.Held() then (db, Failed(c))
        else (db, c.(pc := AtRefundReserve))
    case AtRefundReserve =>
      var r := RefundReserve(db);
      if r.None? then (db, Failed(c))
      else if r.value.refund.Some? && r.value.refund.value.gatewayId.Some?
      then (r.value, c.(pc :=
          AtRefundFinalize(true, r.value.refund.value.gatewayId.value, r.value.refund.value.status)))
      else (r.value, c.(pc := AtGateway))
    case AtGateway =>
      match answer {
        case Refuses => (db, c.(pc := AtGatewayError))
        case AcceptsButAnswerLost => (db.(gateway := Some(AcceptedRefund(db, mint))), c.(pc := AtGatewayError))
        case Accepts(status) =>
          (db.(gateway := Some(AcceptedRefund(db, mint))),
              c.(pc := AtRefundFinalize(false, AcceptedRefund(db, mint), status)))
      }
    case AtGatewayError =>
      var r := RefundMarkFailed(db);
      (if r.Some? then r.value else db, Failed(c))
    case AtRefundFinalize(resumed, id, status) =>
        Commit(db, RefundFinalize(db, resumed, id, status), c, AtCancelClose(true))
    case AtCancelClose(held) => Commit(db, CancelClose(db, held, c.task.Immediate?), c, AfterCancel(c.task))
    case AtSettle => Commit(db, Settle(db, true), c, AtMarkEstablished)
    case AtMarkEstablished =>
      if c.task.Resolve? then Commit(db, MarkStage(db, c.task.key, Established), c, AtFinalize) else (db, Failed(c))
    case AtMarkReady =>
      if c.task.Resolve? then Commit(db, MarkStage(db, c.task.key, DecisionReady), c, AtFinalize) else (db, Failed(c))
    case AtFinalize =>
      if c.task.Resolve? then Commit(db, Finalize(db, c.task.key, c.task.outcome, c.task.penalty, a), c, Stopped)
          else (db, Failed(c))
    case AtImmediateClose =>
      if c.task.Immediate? then Commit(db, ImmediateClose(db, c.task.request), c, Stopped) else (db, Failed(c))
    case AtFailure => (if c.task.Resolve? then MarkFailed(db, c.task.key) else db, c.(pc := Stopped))
    case Stopped => (db, c)
  }

  /** Where a claimed decision continues, given the operation its claim returned. */
  function StartOf(key: CaseKey, op: Operation): Pc {
    if op.status == Done then Stopped
    else match key
      case ReportCase(_) => if Financial(op.outcome) && !op.EffectEstablished() then AtReserve else AtMarkReady
      case CompletionCase(_) => if Financial(op.outcome) && !op.EffectEstablished() then AtReserve else AtMarkReady
      case CancellationCase(_) =>
        if Cancels(op.outcome) && !op.EffectEstablished() then AtReserve
        else if op.outcome == ParticipantApprove then AtFinalize else AtMarkReady
      case AdminCase =>
        if op.EffectEstablished() then AtFinalize else if Cancels(op.outcome) then AtCancelRead else AtSettle
  }

  function Rows(w: World, r: Option<Db>): World {
    if r.Some? then w.(db := r.value) else w
  }

  function Spawn(w: World, tid: nat, r: Option<Db>, key: CaseKey): World {
    if r.None? || tid in w.calls || key !in r.value.ops then w
    else
      var op := r.value.ops[key];
      World(r.value, w.calls[tid := Call(Resolve(key, op.outcome, op.penalty), StartOf(key, op))])
  }

  function Do(w: World, s: Step): World {
    var db := w.db;
    match s
    case FileSafetyReport(id) => Rows(w, OpenSafetyReport(db, id))
    case FileDispute(id) => Rows(w, OpenDispute(db, id))
    case FileCancellation(id, tid) =>
      var r := OpenCancellation(db, id);
      if r.None? || tid in w.calls then w
      else if r.value.cancellations[id].immediate then World(r.value, w.calls[tid := Call(Immediate(id), AtCancelRead)])
      else w.(db := r.value)
    case RetryImmediate(id, tid) =>
      if tid in w.calls || id !in db.cancellations then w
      else if db.cancellations[id].status != CUnderReview || !db.cancellations[id].immediate
              || (db.booking.started && db.booking.status != Canceled) then w
      else w.(calls := w.calls[tid := Call(Immediate(id), AtCancelRead)])
    case RespondDecline(id) => Rows(w, DeclineCancellation(db, id))
    case Escalate(id, report) => Rows(w, EscalateCancellation(db, id, report))
    case FileEscalation(id) => Rows(w, OpenEscalationCase(db, id))
    case ReviewReport(id) => Rows(w, StartReportReview(db, id))
    case ReviewEscalation(id) => Rows(w, StartEscalationReview(db, id))
    case ProviderAccepts => Rows(w, AcceptCash(db))
    case ProviderDeclines => Rows(w, DeclineCash(db))
    case ProviderStarts => Rows(w, StartJob(db))
    case ProviderFinishes => Rows(w, MarkComplete(db))
    case SeekerConfirms => Rows(w, Settle(db, false))
    case CallReport(tid, id, outcome, penalty, a) =>
        Spawn(w, tid, ClaimReport(db, id, outcome, penalty, a), ReportCase(id))
    case CallCompletion(tid, id, outcome) => Spawn(w, tid, ClaimCompletion(db, id, outcome), CompletionCase(id))
    case CallParticipant(tid, id) => Spawn(w, tid, ClaimByParticipant(db, id), CancellationCase(id))
    case CallAdminCancellation(tid, id, approve, fault) =>
        Spawn(w, tid, ClaimByAdmin(db, id, approve, fault), CancellationCase(id))
    case CallAdminBooking(tid, outcome, banned, requireBanned) =>
        Spawn(w, tid, ClaimAdmin(db, outcome, banned, requireBanned), AdminCase)
    case Advance(tid, a, answer, mint) =>
      if tid !in w.calls then w
      else
        var (db', c) := AdvanceCall(db, w.calls[tid], a, answer, mint);
        World(db', w.calls[tid := c])
    case Throw(tid) =>
      if tid !in w.calls || w.calls[tid].pc.Stopped? then w
      else w.(calls := w.calls[tid := Failed(w.calls[tid])])
  }

  function Run(w: World, steps: seq<Step>): World
    decreases |steps|
  {
    if steps == [] then w else Run(Do(w, steps[0]), steps[1..])
  }

  /** A booking as it is created: paid and queued, or a cash agreement. */
  predicate Fresh(db: Db) {
    && db.refund.None? && db.refundLedger == [] && !db.released && db.gateway.None?
    && db.reports == map[] && db.cancellations == map[] && db.escalations == map[] && db.ops == map[]
        && db.closures == []
    && db.booking.before.None? && !db.booking.started
    && (if db.booking.online
        then db.booking.status == Accepted && db.booking.payment == PaidHeld
            && db.queue == Some(QueueRow(QWaiting, PaidHeld))
        else db.booking.status in {PendingApproval, Accepted} && db.booking.payment == Unpaid && db.queue.None?)
  }
}
