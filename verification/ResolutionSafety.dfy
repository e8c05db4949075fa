/** Every interleaving of service calls keeps the invariant. */
module ResolutionSafety {
  import opened BookingRows
  import opened Transactions
  import opened Interleaving
  import opened ResolutionInvariant
  import opened DecisionSteps
  import opened RefundSteps
  import opened FinalizeSteps

  ghost predicate Cancelling(ops: map<CaseKey, Operation>, t: Task) {
    t.Resolve? ==> t.key in ops && Cancels(t.outcome) && Rank(ops[t.key].stage) >= 2
  }

  /** What a call may rely on at each program point, however long it slept there. */
  ghost predicate Fits(db: Db, c: Call) {
    && (c.task.Resolve? ==>
          && c.task.key in db.ops
          && db.ops[c.task.key].outcome == c.task.outcome && db.ops[c.task.key].penalty == c.task.penalty)
    && (c.task.Immediate? ==> c.task.request in db.cancellations && db.cancellations[c.task.request].immediate)
    && match c.pc
       case AtReserve => c.task.Resolve? && Financial(c.task.outcome) && !c.task.key.AdminCase?
       case AtCancelRead => Cancelling(db.ops, c.task)
       case AtRefundRead => Cancelling(db.ops, c.task) && db.booking.online
       case AtRefundReserve => Cancelling(db.ops, c.task) && db.booking.online
       case AtGateway => Cancelling(db.ops, c.task) && db.booking.online && db.refund.Some?
       case AtGatewayError => Cancelling(db.ops, c.task) && db.booking.online && db.refund.Some?
       case AtRefundFinalize(_, id, _) => Cancelling(db.ops, c.task) && db.booking.online && db.gateway == Some(id)
       case AtCancelClose(held) =>
         && Cancelling(db.ops, c.task)
         && (if held then db.booking.status == Canceled else !db.booking.online || db.booking.Terminal())
       case AtSettle => c.task.Resolve? && c.task.outcome == ReleaseAndComplete && Rank(db.ops[c.task.key].stage) >= 2
       case AtMarkEstablished =>
         && c.task.Resolve? && Rank(db.ops[c.task.key].stage) >= 2
         && Financial(c.task.outcome) && Reached(db.booking, c.task.outcome)
       case AtMarkReady => c.task.Resolve?
       case AtFinalize => c.task.Resolve?
       case AtImmediateClose => c.task.Immediate?
       case AtFailure => c.task.Resolve?
       case Stopped => true
  }

  ghost predicate WorldGood(w: World) {
    Good(w.db) && forall t | t in w.calls :: Fits(w.db, w.calls[t])
  }

  /** A sleeping call is not disturbed by what others may do. */
  lemma FitsStable(a: Db, b: Db, c: Call)
    requires Fits(a, c) && Evolves(a, b)
    ensures Fits(b, c)
  {
  }

  // ----------------------------------------------------- one call, one step

  /** The outcome of advancing a call: rows and call both stay in order. */
  ghost predicate Advanced(db: Db, p: (Db, Call)) {
    Good(p.0) && Evolves(db, p.0) && Fits(p.0, p.1)
  }

  lemma FailedFits(db: Db, c: Call)
    requires Good(db) && Fits(db, c)
    ensures Advanced(db, (db, Failed(c)))
  {
    EvolvesReflexive(db);
  }

  lemma CommitAdvances(db: Db, r: Option<Db>, c: Call, next: Pc)
    requires Good(db) && Fits(db, c) && Keeps(db, r)
    requires r.Some? && Good(r.value) && Evolves(db, r.value) && Fits(r.value, c) ==> Fits(r.value, c.(pc := next))
    ensures Advanced(db, Commit(db, r, c, next))
  {
    if r.Some? {
      FitsStable(db, r.value, c);
    } else {
      FailedFits(db, c);
    }
  }

  lemma AdvanceReserve(db: Db, c: Call)
    requires Good(db) && Fits(db, c) && c.pc == AtReserve
    ensures Advanced(db,
              Commit(db, Reserve(db, c.task.key), c, if Cancels(c.task.outcome) then AtCancelRead else AtSettle))
  {
    ReserveKeeps(db, c.task.key);
    CommitAdvances(db, Reserve(db, c.task.key), c, if Cancels(c.task.outcome) then AtCancelRead else AtSettle);
  }

  lemma AdvanceSettle(db: Db, c: Call)
    requires Good(db) && Fits(db, c) && c.pc == AtSettle
    ensures Advanced(db, Commit(db, Settle(db, true), c, AtMarkEstablished))
  {
    AdminSettleKeeps(db, c.task.key);
    if Settle(db, true).Some? { SettledFits(Settle(db, true).value, c); }
    CommitAdvances(db, Settle(db, true), c, AtMarkEstablished);
  }

  lemma SettledFits(db: Db, c: Call)
    requires c.pc == AtSettle && db.booking.status == Completed
    ensures Fits(db, c) ==> Fits(db, c.(pc := AtMarkEstablished))
  {
  }

  lemma AdvanceMark(db: Db, c: Call, stage: Stage)
    requires Good(db) && Fits(db, c)
    requires (stage == Established && c.pc == AtMarkEstablished) || (stage == DecisionReady && c.pc == AtMarkReady)
    ensures Advanced(db, Commit(db, MarkStage(db, c.task.key, stage), c, AtFinalize))
  {
    MarkStageKeeps(db, c.task.key, stage);
    CommitAdvances(db, MarkStage(db, c.task.key, stage), c, AtFinalize);
  }

  lemma AdvanceFinalize(db: Db, c: Call, a: Account)
    requires Good(db) && Fits(db, c) && c.pc == AtFinalize
    ensures Advanced(db, Commit(db, Finalize(db, c.task.key, c.task.outcome, c.task.penalty, a), c, Stopped))
  {
    FinalizeKeeps(db, c.task.key, a);
    CommitAdvances(db, Finalize(db, c.task.key, c.task.outcome, c.task.penalty, a), c, Stopped);
  }

  lemma AdvanceFailure(db: Db, c: Call)
    requires Good(db) && Fits(db, c) && c.pc == AtFailure
    ensures Advanced(db, (MarkFailed(db, c.task.key), c.(pc := Stopped)))
  {
    MarkFailedKeeps(db, c.task.key);
    FitsStable(db, MarkFailed(db, c.task.key), c);
  }

  lemma AdvanceCancelRead(db: Db, c: Call, a: Account, answer: GatewayAnswer, mint: Id)
    requires Good(db) && Fits(db, c) && c.pc == AtCancelRead
    ensures Advanced(db, AdvanceCall(db, c, a, answer, mint))
  {
    EvolvesReflexive(db);
    FailedFits(db, c);
    assert Fits(db, c.(pc := if db.booking.Held() then AtRefundRead else AtCancelClose(false)));
  }

  lemma AdvanceRefundRead(db: Db, c: Call, a: Account, answer: GatewayAnswer, mint: Id)
    requires Good(db) && Fits(db, c) && c.pc == AtRefundRead
    ensures Advanced(db, AdvanceCall(db, c, a, answer, mint))
  {
    EvolvesReflexive(db);
    FailedFits(db, c);
    assert Fits(db, c.(pc := AtRefundReserve));
  }

  lemma AdvanceRefundReserve(db: Db, c: Call, a: Account, answer: GatewayAnswer, mint: Id)
    requires Good(db) && Fits(db, c) && c.pc == AtRefundReserve
    ensures Advanced(db, AdvanceCall(db, c, a, answer, mint))
  {
    FailedFits(db, c);
    RefundReserveKeeps(db);
    if RefundReserve(db).Some? {
      FitsStable(db, RefundReserve(db).value, c);
    }
  }

  lemma AdvanceGateway(db: Db, c: Call, a: Account, answer: GatewayAnswer, mint: Id)
    requires Good(db) && Fits(db, c) && c.pc == AtGateway
    ensures Advanced(db, AdvanceCall(db, c, a, answer, mint))
  {
    EvolvesReflexive(db);
    GatewayKeeps(db, mint);
    FitsStable(db, db.(gateway := Some(AcceptedRefund(db, mint))), c);
  }

  lemma AdvanceGatewayError(db: Db, c: Call, a: Account, answer: GatewayAnswer, mint: Id)
    requires Good(db) && Fits(db, c) && c.pc == AtGatewayError
    ensures Advanced(db, AdvanceCall(db, c, a, answer, mint))
  {
    FailedFits(db, c);
    RefundMarkFailedKeeps(db);
    FitsStable(db, RefundMarkFailed(db).value, c);
    FailedFits(RefundMarkFailed(db).value, c);
  }

  lemma AdvanceRefundFinalize(db: Db, c: Call)
    requires Good(db) && Fits(db, c) && c.pc.AtRefundFinalize?
    ensures Advanced(db, Commit(db, RefundFinalize(db, c.pc.resumed, c.pc.id, c.pc.status), c, AtCancelClose(true)))
  {
    RefundFinalizeKeeps(db, c.task, c.pc.resumed, c.pc.id, c.pc.status);
    CommitAdvances(db, RefundFinalize(db, c.pc.resumed, c.pc.id, c.pc.status), c, AtCancelClose(true));
  }

  lemma AdvanceCancelClose(db: Db, c: Call)
    requires Good(db) && Fits(db, c) && c.pc.AtCancelClose?
    ensures Advanced(db, Commit(db, CancelClose(db, c.pc.held, c.task.Immediate?), c, AfterCancel(c.task)))
  {
    CancelCloseKeeps(db, c.task, c.pc.held);
    CommitAdvances(db, CancelClose(db, c.pc.held, c.task.Immediate?), c, AfterCancel(c.task));
  }

  lemma AdvanceImmediateClose(db: Db, c: Call)
    requires Good(db) && Fits(db, c) && c.pc == AtImmediateClose
    ensures Advanced(db, Commit(db, ImmediateClose(db, c.task.request), c, Stopped))
  {
    ImmediateCloseKeeps(db, c.task.request);
    CommitAdvances(db, ImmediateClose(db, c.task.request), c, Stopped);
  }

  lemma AdvanceKeeps(db: Db, c: Call, a: Account, answer: GatewayAnswer, mint: Id)
    requires Good(db) && Fits(db, c)
    ensures Advanced(db, AdvanceCall(db, c, a, answer, mint))
  {
    EvolvesReflexive(db);
    match c.pc {
      case AtReserve => AdvanceReserve(db, c);
      case AtCancelRead => AdvanceCancelRead(db, c, a, answer, mint);
      case AtRefundRead => AdvanceRefundRead(db, c, a, answer, mint);
      case AtRefundReserve => AdvanceRefundReserve(db, c, a, answer, mint);
      case AtGateway => AdvanceGateway(db, c, a, answer, mint);
      case AtGatewayError => AdvanceGatewayError(db, c, a, answer, mint);
      case AtRefundFinalize(_, _, _) => AdvanceRefundFinalize(db, c);
      case AtCancelClose(_) => AdvanceCancelClose(db, c);
      case AtSettle => AdvanceSettle(db, c);
      case AtMarkEstablished => AdvanceMark(db, c, Established);
      case AtMarkReady => AdvanceMark(db, c, DecisionReady);
      case AtFinalize => AdvanceFinalize(db, c, a);
      case AtImmediateClose => AdvanceImmediateClose(db, c);
      case AtFailure => AdvanceFailure(db, c);
      case Stopped =>
    }
  }
}
