/** Whether money can be both sent back by the gateway and released to the provider. */
module RefundSafety {
  import opened BookingRows
  import opened Transactions
  import opened TransactionShapes
  import opened Interleaving
  import opened ResolutionInvariant
  import opened ResolutionSafety
  import opened ResolutionRuns
  import opened PauseRestore
  import opened CallOutcomes

  /** A refund request is at the gateway, or the gateway has accepted one. */
  ghost predicate RefundUnderWay(w: World) {
    w.db.gateway.Some? || exists t | t in w.calls :: w.calls[t].pc.AtGateway?
  }

  /** A refund under way is visible to the settlement guard. */
  ghost predicate Tracked(w: World) {
    && (RefundUnderWay(w) ==> w.db.RefundInProgress() || w.db.booking.payment == Refunded)
    && (w.db.RefundInProgress() ==> w.db.booking.status != Completed)
  }

  /** The error path records FAILED only when no refund is accepted or in flight.
      This is what the source leaves to chance: it writes FAILED whatever it finds. */
  ghost predicate TruthfulFailure(w: World, s: Step) {
    s.Advance? && s.tid in w.calls && w.calls[s.tid].pc.AtGatewayError? ==>
        !RefundUnderWay(w) || w.db.booking.payment == Refunded
  }

  ghost predicate TruthfulRun(w: World, steps: seq<Step>)
    decreases |steps|
  {
    steps == [] || (TruthfulFailure(w, steps[0]) && TruthfulRun(Do(w, steps[0]), steps[1..]))
  }

  ghost predicate RefundRowsSame(a: Db, b: Db) {
    && b.refund == a.refund && b.gateway == a.gateway
    && (a.RefundInProgress() && a.booking.status != Completed ==> b.booking.status != Completed)
  }

  lemma AdminClaimLeavesRefund(db: Db, o: Outcome, banned: bool, requireBanned: bool)
    requires AdminCase in db.ops ==> OpShape(AdminCase, db.ops[AdminCase])
    requires ClaimAdmin(db, o, banned, requireBanned).Some?
    ensures RefundRowsSame(db, ClaimAdmin(db, o, banned, requireBanned).value)
  {
    if AdminCase in db.ops {
      RepeatedAdminClaim(db, o, banned, requireBanned);
    } else {
      ClaimAdminShape(db, o, banned, requireBanned);
    }
  }

  lemma ClaimLeavesRefund(w: World, s: Step)
    requires AdminCase in w.db.ops ==> OpShape(AdminCase, w.db.ops[AdminCase])
    requires s.CallReport? || s.CallCompletion? || s.CallParticipant? || s.CallAdminCancellation? || s.CallAdminBooking?
    ensures RefundRowsSame(w.db, Do(w, s).db)
  {
    if s.CallAdminBooking? {
      if Do(w, s).db != w.db { AdminClaimLeavesRefund(w.db, s.outcome, s.banned, s.requireBanned); }
    } else {
      CaseClaimLeavesMoney(w, s);
    }
  }

  lemma OpenerLeavesRefund(db: Db, id: Id, report: Id)
    ensures OpenSafetyReport(db, id).Some? ==> RefundRowsSame(db, OpenSafetyReport(db, id).value)
    ensures OpenDispute(db, id).Some? ==> RefundRowsSame(db, OpenDispute(db, id).value)
    ensures OpenCancellation(db, id).Some? ==> RefundRowsSame(db, OpenCancellation(db, id).value)
    ensures EscalateCancellation(db, id, report).Some? ==>
              RefundRowsSame(db, EscalateCancellation(db, id, report).value)
    ensures StartReportReview(db, id).Some? ==> RefundRowsSame(db, StartReportReview(db, id).value)
  {
  }

  lemma OtherStepLeavesRefund(w: World, s: Step)
    requires !s.Advance? && !s.CallReport? && !s.CallCompletion? && !s.CallParticipant? && !s.CallAdminCancellation?
               && !s.CallAdminBooking?
    ensures RefundRowsSame(w.db, Do(w, s).db)
  {
    match s {
      case FileSafetyReport(id) => OpenerLeavesRefund(w.db, id, 0);
      case FileDispute(id) => OpenerLeavesRefund(w.db, id, 0);
      case FileCancellation(id, _) => OpenerLeavesRefund(w.db, id, 0);
      case Escalate(id, report) => OpenerLeavesRefund(w.db, id, report);
      case ReviewReport(id) => OpenerLeavesRefund(w.db, id, 0);
      case _ =>
    }
  }

  lemma NobodyNewAtGateway(w: World, s: Step)
    requires !s.Advance?
    ensures forall t | t in Do(w, s).calls && Do(w, s).calls[t].pc.AtGateway? ::
              t in w.calls && w.calls[t].pc.AtGateway?
  {
    match s {
      case CallReport(tid, id, o, p, a) => SpawnedElsewhere(w, tid, ClaimReport(w.db, id, o, p, a), ReportCase(id));
      case CallCompletion(tid, id, o) => SpawnedElsewhere(w, tid, ClaimCompletion(w.db, id, o), CompletionCase(id));
      case CallParticipant(tid, id) => SpawnedElsewhere(w, tid, ClaimByParticipant(w.db, id), CancellationCase(id));
      case CallAdminCancellation(tid, id, x, f) =>
          SpawnedElsewhere(w, tid, ClaimByAdmin(w.db, id, x, f), CancellationCase(id));
      case CallAdminBooking(tid, o, x, y) => SpawnedElsewhere(w, tid, ClaimAdmin(w.db, o, x, y), AdminCase);
      case _ =>
    }
  }

  lemma SpawnedElsewhere(w: World, tid: nat, r: Option<Db>, key: CaseKey)
    ensures forall t | t in Spawn(w, tid, r, key).calls && Spawn(w, tid, r, key).calls[t].pc.AtGateway? ::
              t in w.calls && w.calls[t].pc.AtGateway?
  {
  }

  lemma FinalizeLeavesRefund(db: Db, key: CaseKey, o: Outcome, p: Penalty, a: Account)
    requires db.booking.before != Some(Completed)
    ensures Finalize(db, key, o, p, a).Some? ==> RefundRowsSame(db, Finalize(db, key, o, p, a).value)
  {
    match key {
      case ReportCase(id) =>
        if ReportCase(id) in db.ops && db.ops[ReportCase(id)].status != Done && id in db.reports
            && FinalizeReport(db, id, o, p, a).Some? {
          FinalizeReportShape(db, id, o, p, a);
          RestoreLeavesRefund(db,
              CloseReport(db, id, if o == Dismiss then RpDismissed else RpResolved, AppliedPenalty(p, a)));
        }
      case CompletionCase(id) =>
      case CancellationCase(id) =>
        if o != ParticipantApprove { AdminFinalizeLeavesRefund(db, id, o == AdminApprove, p, a); }
      case AdminCase =>
    }
  }

  lemma RestoreLeavesRefund(db: Db, d: Db)
    requires db.booking.before != Some(Completed) && d.booking == db.booking && d.refund == db.refund
               && d.gateway == db.gateway
    ensures RefundRowsSame(db, d) && RefundRowsSame(db, Restore(d))
  {
  }

  lemma AdminFinalizeLeavesRefund(db: Db, id: Id, approve: bool, p: Penalty, a: Account)
    requires db.booking.before != Some(Completed)
    ensures FinalizeByAdmin(db, id, approve, p, a).Some? ==>
              RefundRowsSame(db, FinalizeByAdmin(db, id, approve, p, a).value)
  {
    if FinalizeByAdmin(db, id, approve, p, a).Some? && db.ops[CancellationCase(id)].status != Done {
      RestoreLeavesRefund(db, CloseCancellation(db, id, approve, if approve then p else NoPenalty));
    }
  }

  /** Apart from the refund's own transactions, a call leaves the refund rows alone. */
  lemma AdvanceLeavesRefund(db: Db, c: Call, a: Account, answer: GatewayAnswer, mint: Id)
    requires c.pc !in {AtRefundReserve, AtGateway, AtGatewayError} && !c.pc.AtRefundFinalize?
    requires db.booking.before != Some(Completed)
    ensures RefundRowsSame(db, AdvanceCall(db, c, a, answer, mint).0)
              && !AdvanceCall(db, c, a, answer, mint).1.pc.AtGateway?
  {
    if c.pc == AtFinalize && c.task.Resolve? {
      FinalizeLeavesRefund(db, c.task.key, c.task.outcome, c.task.penalty, a);
    }
  }

  lemma RefundStepTracks(w: World, tid: nat, a: Account, answer: GatewayAnswer, mint: Id)
    requires WorldGood(w) && Tracked(w) && tid in w.calls && TruthfulFailure(w, Advance(tid, a, answer, mint))
    requires w.calls[tid].pc in {AtRefundReserve, AtGateway, AtGatewayError} || w.calls[tid].pc.AtRefundFinalize?
    ensures Tracked(Do(w, Advance(tid, a, answer, mint)))
  {
    var c := w.calls[tid];
    assert Fits(w.db, c);
    var w' := Do(w, Advance(tid, a, answer, mint));
    assert forall t | t in w'.calls && t != tid :: t in w.calls && w'.calls[t] == w.calls[t];
    if RefundUnderWay(w') && !RefundUnderWay(w) {
      OnlyReserveStartsRefund(w.db, c, a, answer, mint);
    }
  }

  lemma OnlyReserveStartsRefund(db: Db, c: Call, a: Account, answer: GatewayAnswer, mint: Id)
    requires c.pc in {AtRefundReserve, AtGateway, AtGatewayError} || c.pc.AtRefundFinalize?
    requires var p := AdvanceCall(db, c, a, answer, mint);
             p.1.pc.AtGateway? || (p.0.gateway.Some? && db.gateway.None?)
    ensures c.pc == AtRefundReserve || c.pc == AtGateway
  {
  }

  lemma StepTracks(w: World, s: Step)
    requires WorldGood(w) && Tracked(w) && TruthfulFailure(w, s)
    ensures Tracked(Do(w, s))
  {
    StepKeeps(w, s);
    if s.Advance? {
      if s.tid in w.calls {
        var c := w.calls[s.tid];
        if c.pc in {AtRefundReserve, AtGateway, AtGatewayError} || c.pc.AtRefundFinalize? {
          RefundStepTracks(w, s.tid, s.a, s.answer, s.mint);
        } else {
          AdvanceLeavesRefund(w.db, c, s.a, s.answer, s.mint);
        }
      }
    } else {
      NobodyNewAtGateway(w, s);
      if s.CallReport? || s.CallCompletion? || s.CallParticipant? || s.CallAdminCancellation? || s.CallAdminBooking? {
        if AdminCase in w.db.ops { assert OpShape(AdminCase, w.db.ops[AdminCase]); }
        ClaimLeavesRefund(w, s);
      } else {
        OtherStepLeavesRefund(w, s);
      }
    }
  }

  /** A failure recorded while a refund is accepted or in flight hides that refund from the settlement guard. */
  lemma UntruthfulHides(w: World, s: Step)
    requires WorldGood(w) && !TruthfulFailure(w, s)
    ensures !Tracked(Do(w, s))
  {
    var c := w.calls[s.tid];
    assert Fits(w.db, c);
    var w' := Do(w, s);
    if w.db.gateway.None? {
      var t :| t in w.calls && w.calls[t].pc.AtGateway?;
      assert t in w'.calls && w'.calls[t] == w.calls[t];
    }
    assert RefundUnderWay(w');
  }

  ghost predicate TrackedAllAlong(w: World, steps: seq<Step>)
    decreases |steps|
  {
    Tracked(w) && (steps == [] || TrackedAllAlong(Do(w, steps[0]), steps[1..]))
  }

  lemma {:induction false} RunTracks(w: World, steps: seq<Step>)
    requires WorldGood(w) && Tracked(w)
    ensures TrackedAllAlong(w, steps) <==> TruthfulRun(w, steps)
    ensures TruthfulRun(w, steps) ==> WorldGood(Run(w, steps)) && Tracked(Run(w, steps))
    decreases |steps|
  {
    if steps != [] {
      StepKeeps(w, steps[0]);
      if TruthfulFailure(w, steps[0]) {
        StepTracks(w, steps[0]);
        RunTracks(Do(w, steps[0]), steps[1..]);
      } else {
        UntruthfulHides(w, steps[0]);
      }
    }
  }

  /** In every state of a run each refund that is accepted or in flight is visible to the settlement guard, if
      and only if FAILED is never written while one is. Then money the gateway sent back is never released as
      well: the booking is refunded, or its refund is on record as in progress and every settlement is refused. */
  lemma RefundVisibleExactlyWhenTruthful(db: Db, steps: seq<Step>)
    requires Fresh(db)
    ensures TrackedAllAlong(World(db, map[]), steps) <==> TruthfulRun(World(db, map[]), steps)
    ensures TruthfulRun(World(db, map[]), steps) ==>
              var d := After(db, steps);
              && (d.gateway.Some? ==> d.booking.payment == Refunded || (d.RefundInProgress() && d.booking.Held()))
              && !(d.gateway.Some? && d.released)
              && (d.gateway.Some? && d.booking.payment != Refunded ==> Settle(d, true).None? && Settle(d, false).None?)
  {
    FreshIsGood(db);
    RunTracks(World(db, map[]), steps);
  }

  /** From any reachable state with the money held, one undisturbed refund with a gateway
      that accepts ends with the booking cancelled, the payment refunded, the queue entry
      cancelled and the gateway's refund in the ledger exactly once. */
  lemma UndisturbedRefundSucceeds(db: Db, steps: seq<Step>, answer: GatewayAnswer, mint: Id)
    requires Fresh(db) && After(db, steps).booking.Held() && answer.Accepts?
    ensures var r := RefundCall(After(db, steps), answer, mint);
            && r.1 && r.0.booking.status == Canceled && r.0.booking.payment == Refunded
            && r.0.queue == Some(QueueRow(QCancelled, Refunded))
            && r.0.gateway.Some? && r.0.refundLedger == [r.0.gateway.value]
                && r.0.refund == Some(Refund(answer.status, r.0.gateway))
  {
    AfterIsGood(db, steps);
    RefundGoesThrough(After(db, steps), answer, mint);
  }

  lemma RefundGoesThrough(db: Db, answer: GatewayAnswer, mint: Id)
    requires Good(db) && db.booking.Held() && answer.Accepts?
    ensures var r := RefundCall(db, answer, mint);
            && r.1 && r.0.booking.status == Canceled && r.0.booking.payment == Refunded
            && r.0.queue == Some(QueueRow(QCancelled, Refunded))
            && r.0.gateway.Some? && r.0.refundLedger == [r.0.gateway.value]
                && r.0.refund == Some(Refund(answer.status, r.0.gateway))
  {
    var reserved := RefundReserve(db);
    assert reserved.Some? && reserved.value.RefundInProgress() && reserved.value.refund.value.gatewayId.None?;
  }
}
