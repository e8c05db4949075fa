/** Pausing a booking for cases and restoring it afterwards is a round trip. */
module PauseRestore {
  import opened BookingRows
  import opened Transactions
  import opened TransactionShapes
  import opened Interleaving
  import opened ResolutionInvariant
  import opened FinalizeSteps
  import opened ResolutionSafety
  import opened ResolutionRuns

  function Unfrozen(b: Booking): PaymentStatus { if b.online then PaidHeld else Unpaid }

  /** What the restored rows look like: the remembered status, the payment unfrozen
      on booking and queue, no report or cancellation open, and no decision holding the money. */
  ghost predicate Restored(a: Db, b: Db) {
    && a.booking.before.Some?
    && b.booking == a.booking.(status := a.booking.before.value, before := None, payment := Unfrozen(a.booking))
    && b.queue == QueuePayment(a.queue, Unfrozen(a.booking))
    && !OtherReport(b.reports, None) && !OtherCancellation(b.cancellations, None)
    && !FinancialReserved(b.ops, None)
  }

  /** How one transaction may treat a paused booking. */
  ghost predicate PauseMoves(a: Db, b: Db) {
    a.booking.Paused() ==>
      (b.booking == a.booking && b.queue == a.queue) || b.booking.Terminal() || Restored(a, b)
  }

  /** How one transaction may pause a booking. */
  ghost predicate PauseEnters(a: Db, b: Db) {
    !a.booking.Paused() && b.booking.Paused() ==>
      && a.booking.status !in {Canceled, Completed, Declined}
      && b.booking.before == Some(a.booking.status) && b.booking.started == a.booking.started
          && b.booking.online == a.booking.online
      && (b.queue == a.queue || (b.queue.Some? && b.queue == QueuePayment(a.queue, b.queue.value.payment)))
  }

  ghost predicate PauseSteps(a: Db, b: Db) { PauseMoves(a, b) && PauseEnters(a, b) }

  lemma OpenerStepsPause(w: World, s: Step)
    requires WorldGood(w) && (s.FileSafetyReport? || s.FileDispute? || s.FileCancellation?)
    ensures PauseSteps(w.db, Do(w, s).db)
  {
  }

  lemma CaseStepsPause(w: World, s: Step)
    requires s.RetryImmediate? || s.RespondDecline? || s.Escalate? || s.FileEscalation? || s.ReviewReport?
               || s.ReviewEscalation? || s.Throw?
    ensures PauseSteps(w.db, Do(w, s).db)
  {
  }

  lemma LifecycleStepsPause(w: World, s: Step)
    requires WorldGood(w)
    requires s.ProviderAccepts? || s.ProviderDeclines? || s.ProviderStarts? || s.ProviderFinishes? || s.SeekerConfirms?
    ensures PauseSteps(w.db, Do(w, s).db)
  {
  }

  ghost predicate SameMoney(a: Db, b: Db) {
    b.booking == a.booking && b.queue == a.queue && b.refund == a.refund && b.gateway == a.gateway
  }

  lemma ClaimReportLeavesBooking(db: Db, id: Id, o: Outcome, p: Penalty, a: Account)
    requires ClaimReport(db, id, o, p, a).Some?
    ensures SameMoney(db, ClaimReport(db, id, o, p, a).value)
  {
    if ClaimReport(db, id, o, p, a).value != db {
      ClaimReportShape(db, id, o, p, a);
      var op := AdoptShape(db, ReportCase(id), o, p);
    }
  }

  lemma ClaimCompletionLeavesBooking(db: Db, id: Id, o: Outcome)
    requires ClaimCompletion(db, id, o).Some?
    ensures SameMoney(db, ClaimCompletion(db, id, o).value)
  {
    if ClaimCompletion(db, id, o).value != db {
      ClaimCompletionShape(db, id, o);
      var op := AdoptShape(db, CompletionCase(id), o, NoPenalty);
    }
  }

  lemma ClaimCancellationLeavesBooking(db: Db, id: Id, approve: bool, fault: Option<Participant>)
    ensures var r := ClaimByParticipant(db, id); r.Some? ==> SameMoney(db, r.value)
    ensures var r := ClaimByAdmin(db, id, approve, fault); r.Some? ==> SameMoney(db, r.value)
  {
    if ClaimByAdmin(db, id, approve, fault).Some? && ClaimByAdmin(db, id, approve, fault).value != db {
      ClaimByAdminShape(db, id, approve, fault);
      var op := BeginShape(db, CancellationCase(id), if approve then AdminApprove else AdminDeny, FaultFinding(fault));
    }
  }

  /** A repeated direct decision was reserved by its first claim, so it moves no booking. */
  lemma RepeatedAdminClaim(db: Db, outcome: Outcome, banned: bool, requireBanned: bool)
    requires AdminCase in db.ops && OpShape(AdminCase, db.ops[AdminCase])
               && ClaimAdmin(db, outcome, banned, requireBanned).Some?
    ensures SameMoney(db, ClaimAdmin(db, outcome, banned, requireBanned).value)
  {
    if Adopt(db, AdminCase, outcome, NoPenalty).Some? {
      var op := AdoptShape(db, AdminCase, outcome, NoPenalty);
    }
  }

  lemma AdminClaimPause(db: Db, outcome: Outcome, banned: bool, requireBanned: bool)
    requires Good(db) && ClaimAdmin(db, outcome, banned, requireBanned).Some?
    ensures PauseSteps(db, ClaimAdmin(db, outcome, banned, requireBanned).value)
  {
    if AdminCase in db.ops {
      RepeatedAdminClaim(db, outcome, banned, requireBanned);
    } else {
      ClaimAdminShape(db, outcome, banned, requireBanned);
    }
  }

  lemma SameMoneyPauses(a: Db, b: Db)
    requires SameMoney(a, b)
    ensures PauseSteps(a, b)
  {
  }

  lemma ClaimStepsPause(w: World, s: Step)
    requires WorldGood(w)
    requires s.CallReport? || s.CallCompletion? || s.CallParticipant? || s.CallAdminCancellation? || s.CallAdminBooking?
    ensures PauseSteps(w.db, Do(w, s).db)
  {
    if s.CallAdminBooking? {
      if Do(w, s).db != w.db { AdminClaimPause(w.db, s.outcome, s.banned, s.requireBanned); }
    } else {
      CaseClaimLeavesMoney(w, s);
      SameMoneyPauses(w.db, Do(w, s).db);
    }
  }

  lemma CaseClaimLeavesMoney(w: World, s: Step)
    requires s.CallReport? || s.CallCompletion? || s.CallParticipant? || s.CallAdminCancellation?
    ensures SameMoney(w.db, Do(w, s).db)
  {
    if Do(w, s).db != w.db {
      match s {
        case CallReport(tid, id, o, p, a) => ClaimReportLeavesBooking(w.db, id, o, p, a);
        case CallCompletion(tid, id, o) => ClaimCompletionLeavesBooking(w.db, id, o);
        case CallParticipant(tid, id) => ClaimCancellationLeavesBooking(w.db, id, true, None);
        case CallAdminCancellation(tid, id, x, f) => ClaimCancellationLeavesBooking(w.db, id, x, f);
      }
    }
  }

  lemma RestoreMoves(a: Db, d: Db)
    requires a.booking == d.booking && a.queue == d.queue && !FinancialReserved(d.ops, None)
    ensures PauseSteps(a, Restore(d))
  {
  }

  lemma FinalizeReportPause(db: Db, id: Id, a: Account)
    requires Good(db) && ReportCase(id) in db.ops && db.ops[ReportCase(id)].status != Done
    requires FinalizeReport(db, id, db.ops[ReportCase(id)].outcome, db.ops[ReportCase(id)].penalty, a).Some?
    ensures PauseSteps(db,
              FinalizeReport(db, id, db.ops[ReportCase(id)].outcome, db.ops[ReportCase(id)].penalty, a).value)
  {
    var key := ReportCase(id);
    var op := db.ops[key];
    var applied := AppliedPenalty(op.penalty, a);
    ReportOpFacts(db, id);
    FinalizeReportShape(db, id, op.outcome, op.penalty, a);
    if op.outcome == Dismiss || op.outcome == ResolveSafety {
      NobodyHolds(db, key);
      QuietAfterClose(db, key, applied);
      RestoreMoves(db, CloseReport(db, id, if op.outcome == Dismiss then RpDismissed else RpResolved, applied));
    }
  }

  lemma FinalizeByAdminPause(db: Db, id: Id, a: Account)
    requires Good(db) && CancellationCase(id) in db.ops && db.ops[CancellationCase(id)].status != Done
    requires db.ops[CancellationCase(id)].outcome == AdminDeny
    requires FinalizeByAdmin(db, id, false, db.ops[CancellationCase(id)].penalty, a).Some?
    ensures PauseSteps(db, FinalizeByAdmin(db, id, false, db.ops[CancellationCase(id)].penalty, a).value)
  {
    NobodyHolds(db, CancellationCase(id));
    QuietAfterClose(db, CancellationCase(id), NoPenalty);
    RestoreMoves(db, CloseCancellation(db, id, false, NoPenalty));
  }

  lemma FinalizePause(db: Db, key: CaseKey, a: Account)
    requires Good(db) && key in db.ops
    requires Finalize(db, key, db.ops[key].outcome, db.ops[key].penalty, a).Some?
    ensures PauseSteps(db, Finalize(db, key, db.ops[key].outcome, db.ops[key].penalty, a).value)
  {
    var op := db.ops[key];
    assert OpShape(key, op);
    if op.status != Done {
      if key.ReportCase? {
        FinalizeReportPause(db, key.id, a);
      } else if key.CancellationCase? && op.outcome == AdminDeny {
        FinalizeByAdminPause(db, key.id, a);
      }
    }
  }

  lemma StagePause(db: Db, key: CaseKey, stage: Stage)
    ensures MarkStage(db, key, stage).Some? ==> PauseSteps(db, MarkStage(db, key, stage).value)
    ensures PauseSteps(db, MarkFailed(db, key))
  {
  }

  lemma ReservePause(db: Db, key: CaseKey)
    ensures Reserve(db, key).Some? ==> PauseSteps(db, Reserve(db, key).value)
  {
  }

  lemma MoneyPause(db: Db, resumed: bool, id: Id, status: RefundStatus, held: bool, preStart: bool)
    ensures Settle(db, true).Some? ==> PauseSteps(db, Settle(db, true).value)
    ensures RefundFinalize(db, resumed, id, status).Some? ==>
              PauseSteps(db, RefundFinalize(db, resumed, id, status).value)
    ensures CancelClose(db, held, preStart).Some? ==> PauseSteps(db, CancelClose(db, held, preStart).value)
  {
  }

  lemma AdvanceQuietly(db: Db, c: Call, a: Account, answer: GatewayAnswer, mint: Id)
    requires c.pc in {AtCancelRead, AtRefundRead, AtRefundReserve, AtGateway, AtGatewayError, AtImmediateClose, Stopped}
    ensures AdvanceCall(db, c, a, answer, mint).0.booking == db.booking
              && AdvanceCall(db, c, a, answer, mint).0.queue == db.queue
  {
  }

  lemma CommitPause(db: Db, r: Option<Db>, c: Call, next: Pc)
    requires r.Some? ==> PauseSteps(db, r.value)
    ensures PauseSteps(db, Commit(db, r, c, next).0)
  {
  }

  lemma AdvancePause(db: Db, c: Call, a: Account, answer: GatewayAnswer, mint: Id)
    requires Good(db) && Fits(db, c)
    ensures PauseSteps(db, AdvanceCall(db, c, a, answer, mint).0)
  {
    match c.pc {
      case AtReserve =>
        ReservePause(db, c.task.key);
        CommitPause(db, Reserve(db, c.task.key), c, if Cancels(c.task.outcome) then AtCancelRead else AtSettle);
      case AtRefundFinalize(resumed, id, status) =>
        MoneyPause(db, resumed, id, status, true, true);
        CommitPause(db, RefundFinalize(db, resumed, id, status), c, AtCancelClose(true));
      case AtCancelClose(held) =>
        MoneyPause(db, true, 0, RFailed, held, c.task.Immediate?);
        CommitPause(db, CancelClose(db, held, c.task.Immediate?), c, AfterCancel(c.task));
      case AtSettle =>
        MoneyPause(db, true, 0, RFailed, true, true);
        CommitPause(db, Settle(db, true), c, AtMarkEstablished);
      case AtMarkEstablished =>
        StagePause(db, c.task.key, Established);
        CommitPause(db, MarkStage(db, c.task.key, Established), c, AtFinalize);
      case AtMarkReady =>
        StagePause(db, c.task.key, DecisionReady);
        CommitPause(db, MarkStage(db, c.task.key, DecisionReady), c, AtFinalize);
      case AtFinalize =>
        if Finalize(db, c.task.key, c.task.outcome, c.task.penalty, a).Some? {
          FinalizePause(db, c.task.key, a);
        }
        CommitPause(db, Finalize(db, c.task.key, c.task.outcome, c.task.penalty, a), c, Stopped);
      case AtFailure => StagePause(db, c.task.key, Claimed);
      case _ => AdvanceQuietly(db, c, a, answer, mint);
    }
  }

  lemma StepPauses(w: World, s: Step)
    requires WorldGood(w)
    ensures PauseSteps(w.db, Do(w, s).db)
  {
    if s.CallReport? || s.CallCompletion? || s.CallParticipant? || s.CallAdminCancellation? || s.CallAdminBooking? {
      ClaimStepsPause(w, s);
    } else if s.ProviderAccepts? || s.ProviderDeclines? || s.ProviderStarts? || s.ProviderFinishes?
        || s.SeekerConfirms? {
      LifecycleStepsPause(w, s);
    } else if s.Advance? {
      if s.tid in w.calls {
        AdvancePause(w.db, w.calls[s.tid], s.a, s.answer, s.mint);
      }
    } else if s.FileSafetyReport? || s.FileDispute? || s.FileCancellation? {
      OpenerStepsPause(w, s);
    } else {
      CaseStepsPause(w, s);
    }
  }

  /** Paused after every step but perhaps the last. */
  ghost predicate PausedUntilTheEnd(w: World, steps: seq<Step>)
    decreases |steps|
  {
    steps == [] || (w.db.booking.Paused() && PausedUntilTheEnd(Do(w, steps[0]), steps[1..]))
  }

  lemma {:induction false} LeavingAPause(w: World, steps: seq<Step>)
    requires WorldGood(w) && w.db.booking.Paused() && PausedUntilTheEnd(w, steps)
    ensures PauseMoves(w.db, Run(w, steps).db)
    decreases |steps|
  {
    if steps != [] {
      var w' := Do(w, steps[0]);
      StepPauses(w, steps[0]);
      StepKeeps(w, steps[0]);
      if w'.db.booking.Paused() {
        LeavingAPause(w', steps[1..]);
      }
    }
  }

  lemma RunAround(w: World, first: seq<Step>, s: Step, later: seq<Step>)
    ensures Run(w, first + [s] + later) == Run(Do(Run(w, first), s), later)
  {
    assert first + [s] + later == first + ([s] + later);
    RunSplits(w, first, [s] + later);
    assert ([s] + later)[1..] == later;
  }

  lemma PauseThenRestore(w: World, pause: Step, later: seq<Step>)
    requires WorldGood(w) && !w.db.booking.Paused() && Do(w, pause).db.booking.Paused()
    requires PausedUntilTheEnd(Do(w, pause), later)
    requires var b := Run(Do(w, pause), later).db.booking; !b.Paused() && !b.Terminal()
    ensures var d := Run(Do(w, pause), later).db;
            && d.booking == w.db.booking && d.queue == w.db.queue
            && !OtherReport(d.reports, None) && !OtherCancellation(d.cancellations, None)
            && !FinancialReserved(d.ops, None)
  {
    StepPauses(w, pause);
    StepKeeps(w, pause);
    LeavingAPause(Do(w, pause), later);
    assert Restored(Do(w, pause).db, Run(Do(w, pause), later).db);
  }

  /** Round trip: whatever cases are opened and closed in between, in any order, a
      booking that leaves its pause without being settled or cancelled has exactly
      the booking and queue rows it had before the pause began; no report or
      cancellation is open then, and no reserved decision is undone. */
  lemma PauseRoundTrip(db: Db, first: seq<Step>, pause: Step, later: seq<Step>)
    requires Fresh(db)
    requires var w := Run(World(db, map[]), first);
             && !w.db.booking.Paused() && Do(w, pause).db.booking.Paused()
             && PausedUntilTheEnd(Do(w, pause), later)
    requires var b := After(db, first + [pause] + later).booking; !b.Paused() && !b.Terminal()
    ensures var d := After(db, first + [pause] + later);
            && d.booking == After(db, first).booking && d.queue == After(db, first).queue
            && !OtherReport(d.reports, None) && !OtherCancellation(d.cancellations, None)
            && !FinancialReserved(d.ops, None)
  {
    FreshIsGood(db);
    RunKeeps(World(db, map[]), first);
    RunAround(World(db, map[]), first, pause, later);
    PauseThenRestore(Run(World(db, map[]), first), pause, later);
  }
}
