/** Exactly when an undisturbed retry finishes a reserved cancelling decision. */
module RetryFinishes {
  import opened BookingRows
  import opened Transactions
  import opened TransactionShapes
  import opened Interleaving
  import opened ResolutionInvariant
  import opened ClaimSteps
  import opened ResolutionSafety
  import opened ResolutionRuns
  import opened CrashRecovery

  /** What a retry of a recorded decision sets out to do. */
  function RetryOf(db: Db, key: CaseKey): Task
    requires key in db.ops
  {
    Resolve(key, db.ops[key].outcome, db.ops[key].penalty)
  }

  /** The service call that retries a recorded cancelling decision. */
  function RetryCall(db: Db, key: CaseKey, tid: nat, a: Account, banned: bool, requireBanned: bool): Step
    requires key in db.ops
  {
    var op := db.ops[key];
    match key
    case ReportCase(id) => CallReport(tid, id, op.outcome, op.penalty, a)
    case CompletionCase(id) => CallCompletion(tid, id, op.outcome)
    case CancellationCase(id) =>
      if op.outcome == ParticipantApprove then CallParticipant(tid, id)
      else CallAdminCancellation(tid, id, op.outcome == AdminApprove, NamedParty(op.penalty))
    case AdminCase => CallAdminBooking(tid, op.outcome, banned, requireBanned)
  }

  /** What the invariant says about a held cancelling decision. */
  lemma HeldFacts(db: Db, key: CaseKey)
    requires Good(db) && key in db.ops && db.ops[key].HoldsMoney() && Cancels(db.ops[key].outcome)
    ensures key.ReportCase? ==>
              && db.ops[key].outcome == CancelBooking && db.booking.status != Completed
              && key.id in db.reports && db.reports[key.id].Active()
                  && db.reports[key.id].kind != CancellationEscalation
              && !OtherBlockingCase(db, Some(key.id), None, None)
    ensures key.CompletionCase? ==>
              && db.ops[key].outcome == RefundSeeker && db.ops[key].penalty == NoPenalty && db.booking.online
              && key.id in db.escalations && db.escalations[key.id] == EUnderReview
              && (db.booking.status == Canceled
                    || (db.booking.status == UnderReview && db.booking.before == Some(AwaitingConfirmation)))
    ensures key.CancellationCase? ==>
              && key.id in db.cancellations
              && !OtherBlockingCase(db, db.cancellations[key.id].report, Some(key.id), None)
              && (if db.ops[key].outcome == ParticipantApprove then db.ops[key].penalty == NoPenalty
                  else && db.ops[key].outcome == AdminApprove
                       && (db.ops[key].penalty == NoPenalty || db.ops[key].penalty.Fault?)
                       && (db.ops[key].penalty.Fault? ==> db.booking.started)
                       && db.cancellations[key.id].report.Some?)
    ensures key.AdminCase? ==>
              && db.ops[key].outcome == CancelBooking && db.ops[key].penalty == NoPenalty
              && (db.booking.status == Canceled || db.booking.status == UnderReview)
  {
    var op := db.ops[key];
    assert OpShape(key, op) && OpOnBooking(key, op, db.booking) && OpOnReports(key, op, db.reports, db.cancellations);
    assert OpOnCancellations(key, op, db.cancellations) && OpOnEscalations(key, op, db.escalations);
  }

  /** A cancelled booking has its refund recorded; a paused one remembers its status. */
  lemma RowFacts(db: Db)
    requires Good(db)
    ensures db.booking.status == Canceled ==>
              CancelledFully(db.booking) && (db.booking.online ==> db.refund.Some? && db.refund.value.gatewayId.Some?)
    ensures db.booking.before.Some? <==> db.booking.Paused()
    ensures forall r | r in db.reports && db.reports[r].Active() && db.reports[r].kind != CancellationEscalation ::
              db.booking.status != Declined
    ensures forall c | c in db.cancellations && db.cancellations[c].report.Some? ::
              db.cancellations[c].report.value in db.reports
  {
  }

  lemma RetriedReport(db: Db, id: Id, a: Account)
    requires Good(db) && ReportCase(id) in db.ops && db.ops[ReportCase(id)].HoldsMoney()
               && Cancels(db.ops[ReportCase(id)].outcome)
    ensures var op := db.ops[ReportCase(id)];
            var r := ClaimReport(db, id, op.outcome, op.penalty, a);
            r.Some? && Ready(r.value, RetryOf(db, ReportCase(id))) && r.value.closures == db.closures
  {
    HeldFacts(db, ReportCase(id));
    RowFacts(db);
    var op := RetryReportShape(db, id, a);
    ClaimReportKeeps(db, id, CancelBooking, op.penalty, a);
  }

  lemma RetriedCompletion(db: Db, id: Id)
    requires Good(db) && CompletionCase(id) in db.ops && db.ops[CompletionCase(id)].HoldsMoney()
               && Cancels(db.ops[CompletionCase(id)].outcome)
    ensures var key := CompletionCase(id);
            var r := ClaimCompletion(db, id, db.ops[key].outcome);
            && r.Some? && Ready(r.value, RetryOf(db, key)) && r.value.closures == db.closures
            && (r.value.ops[key].stage == Reserved ==> r.value.booking.status != Canceled)
  {
    HeldFacts(db, CompletionCase(id));
    RowFacts(db);
    var op := RetryCompletionShape(db, id);
    ClaimCompletionKeeps(db, id, RefundSeeker);
  }

  lemma RetriedAdmin(db: Db, banned: bool, requireBanned: bool)
    requires Good(db) && AdminCase in db.ops && db.ops[AdminCase].HoldsMoney() && Cancels(db.ops[AdminCase].outcome)
    ensures var r := ClaimAdmin(db, db.ops[AdminCase].outcome, banned, requireBanned);
            r.Some? && Ready(r.value, RetryOf(db, AdminCase)) && r.value.closures == db.closures
  {
    HeldFacts(db, AdminCase);
    RowFacts(db);
    var op := RetryAdminShape(db, banned, requireBanned);
    ClaimAdminKeeps(db, CancelBooking, banned, requireBanned);
  }

  lemma RetriedParticipant(db: Db, id: Id)
    requires Good(db) && CancellationCase(id) in db.ops && db.ops[CancellationCase(id)].HoldsMoney()
    requires db.ops[CancellationCase(id)].outcome == ParticipantApprove
    requires id in db.cancellations && RequestClaimable(db.cancellations[id], true)
    requires db.booking.status != Completed && db.booking.status != Declined
    ensures var r := ClaimByParticipant(db, id);
            r.Some? && Ready(r.value, RetryOf(db, CancellationCase(id))) && r.value.closures == db.closures
  {
    HeldFacts(db, CancellationCase(id));
    RetryParticipantShape(db, id);
    ClaimByParticipantKeeps(db, id);
  }

  lemma RetriedAdminCancellation(db: Db, id: Id)
    requires Good(db) && CancellationCase(id) in db.ops && db.ops[CancellationCase(id)].HoldsMoney()
    requires db.ops[CancellationCase(id)].outcome == AdminApprove
    requires id in db.cancellations && RequestClaimable(db.cancellations[id], false)
    requires db.booking.status != Completed && db.booking.status != Declined
    ensures var r := ClaimByAdmin(db, id, true, NamedParty(db.ops[CancellationCase(id)].penalty));
            r.Some? && Ready(r.value, RetryOf(db, CancellationCase(id))) && r.value.closures == db.closures
  {
    HeldFacts(db, CancellationCase(id));
    RowFacts(db);
    RetryAdminCancellationShape(db, id, NamedParty(db.ops[CancellationCase(id)].penalty));
    ClaimByAdminKeeps(db, id, true, NamedParty(db.ops[CancellationCase(id)].penalty));
  }

  /** The retry's claim: refused only for a cancellation request that is no longer open to it. */
  function Reclaim(db: Db, key: CaseKey, a: Account, banned: bool, requireBanned: bool): Option<Db>
    requires key in db.ops
  {
    var op := db.ops[key];
    match key
    case ReportCase(id) => ClaimReport(db, id, op.outcome, op.penalty, a)
    case CompletionCase(id) => ClaimCompletion(db, id, op.outcome)
    case CancellationCase(id) =>
      if op.outcome == ParticipantApprove then ClaimByParticipant(db, id)
      else ClaimByAdmin(db, id, op.outcome == AdminApprove, NamedParty(op.penalty))
    case AdminCase => ClaimAdmin(db, op.outcome, banned, requireBanned)
  }

  /** What a caller can look up before retrying: the account takes the penalty, and a
      cancellation request is still open to its decider and its booking not settled otherwise. */
  predicate CanFinish(db: Db, key: CaseKey, a: Account)
    requires key in db.ops
  {
    && PenaltyGoesThrough(RetryOf(db, key), a)
    && (key.CancellationCase? ==>
          && key.id in db.cancellations
              && RequestClaimable(db.cancellations[key.id], db.ops[key].outcome == ParticipantApprove)
          && db.booking.status != Completed && db.booking.status != Declined)
  }

  lemma Reclaimed(db: Db, key: CaseKey, a: Account, banned: bool, requireBanned: bool)
    requires Good(db) && key in db.ops && db.ops[key].HoldsMoney() && Cancels(db.ops[key].outcome)
               && CanFinish(db, key, a)
    ensures var r := Reclaim(db, key, a, banned, requireBanned);
            && r.Some? && Ready(r.value, RetryOf(db, key)) && r.value.closures == db.closures
            && (key.CompletionCase? && r.value.ops[key].stage == Reserved ==> r.value.booking.status != Canceled)
  {
    match key {
      case ReportCase(id) => RetriedReport(db, id, a);
      case CompletionCase(id) => RetriedCompletion(db, id);
      case CancellationCase(id) =>
        HeldFacts(db, key);
        if db.ops[key].outcome == ParticipantApprove { RetriedParticipant(db, id); }
            else { RetriedAdminCancellation(db, id); }
      case AdminCase => RetriedAdmin(db, banned, requireBanned);
    }
  }

  // ------------------------------------------- a retry as a run of the world

  function Advances(tid: nat, a: Account, answer: GatewayAnswer, mint: Id, n: nat): seq<Step> {
    seq(n, _ => Advance(tid, a, answer, mint))
  }

  lemma {:induction false} AloneIsARun(w: World, tid: nat, a: Account, answer: GatewayAnswer, mint: Id, n: nat)
    requires tid in w.calls
    ensures Run(w, Advances(tid, a, answer, mint, n)).db == Alone(w.db, w.calls[tid], a, answer, mint, n)
    decreases n
  {
    if n > 0 {
      var steps := Advances(tid, a, answer, mint, n);
      assert steps[0] == Advance(tid, a, answer, mint);
      assert steps[1..] == Advances(tid, a, answer, mint, n - 1);
      AloneIsARun(Do(w, steps[0]), tid, a, answer, mint, n - 1);
    }
  }

  lemma {:induction false} NobodyAdvances(w: World, tid: nat, a: Account, answer: GatewayAnswer, mint: Id, n: nat)
    requires tid !in w.calls
    ensures Run(w, Advances(tid, a, answer, mint, n)) == w
    decreases n
  {
    if n > 0 {
      assert Advances(tid, a, answer, mint, n)[1..] == Advances(tid, a, answer, mint, n - 1);
      NobodyAdvances(w, tid, a, answer, mint, n - 1);
    }
  }

  // ------------------------------------------------- when it cannot finish

  /** No finalizing transaction can succeed for this decision. */
  ghost predicate Hopeless(db: Db, t: Task, a: Account) {
    && t.Resolve? && t.key in db.ops && db.ops[t.key].status != Done
    && (!PenaltyGoesThrough(t, a)
          || (Cancels(t.outcome) && (db.booking.status == Completed || db.booking.status == Declined)))
  }

  ghost predicate Unfinished(db: Db, t: Task) { t.Resolve? && t.key in db.ops && db.ops[t.key].status != Done }

  lemma HopelessFinalize(db: Db, t: Task, a: Account)
    requires Hopeless(db, t, a) && OpShape(t.key, db.ops[t.key])
    requires db.ops[t.key].outcome == t.outcome && db.ops[t.key].penalty == t.penalty
    ensures Finalize(db, t.key, t.outcome, t.penalty, a).None?
  {
    assert !CancelSettled(db.booking) || !PenaltyGoesThrough(t, a);
    match t.key {
      case ReportCase(id) => assert FinalizeReport(db, id, t.outcome, t.penalty, a).None?;
      case CompletionCase(id) => assert FinalizeCompletion(db, id, t.outcome).None?;
      case CancellationCase(id) =>
      case AdminCase => assert FinalizeAdmin(db, t.outcome).None?;
    }
  }

  lemma DeclinedStays(db: Db, c: Call, a: Account, answer: GatewayAnswer, mint: Id)
    requires MoneyGood(db.booking, db.queue, db.released) && c.task.Resolve? && c.pc != AtFinalize
               && db.booking.status == Declined
    ensures AdvanceCall(db, c, a, answer, mint).0.booking.status == Declined
  {
    match c.pc {
      case AtReserve => assert Reserve(db, c.task.key).Some? ==> Reserve(db, c.task.key).value.booking == db.booking;
      case AtSettle => assert Settle(db, true).None?;
      case AtRefundFinalize(resumed, id, status) => assert RefundFinalize(db, resumed, id, status).None?;
      case AtCancelClose(held) => assert CancelClose(db, held, false).None?;
      case _ =>
    }
  }

  lemma NotDoneYet(db: Db, c: Call, a: Account, answer: GatewayAnswer, mint: Id)
    requires c.task.Resolve? && c.task.key in db.ops && db.ops[c.task.key].status != Done && c.pc != AtFinalize
    ensures var d := AdvanceCall(db, c, a, answer, mint).0;
            c.task.key in d.ops && d.ops[c.task.key].status != Done
  {
  }

  lemma StaysHopeless(db: Db, c: Call, a: Account, answer: GatewayAnswer, mint: Id)
    requires Good(db) && Fits(db, c) && Hopeless(db, c.task, a)
    ensures var p := AdvanceCall(db, c, a, answer, mint);
            BookingEvolves(db.booking, p.0.booking) ==> Hopeless(p.0, c.task, a)
  {
    if c.pc == AtFinalize {
      assert OpShape(c.task.key, db.ops[c.task.key]);
      HopelessFinalize(db, c.task, a);
    } else {
      NotDoneYet(db, c, a, answer, mint);
      if db.booking.status == Declined {
        DeclinedStays(db, c, a, answer, mint);
      }
    }
  }

  lemma SameTask(db: Db, c: Call, a: Account, answer: GatewayAnswer, mint: Id)
    ensures AdvanceCall(db, c, a, answer, mint).1.task == c.task
  {
  }

  lemma HopelessStep(db: Db, c: Call, a: Account, answer: GatewayAnswer, mint: Id) returns (d: Db, next: Call)
    requires Good(db) && Fits(db, c) && Hopeless(db, c.task, a)
    ensures AdvanceCall(db, c, a, answer, mint) == (d, next)
    ensures Good(d) && Fits(d, next) && next.task == c.task && Hopeless(d, next.task, a)
  {
    var p := AdvanceCall(db, c, a, answer, mint);
    d, next := p.0, p.1;
    AdvanceKeeps(db, c, a, answer, mint);
    StaysHopeless(db, c, a, answer, mint);
    SameTask(db, c, a, answer, mint);
  }

  /** However many steps the call takes, its decision is unfinished at the end. */
  ghost predicate StaysUnfinished(db: Db, c: Call, a: Account, answer: GatewayAnswer, mint: Id, n: nat) {
    forall end | EndsIn(db, c, a, answer, mint, n, end) :: Unfinished(end, c.task)
  }

  lemma UnfinishedThen(db: Db, c: Call, d: Db, next: Call, a: Account, answer: GatewayAnswer, mint: Id, n: nat)
    requires n >= 1 && AdvanceCall(db, c, a, answer, mint) == (d, next) && next.task == c.task
    requires StaysUnfinished(d, next, a, answer, mint, n - 1)
    ensures StaysUnfinished(db, c, a, answer, mint, n)
  {
    OneStep(db, c, d, next, a, answer, mint, n);
    assert EndsIn(d, next, a, answer, mint, n - 1, Alone(db, c, a, answer, mint, n));
  }

  /** What every step of a lone call keeps holds along its whole run. */
  lemma {:induction false} KeptUnfinished(db: Db, c: Call, a: Account, answer: GatewayAnswer, mint: Id, n: nat,
      kept: (Db, Call) -> bool)
    requires forall d, e | kept(d, e) :: Unfinished(d, e.task)
    requires forall d, e | kept(d, e) ::
               var p := AdvanceCall(d, e, a, answer, mint);
               p.1.task == e.task && kept(p.0, p.1)
    requires kept(db, c)
    ensures StaysUnfinished(db, c, a, answer, mint, n)
    decreases n
  {
    if n > 0 {
      var p := AdvanceCall(db, c, a, answer, mint);
      KeptUnfinished(p.0, p.1, a, answer, mint, n - 1, kept);
      UnfinishedThen(db, c, p.0, p.1, a, answer, mint, n);
    }
  }

  lemma NeverFinishes(db: Db, c: Call, a: Account, answer: GatewayAnswer, mint: Id, n: nat)
    requires Good(db) && Fits(db, c) && Hopeless(db, c.task, a)
    ensures StaysUnfinished(db, c, a, answer, mint, n)
  {
    ghost var kept := (d: Db, e: Call) => Good(d) && Fits(d, e) && Hopeless(d, e.task, a);
    forall d, e | kept(d, e)
      ensures var p := AdvanceCall(d, e, a, answer, mint);
              p.1.task == e.task && kept(p.0, p.1)
    {
      var _, _ := HopelessStep(d, e, a, answer, mint);
    }
    KeptUnfinished(db, c, a, answer, mint, n, kept);
  }

  lemma EndsUnfinished(db: Db, c: Call, a: Account, answer: GatewayAnswer, mint: Id, n: nat)
    requires StaysUnfinished(db, c, a, answer, mint, n)
    ensures Unfinished(Alone(db, c, a, answer, mint, n), c.task)
  {
    assert EndsIn(db, c, a, answer, mint, n, Alone(db, c, a, answer, mint, n));
  }

  lemma ReclaimKeeps(db: Db, key: CaseKey, a: Account, banned: bool, requireBanned: bool)
    requires Good(db) && key in db.ops
    ensures Keeps(db, Reclaim(db, key, a, banned, requireBanned))
  {
    var op := db.ops[key];
    match key {
      case ReportCase(id) => ClaimReportKeeps(db, id, op.outcome, op.penalty, a);
      case CompletionCase(id) => ClaimCompletionKeeps(db, id, op.outcome);
      case CancellationCase(id) =>
        ClaimByParticipantKeeps(db, id);
        ClaimByAdminKeeps(db, id, op.outcome == AdminApprove, NamedParty(op.penalty));
      case AdminCase => ClaimAdminKeeps(db, op.outcome, banned, requireBanned);
    }
  }

  /** A refused claim changes nothing; an accepted one leaves a decision that cannot finish unfinished. */
  lemma HopelessReclaim(db: Db, key: CaseKey, a: Account, banned: bool, requireBanned: bool)
    requires Good(db) && key in db.ops && db.ops[key].HoldsMoney() && Cancels(db.ops[key].outcome)
               && !CanFinish(db, key, a)
    ensures var r := Reclaim(db, key, a, banned, requireBanned);
            r.Some? ==> Hopeless(r.value, RetryOf(db, key), a)
  {
    HeldFacts(db, key);
    ReclaimKeeps(db, key, a, banned, requireBanned);
    match key {
      case ReportCase(id) => RetriedReport(db, id, a);
      case CompletionCase(id) =>
      case CancellationCase(id) =>
        var op := db.ops[key];
        if op.outcome == ParticipantApprove {
          if RequestClaimable(db.cancellations[id], true) { RetryParticipantShape(db, id); }
        } else if RequestClaimable(db.cancellations[id], false) {
          RowFacts(db);
          RetryAdminCancellationShape(db, id, NamedParty(op.penalty));
        }
      case AdminCase =>
    }
  }

  /** Retrying a reserved cancelling decision in a fresh call that nobody disturbs, with a
      gateway that accepts, cancels the booking and finishes the decision with exactly one
      closure, if and only if CanFinish held when the retry began. */
  lemma RetryOutcome(w: World, key: CaseKey, tid: nat, a: Account, answer: GatewayAnswer, mint: Id, banned: bool,
      requireBanned: bool, n: nat)
    requires n >= 9 && WorldGood(w) && answer.Accepts? && tid !in w.calls
    requires key in w.db.ops && w.db.ops[key].HoldsMoney() && Cancels(w.db.ops[key].outcome)
    ensures var d :=
              Run(Do(w, RetryCall(w.db, key, tid, a, banned, requireBanned)), Advances(tid, a, answer, mint, n)).db;
            CarriedOut(w.db, d, RetryOf(w.db, key), a) <==> CanFinish(w.db, key, a)
  {
    var t := RetryOf(w.db, key);
    var r := Reclaim(w.db, key, a, banned, requireBanned);
    var w' := Do(w, RetryCall(w.db, key, tid, a, banned, requireBanned));
    SpawnsReclaim(w, key, tid, a, banned, requireBanned);
    if CanFinish(w.db, key, a) {
      Reclaimed(w.db, key, a, banned, requireBanned);
      FromStart(r.value, t, a, answer, mint, n);
      AloneIsARun(w', tid, a, answer, mint, n);
    } else {
      HopelessReclaim(w.db, key, a, banned, requireBanned);
      if r.Some? {
        StepKeeps(w, RetryCall(w.db, key, tid, a, banned, requireBanned));
        NeverFinishes(r.value, w'.calls[tid], a, answer, mint, n);
        EndsUnfinished(r.value, w'.calls[tid], a, answer, mint, n);
        AloneIsARun(w', tid, a, answer, mint, n);
      } else {
        NobodyAdvances(w', tid, a, answer, mint, n);
      }
    }
  }

  lemma SpawnsReclaim(w: World, key: CaseKey, tid: nat, a: Account, banned: bool, requireBanned: bool)
    requires key in w.db.ops
    ensures Do(w, RetryCall(w.db, key, tid, a, banned, requireBanned))
              == Spawn(w, tid, Reclaim(w.db, key, a, banned, requireBanned), key)
  {
  }

  /** A retried report decision, alone from its claim on. */
  lemma RetriedReportFinishes(db: Db, id: Id, a: Account, answer: GatewayAnswer, mint: Id, n: nat)
    requires Good(db) && ReportCase(id) in db.ops && db.ops[ReportCase(id)].HoldsMoney()
               && Cancels(db.ops[ReportCase(id)].outcome)
    requires n >= 9 && answer.Accepts? && PenaltyGoesThrough(RetryOf(db, ReportCase(id)), a)
    ensures var t := RetryOf(db, ReportCase(id));
            var r := ClaimReport(db, id, t.outcome, t.penalty, a);
            && r.Some? && ReportCase(id) in r.value.ops
            && CarriedOut(db, Alone(r.value, Call(t, StartOf(t.key, r.value.ops[t.key])), a, answer, mint, n), t, a)
  {
    RetriedReport(db, id, a);
    var t := RetryOf(db, ReportCase(id));
    FromStart(ClaimReport(db, id, t.outcome, t.penalty, a).value, t, a, answer, mint, n);
  }
}
