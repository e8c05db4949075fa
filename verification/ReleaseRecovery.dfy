/** Crash recovery for every reserved decision: a release to the provider, too, is
    finished by one undisturbed retry. */
module ReleaseRecovery {
  import opened BookingRows
  import opened Transactions
  import opened Interleaving
  import opened ResolutionInvariant
  import opened DecisionSteps
  import opened ClaimSteps
  import opened ResolutionSafety
  import opened ResolutionRuns
  import opened CrashRecovery
  import opened RetryFinishes
  import opened ReleaseInvariant
  import opened ReleaseSteps

  /** The settlement of a release goes through, or has gone through already. */
  ghost predicate Settles(db: Db) { db.booking.status == Completed || Settle(db, true).Some? }

  /** A release decision that can be carried to its end. */
  ghost predicate ReadyToRelease(db: Db, t: Task) {
    && Good(db) && t.Resolve? && t.outcome == ReleaseAndComplete
    && t.key in db.ops && db.ops[t.key].HoldsMoney()
    && db.ops[t.key].outcome == t.outcome && db.ops[t.key].penalty == t.penalty
    && OwnCaseUnderReview(db, t.key) && Settles(db) && (t.key.AdminCase? ==> db.booking.online)
  }

  // -------------------------------------------- why settlement goes through

  /** While a release holds the money no refund is in progress. */
  lemma NoRefundUnderRelease(db: Db, key: CaseKey)
    requires Good(db) && Releasing(db) && key in db.ops && db.ops[key].HoldsMoney()
               && db.ops[key].outcome == ReleaseAndComplete
    requires !db.booking.Terminal()
    ensures !db.RefundInProgress()
  {
    assert OpShape(key, db.ops[key]) && OpOnCancellations(key, db.ops[key], db.cancellations);
    NoImmediate(db);
  }

  lemma ReportReleaseSettles(db: Db, id: Id)
    requires Good(db) && Releasing(db) && ReportCase(id) in db.ops
    requires db.ops[ReportCase(id)].HoldsMoney() && db.ops[ReportCase(id)].outcome == ReleaseAndComplete
    ensures id in db.reports && db.reports[id].kind == CompletionDispute && db.reports[id].Active() && Settles(db)
    ensures db.booking.status != Completed ==> db.booking.before == Some(AwaitingConfirmation)
  {
    var key := ReportCase(id);
    assert OpOnReports(key, db.ops[key], db.reports, db.cancellations);
    assert OpenDisputeIn(db.reports, id);
    if db.booking.status != Completed {
      NoRefundUnderRelease(db, key);
    }
  }

  lemma DirectReleaseSettles(db: Db, key: CaseKey)
    requires Good(db) && Releasing(db) && DirectKey(key) && key in db.ops
    requires db.ops[key].HoldsMoney() && db.ops[key].outcome == ReleaseAndComplete
    ensures Settles(db) && (key.AdminCase? ==> db.booking.online)
    ensures db.booking.status != Completed ==>
              db.booking.status == UnderReview && db.booking.before == Some(AwaitingConfirmation)
  {
    assert OpShape(key, db.ops[key]) && OpOnBooking(key, db.ops[key], db.booking);
    if db.booking.status != Completed {
      NoRefundUnderRelease(db, key);
    }
  }

  // ------------------------------------------------------- the retried claim

  /** Beginning a held release again keeps it held, and adopts a committed settlement. */
  lemma AdoptHeldRelease(db: Db, key: CaseKey) returns (op: Operation)
    requires key in db.ops && db.ops[key].HoldsMoney() && db.ops[key].outcome == ReleaseAndComplete
    ensures Adopt(db, key, ReleaseAndComplete, db.ops[key].penalty) == Some(db.(ops := db.ops[key := op]))
    ensures op.outcome == ReleaseAndComplete && op.penalty == db.ops[key].penalty && op.HoldsMoney()
    ensures op.stage == Reserved ==> !(CompletedFully(db.booking) && db.released)
  {
    var begun := db.ops[key].(status := Processing);
    var d := db.(ops := db.ops[key := begun]);
    assert BeginResolution(db, key, ReleaseAndComplete, begun.penalty) == Some(d);
    op := begun;
    if Reconcile(d, key, ReleaseAndComplete) != Some(d) {
      op := begun.(stage := Established);
      assert d.ops[key := op] == db.ops[key := op];
    }
  }

  lemma ReportReleaseShape(db: Db, id: Id, a: Account) returns (op: Operation)
    requires ReportCase(id) in db.ops && db.ops[ReportCase(id)].HoldsMoney()
               && db.ops[ReportCase(id)].outcome == ReleaseAndComplete
    requires id in db.reports && db.reports[id].Active() && db.reports[id].kind == CompletionDispute
    requires !OtherBlockingCase(db, Some(id), None, None)
    requires (CompletedFully(db.booking) && db.released) || db.booking.before == Some(AwaitingConfirmation)
    ensures op.outcome == ReleaseAndComplete && op.penalty == db.ops[ReportCase(id)].penalty && op.HoldsMoney()
    ensures op.stage == Reserved ==> !(CompletedFully(db.booking) && db.released)
    ensures ClaimReport(db, id, ReleaseAndComplete, op.penalty, a)
              == Some(db.(ops := db.ops[ReportCase(id) := op],
                  reports := db.reports[id := db.reports[id].(status := RpUnderReview)]))
  {
    op := AdoptHeldRelease(db, ReportCase(id));
  }

  lemma CompletionReleaseShape(db: Db, id: Id) returns (op: Operation)
    requires CompletionCase(id) in db.ops && db.ops[CompletionCase(id)].HoldsMoney()
    requires db.ops[CompletionCase(id)].outcome == ReleaseAndComplete && db.ops[CompletionCase(id)].penalty == NoPenalty
    requires id in db.escalations && OpenEscalation(db.escalations[id])
    requires (CompletedFully(db.booking) && db.released)
               || (db.booking.status == UnderReview && db.booking.before == Some(AwaitingConfirmation))
    ensures op.outcome == ReleaseAndComplete && op.penalty == NoPenalty && op.HoldsMoney()
    ensures op.stage == Reserved ==> !(CompletedFully(db.booking) && db.released)
    ensures ClaimCompletion(db, id, ReleaseAndComplete)
              == Some(db.(ops := db.ops[CompletionCase(id) := op], escalations := db.escalations[id := EUnderReview]))
  {
    op := AdoptHeldRelease(db, CompletionCase(id));
  }

  lemma AdminReleaseShape(db: Db, banned: bool, requireBanned: bool) returns (op: Operation)
    requires AdminCase in db.ops && db.ops[AdminCase].HoldsMoney()
    requires db.ops[AdminCase].outcome == ReleaseAndComplete && db.ops[AdminCase].penalty == NoPenalty
    requires (CompletedFully(db.booking) && db.released)
               || (db.booking.status == UnderReview && db.booking.before.Some?)
    ensures op.outcome == ReleaseAndComplete && op.penalty == NoPenalty && op.HoldsMoney()
    ensures op.stage == Reserved ==> !(CompletedFully(db.booking) && db.released)
    ensures ClaimAdmin(db, ReleaseAndComplete, banned, requireBanned) == Some(db.(ops := db.ops[AdminCase := op]))
  {
    op := AdoptHeldRelease(db, AdminCase);
  }

  /** What the invariant says about a held release. */
  lemma HeldReleaseFacts(db: Db, key: CaseKey)
    requires Good(db) && key in db.ops && db.ops[key].HoldsMoney() && db.ops[key].outcome == ReleaseAndComplete
    ensures db.booking.status == Completed <==> CompletedFully(db.booking) && db.released
    ensures !key.CancellationCase?
    ensures key.ReportCase? ==> !OtherBlockingCase(db, Some(key.id), None, None)
    ensures !key.ReportCase? ==> db.ops[key].penalty == NoPenalty
    ensures key.CompletionCase? ==> key.id in db.escalations && db.escalations[key.id] == EUnderReview
  {
    var op := db.ops[key];
    assert OpShape(key, op) && OpOnReports(key, op, db.reports, db.cancellations);
    assert OpOnCancellations(key, op, db.cancellations) && OpOnEscalations(key, op, db.escalations);
  }

  /** What the claim of a retried release leaves. */
  ghost predicate ReleaseReclaimed(db: Db, key: CaseKey, r: Option<Db>)
    requires key in db.ops
  {
    && r.Some? && ReadyToRelease(r.value, RetryOf(db, key)) && r.value.closures == db.closures
    && (r.value.ops[key].stage == Reserved ==> r.value.booking.status != Completed)
    && (r.value.ops[key].stage == Established ==> r.value.booking.status == Completed)
  }

  lemma ReclaimedFits(db: Db, key: CaseKey, d: Db)
    requires Good(d) && Settles(db) && d.booking == db.booking && d.queue == db.queue && d.refund == db.refund
               && d.released == db.released
    requires d.closures == db.closures && key in db.ops && key in d.ops && db.ops[key].outcome == ReleaseAndComplete
    requires d.ops[key].HoldsMoney() && d.ops[key].outcome == ReleaseAndComplete
               && d.ops[key].penalty == db.ops[key].penalty
    requires OwnCaseUnderReview(d, key) && (key.AdminCase? ==> db.booking.online)
    requires d.ops[key].stage == Reserved ==> db.booking.status != Completed
    ensures ReleaseReclaimed(db, key, Some(d))
  {
    assert OpOnBooking(key, d.ops[key], d.booking);
  }

  lemma RetriedReportRelease(db: Db, id: Id, a: Account)
    requires Good(db) && Releasing(db) && ReportCase(id) in db.ops
    requires db.ops[ReportCase(id)].HoldsMoney() && db.ops[ReportCase(id)].outcome == ReleaseAndComplete
    ensures ReleaseReclaimed(db, ReportCase(id),
              ClaimReport(db, id, ReleaseAndComplete, db.ops[ReportCase(id)].penalty, a))
  {
    HeldReleaseFacts(db, ReportCase(id));
    ReportReleaseSettles(db, id);
    var op := ReportReleaseShape(db, id, a);
    ClaimReportKeeps(db, id, ReleaseAndComplete, op.penalty, a);
    ReclaimedFits(db, ReportCase(id), ClaimReport(db, id, ReleaseAndComplete, op.penalty, a).value);
  }

  lemma RetriedCompletionRelease(db: Db, id: Id)
    requires Good(db) && Releasing(db) && CompletionCase(id) in db.ops
    requires db.ops[CompletionCase(id)].HoldsMoney() && db.ops[CompletionCase(id)].outcome == ReleaseAndComplete
    ensures ReleaseReclaimed(db, CompletionCase(id), ClaimCompletion(db, id, ReleaseAndComplete))
  {
    HeldReleaseFacts(db, CompletionCase(id));
    DirectReleaseSettles(db, CompletionCase(id));
    var op := CompletionReleaseShape(db, id);
    ClaimCompletionKeeps(db, id, ReleaseAndComplete);
    ReclaimedFits(db, CompletionCase(id), ClaimCompletion(db, id, ReleaseAndComplete).value);
  }

  lemma RetriedAdminRelease(db: Db, banned: bool, requireBanned: bool)
    requires Good(db) && Releasing(db) && AdminCase in db.ops
    requires db.ops[AdminCase].HoldsMoney() && db.ops[AdminCase].outcome == ReleaseAndComplete
    ensures ReleaseReclaimed(db, AdminCase, ClaimAdmin(db, ReleaseAndComplete, banned, requireBanned))
  {
    HeldReleaseFacts(db, AdminCase);
    DirectReleaseSettles(db, AdminCase);
    var op := AdminReleaseShape(db, banned, requireBanned);
    ClaimAdminKeeps(db, ReleaseAndComplete, banned, requireBanned);
    ReclaimedFits(db, AdminCase, ClaimAdmin(db, ReleaseAndComplete, banned, requireBanned).value);
  }

  lemma ReleaseReclaim(db: Db, key: CaseKey, a: Account, banned: bool, requireBanned: bool)
    requires Good(db) && Releasing(db) && key in db.ops && db.ops[key].HoldsMoney()
               && db.ops[key].outcome == ReleaseAndComplete
    ensures ReleaseReclaimed(db, key, Reclaim(db, key, a, banned, requireBanned))
  {
    HeldReleaseFacts(db, key);
    match key {
      case ReportCase(id) => RetriedReportRelease(db, id, a);
      case CompletionCase(id) => RetriedCompletionRelease(db, id);
      case AdminCase => RetriedAdminRelease(db, banned, requireBanned);
      case CancellationCase(id) => assert false;
    }
  }

  // ------------------------------------------------------------ the solo run

  /** Ready to release, as one fact that proofs hand on whole. */
  ghost predicate Primed(db: Db, t: Task) { forall x | Is(x, db) :: ReadyToRelease(x, t) }

  lemma PrimedMeans(db: Db, t: Task)
    ensures Primed(db, t) <==> ReadyToRelease(db, t)
  {
    assert Is(db, db);
  }

  /** With the booking completed, the finalizing transaction goes through. */
  lemma ReleaseFinalizes(db: Db, t: Task, a: Account)
    requires ReadyToRelease(db, t) && db.booking.status == Completed && PenaltyGoesThrough(t, a)
    ensures Finalize(db, t.key, t.outcome, t.penalty, a).Some?
    ensures CarriedOut(db, Finalize(db, t.key, t.outcome, t.penalty, a).value, t, a)
  {
    HeldReleaseFacts(db, t.key);
    if t.key.ReportCase? {
      assert FinalizeReport(db, t.key.id, t.outcome, t.penalty, a)
          == Some(CloseReport(db, t.key.id, RpResolved, AppliedPenalty(t.penalty, a)));
    }
  }

  lemma FromReleaseFinalize(db: Db, t: Task, a: Account, answer: GatewayAnswer, mint: Id, n: nat)
    requires Primed(db, t) && db.booking.status == Completed && PenaltyGoesThrough(t, a) && n >= 1
    ensures Finishes(db, Call(t, AtFinalize), a, answer, mint, n)
  {
    PrimedMeans(db, t);
    ReleaseFinalizes(db, t, a);
    ClosesThenStops(db, t, a, answer, mint, n);
  }

  lemma FromReleaseReady(db: Db, t: Task, a: Account, answer: GatewayAnswer, mint: Id, n: nat)
    requires Primed(db, t) && db.booking.status == Completed && PenaltyGoesThrough(t, a) && n >= 2
    ensures Finishes(db, Call(t, AtMarkReady), a, answer, mint, n)
  {
    FromReleaseFinalize(db, t, a, answer, mint, n - 1);
    PrimedMeans(db, t);
    ReadyMarkIsIdle(db, t, a, answer, mint);
    StepThen(db, Call(t, AtMarkReady), db, Call(t, AtFinalize), a, answer, mint, n);
  }

  lemma ReleaseEstablishes(db: Db, t: Task) returns (d: Db)
    requires ReadyToRelease(db, t) && db.booking.status == Completed && Primed(db, t)
    ensures MarkStage(db, t.key, Established) == Some(d)
    ensures Primed(d, t) && d.booking == db.booking && d.closures == db.closures
  {
    d := db.(ops := db.ops[t.key := db.ops[t.key].(stage := Established, status := Processing)]);
    assert MarkStage(db, t.key, Established) == Some(d);
    MarkStageKeeps(db, t.key, Established);
    StaysPrimed(db, d, t);
  }

  /** Rewriting the decision's own record keeps it ready. */
  lemma StaysPrimed(db: Db, d: Db, t: Task)
    requires Primed(db, t) && t.Resolve? && t.key in d.ops && d == db.(ops := db.ops[t.key := d.ops[t.key]]) && Good(d)
    requires d.ops[t.key].HoldsMoney() && d.ops[t.key].outcome == t.outcome && d.ops[t.key].penalty == t.penalty
    ensures Primed(d, t)
  {
    PrimedMeans(db, t);
  }

  lemma FromReleaseMark(db: Db, d: Db, t: Task, a: Account, answer: GatewayAnswer, mint: Id, n: nat)
    requires Primed(d, t) && t.Resolve? && MarkStage(db, t.key, Established) == Some(d) && d.closures == db.closures
    requires d.booking.status == Completed && PenaltyGoesThrough(t, a) && n >= 2
    ensures Finishes(db, Call(t, AtMarkEstablished), a, answer, mint, n)
  {
    FromReleaseFinalize(d, t, a, answer, mint, n - 1);
    MarkThen(db, d, t, a, answer, mint, n);
  }

  lemma MarkThen(db: Db, d: Db, t: Task, a: Account, answer: GatewayAnswer, mint: Id, n: nat)
    requires t.Resolve? && n >= 1 && MarkStage(db, t.key, Established) == Some(d) && d.closures == db.closures
    requires Finishes(d, Call(t, AtFinalize), a, answer, mint, n - 1)
    ensures Finishes(db, Call(t, AtMarkEstablished), a, answer, mint, n)
  {
    StepThen(db, Call(t, AtMarkEstablished), d, Call(t, AtFinalize), a, answer, mint, n);
  }

  lemma FromSettled(db: Db, t: Task, a: Account, answer: GatewayAnswer, mint: Id, n: nat)
    requires Primed(db, t) && db.booking.status == Completed && PenaltyGoesThrough(t, a) && n >= 2
    ensures Finishes(db, Call(t, AtMarkEstablished), a, answer, mint, n)
  {
    PrimedMeans(db, t);
    var d := ReleaseEstablishes(db, t);
    FromReleaseMark(db, d, t, a, answer, mint, n);
  }

  lemma ReleaseSettlesNow(db: Db, t: Task) returns (d: Db)
    requires ReadyToRelease(db, t) && db.booking.status != Completed
    ensures Settle(db, true) == Some(d)
    ensures Primed(d, t) && d.booking.status == Completed && d.closures == db.closures
  {
    assert OpShape(t.key, db.ops[t.key]);
    AdminSettleKeeps(db, t.key);
    d := Settle(db, true).value;
    PrimedMeans(d, t);
  }

  lemma SettleThen(db: Db, d: Db, t: Task, a: Account, answer: GatewayAnswer, mint: Id, n: nat)
    requires Primed(d, t) && Settle(db, true) == Some(d) && d.closures == db.closures
    requires d.booking.status == Completed && PenaltyGoesThrough(t, a) && n >= 3
    ensures Finishes(db, Call(t, AtSettle), a, answer, mint, n)
  {
    FromSettled(d, t, a, answer, mint, n - 1);
    StepThen(db, Call(t, AtSettle), d, Call(t, AtMarkEstablished), a, answer, mint, n);
  }

  lemma FromSettle(db: Db, t: Task, a: Account, answer: GatewayAnswer, mint: Id, n: nat)
    requires Primed(db, t) && db.booking.status != Completed && PenaltyGoesThrough(t, a) && n >= 3
    ensures Finishes(db, Call(t, AtSettle), a, answer, mint, n)
  {
    PrimedMeans(db, t);
    var d := ReleaseSettlesNow(db, t);
    SettleThen(db, d, t, a, answer, mint, n);
  }

  lemma ReleaseReserves(db: Db, t: Task) returns (d: Db)
    requires ReadyToRelease(db, t) && Primed(db, t) && db.booking.status != Completed && !t.key.AdminCase?
               && db.ops[t.key].stage == Reserved
    ensures Reserve(db, t.key) == Some(d) && Primed(d, t) && d.booking == db.booking && d.closures == db.closures
  {
    var op := db.ops[t.key];
    assert OpShape(t.key, op) && OpOnBooking(t.key, op, db.booking);
    assert OpOnReports(t.key, op, db.reports, db.cancellations) && OpOnCancellations(t.key, op, db.cancellations);
    assert OpOnEscalations(t.key, op, db.escalations);
    d := db.(ops := db.ops[t.key := op.(status := Processing)]);
    assert Reserve(db, t.key) == Some(d);
    ReserveKeeps(db, t.key);
    StaysPrimed(db, d, t);
  }

  lemma FromReleaseReserve(db: Db, d: Db, t: Task, a: Account, answer: GatewayAnswer, mint: Id, n: nat)
    requires Primed(d, t) && t.Resolve? && !Cancels(t.outcome) && Reserve(db, t.key) == Some(d)
               && d.booking.status != Completed && d.closures == db.closures
    requires PenaltyGoesThrough(t, a) && n >= 4
    ensures Finishes(db, Call(t, AtReserve), a, answer, mint, n)
  {
    FromSettle(d, t, a, answer, mint, n - 1);
    ReserveThen(db, d, t, a, answer, mint, n);
  }

  lemma ReserveThen(db: Db, d: Db, t: Task, a: Account, answer: GatewayAnswer, mint: Id, n: nat)
    requires t.Resolve? && !Cancels(t.outcome) && n >= 1 && Reserve(db, t.key) == Some(d) && d.closures == db.closures
    requires Finishes(d, Call(t, AtSettle), a, answer, mint, n - 1)
    ensures Finishes(db, Call(t, AtReserve), a, answer, mint, n)
  {
    StepThen(db, Call(t, AtReserve), d, Call(t, AtSettle), a, answer, mint, n);
  }

  lemma ReleaseFinishes(db: Db, t: Task, a: Account, answer: GatewayAnswer, mint: Id, n: nat)
    requires n >= 4 && ReadyToRelease(db, t) && PenaltyGoesThrough(t, a)
    requires db.ops[t.key].stage == Reserved ==> db.booking.status != Completed
    requires db.ops[t.key].stage == Established ==> db.booking.status == Completed
    ensures Finishes(db, Call(t, StartOf(t.key, db.ops[t.key])), a, answer, mint, n)
  {
    PrimedMeans(db, t);
    HeldReleaseFacts(db, t.key);
    match StartOf(t.key, db.ops[t.key]) {
      case AtReserve =>
        var d := ReleaseReserves(db, t);
        FromReleaseReserve(db, d, t, a, answer, mint, n);
      case AtSettle => FromSettle(db, t, a, answer, mint, n);
      case AtMarkReady => FromReleaseReady(db, t, a, answer, mint, n);
      case _ => FromReleaseFinalize(db, t, a, answer, mint, n);
    }
  }

  lemma FromReleaseStart(db: Db, t: Task, a: Account, answer: GatewayAnswer, mint: Id, n: nat)
    requires n >= 4 && ReadyToRelease(db, t) && PenaltyGoesThrough(t, a)
    requires db.ops[t.key].stage == Reserved ==> db.booking.status != Completed
    requires db.ops[t.key].stage == Established ==> db.booking.status == Completed
    ensures CarriedOut(db, Alone(db, Call(t, StartOf(t.key, db.ops[t.key])), a, answer, mint, n), t, a)
  {
    ReleaseFinishes(db, t, a, answer, mint, n);
    var c := Call(t, StartOf(t.key, db.ops[t.key]));
    assert EndsIn(db, c, a, answer, mint, n, Alone(db, c, a, answer, mint, n));
  }

  /** A refused penalty leaves the retried release unfinished. */
  lemma HopelessRelease(db: Db, key: CaseKey, a: Account, banned: bool, requireBanned: bool)
    requires Good(db) && Releasing(db) && key in db.ops && db.ops[key].HoldsMoney()
               && db.ops[key].outcome == ReleaseAndComplete
    requires !PenaltyGoesThrough(RetryOf(db, key), a)
    ensures Reclaim(db, key, a, banned, requireBanned).Some?
              && Hopeless(Reclaim(db, key, a, banned, requireBanned).value, RetryOf(db, key), a)
  {
    ReleaseReclaim(db, key, a, banned, requireBanned);
  }

  lemma ReleaseRetryOutcome(w: World, key: CaseKey, tid: nat, a: Account, answer: GatewayAnswer, mint: Id, banned: bool,
      requireBanned: bool, n: nat)
    requires n >= 9 && WorldGood(w) && Releasing(w.db) && tid !in w.calls
    requires key in w.db.ops && w.db.ops[key].HoldsMoney() && w.db.ops[key].outcome == ReleaseAndComplete
    ensures var d :=
              Run(Do(w, RetryCall(w.db, key, tid, a, banned, requireBanned)), Advances(tid, a, answer, mint, n)).db;
            CarriedOut(w.db, d, RetryOf(w.db, key), a) <==> CanFinish(w.db, key, a)
  {
    var t := RetryOf(w.db, key);
    var r := Reclaim(w.db, key, a, banned, requireBanned);
    var w' := Do(w, RetryCall(w.db, key, tid, a, banned, requireBanned));
    HeldReleaseFacts(w.db, key);
    SpawnsReclaim(w, key, tid, a, banned, requireBanned);
    ReleaseReclaim(w.db, key, a, banned, requireBanned);
    AloneIsARun(w', tid, a, answer, mint, n);
    if PenaltyGoesThrough(t, a) {
      FromReleaseStart(r.value, t, a, answer, mint, n);
    } else {
      HopelessRelease(w.db, key, a, banned, requireBanned);
      StepKeeps(w, RetryCall(w.db, key, tid, a, banned, requireBanned));
      NeverFinishes(r.value, w'.calls[tid], a, answer, mint, n);
      EndsUnfinished(r.value, w'.calls[tid], a, answer, mint, n);
    }
  }

  // ------------------------------------------------------------- main result

  /** Crash recovery. Take any reachable state in which a decision of any kind, to cancel or
      to release, has reserved the money and is unfinished, whatever its callers did and
      wherever they crashed. Retrying it in a fresh call that nobody disturbs, with a gateway
      that accepts, brings the booking to the decided state and finishes the decision with
      exactly one closure, if and only if CanFinish held when the retry began. */
  lemma RetryFinishesExactlyWhenItCan(db: Db, steps: seq<Step>, key: CaseKey, tid: nat, a: Account,
      answer: GatewayAnswer, mint: Id,
                                      banned: bool, requireBanned: bool, n: nat)
    requires n >= 9 && Fresh(db) && answer.Accepts?
    requires var w := Run(World(db, map[]), steps); tid !in w.calls && key in w.db.ops && w.db.ops[key].HoldsMoney()
    ensures var w := Run(World(db, map[]), steps);
            var retry := [RetryCall(w.db, key, tid, a, banned, requireBanned)] + Advances(tid, a, answer, mint, n);
            CarriedOut(w.db, After(db, steps + retry), RetryOf(w.db, key), a) <==> CanFinish(w.db, key, a)
  {
    var w := Run(World(db, map[]), steps);
    var call := RetryCall(w.db, key, tid, a, banned, requireBanned);
    FreshIsGood(db);
    FreshReleases(db);
    RunReleases(World(db, map[]), steps);
    RunSplits(World(db, map[]), steps, [call] + Advances(tid, a, answer, mint, n));
    assert ([call] + Advances(tid, a, answer, mint, n))[1..] == Advances(tid, a, answer, mint, n);
    assert OpShape(key, w.db.ops[key]);
    if Cancels(w.db.ops[key].outcome) {
      RetryOutcome(w, key, tid, a, answer, mint, banned, requireBanned, n);
    } else {
      ReleaseRetryOutcome(w, key, tid, a, answer, mint, banned, requireBanned, n);
    }
  }
}
