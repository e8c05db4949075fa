/** Exactly when an undisturbed retry finishes a decision that has not reserved the money yet. */
module EarlyRecovery {
  import opened BookingRows
  import opened Transactions
  import opened TransactionShapes
  import opened Interleaving
  import opened ResolutionInvariant
  import opened ResolutionSafety
  import opened ResolutionRuns
  import opened CrashRecovery
  import opened RetryFinishes
  import opened ReleaseInvariant
  import opened ReleaseSteps
  import opened ReleaseRecovery
  import opened CallOutcomes
  import opened ConcreteRuns
  import opened StepEffects

  /** A decision that is on record, unfinished and has reserved nothing. */
  predicate Early(db: Db, key: CaseKey) { key in db.ops && db.ops[key].status != Done && !db.ops[key].HoldsMoney() }

  /** The claim of the retry is accepted: its case is still open to it, and where the claim looks at other
      cases, none is open. */
  predicate ClaimOpen(db: Db, key: CaseKey)
    requires key in db.ops
  {
    var op := db.ops[key];
    match key
    case ReportCase(id) =>
      && ReportDecidable(db, id, op.outcome) && (op.outcome == Dismiss ==> op.penalty == NoPenalty)
      && (Financial(op.outcome) ==> !Blocked(db, key))
    case CompletionCase(id) =>
      && id in db.escalations && db.escalations[id] in {EPending, EUnderReview}
      && db.booking.status == AwaitingConfirmation
    case CancellationCase(id) =>
      && id in db.cancellations && RequestClaimable(db.cancellations[id], op.outcome == ParticipantApprove)
      && (op.outcome == AdminApprove ==> !Blocked(db, key))
    case AdminCase => false
  }

  /** What a caller can look up before retrying. */
  predicate CanStillFinish(db: Db, key: CaseKey, a: Account)
    requires key in db.ops
  {
    && ClaimOpen(db, key) && PenaltyGoesThrough(RetryOf(db, key), a)
    && (Financial(db.ops[key].outcome) ==> !Blocked(db, key))
    && (key.CancellationCase? && Cancels(db.ops[key].outcome) ==>
          db.booking.status != Completed && db.booking.status != Declined)
  }

  // ----------------------------------------------------------- the claim

  function Resumed(db: Db, key: CaseKey): Db
    requires key in db.ops
  {
    db.(ops := db.ops[key := db.ops[key].(status := Processing)])
  }

  /** What an accepted claim leaves: the decision in work and its case under review. */
  function ClaimLeaves(db: Db, key: CaseKey): Db
    requires key in db.ops && ClaimOpen(db, key)
  {
    var d := Resumed(db, key);
    match key
    case ReportCase(id) => d.(reports := db.reports[id := db.reports[id].(status := RpUnderReview)])
    case CompletionCase(id) => d.(escalations := db.escalations[id := EUnderReview])
    case CancellationCase(id) =>
      var c := db.cancellations[id];
      var reviewed := d.(cancellations := db.cancellations[id := c.(status := CUnderReview)]);
      if db.ops[key].outcome == ParticipantApprove || c.report.None? then reviewed
      else reviewed.(reports := ReviewLinkedReport(db.reports, c.report.value, RpUnderReview))
    case AdminCase => d
  }

  lemma EarlyFacts(db: Db, key: CaseKey)
    requires Good(db) && Early(db, key)
    ensures !key.AdminCase? && (db.ops[key].stage == Claimed || db.ops[key].stage == DecisionReady)
    ensures key.ReportCase? ==>
              && key.id in db.reports && db.reports[key.id].Active()
                  && db.reports[key.id].kind != CancellationEscalation
              && db.ops[key].outcome in {Dismiss, ResolveSafety, CancelBooking, ReleaseAndComplete}
    ensures key.CompletionCase? ==>
              && key.id in db.escalations && db.ops[key].penalty == NoPenalty
              && db.ops[key].outcome in {ReleaseAndComplete, RefundSeeker, KeepAwaiting}
    ensures key.CancellationCase? ==>
              && key.id in db.cancellations && db.ops[key].outcome in {ParticipantApprove, AdminApprove, AdminDeny}
              && (db.ops[key].outcome != AdminApprove ==> db.ops[key].penalty == NoPenalty)
              && (db.ops[key].penalty != NoPenalty ==> db.ops[key].penalty.Fault? && db.booking.started)
              && (db.ops[key].outcome != ParticipantApprove ==>
                    && db.cancellations[key.id].report.Some? && db.cancellations[key.id].report.value in db.reports)
  {
    var op := db.ops[key];
    assert OpShape(key, op) && OpOnBooking(key, op, db.booking) && OpOnReports(key, op, db.reports, db.cancellations);
    assert OpOnCancellations(key, op, db.cancellations) && OpOnEscalations(key, op, db.escalations);
  }

  /** Beginning such a decision again only puts it back in work. */
  lemma EarlyAdopt(db: Db, key: CaseKey)
    requires key in db.ops && (db.ops[key].stage == Claimed || db.ops[key].stage == DecisionReady)
    requires db.ops[key].status != Done
    ensures BeginResolution(db, key, db.ops[key].outcome, db.ops[key].penalty) == Some(Resumed(db, key))
    ensures Adopt(db, key, db.ops[key].outcome, db.ops[key].penalty) == Some(Resumed(db, key))
  {
  }

  lemma BlockedAgain(db: Db, key: CaseKey)
    requires key in db.ops
    ensures Blocked(Resumed(db, key), key) == Blocked(db, key)
  {
  }

  lemma EarlyReport(db: Db, id: Id, a: Account)
    requires Early(db, ReportCase(id)) && id in db.reports && db.reports[id].Active()
    requires db.reports[id].kind != CancellationEscalation
    requires db.ops[ReportCase(id)].stage == Claimed || db.ops[ReportCase(id)].stage == DecisionReady
    ensures var op := db.ops[ReportCase(id)];
            ClaimReport(db, id, op.outcome, op.penalty, a)
              == if ClaimOpen(db, ReportCase(id)) then Some(ClaimLeaves(db, ReportCase(id))) else None
  {
    EarlyAdopt(db, ReportCase(id));
    BlockedAgain(db, ReportCase(id));
  }

  lemma EarlyCompletion(db: Db, id: Id)
    requires Early(db, CompletionCase(id)) && id in db.escalations && db.ops[CompletionCase(id)].penalty == NoPenalty
    requires db.ops[CompletionCase(id)].outcome in {ReleaseAndComplete, RefundSeeker, KeepAwaiting}
    requires db.ops[CompletionCase(id)].stage == Claimed || db.ops[CompletionCase(id)].stage == DecisionReady
    ensures ClaimCompletion(db, id, db.ops[CompletionCase(id)].outcome)
              == if ClaimOpen(db, CompletionCase(id)) then Some(ClaimLeaves(db, CompletionCase(id))) else None
  {
    EarlyAdopt(db, CompletionCase(id));
  }

  lemma EarlyParticipant(db: Db, id: Id)
    requires Early(db, CancellationCase(id)) && id in db.cancellations
    requires db.ops[CancellationCase(id)].outcome == ParticipantApprove
               && db.ops[CancellationCase(id)].penalty == NoPenalty
    requires db.ops[CancellationCase(id)].stage == Claimed || db.ops[CancellationCase(id)].stage == DecisionReady
    ensures ClaimByParticipant(db, id)
              == if ClaimOpen(db, CancellationCase(id)) then Some(ClaimLeaves(db, CancellationCase(id))) else None
  {
    EarlyAdopt(db, CancellationCase(id));
  }

  lemma EarlyAdmin(db: Db, id: Id)
    requires Early(db, CancellationCase(id)) && id in db.cancellations
    requires var op := db.ops[CancellationCase(id)];
             && (op.outcome == AdminApprove || op.outcome == AdminDeny)
             && (op.penalty == NoPenalty || (op.penalty.Fault? && op.outcome == AdminApprove && db.booking.started))
    requires db.ops[CancellationCase(id)].stage == Claimed || db.ops[CancellationCase(id)].stage == DecisionReady
    requires db.cancellations[id].report.Some? && db.cancellations[id].report.value in db.reports
    ensures var op := db.ops[CancellationCase(id)];
            ClaimByAdmin(db, id, op.outcome == AdminApprove, NamedParty(op.penalty))
              == if ClaimOpen(db, CancellationCase(id)) then Some(ClaimLeaves(db, CancellationCase(id))) else None
  {
    EarlyAdopt(db, CancellationCase(id));
    BlockedAgain(db, CancellationCase(id));
  }

  lemma EarlyReclaim(db: Db, key: CaseKey, a: Account, banned: bool, requireBanned: bool)
    requires Good(db) && Early(db, key)
    ensures Reclaim(db, key, a, banned, requireBanned)
              == if ClaimOpen(db, key) then Some(ClaimLeaves(db, key)) else None
  {
    EarlyFacts(db, key);
    match key {
      case ReportCase(id) => EarlyReport(db, id, a);
      case CompletionCase(id) => EarlyCompletion(db, id);
      case CancellationCase(id) =>
        if db.ops[key].outcome == ParticipantApprove { EarlyParticipant(db, id); } else { EarlyAdmin(db, id); }
      case AdminCase => assert false;
    }
  }

  // ----------------------------------------------------------- the reserve

  /** What an accepted reservation leaves; a completion decision puts the booking under review. */
  function ReserveLeaves(db: Db, key: CaseKey): Db
    requires key in db.ops && ClaimOpen(db, key)
  {
    var d := ClaimLeaves(db, key);
    var b := if key.CompletionCase? then db.booking.(status := UnderReview, before := Some(AwaitingConfirmation))
             else db.booking;
    d.(booking := b, ops := db.ops[key := db.ops[key].(stage := Reserved, status := Processing)])
  }

  lemma BlockedOnceClaimed(db: Db, key: CaseKey)
    requires Early(db, key) && ClaimOpen(db, key)
    requires key.CancellationCase? && db.ops[key].outcome != ParticipantApprove ==>
               db.cancellations[key.id].report.Some?
    ensures Blocked(ClaimLeaves(db, key), key) == Blocked(db, key)
  {
  }

  lemma EarlyReserve(db: Db, key: CaseKey)
    requires Good(db) && Early(db, key) && ClaimOpen(db, key) && Financial(db.ops[key].outcome)
    ensures Reserve(ClaimLeaves(db, key), key) == if Blocked(db, key) then None else Some(ReserveLeaves(db, key))
  {
    EarlyFacts(db, key);
    BlockedOnceClaimed(db, key);
    EarlyReserves(db, key);
  }

  lemma EarlyReserves(db: Db, key: CaseKey)
    requires Early(db, key) && ClaimOpen(db, key)
               && (db.ops[key].stage == Claimed || db.ops[key].stage == DecisionReady)
    requires Blocked(ClaimLeaves(db, key), key) == Blocked(db, key)
    ensures Reserve(ClaimLeaves(db, key), key) == if Blocked(db, key) then None else Some(ReserveLeaves(db, key))
  {
    var d := ClaimLeaves(db, key);
    var op := db.ops[key].(status := Processing);
    BlockedIsOther(d, key);
    assert d.ops[key] == op && d.ops[key := op.(stage := Reserved)] == db.ops[key := op.(stage := Reserved)];
    if key.CompletionCase? { CompletionReserves(db, key.id); } else { CaseReserves(d, key); }
  }

  lemma CaseReserves(d: Db, key: CaseKey)
    requires key in d.ops && d.ops[key].status != Done && !d.ops[key].EffectEstablished()
    requires (key.ReportCase? || key.CancellationCase?) && OwnCaseUnderReview(d, key)
    ensures Reserve(d, key) == if Blocked(d, key) then None else MarkStage(d, key, Reserved)
  {
    BlockedIsOther(d, key);
  }

  /** A completion decision finds its booking awaited and parks it. */
  lemma CompletionReserves(db: Db, id: Id)
    requires Early(db, CompletionCase(id)) && ClaimOpen(db, CompletionCase(id))
    requires db.ops[CompletionCase(id)].stage == Claimed || db.ops[CompletionCase(id)].stage == DecisionReady
    ensures var d := ClaimLeaves(db, CompletionCase(id));
            Reserve(d, CompletionCase(id))
              == if Blocked(d, CompletionCase(id)) then None else Some(ReserveLeaves(db, CompletionCase(id)))
  {
    var key := CompletionCase(id);
    var d := ClaimLeaves(db, key);
    var op := db.ops[key].(status := Processing);
    BlockedIsOther(d, key);
    assert d.ops[key] == op && d.ops[key := op.(stage := Reserved)] == db.ops[key := op.(stage := Reserved)];
  }

  // ------------------------------------------------------- the retry's call

  /** The retry's claim as a step of the world. */
  lemma EarlySpawn(w: World, key: CaseKey, tid: nat, a: Account, banned: bool, requireBanned: bool)
    requires Good(w.db) && Early(w.db, key) && tid !in w.calls
    ensures var call := RetryCall(w.db, key, tid, a, banned, requireBanned);
            Do(w, call) == if !ClaimOpen(w.db, key) then w
                           else World(ClaimLeaves(w.db, key),
                               w.calls[tid := Call(RetryOf(w.db, key), EarlyStart(w.db, key))])
  {
    EarlyFacts(w.db, key);
    EarlyReclaim(w.db, key, a, banned, requireBanned);
    SpawnsReclaim(w, key, tid, a, banned, requireBanned);
    if ClaimOpen(w.db, key) { StartsEarly(w.db, key); }
  }

  function EarlyStart(db: Db, key: CaseKey): Pc
    requires key in db.ops
  {
    if Financial(db.ops[key].outcome) then AtReserve else AtMarkReady
  }

  lemma StartsEarly(db: Db, key: CaseKey)
    requires Good(db) && Early(db, key) && ClaimOpen(db, key)
    ensures var d := ClaimLeaves(db, key);
            && key in d.ops && d.ops[key] == db.ops[key].(status := Processing)
            && StartOf(key, d.ops[key]) == EarlyStart(db, key)
  {
    EarlyFacts(db, key);
  }

  /** The decision is finished: the booking is where it says, and one closure was added. */
  ghost predicate Concluded(before: Db, db: Db, t: Task, a: Account) {
    && t.Resolve? && t.key in db.ops && db.ops[t.key].status == Done && db.ops[t.key].stage == Finalized
    && AsDecided(db.booking, t.outcome) && ClosedOnce(before, db, t, a)
  }

  // ----------------------------------------------- when it is refused

  /** A call that finds its reservation refused records the failure and stops. */
  lemma RefusedReserve(d: Db, t: Task, a: Account, answer: GatewayAnswer, mint: Id, n: nat)
    requires t.Resolve? && n >= 2 && Reserve(d, t.key).None? && t.key in d.ops && d.ops[t.key].status != Done
    ensures Unfinished(Alone(d, Call(t, AtReserve), a, answer, mint, n), t)
  {
    OneStep(d, Call(t, AtReserve), d, Call(t, AtFailure), a, answer, mint, n);
    FailTail(d, t, a, answer, mint, n - 1);
  }

  // ------------------------------------------------- when money is to move

  lemma ReservedFacts(db: Db, key: CaseKey)
    requires Good(db) && Early(db, key) && ClaimOpen(db, key)
    ensures var d := ReserveLeaves(db, key);
            && key in d.ops && d.ops[key].HoldsMoney() && d.ops[key].stage == Reserved
            && d.ops[key].outcome == db.ops[key].outcome && d.ops[key].penalty == db.ops[key].penalty
            && OwnCaseUnderReview(d, key) && d.closures == db.closures
    ensures ClaimLeaves(db, key).closures == db.closures
  {
    EarlyFacts(db, key);
  }

  lemma ReservedIsReady(db: Db, key: CaseKey, a: Account)
    requires Good(db) && Early(db, key) && CanStillFinish(db, key, a) && Cancels(db.ops[key].outcome)
    requires Good(ReserveLeaves(db, key))
    ensures Ready(ReserveLeaves(db, key), RetryOf(db, key))
  {
    ReservedFacts(db, key);
    EarlyFacts(db, key);
    RowFacts(db);
  }

  lemma ReservedIsPrimed(db: Db, key: CaseKey)
    requires Good(db) && Early(db, key) && ClaimOpen(db, key) && db.ops[key].outcome == ReleaseAndComplete
    requires Good(ReserveLeaves(db, key)) && Releasing(ReserveLeaves(db, key))
    ensures Primed(ReserveLeaves(db, key), RetryOf(db, key)) && ReserveLeaves(db, key).booking.status != Completed
  {
    var d := ReserveLeaves(db, key);
    ReservedFacts(db, key);
    EarlyFacts(db, key);
    if key.ReportCase? {
      ReportReleaseSettles(d, key.id);
    } else {
      DirectReleaseSettles(d, key);
    }
    StillOpen(db, key);
    PrimedMeans(d, RetryOf(db, key));
  }

  lemma StillOpen(db: Db, key: CaseKey)
    requires Good(db) && ClaimOpenFor(db, key)
    ensures ReserveLeaves(db, key).booking.status != Completed
  {
  }

  ghost predicate ClaimOpenFor(db: Db, key: CaseKey) {
    key in db.ops && ClaimOpen(db, key) && db.ops[key].outcome == ReleaseAndComplete
  }

  lemma FinancialFinishes(w1: World, db: Db, key: CaseKey, tid: nat, a: Account, answer: GatewayAnswer, mint: Id,
      n: nat)
    requires n >= 9 && answer.Accepts? && Good(db) && Early(db, key) && CanStillFinish(db, key, a)
    requires Financial(db.ops[key].outcome) && WorldGood(w1) && Releasing(w1.db) && w1.db == ClaimLeaves(db, key)
    requires tid in w1.calls && w1.calls[tid] == Call(RetryOf(db, key), AtReserve)
    ensures CarriedOut(db, Alone(w1.db, w1.calls[tid], a, answer, mint, n), RetryOf(db, key), a)
  {
    var t := RetryOf(db, key);
    var d, d2 := w1.db, ReserveLeaves(db, key);
    EarlyReserve(db, key);
    ReservedFacts(db, key);
    ReservedStep(w1, tid, t, d2, a, answer, mint);
    StepInOrder(w1, Advance(tid, a, answer, mint), d2);
    if Cancels(t.outcome) {
      ReservedIsReady(db, key, a);
      FromReserve(d, d2, t, a, answer, mint, n);
    } else {
      ReservedIsPrimed(db, key);
      FromReleaseReserve(d, d2, t, a, answer, mint, n);
    }
    assert EndsIn(d, Call(t, AtReserve), a, answer, mint, n, Alone(d, Call(t, AtReserve), a, answer, mint, n));
  }

  /** The reservation as a step of the world. */
  lemma ReservedStep(w1: World, tid: nat, t: Task, d2: Db, a: Account, answer: GatewayAnswer, mint: Id)
    requires tid in w1.calls && w1.calls[tid] == Call(t, AtReserve) && t.Resolve? && Reserve(w1.db, t.key) == Some(d2)
    ensures Do(w1, Advance(tid, a, answer, mint)).db == d2
  {
  }

  lemma StepInOrder(w: World, s: Step, d: Db)
    requires WorldGood(w) && Releasing(w.db) && Do(w, s).db == d
    ensures Good(d) && Releasing(d)
  {
    StepKeeps(w, s);
    StepReleases(w, s);
  }

  // --------------------------------------------------- when none is to move

  /** The claimed decision, marked ready to be closed. */
  function ReadyLeaves(db: Db, key: CaseKey): Db
    requires key in db.ops && ClaimOpen(db, key)
  {
    ClaimLeaves(db, key).(ops := db.ops[key := db.ops[key].(stage := DecisionReady, status := Processing)])
  }

  lemma QuietMark(db: Db, key: CaseKey)
    requires Early(db, key) && ClaimOpen(db, key)
               && (db.ops[key].stage == Claimed || db.ops[key].stage == DecisionReady)
    ensures MarkStage(ClaimLeaves(db, key), key, DecisionReady) == Some(ReadyLeaves(db, key))
  {
    var d := ClaimLeaves(db, key);
    var op := db.ops[key].(stage := DecisionReady, status := Processing);
    assert d.ops[key := op] == db.ops[key := op];
  }

  lemma ReadyFacts(db: Db, key: CaseKey)
    requires Early(db, key) && ClaimOpen(db, key)
    ensures var d := ReadyLeaves(db, key);
            && key in d.ops && d.ops[key].status != Done && d.closures == db.closures && d.booking == db.booking
            && d.ops[key].outcome == db.ops[key].outcome && d.ops[key].penalty == db.ops[key].penalty
            && OwnCaseUnderReview(d, key)
            && (key.CancellationCase? ==>
                  && d.cancellations[key.id].report == db.cancellations[key.id].report
                  && d.reports.Keys == db.reports.Keys)
  {
  }

  lemma QuietFinalizes(db: Db, key: CaseKey, a: Account)
    requires Good(db) && Early(db, key) && CanStillFinish(db, key, a) && !Financial(db.ops[key].outcome)
    ensures MarkStage(ClaimLeaves(db, key), key, DecisionReady) == Some(ReadyLeaves(db, key))
    ensures var t := RetryOf(db, key);
            var r := Finalize(ReadyLeaves(db, key), key, t.outcome, t.penalty, a);
            r.Some? && Concluded(db, r.value, t, a)
  {
    EarlyFacts(db, key);
    QuietMark(db, key);
    ReadyFacts(db, key);
    var ready := ReadyLeaves(db, key);
    match key {
      case ReportCase(id) => QuietReportCloses(db, ready, id, a);
      case CompletionCase(id) => KeptCloses(db, ready, id, a);
      case CancellationCase(id) => DeniedCloses(db, ready, id, a);
      case AdminCase => assert false;
    }
  }

  lemma KeptCloses(db: Db, ready: Db, id: Id, a: Account)
    requires CompletionCase(id) in ready.ops && ready.ops[CompletionCase(id)].status != Done
    requires ready.closures == db.closures && id in ready.escalations && ready.escalations[id] == EUnderReview
    requires ready.ops[CompletionCase(id)].outcome == KeepAwaiting && ready.booking.status == AwaitingConfirmation
    requires ready.ops[CompletionCase(id)].penalty == NoPenalty
    ensures var op := ready.ops[CompletionCase(id)];
            var r := FinalizeCompletion(ready, id, op.outcome);
            r.Some? && Concluded(db, r.value, Resolve(CompletionCase(id), op.outcome, op.penalty), a)
  {
  }

  lemma QuietReportCloses(db: Db, ready: Db, id: Id, a: Account)
    requires ReportCase(id) in ready.ops && ready.ops[ReportCase(id)].status != Done && ready.closures == db.closures
    requires id in ready.reports && ready.reports[id].status == RpUnderReview
    requires var op := ready.ops[ReportCase(id)];
             (op.outcome == Dismiss || op.outcome == ResolveSafety) && !PenaltyThrows(op.penalty, a)
    ensures var op := ready.ops[ReportCase(id)];
            var r := FinalizeReport(ready, id, op.outcome, op.penalty, a);
            r.Some? && Concluded(db, r.value, Resolve(ReportCase(id), op.outcome, op.penalty), a)
  {
  }

  lemma DeniedCloses(db: Db, ready: Db, id: Id, a: Account)
    requires CancellationCase(id) in ready.ops && ready.ops[CancellationCase(id)].status != Done
    requires ready.closures == db.closures && id in ready.cancellations
               && ready.cancellations[id].status == CUnderReview
    requires ready.cancellations[id].report.Some? && ready.cancellations[id].report.value in ready.reports
    requires ready.ops[CancellationCase(id)].outcome == AdminDeny
               && ready.ops[CancellationCase(id)].penalty == NoPenalty
    ensures var op := ready.ops[CancellationCase(id)];
            var r := FinalizeByAdmin(ready, id, false, op.penalty, a);
            r.Some? && Concluded(db, r.value, Resolve(CancellationCase(id), op.outcome, op.penalty), a)
  {
  }

  lemma QuietFinishes(db: Db, key: CaseKey, a: Account, answer: GatewayAnswer, mint: Id, n: nat)
    requires n >= 2 && Good(db) && Early(db, key) && CanStillFinish(db, key, a) && !Financial(db.ops[key].outcome)
    ensures Concluded(db, Alone(ClaimLeaves(db, key), Call(RetryOf(db, key), AtMarkReady), a, answer, mint, n),
                RetryOf(db, key), a)
  {
    var t := RetryOf(db, key);
    var d := ClaimLeaves(db, key);
    QuietFinalizes(db, key, a);
    var ready := ReadyLeaves(db, key);
    MarkedThenClosed(d, ready, Finalize(ready, key, t.outcome, t.penalty, a).value, t, a, answer, mint, n);
  }

  lemma MarkedThenClosed(d: Db, ready: Db, closed: Db, t: Task, a: Account, answer: GatewayAnswer, mint: Id, n: nat)
    requires t.Resolve? && n >= 2 && MarkStage(d, t.key, DecisionReady) == Some(ready)
    requires Finalize(ready, t.key, t.outcome, t.penalty, a) == Some(closed)
    ensures Alone(d, Call(t, AtMarkReady), a, answer, mint, n) == closed
  {
    OneStep(d, Call(t, AtMarkReady), ready, Call(t, AtFinalize), a, answer, mint, n);
    OneStep(ready, Call(t, AtFinalize), closed, Call(t, Stopped), a, answer, mint, n - 1);
    StoppedStays(closed, Call(t, Stopped), a, answer, mint, n - 2);
  }

  // -------------------------------------------------------------- main result

  /** What the retry leaves in the rows, from its claim on. */
  lemma EarlyRetryOutcome(w: World, key: CaseKey, tid: nat, a: Account, answer: GatewayAnswer, mint: Id, banned: bool,
      requireBanned: bool, n: nat)
    requires n >= 9 && WorldGood(w) && Releasing(w.db) && answer.Accepts? && tid !in w.calls && Early(w.db, key)
    ensures var d :=
              Run(Do(w, RetryCall(w.db, key, tid, a, banned, requireBanned)), Advances(tid, a, answer, mint, n)).db;
            && (CanStillFinish(w.db, key, a) ==> Concluded(w.db, d, RetryOf(w.db, key), a))
            && (!CanStillFinish(w.db, key, a) ==> Unfinished(d, RetryOf(w.db, key)))
  {
    var w1 := Do(w, RetryCall(w.db, key, tid, a, banned, requireBanned));
    EarlySpawn(w, key, tid, a, banned, requireBanned);
    if !ClaimOpen(w.db, key) {
      NobodyAdvances(w1, tid, a, answer, mint, n);
    } else {
      StepKeeps(w, RetryCall(w.db, key, tid, a, banned, requireBanned));
      StepReleases(w, RetryCall(w.db, key, tid, a, banned, requireBanned));
      AloneIsARun(w1, tid, a, answer, mint, n);
      if CanStillFinish(w.db, key, a) {
        EarlyFinishes(w.db, w1, key, tid, a, answer, mint, n);
      } else {
        EarlyFails(w.db, w1, key, tid, a, answer, mint, n);
      }
    }
  }

  lemma EarlyFinishes(db: Db, w1: World, key: CaseKey, tid: nat, a: Account, answer: GatewayAnswer, mint: Id, n: nat)
    requires n >= 9 && answer.Accepts? && Good(db) && Early(db, key) && CanStillFinish(db, key, a)
    requires WorldGood(w1) && Releasing(w1.db) && w1.db == ClaimLeaves(db, key)
    requires tid in w1.calls && w1.calls[tid] == Call(RetryOf(db, key), EarlyStart(db, key))
    ensures Concluded(db, Alone(w1.db, w1.calls[tid], a, answer, mint, n), RetryOf(db, key), a)
  {
    if Financial(db.ops[key].outcome) {
      FinancialFinishes(w1, db, key, tid, a, answer, mint, n);
    } else {
      QuietFinishes(db, key, a, answer, mint, n);
    }
  }

  lemma EarlyFails(db: Db, w1: World, key: CaseKey, tid: nat, a: Account, answer: GatewayAnswer, mint: Id, n: nat)
    requires n >= 9 && Good(db) && Early(db, key) && ClaimOpen(db, key) && !CanStillFinish(db, key, a)
    requires WorldGood(w1) && w1.db == ClaimLeaves(db, key)
    requires tid in w1.calls && w1.calls[tid] == Call(RetryOf(db, key), EarlyStart(db, key))
    ensures Unfinished(Alone(w1.db, w1.calls[tid], a, answer, mint, n), RetryOf(db, key))
  {
    var t := RetryOf(db, key);
    StartsEarly(db, key);
    if Financial(db.ops[key].outcome) && Blocked(db, key) {
      EarlyReserve(db, key);
      RefusedReserve(w1.db, t, a, answer, mint, n);
    } else {
      HopelessEarly(db, key, a);
      NeverFinishes(w1.db, w1.calls[tid], a, answer, mint, n);
      EndsUnfinished(w1.db, w1.calls[tid], a, answer, mint, n);
    }
  }

  lemma HopelessEarly(db: Db, key: CaseKey, a: Account)
    requires Good(db) && Early(db, key) && ClaimOpen(db, key) && !CanStillFinish(db, key, a)
    requires !(Financial(db.ops[key].outcome) && Blocked(db, key))
    ensures Hopeless(ClaimLeaves(db, key), RetryOf(db, key), a)
  {
    StartsEarly(db, key);
  }

  /** Take any reachable state and any decision on record that is unfinished and has reserved nothing, whatever its
      callers did and wherever they crashed. Retrying it in a fresh call that nobody disturbs, with a gateway that
      accepts, finishes it with exactly one closure, if and only if CanStillFinish held when the retry began: its
      case is open to it, its penalty is not refused, and, if money is to move, no other case is open. */
  lemma EarlyRetryFinishesExactly(db: Db, steps: seq<Step>, key: CaseKey, tid: nat, a: Account, answer: GatewayAnswer,
      mint: Id, banned: bool, requireBanned: bool, n: nat)
    requires n >= 9 && Fresh(db) && answer.Accepts?
    requires var w := Run(World(db, map[]), steps); tid !in w.calls && Early(w.db, key)
    ensures var w := Run(World(db, map[]), steps);
            var retry := [RetryCall(w.db, key, tid, a, banned, requireBanned)] + Advances(tid, a, answer, mint, n);
            Concluded(w.db, After(db, steps + retry), RetryOf(w.db, key), a) <==> CanStillFinish(w.db, key, a)
  {
    var w := Run(World(db, map[]), steps);
    var call := RetryCall(w.db, key, tid, a, banned, requireBanned);
    FreshIsGood(db);
    FreshReleases(db);
    RunReleases(World(db, map[]), steps);
    RunSplits(World(db, map[]), steps, [call] + Advances(tid, a, answer, mint, n));
    assert ([call] + Advances(tid, a, answer, mint, n))[1..] == Advances(tid, a, answer, mint, n);
    EarlyRetryOutcome(w, key, tid, a, answer, mint, banned, requireBanned, n);
  }

  // ------------------------------------------- two decisions block each other

  /** A refund is decided on an awaited completion, and before it reserves, the other participant approves a
      cancellation. */
  function TwoClaims(): seq<Step> {
    [ProviderStarts, ProviderFinishes, FileEscalation(0), CallCompletion(1, 0, RefundSeeker), FileCancellation(0, 9),
     CallParticipant(2, 0)]
  }

  function BothClaimed(): Db {
    Db(Booking(true, AwaitingConfirmation, None, PaidHeld, true), Some(QueueRow(QDone, PaidHeld)), None, [], false,
       map[], map[0 := Cancellation(CUnderReview, false, None)], map[0 := EUnderReview],
       map[CompletionCase(0) := Operation(Claimed, Processing, RefundSeeker, NoPenalty),
           CancellationCase(0) := Operation(Claimed, Processing, ParticipantApprove, NoPenalty)], [], None)
  }

  /** The two decisions keep each other from reserving: no retry of either finishes. */
  lemma ClaimsBlockEachOther(a: Account)
    ensures Fresh(PaidBooking()) && After(PaidBooking(), TwoClaims()) == BothClaimed()
    ensures var d := BothClaimed();
            && Early(d, CompletionCase(0)) && !CanStillFinish(d, CompletionCase(0), a)
            && Early(d, CancellationCase(0)) && !CanStillFinish(d, CancellationCase(0), a)
  {
    TwoClaimsRun();
    var d := BothClaimed();
    assert d.cancellations[0].Active() && OtherCancellation(d.cancellations, None);
    assert OpenEscalation(d.escalations[0]) && OtherEscalation(d.escalations, None);
  }

  lemma TwoClaimsRun()
    ensures After(PaidBooking(), TwoClaims()) == BothClaimed()
  {
    var s := TwoClaims();
    var w := World(PaidBooking(), map[]);
    var awaiting := PaidBooking().(booking := Booking(true, AwaitingConfirmation, None, PaidHeld, true),
      queue := Some(QueueRow(QDone, PaidHeld)));
    assert Do(Do(w, s[0]), s[1]) == World(awaiting, map[]);
    var completion := Call(Resolve(CompletionCase(0), RefundSeeker, NoPenalty), AtReserve);
    var first := awaiting.(escalations := map[0 := EUnderReview],
      ops := map[CompletionCase(0) := Operation(Claimed, Processing, RefundSeeker, NoPenalty)]);
    CompletionClaimed(awaiting, first, completion);
    CancellationClaimed(first, completion);
    RunFive(w, s[..5]);
    RunThenOne(w, s[..5], s[5]);
    assert s[..5] + [s[5]] == s;
  }

  lemma CompletionClaimed(awaiting: Db, first: Db, completion: Call)
    requires awaiting == PaidBooking().(booking := Booking(true, AwaitingConfirmation, None, PaidHeld, true),
      queue := Some(QueueRow(QDone, PaidHeld)))
    requires first == awaiting.(escalations := map[0 := EUnderReview],
      ops := map[CompletionCase(0) := Operation(Claimed, Processing, RefundSeeker, NoPenalty)])
    requires completion == Call(Resolve(CompletionCase(0), RefundSeeker, NoPenalty), AtReserve)
    ensures Do(Do(World(awaiting, map[]), FileEscalation(0)), CallCompletion(1, 0, RefundSeeker))
              == World(first, map[1 := completion])
  {
    var filed := awaiting.(escalations := map[0 := EPending]);
    assert Do(World(awaiting, map[]), FileEscalation(0)) == World(filed, map[]);
    var r := ClaimCompletion(filed, 0, RefundSeeker);
    assert r.Some? && r.value.ops == first.ops && r.value.escalations == first.escalations;
  }

  lemma CancellationClaimed(first: Db, completion: Call)
    requires first == BothClaimed().(cancellations := map[],
      ops := map[CompletionCase(0) := Operation(Claimed, Processing, RefundSeeker, NoPenalty)])
    ensures Do(Do(World(first, map[1 := completion]), FileCancellation(0, 9)), CallParticipant(2, 0)).db
              == BothClaimed()
  {
    var filed := first.(cancellations := map[0 := Cancellation(CPending, false, None)]);
    assert Do(World(first, map[1 := completion]), FileCancellation(0, 9)) == World(filed, map[1 := completion]);
    var r := ClaimByParticipant(filed, 0);
    assert r.Some? && r.value.ops == BothClaimed().ops && r.value.cancellations == BothClaimed().cancellations;
  }
}
