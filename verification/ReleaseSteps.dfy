/** Every step of every caller keeps what a reserved release relies on. */
module ReleaseSteps {
  import opened BookingRows
  import opened Transactions
  import opened TransactionShapes
  import opened Interleaving
  import opened ResolutionInvariant
  import opened DecisionSteps
  import opened ResolutionSafety
  import opened ResolutionRuns
  import opened PauseRestore
  import opened ReleaseInvariant

  /** No completion dispute, immediate request, release decision or direct holder appears. */
  ghost predicate NothingNew(a: Db, d: Db) {
    && (forall r | r in d.reports && r !in a.reports :: d.reports[r].kind != CompletionDispute)
    && (forall c | c in d.cancellations && c !in a.cancellations :: !d.cancellations[c].immediate)
    && (forall k | k in d.ops && k !in a.ops :: d.ops[k].outcome == ReleaseAndComplete ==>
          !k.ReportCase? && !k.AdminCase?)
    && (forall k | k in d.ops && DirectKey(k) && d.ops[k].HoldsMoney() :: k in a.ops && a.ops[k].HoldsMoney())
    && RequestLink(a, d)
  }

  lemma QuietLink(a: Db, d: Db)
    requires NothingNew(a, d) && d.booking == a.booking && d.refund == a.refund && StartedFits(a.booking)
    requires d.gateway.Some? ==> a.gateway.Some? || a.refund.Some?
    ensures Linked(a, d)
  {
  }

  /** The booking moves, but not into cancellation or review. */
  lemma MovedLink(a: Db, d: Db)
    requires NothingNew(a, d) && d.refund == a.refund && d.gateway == a.gateway && StartedFits(d.booking)
    requires d.booking.status != Canceled && d.booking.status != UnderReview
    requires a.booking.Paused() && d.booking.status == Completed ==>
               a.booking.before == Some(AwaitingConfirmation) && ReleasingHolder(a.ops)
    ensures Linked(a, d)
  {
  }

  /** A direct decision takes the booking under review and holds the money. */
  lemma ReviewingLink(a: Db, d: Db, key: CaseKey)
    requires DirectKey(key) && key in d.ops && d.ops == a.ops[key := d.ops[key]] && d.ops[key].HoldsMoney()
    requires d == a.(booking := d.booking, ops := d.ops) && d.booking.status == UnderReview && StartedFits(d.booking)
    requires ReviewedFor(d.booking, d.ops[key].outcome)
    requires key == AdminCase && d.ops[key].outcome == ReleaseAndComplete ==> d.booking.online
    ensures Linked(a, d)
  {
    assert DirectHolder(d.ops);
  }

  // --------------------------------------------------------- case openers

  lemma SafetyReportLinks(db: Db, id: Id)
    requires StartedFits(db.booking) && OpenSafetyReport(db, id).Some?
    ensures Linked(db, OpenSafetyReport(db, id).value)
  {
    var d := OpenSafetyReport(db, id).value;
    if db.booking.status in {Accepted, Ongoing, AwaitingConfirmation} {
      MovedLink(db, d);
    } else {
      CasesLink(db, d);
    }
  }

  lemma DisputeLinks(db: Db, id: Id)
    requires Good(db) && Releasing(db) && OpenDispute(db, id).Some?
    ensures Linked(db, OpenDispute(db, id).value)
  {
  }

  lemma CancellationLinks(db: Db, id: Id)
    requires Good(db) && Releasing(db) && OpenCancellation(db, id).Some?
    ensures Linked(db, OpenCancellation(db, id).value)
  {
    if db.booking.started {
      QuietLink(db, OpenCancellation(db, id).value);
    } else {
      EarlyRequestLinks(db, id);
    }
  }

  lemma EarlyRequestLinks(db: Db, id: Id)
    requires StartedFits(db.booking) && !db.booking.started && OpenCancellation(db, id).Some?
    ensures Linked(db, OpenCancellation(db, id).value)
  {
    var d := OpenCancellation(db, id).value;
    assert OpenImmediateIn(d.cancellations, id);
    assert EarlyReview(d.booking) && d.ops == db.ops && d.reports == db.reports && d.refund == db.refund;
  }

  lemma OpenerLinks(w: World, s: Step)
    requires WorldGood(w) && Releasing(w.db)
    requires s.FileSafetyReport? || s.FileDispute? || s.FileCancellation?
    ensures Linked(w.db, Do(w, s).db)
  {
    var db := w.db;
    QuietLink(db, db);
    match s {
      case FileSafetyReport(id) => if OpenSafetyReport(db, id).Some? { SafetyReportLinks(db, id); }
      case FileDispute(id) => if OpenDispute(db, id).Some? { DisputeLinks(db, id); }
      case FileCancellation(id, tid) => if OpenCancellation(db, id).Some? { CancellationLinks(db, id); }
    }
  }

  /** Only cases move: reports keep their kinds, requests do not leave review, and none appears. */
  lemma CasesLink(a: Db, d: Db)
    requires StartedFits(a.booking)
               && d == a.(reports := d.reports, cancellations := d.cancellations, escalations := d.escalations)
    requires forall r | r in d.reports && r !in a.reports :: d.reports[r].kind != CompletionDispute
    requires d.cancellations.Keys == a.cancellations.Keys
    requires forall c | c in a.cancellations && a.cancellations[c].status == CUnderReview ::
               d.cancellations[c].status == CUnderReview
    ensures Linked(a, d)
  {
    QuietLink(a, d);
  }

  lemma ReviewLinks(db: Db, id: Id)
    requires StartedFits(db.booking)
    ensures StartReportReview(db, id).Some? ==> Linked(db, StartReportReview(db, id).value)
    ensures StartEscalationReview(db, id).Some? ==> Linked(db, StartEscalationReview(db, id).value)
    ensures OpenEscalationCase(db, id).Some? ==> Linked(db, OpenEscalationCase(db, id).value)
  {
    if StartReportReview(db, id).Some? { CasesLink(db, StartReportReview(db, id).value); }
    if StartEscalationReview(db, id).Some? { CasesLink(db, StartEscalationReview(db, id).value); }
    if OpenEscalationCase(db, id).Some? { CasesLink(db, OpenEscalationCase(db, id).value); }
  }

  lemma AnswerLinks(db: Db, id: Id, report: Id)
    requires StartedFits(db.booking)
    ensures DeclineCancellation(db, id).Some? ==> Linked(db, DeclineCancellation(db, id).value)
    ensures EscalateCancellation(db, id, report).Some? ==> Linked(db, EscalateCancellation(db, id, report).value)
  {
    if DeclineCancellation(db, id).Some? { CasesLink(db, DeclineCancellation(db, id).value); }
    if EscalateCancellation(db, id, report).Some? { CasesLink(db, EscalateCancellation(db, id, report).value); }
  }

  lemma RowsLinked(w: World, r: Option<Db>)
    requires StartedFits(w.db.booking) && (r.Some? ==> Linked(w.db, r.value))
    ensures Linked(w.db, Rows(w, r).db)
  {
    QuietLink(w.db, w.db);
  }

  lemma CaseStepLinks(w: World, s: Step)
    requires Releasing(w.db)
    requires s.ReviewReport? || s.ReviewEscalation? || s.FileEscalation? || s.RespondDecline? || s.Escalate?
    ensures Linked(w.db, Do(w, s).db)
  {
    var db := w.db;
    match s {
      case ReviewReport(id) => ReviewLinks(db, id); RowsLinked(w, StartReportReview(db, id));
      case ReviewEscalation(id) => ReviewLinks(db, id); RowsLinked(w, StartEscalationReview(db, id));
      case FileEscalation(id) => ReviewLinks(db, id); RowsLinked(w, OpenEscalationCase(db, id));
      case RespondDecline(id) => AnswerLinks(db, id, 0); RowsLinked(w, DeclineCancellation(db, id));
      case Escalate(id, report) => AnswerLinks(db, id, report); RowsLinked(w, EscalateCancellation(db, id, report));
    }
  }

  lemma CallOnlyStepLinks(w: World, s: Step)
    requires Releasing(w.db) && (s.Throw? || s.RetryImmediate?)
    ensures Linked(w.db, Do(w, s).db)
  {
    QuietLink(w.db, w.db);
  }

  /** Where the ordinary lifecycle can take a booking. */
  ghost predicate LifecycleMove(db: Db, d: Db) {
    && NothingNew(db, d) && d.refund == db.refund && d.gateway == db.gateway && StartedFits(d.booking)
    && d.booking.status != Canceled && d.booking.status != UnderReview && !db.booking.Paused()
  }

  lemma RowsMoved(w: World, r: Option<Db>)
    requires StartedFits(w.db.booking) && (r.Some? ==> r.value == w.db || LifecycleMove(w.db, r.value))
    ensures Linked(w.db, Rows(w, r).db)
  {
    if r.None? || r.value == w.db { QuietLink(w.db, w.db); } else { MovedLink(w.db, r.value); }
  }

  lemma LifecycleLinks(w: World, s: Step)
    requires WorldGood(w) && Releasing(w.db)
    requires s.ProviderAccepts? || s.ProviderDeclines? || s.ProviderStarts? || s.ProviderFinishes? || s.SeekerConfirms?
    ensures Linked(w.db, Do(w, s).db)
  {
    var db := w.db;
    match s {
      case ProviderAccepts => CashAnswered(db); RowsMoved(w, AcceptCash(db));
      case ProviderDeclines => CashAnswered(db); RowsMoved(w, DeclineCash(db));
      case ProviderStarts => JobStarts(db); RowsMoved(w, StartJob(db));
      case ProviderFinishes => JobFinishes(db); RowsMoved(w, MarkComplete(db));
      case SeekerConfirms => SeekerSettles(db); RowsMoved(w, Settle(db, false));
    }
  }

  lemma SeekerSettles(db: Db)
    requires MoneyGood(db.booking, db.queue, db.released) && StartedFits(db.booking)
    ensures Settle(db, false).Some? && Settle(db, false).value != db ==> LifecycleMove(db, Settle(db, false).value)
  {
  }

  lemma JobStarts(db: Db)
    requires MoneyGood(db.booking, db.queue, db.released) && StartedFits(db.booking)
    ensures StartJob(db).Some? ==> LifecycleMove(db, StartJob(db).value)
  {
  }

  lemma JobFinishes(db: Db)
    requires MoneyGood(db.booking, db.queue, db.released) && StartedFits(db.booking)
    ensures MarkComplete(db).Some? ==> LifecycleMove(db, MarkComplete(db).value)
  {
  }

  lemma CashAnswered(db: Db)
    requires MoneyGood(db.booking, db.queue, db.released) && StartedFits(db.booking)
    ensures AcceptCash(db).Some? ==> LifecycleMove(db, AcceptCash(db).value)
    ensures DeclineCash(db).Some? ==> LifecycleMove(db, DeclineCash(db).value)
  {
  }

  // --------------------------------------------------------------- claims

  /** Beginning a decision again makes no holder of it that was none. */
  lemma AdoptHolds(db: Db, key: CaseKey, outcome: Outcome, penalty: Penalty) returns (op: Operation)
    requires Adopt(db, key, outcome, penalty).Some? && (key in db.ops ==> OpShape(key, db.ops[key]))
    ensures Adopt(db, key, outcome, penalty).value == db.(ops := db.ops[key := op])
    ensures op.HoldsMoney() ==> key in db.ops && db.ops[key].HoldsMoney()
    ensures op.outcome == outcome
  {
    op := AdoptShape(db, key, outcome, penalty);
    assert Adopt(db, key, outcome, penalty).value.ops[key] == op;
  }

  lemma ReportClaimLinks(db: Db, id: Id, o: Outcome, p: Penalty, a: Account)
    requires StartedFits(db.booking) && ClaimReport(db, id, o, p, a).Some? && ClaimReport(db, id, o, p, a).value != db
    ensures Linked(db, ClaimReport(db, id, o, p, a).value)
  {
    ClaimReportShape(db, id, o, p, a);
    var op := AdoptShape(db, ReportCase(id), o, p);
    ReportOpLinks(db, id, op, ClaimReport(db, id, o, p, a).value);
  }

  /** A report decision is new only where its outcome was allowed. */
  lemma ReportOpLinks(db: Db, id: Id, op: Operation, d: Db)
    requires StartedFits(db.booking) && id in db.reports
    requires ReportCase(id) !in db.ops && op.outcome == ReleaseAndComplete ==> db.reports[id].kind == CompletionDispute
    requires d == db.(ops := db.ops[ReportCase(id) := op], reports := d.reports)
    requires d.reports.Keys == db.reports.Keys && d.reports[id].kind == db.reports[id].kind
    ensures Linked(db, d)
  {
    if ReportCase(id) in db.ops || op.outcome != ReleaseAndComplete {
      QuietLink(db, d);
    }
  }

  lemma CompletionClaimLinks(db: Db, id: Id, o: Outcome)
    requires Good(db) && Releasing(db) && ClaimCompletion(db, id, o).Some? && ClaimCompletion(db, id, o).value != db
    ensures Linked(db, ClaimCompletion(db, id, o).value)
  {
    if CompletionCase(id) in db.ops { assert OpShape(CompletionCase(id), db.ops[CompletionCase(id)]); }
    AdoptedCompletionLinks(db, id, o);
  }

  lemma AdoptedCompletionLinks(db: Db, id: Id, o: Outcome)
    requires StartedFits(db.booking) && ClaimCompletion(db, id, o).Some? && ClaimCompletion(db, id, o).value != db
    requires CompletionCase(id) in db.ops ==> OpShape(CompletionCase(id), db.ops[CompletionCase(id)])
    ensures Linked(db, ClaimCompletion(db, id, o).value)
  {
    ClaimCompletionShape(db, id, o);
    var op := AdoptHolds(db, CompletionCase(id), o, NoPenalty);
    QuietLink(db, ClaimCompletion(db, id, o).value);
  }

  lemma CancellationClaimLinks(db: Db, id: Id, d: Db, op: Operation)
    requires StartedFits(db.booking)
               && d == db.(ops := db.ops[CancellationCase(id) := op], cancellations := d.cancellations,
                    reports := d.reports)
    requires d.cancellations.Keys == db.cancellations.Keys && d.reports.Keys == db.reports.Keys
    requires op.HoldsMoney() ==> CancellationCase(id) in db.ops && db.ops[CancellationCase(id)].HoldsMoney()
    requires forall c | c in db.cancellations ::
               d.cancellations[c] == db.cancellations[c] || d.cancellations[c].status == CUnderReview
    ensures Linked(db, d)
  {
    QuietLink(db, d);
  }

  lemma ParticipantClaimLinks(db: Db, id: Id)
    requires StartedFits(db.booking) && ClaimByParticipant(db, id).Some?
    ensures Linked(db, ClaimByParticipant(db, id).value)
  {
    var d := ClaimByParticipant(db, id).value;
    if d == db {
      QuietLink(db, db);
    } else {
      var op := BeginShape(db, CancellationCase(id), ParticipantApprove, NoPenalty);
      CancellationClaimLinks(db, id, d, op);
    }
  }

  lemma AdminCancellationClaimLinks(db: Db, id: Id, approve: bool, fault: Option<Participant>)
    requires StartedFits(db.booking) && ClaimByAdmin(db, id, approve, fault).Some?
    ensures Linked(db, ClaimByAdmin(db, id, approve, fault).value)
  {
    var d := ClaimByAdmin(db, id, approve, fault).value;
    if d == db {
      QuietLink(db, db);
    } else {
      ClaimByAdminShape(db, id, approve, fault);
      var op := BeginShape(db, CancellationCase(id), if approve then AdminApprove else AdminDeny, FaultFinding(fault));
      CancellationClaimLinks(db, id, d, op);
    }
  }

  lemma AdminReservedLinks(db: Db, o: Outcome, banned: bool)
    requires Good(db) && Releasing(db) && AdminOutcomeAllowed(db.booking, banned, o)
               && (o == CancelBooking || o == ReleaseAndComplete)
    ensures Linked(db, AdminReserved(db, o))
  {
    var d := AdminReserved(db, o);
    ReviewingLink(db, d, AdminCase);
  }

  lemma AdminClaimLinks(db: Db, o: Outcome, banned: bool, requireBanned: bool)
    requires Good(db) && Releasing(db) && ClaimAdmin(db, o, banned, requireBanned).Some?
    ensures Linked(db, ClaimAdmin(db, o, banned, requireBanned).value)
  {
    QuietLink(db, db);
    if AdminCase in db.ops {
      assert OpShape(AdminCase, db.ops[AdminCase]);
      RepeatedAdminLinks(db, o, banned, requireBanned);
    } else {
      ClaimAdminShape(db, o, banned, requireBanned);
      AdminReservedLinks(db, o, banned);
    }
  }

  lemma RepeatedAdminLinks(db: Db, o: Outcome, banned: bool, requireBanned: bool)
    requires StartedFits(db.booking) && AdminCase in db.ops && OpShape(AdminCase, db.ops[AdminCase])
               && ClaimAdmin(db, o, banned, requireBanned).Some?
    ensures Linked(db, ClaimAdmin(db, o, banned, requireBanned).value)
  {
    QuietLink(db, db);
    if ClaimAdmin(db, o, banned, requireBanned).value != db {
      var op := AdoptHolds(db, AdminCase, o, NoPenalty);
      QuietLink(db, db.(ops := db.ops[AdminCase := op]));
    }
  }

  lemma SpawnLinked(w: World, tid: nat, r: Option<Db>, key: CaseKey)
    requires StartedFits(w.db.booking) && (r.Some? ==> Linked(w.db, r.value))
    ensures Linked(w.db, Spawn(w, tid, r, key).db)
  {
    QuietLink(w.db, w.db);
  }

  lemma CaseClaimLinks(db: Db, id: Id, o: Outcome, p: Penalty, a: Account)
    requires Good(db) && Releasing(db)
    ensures var r := ClaimReport(db, id, o, p, a); r.Some? ==> Linked(db, r.value)
    ensures var r := ClaimCompletion(db, id, o); r.Some? ==> Linked(db, r.value)
  {
    QuietLink(db, db);
    if ClaimReport(db, id, o, p, a).Some? && ClaimReport(db, id, o, p, a).value != db {
      ReportClaimLinks(db, id, o, p, a);
    }
    if ClaimCompletion(db, id, o).Some? && ClaimCompletion(db, id, o).value != db {
      CompletionClaimLinks(db, id, o);
    }
  }

  lemma CaseCallLinks(w: World, s: Step)
    requires Good(w.db) && Releasing(w.db) && (s.CallReport? || s.CallCompletion?)
    ensures Linked(w.db, Do(w, s).db)
  {
    match s {
      case CallReport(tid, id, o, p, a) =>
        CaseClaimLinks(w.db, id, o, p, a);
        SpawnLinked(w, tid, ClaimReport(w.db, id, o, p, a), ReportCase(id));
      case CallCompletion(tid, id, o) =>
        CaseClaimLinks(w.db, id, o, NoPenalty, Account(true, false, false));
        SpawnLinked(w, tid, ClaimCompletion(w.db, id, o), CompletionCase(id));
    }
  }

  lemma RequestCallLinks(w: World, s: Step)
    requires StartedFits(w.db.booking) && (s.CallParticipant? || s.CallAdminCancellation?)
    ensures Linked(w.db, Do(w, s).db)
  {
    match s {
      case CallParticipant(tid, id) =>
        if ClaimByParticipant(w.db, id).Some? { ParticipantClaimLinks(w.db, id); }
        SpawnLinked(w, tid, ClaimByParticipant(w.db, id), CancellationCase(id));
      case CallAdminCancellation(tid, id, x, f) =>
        if ClaimByAdmin(w.db, id, x, f).Some? { AdminCancellationClaimLinks(w.db, id, x, f); }
        SpawnLinked(w, tid, ClaimByAdmin(w.db, id, x, f), CancellationCase(id));
    }
  }

  lemma ClaimLinks(w: World, s: Step)
    requires WorldGood(w) && Releasing(w.db)
    requires s.CallReport? || s.CallCompletion? || s.CallParticipant? || s.CallAdminCancellation? || s.CallAdminBooking?
    ensures Linked(w.db, Do(w, s).db)
  {
    if s.CallReport? || s.CallCompletion? {
      CaseCallLinks(w, s);
    } else if s.CallAdminBooking? {
      if ClaimAdmin(w.db, s.outcome, s.banned, s.requireBanned).Some? {
        AdminClaimLinks(w.db, s.outcome, s.banned, s.requireBanned);
      }
      AdminCallLinks(w, s);
    } else {
      RequestCallLinks(w, s);
    }
  }

  lemma AdminCallLinks(w: World, s: Step)
    requires s.CallAdminBooking? && StartedFits(w.db.booking)
    requires var r := ClaimAdmin(w.db, s.outcome, s.banned, s.requireBanned); r.Some? ==> Linked(w.db, r.value)
    ensures Linked(w.db, Do(w, s).db)
  {
    SpawnLinked(w, s.tid, ClaimAdmin(w.db, s.outcome, s.banned, s.requireBanned), AdminCase);
  }

  // ------------------------------------------------------ a call's own steps

  /** Rewriting one decision without making it a direct holder. */
  lemma OpLinks(db: Db, key: CaseKey, op: Operation)
    requires StartedFits(db.booking) && key in db.ops && op.outcome == db.ops[key].outcome
    requires DirectKey(key) && op.HoldsMoney() ==> db.ops[key].HoldsMoney()
    requires key.CancellationCase? && op.HoldsMoney() && !db.ops[key].HoldsMoney() ==>
               key.id in db.cancellations && db.cancellations[key.id].status == CUnderReview
    ensures Linked(db, db.(ops := db.ops[key := op]))
  {
    QuietLink(db, db.(ops := db.ops[key := op]));
  }

  lemma MarkLinks(db: Db, key: CaseKey, stage: Stage)
    requires Good(db) && Releasing(db) && key in db.ops
    requires stage == DecisionReady || (stage == Established && Rank(db.ops[key].stage) >= 2)
    ensures MarkStage(db, key, stage).Some? && Linked(db, MarkStage(db, key, stage).value)
    ensures Linked(db, MarkFailed(db, key))
  {
    QuietLink(db, db);
    var op := db.ops[key];
    if !op.Finished() {
      OpLinks(db, key, op.(status := FailedRetryable));
      if Rank(stage) >= Rank(op.stage) { OpLinks(db, key, op.(stage := stage, status := Processing)); }
    }
  }

  /** A booking under review for somebody else cannot be reserved by a completion decision. */
  lemma ReviewBlocksCompletion(db: Db, id: Id)
    requires Good(db) && Releasing(db) && CompletionCase(id) in db.ops && id in db.escalations
               && OpenEscalation(db.escalations[id])
    requires db.booking.status == UnderReview && !OtherBlockingCase(db, None, None, Some(id))
    ensures db.ops[CompletionCase(id)].HoldsMoney()
  {
    OwnCaseExcludesOthers(db, CompletionCase(id));
    NoImmediate(db);
    var k :| k in db.ops && DirectKey(k) && db.ops[k].HoldsMoney();
  }

  lemma NoImmediate(db: Db)
    requires !OtherCancellation(db.cancellations, None)
    ensures !SomeImmediate(db)
  {
  }

  /** What reserving an awaited completion leaves. */
  lemma CompletionParks(db: Db, id: Id)
    requires Reserve(db, CompletionCase(id)).Some? && db.booking.status != UnderReview && db.booking.before.None?
    requires !db.ops[CompletionCase(id)].EffectEstablished() && Rank(db.ops[CompletionCase(id)].stage) <= 2
    ensures var d := Reserve(db, CompletionCase(id)).value;
            var op := db.ops[CompletionCase(id)].(stage := Reserved, status := Processing);
            && db.booking.status == AwaitingConfirmation
            && d == db.(booking := db.booking.(status := UnderReview, before := Some(AwaitingConfirmation)),
                 ops := db.ops[CompletionCase(id) := op])
  {
  }

  lemma CompletionReserveLinks(db: Db, id: Id)
    requires Good(db) && Releasing(db) && Reserve(db, CompletionCase(id)).Some?
    ensures Linked(db, Reserve(db, CompletionCase(id)).value)
  {
    var key := CompletionCase(id);
    var d := Reserve(db, key).value;
    assert OpShape(key, db.ops[key]);
    if db.ops[key].EffectEstablished() {
      QuietLink(db, db);
    } else if db.booking.status == UnderReview {
      ReviewBlocksCompletion(db, id);
      OpLinks(db, key, d.ops[key]);
    } else {
      CompletionParks(db, id);
      ReviewingLink(db, d, key);
    }
  }

  lemma ReserveLinks(db: Db, key: CaseKey)
    requires Good(db) && Releasing(db) && Reserve(db, key).Some?
    ensures Linked(db, Reserve(db, key).value)
  {
    QuietLink(db, db);
    if key.CompletionCase? {
      CompletionReserveLinks(db, key.id);
    } else if Reserve(db, key).value != db {
      OpLinks(db, key, Reserve(db, key).value.ops[key]);
    }
  }

  /** Who is cancelling: a decision that holds the money, or an open immediate request. */
  lemma CancellerOwns(db: Db, c: Call)
    requires Good(db) && Fits(db, c) && Cancelling(db.ops, c.task) && db.booking.status != Canceled
    ensures c.task.Resolve? ==> db.ops[c.task.key].HoldsMoney() && CancellingHolder(db.ops)
    ensures c.task.Immediate? ==> OpenImmediateIn(db.cancellations, c.task.request)
  {
    if c.task.Resolve? {
      assert OpShape(c.task.key, db.ops[c.task.key]) && OpOnBooking(c.task.key, db.ops[c.task.key], db.booking);
    }
  }

  /** An open dispute is cancelled only by its own decision. */
  lemma CancelsOwnDispute(db: Db, c: Call, r: Id)
    requires Good(db) && Releasing(db) && Fits(db, c) && Cancelling(db.ops, c.task) && !db.booking.Terminal()
               && OpenDisputeIn(db.reports, r)
    ensures CancelsReport(db.ops, r)
  {
    CancellerOwns(db, c);
    if c.task.Resolve? {
      var k := c.task.key;
      assert OpShape(k, db.ops[k]) && OpOnReports(k, db.ops[k], db.reports, db.cancellations);
    }
  }

  lemma CancelLinks(db: Db, c: Call, d: Db)
    requires Good(db) && Releasing(db) && Fits(db, c) && Cancelling(db.ops, c.task) && !db.booking.Terminal()
    requires d.booking.status == Canceled && d.booking.before.None?
    requires d.reports == db.reports && d.cancellations == db.cancellations && d.ops == db.ops
    requires d.gateway == db.gateway && (d.booking.started <==> db.booking.started)
    ensures Linked(db, d)
  {
    forall r | OpenDisputeIn(d.reports, r) ensures CancelsReport(d.ops, r) {
      CancelsOwnDispute(db, c, r);
    }
  }

  /** A refund appears, and belongs to somebody. */
  lemma NewRefundLink(a: Db, d: Db)
    requires StartedFits(a.booking) && d == a.(refund := d.refund) && (CancellingHolder(a.ops) || SomeImmediate(a))
    ensures Linked(a, d)
  {
    assert SomeImmediate(a) ==> SomeImmediate(d);
  }

  lemma RefundReserveLinks(db: Db, c: Call)
    requires Good(db) && Releasing(db) && Fits(db, c) && Cancelling(db.ops, c.task) && RefundReserve(db).Some?
    ensures Linked(db, RefundReserve(db).value)
  {
    if RefundReserve(db).value == db {
      QuietLink(db, db);
    } else {
      CancellerOwns(db, c);
      NewRefundLink(db, RefundReserve(db).value);
    }
  }

  lemma FailedRefundLinks(db: Db)
    requires Releasing(db) && RefundMarkFailed(db).Some?
    ensures Linked(db, RefundMarkFailed(db).value)
  {
    QuietLink(db, db);
  }

  lemma SettleLinks(db: Db, key: CaseKey)
    requires Good(db) && Releasing(db) && Settle(db, true).Some?
    requires key in db.ops && db.ops[key].outcome == ReleaseAndComplete && Rank(db.ops[key].stage) >= 2
    ensures Linked(db, Settle(db, true).value)
  {
    QuietLink(db, db);
    if Settle(db, true).value != db {
      assert OpShape(key, db.ops[key]) && OpOnBooking(key, db.ops[key], db.booking);
      assert db.ops[key].HoldsMoney();
      SettledLink(db);
    }
  }

  lemma SettledLink(db: Db)
    requires Settle(db, true).Some? && Settle(db, true).value != db && ReleasingHolder(db.ops)
               && StartedFits(db.booking)
    ensures Linked(db, Settle(db, true).value)
  {
    MovedLink(db, Settle(db, true).value);
  }

  // ------------------------------------------------------------ finalizing

  /** Closing a decision, with its cases, leaves nothing new. */
  lemma CloseLinks(db: Db, d: Db, key: CaseKey)
    requires StartedFits(db.booking) && key in db.ops && key in d.ops
    requires d.ops == db.ops[key := d.ops[key]] && d.ops[key].status == Done
               && d.ops[key].outcome == db.ops[key].outcome
    requires d.booking == db.booking && d.refund == db.refund && d.gateway == db.gateway
               && d.reports.Keys == db.reports.Keys
    requires d.cancellations.Keys == db.cancellations.Keys
    requires forall c | c in db.cancellations && key != CancellationCase(c) :: d.cancellations[c] == db.cancellations[c]
    ensures Linked(db, d) && NothingNew(db, d)
  {
    QuietLink(db, d);
  }

  lemma RestoreLinks(db: Db, d: Db)
    requires MoneyGood(db.booking, db.queue, db.released) && StartedFits(db.booking)
    requires NothingNew(db, d) && d.booking == db.booking && d.refund == db.refund && d.gateway == db.gateway
    ensures Linked(db, Restore(d))
  {
    if Restore(d) == d {
      QuietLink(db, d);
    } else {
      MovedLink(db, Restore(d));
    }
  }

  lemma FinalizeReportLinks(db: Db, id: Id, a: Account)
    requires Good(db) && Releasing(db) && ReportCase(id) in db.ops && db.ops[ReportCase(id)].status != Done
    requires FinalizeReport(db, id, db.ops[ReportCase(id)].outcome, db.ops[ReportCase(id)].penalty, a).Some?
    ensures Linked(db, FinalizeReport(db, id, db.ops[ReportCase(id)].outcome, db.ops[ReportCase(id)].penalty, a).value)
  {
    var op := db.ops[ReportCase(id)];
    var d := CloseReport(db, id, if op.outcome == Dismiss then RpDismissed
        else RpResolved, AppliedPenalty(op.penalty, a));
    FinalizeReportShape(db, id, op.outcome, op.penalty, a);
    CloseLinks(db, d, ReportCase(id));
    RestoreLinks(db, d);
  }

  lemma FinalizeByAdminLinks(db: Db, id: Id, a: Account)
    requires Good(db) && Releasing(db) && CancellationCase(id) in db.ops && db.ops[CancellationCase(id)].status != Done
    requires var op := db.ops[CancellationCase(id)];
               FinalizeByAdmin(db, id, op.outcome == AdminApprove, op.penalty, a).Some?
    ensures var op := db.ops[CancellationCase(id)];
              Linked(db, FinalizeByAdmin(db, id, op.outcome == AdminApprove, op.penalty, a).value)
  {
    var op := db.ops[CancellationCase(id)];
    var approve := op.outcome == AdminApprove;
    var d := CloseCancellation(db, id, approve, if approve then op.penalty else NoPenalty);
    CloseLinks(db, d, CancellationCase(id));
    RestoreLinks(db, d);
  }

  lemma FinalizeCancellationLinks(db: Db, id: Id, a: Account)
    requires Good(db) && Releasing(db) && CancellationCase(id) in db.ops && db.ops[CancellationCase(id)].status != Done
    requires var op := db.ops[CancellationCase(id)]; Finalize(db, CancellationCase(id), op.outcome, op.penalty, a).Some?
    ensures var op := db.ops[CancellationCase(id)];
              Linked(db, Finalize(db, CancellationCase(id), op.outcome, op.penalty, a).value)
  {
    if db.ops[CancellationCase(id)].outcome == ParticipantApprove {
      CloseLinks(db, FinalizeByParticipant(db, id).value, CancellationCase(id));
    } else {
      FinalizeByAdminLinks(db, id, a);
    }
  }

  lemma FinalizeLinks(db: Db, key: CaseKey, a: Account)
    requires Good(db) && Releasing(db) && key in db.ops
    requires Finalize(db, key, db.ops[key].outcome, db.ops[key].penalty, a).Some?
    ensures Linked(db, Finalize(db, key, db.ops[key].outcome, db.ops[key].penalty, a).value)
  {
    QuietLink(db, db);
    var op := db.ops[key];
    if op.status != Done {
      match key {
        case ReportCase(id) => FinalizeReportLinks(db, id, a);
        case CompletionCase(id) => CloseLinks(db, FinalizeCompletion(db, id, op.outcome).value, key);
        case CancellationCase(id) => FinalizeCancellationLinks(db, id, a);
        case AdminCase => CloseLinks(db, FinalizeAdmin(db, op.outcome).value, key);
      }
    }
  }

  // ----------------------------------------------------------- every step

  lemma CommitLinks(db: Db, r: Option<Db>, c: Call, next: Pc)
    requires StartedFits(db.booking) && (r.Some? ==> Linked(db, r.value))
    ensures Linked(db, Commit(db, r, c, next).0)
  {
    QuietLink(db, db);
  }

  lemma RefundFinalizeLinks(db: Db, c: Call)
    requires Good(db) && Releasing(db) && Fits(db, c) && c.pc.AtRefundFinalize?
    ensures RefundFinalize(db, c.pc.resumed, c.pc.id, c.pc.status).Some? ==>
              Linked(db, RefundFinalize(db, c.pc.resumed, c.pc.id, c.pc.status).value)
  {
    QuietLink(db, db);
    var r := RefundFinalize(db, c.pc.resumed, c.pc.id, c.pc.status);
    if r.Some? && r.value != db { CancelLinks(db, c, r.value); }
  }

  lemma CancelCloseLinks(db: Db, c: Call)
    requires Good(db) && Releasing(db) && Fits(db, c) && c.pc.AtCancelClose?
    ensures CancelClose(db, c.pc.held, c.task.Immediate?).Some? ==>
              Linked(db, CancelClose(db, c.pc.held, c.task.Immediate?).value)
  {
    QuietLink(db, db);
    var r := CancelClose(db, c.pc.held, c.task.Immediate?);
    if r.Some? && r.value != db { CancelLinks(db, c, r.value); }
  }

  lemma ImmediateCloseLinks(db: Db, request: Id)
    requires Releasing(db) && ImmediateClose(db, request).Some?
    ensures Linked(db, ImmediateClose(db, request).value)
  {
    QuietLink(db, ImmediateClose(db, request).value);
  }

  /** The gateway steps of a call. */
  lemma GatewayAdvanceLinks(db: Db, c: Call, a: Account, answer: GatewayAnswer, mint: Id)
    requires Releasing(db) && Fits(db, c) && (c.pc == AtGateway || c.pc == AtGatewayError)
    ensures Linked(db, AdvanceCall(db, c, a, answer, mint).0)
  {
    QuietLink(db, db);
    if c.pc == AtGateway {
      QuietLink(db, db.(gateway := Some(AcceptedRefund(db, mint))));
    } else if RefundMarkFailed(db).Some? {
      FailedRefundLinks(db);
    }
  }

  /** The unlocked reads of a call change nothing. */
  lemma ReadLinks(db: Db, c: Call, a: Account, answer: GatewayAnswer, mint: Id)
    requires Releasing(db) && (c.pc == AtCancelRead || c.pc == AtRefundRead)
    ensures Linked(db, AdvanceCall(db, c, a, answer, mint).0)
  {
    QuietLink(db, db);
  }

  lemma RefundReserveAdvanceLinks(db: Db, c: Call, a: Account, answer: GatewayAnswer, mint: Id)
    requires Good(db) && Releasing(db) && Fits(db, c) && c.pc == AtRefundReserve
    ensures Linked(db, AdvanceCall(db, c, a, answer, mint).0)
  {
    QuietLink(db, db);
    ReservedRows(db, c, a, answer, mint);
    if RefundReserve(db).Some? { RefundReserveLinks(db, c); }
  }

  lemma ReservedRows(db: Db, c: Call, a: Account, answer: GatewayAnswer, mint: Id)
    requires c.pc == AtRefundReserve
    ensures AdvanceCall(db, c, a, answer, mint).0 == if RefundReserve(db).Some? then RefundReserve(db).value else db
  {
  }

  /** The refund and cancellation transactions of a call. */
  lemma CancelAdvanceLinks(db: Db, c: Call, a: Account, answer: GatewayAnswer, mint: Id)
    requires Good(db) && Releasing(db) && Fits(db, c)
    requires c.pc == AtImmediateClose || c.pc.AtRefundFinalize? || c.pc.AtCancelClose?
    ensures Linked(db, AdvanceCall(db, c, a, answer, mint).0)
  {
    match c.pc {
      case AtRefundFinalize(resumed, id, status) =>
        RefundFinalizeLinks(db, c);
        CommitLinks(db, RefundFinalize(db, resumed, id, status), c, AtCancelClose(true));
      case AtCancelClose(held) =>
        CancelCloseLinks(db, c);
        CommitLinks(db, CancelClose(db, held, c.task.Immediate?), c, AfterCancel(c.task));
      case AtImmediateClose =>
        if ImmediateClose(db, c.task.request).Some? { ImmediateCloseLinks(db, c.task.request); }
        CommitLinks(db, ImmediateClose(db, c.task.request), c, Stopped);
    }
  }

  /** The staged steps of a call. */
  lemma StageAdvanceLinks(db: Db, c: Call, a: Account, answer: GatewayAnswer, mint: Id)
    requires Good(db) && Releasing(db) && Fits(db, c)
               && c.pc in {AtReserve, AtSettle, AtMarkEstablished, AtMarkReady, AtFinalize, AtFailure}
    ensures Linked(db, AdvanceCall(db, c, a, answer, mint).0)
  {
    var t := c.task;
    match c.pc {
      case AtReserve =>
        if Reserve(db, t.key).Some? { ReserveLinks(db, t.key); }
        CommitLinks(db, Reserve(db, t.key), c, if Cancels(t.outcome) then AtCancelRead else AtSettle);
      case AtSettle =>
        if Settle(db, true).Some? { SettleLinks(db, t.key); }
        CommitLinks(db, Settle(db, true), c, AtMarkEstablished);
      case AtMarkEstablished =>
        MarkLinks(db, t.key, Established);
        CommitLinks(db, MarkStage(db, t.key, Established), c, AtFinalize);
      case AtMarkReady =>
        MarkLinks(db, t.key, DecisionReady);
        CommitLinks(db, MarkStage(db, t.key, DecisionReady), c, AtFinalize);
      case AtFinalize =>
        if Finalize(db, t.key, t.outcome, t.penalty, a).Some? { FinalizeLinks(db, t.key, a); }
        CommitLinks(db, Finalize(db, t.key, t.outcome, t.penalty, a), c, Stopped);
      case AtFailure => MarkLinks(db, t.key, DecisionReady);
    }
  }

  lemma AdvanceLinks(db: Db, c: Call, a: Account, answer: GatewayAnswer, mint: Id)
    requires Good(db) && Releasing(db) && Fits(db, c)
    ensures Linked(db, AdvanceCall(db, c, a, answer, mint).0)
  {
    if c.pc in {AtReserve, AtSettle, AtMarkEstablished, AtMarkReady, AtFinalize, AtFailure} {
      StageAdvanceLinks(db, c, a, answer, mint);
    } else if c.pc.Stopped? {
      QuietLink(db, db);
    } else if c.pc == AtGateway || c.pc == AtGatewayError {
      GatewayAdvanceLinks(db, c, a, answer, mint);
    } else if c.pc == AtCancelRead || c.pc == AtRefundRead {
      ReadLinks(db, c, a, answer, mint);
    } else if c.pc == AtRefundReserve {
      RefundReserveAdvanceLinks(db, c, a, answer, mint);
    } else {
      CancelAdvanceLinks(db, c, a, answer, mint);
    }
  }

  lemma StepLinks(w: World, s: Step)
    requires WorldGood(w) && Releasing(w.db)
    ensures Linked(w.db, Do(w, s).db)
  {
    if s.FileSafetyReport? || s.FileDispute? || s.FileCancellation? {
      OpenerLinks(w, s);
    } else if s.ProviderAccepts? || s.ProviderDeclines? || s.ProviderStarts? || s.ProviderFinishes?
        || s.SeekerConfirms? {
      LifecycleLinks(w, s);
    } else if s.CallReport? || s.CallCompletion? || s.CallParticipant? || s.CallAdminCancellation?
        || s.CallAdminBooking? {
      ClaimLinks(w, s);
    } else if s.Advance? {
      QuietLink(w.db, w.db);
      if s.tid in w.calls { AdvanceLinks(w.db, w.calls[s.tid], s.a, s.answer, s.mint); }
    } else if s.ReviewReport? || s.ReviewEscalation? || s.FileEscalation? || s.RespondDecline? || s.Escalate? {
      CaseStepLinks(w, s);
    } else {
      CallOnlyStepLinks(w, s);
    }
  }

  lemma StepReleases(w: World, s: Step)
    requires WorldGood(w) && Releasing(w.db)
    ensures Releasing(Do(w, s).db)
  {
    StepLinks(w, s);
    LinkedMeans(w.db, Do(w, s).db);
    StepKeeps(w, s);
    StepPauses(w, s);
    LinkKeeps(w.db, Do(w, s).db);
  }

  lemma {:induction false} RunReleases(w: World, steps: seq<Step>)
    requires WorldGood(w) && Releasing(w.db)
    ensures WorldGood(Run(w, steps)) && Releasing(Run(w, steps).db)
    decreases |steps|
  {
    if steps != [] {
      StepReleases(w, steps[0]);
      StepKeeps(w, steps[0]);
      RunReleases(Do(w, steps[0]), steps[1..]);
    }
  }

  lemma FreshReleases(db: Db)
    requires Fresh(db)
    ensures Releasing(db)
  {
  }
}
