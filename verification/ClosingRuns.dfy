/** What a closure says, over every run: which call added it, where the booking was, and the penalty that took
    effect. */
module ClosingRuns {
  import opened BookingRows
  import opened Transactions
  import opened TransactionShapes
  import opened Interleaving
  import opened ResolutionInvariant
  import opened ResolutionSafety
  import opened ResolutionRuns
  import opened CrashRecovery
  import opened CallEffects

  /** The booking bears out a decision that moves money. */
  predicate BornOut(b: Booking, outcome: Outcome) {
    match outcome
    case CancelBooking | RefundSeeker | ParticipantApprove | AdminApprove => b.status == Canceled
    case ReleaseAndComplete => b.status == Completed
    case _ => true
  }

  /** The step finished the decision a call was for: its record and one closure, which applies the recorded penalty,
      except that a report's penalty is dropped when the account the call read may not receive it. */
  ghost predicate ClosesDecision(db: Db, d: Db, c: Call, a: Account) {
    && c.task.Resolve? && c.pc == AtFinalize && c.task.key in db.ops && db.ops[c.task.key].status != Done
    && c.task.key in d.ops && d.ops[c.task.key].status == Done
    && BornOut(d.booking, db.ops[c.task.key].outcome)
    && d.closures == db.closures + [Closure(c.task.key, if c.task.key.ReportCase? && !a.penaltyAllowed then NoPenalty
                                                        else db.ops[c.task.key].penalty)]
  }

  lemma FinalizeCloses(db: Db, c: Call, a: Account, answer: GatewayAnswer, mint: Id)
    requires c.task.Resolve? && c.pc == AtFinalize && c.task.key in db.ops
    requires var op := db.ops[c.task.key]; op.outcome == c.task.outcome && op.penalty == c.task.penalty
                                           && Outcomes(c.task.key, op)
    ensures var d := AdvanceCall(db, c, a, answer, mint).0;
            d == db || ClosesDecision(db, d, c, a)
  {
    match c.task.key {
      case ReportCase(id) => ReportFinalizes(db, id, c.task.outcome, c.task.penalty, a, answer, mint);
      case CompletionCase(id) => CompletionFinalizes(db, id, c.task.outcome, c.task.penalty, a, answer, mint);
      case CancellationCase(id) =>
        if c.task.outcome == ParticipantApprove {
          ApprovalFinalizes(db, id, c.task.penalty, a, answer, mint);
        } else {
          CancellationFinalizes(db, id, c.task.outcome == AdminApprove, c.task.penalty, a, answer, mint);
        }
      case AdminCase => DirectFinalizes(db, c.task.outcome, c.task.penalty, a, answer, mint);
    }
  }

  /** The outcomes each kind of decision can have, and which of them carry a penalty. */
  predicate Outcomes(key: CaseKey, op: Operation) {
    match key
    case ReportCase(_) => op.outcome in {Dismiss, ResolveSafety, CancelBooking, ReleaseAndComplete}
    case CompletionCase(_) => op.outcome in {ReleaseAndComplete, RefundSeeker, KeepAwaiting} && op.penalty == NoPenalty
    case CancellationCase(_) =>
      op.outcome == AdminApprove || (op.outcome in {ParticipantApprove, AdminDeny} && op.penalty == NoPenalty)
    case AdminCase => op.outcome in {CancelBooking, ReleaseAndComplete} && op.penalty == NoPenalty
  }

  /** Only the finalizing transaction adds closures. */
  lemma OthersCloseNothing(db: Db, c: Call, a: Account, answer: GatewayAnswer, mint: Id)
    requires c.pc != AtFinalize
    ensures AdvanceCall(db, c, a, answer, mint).0.closures == db.closures
  {
  }

  lemma ReportClaimsCloseNothing(db: Db, id: Id, outcome: Outcome, penalty: Penalty, a: Account)
    ensures ClaimReport(db, id, outcome, penalty, a).Some? ==>
              ClaimReport(db, id, outcome, penalty, a).value.closures == db.closures
  {
    var r := ClaimReport(db, id, outcome, penalty, a);
    if r.Some? && r.value != db {
      ClaimReportShape(db, id, outcome, penalty, a);
      var op := AdoptShape(db, ReportCase(id), outcome, penalty);
    }
  }

  lemma CompletionClaimsCloseNothing(db: Db, id: Id, outcome: Outcome)
    ensures ClaimCompletion(db, id, outcome).Some? ==> ClaimCompletion(db, id, outcome).value.closures == db.closures
  {
    var r := ClaimCompletion(db, id, outcome);
    if r.Some? && r.value != db {
      ClaimCompletionShape(db, id, outcome);
      var op := AdoptShape(db, CompletionCase(id), outcome, NoPenalty);
    }
  }

  lemma ApprovalsCloseNothing(db: Db, id: Id)
    ensures ClaimByParticipant(db, id).Some? ==> ClaimByParticipant(db, id).value.closures == db.closures
  {
  }

  lemma AdminClaimsCloseNothing(db: Db, id: Id, approve: bool, fault: Option<Participant>)
    ensures ClaimByAdmin(db, id, approve, fault).Some? ==>
              ClaimByAdmin(db, id, approve, fault).value.closures == db.closures
  {
  }

  lemma DirectClaimsCloseNothing(db: Db, outcome: Outcome, banned: bool, requireBanned: bool)
    ensures ClaimAdmin(db, outcome, banned, requireBanned).Some? ==>
              ClaimAdmin(db, outcome, banned, requireBanned).value.closures == db.closures
  {
  }

  lemma ParticipantsCloseNothing(w: World, s: Step)
    requires !s.Advance?
    ensures Do(w, s).db.closures == w.db.closures
  {
    match s {
      case CallReport(_, id, outcome, penalty, a) => ReportClaimsCloseNothing(w.db, id, outcome, penalty, a);
      case CallCompletion(_, id, outcome) => CompletionClaimsCloseNothing(w.db, id, outcome);
      case CallParticipant(_, id) => ApprovalsCloseNothing(w.db, id);
      case CallAdminCancellation(_, id, approve, fault) => AdminClaimsCloseNothing(w.db, id, approve, fault);
      case CallAdminBooking(_, outcome, banned, requireBanned) =>
        DirectClaimsCloseNothing(w.db, outcome, banned, requireBanned);
      case _ => if Files(s) { FilingClosesNothing(w, s); } else { OpenersCloseNothing(w, s); }
    }
  }

  predicate Files(s: Step) { s.FileSafetyReport? || s.FileDispute? || s.FileCancellation? || s.FileEscalation? }

  lemma FilingClosesNothing(w: World, s: Step)
    requires Files(s)
    ensures Do(w, s).db.closures == w.db.closures
  {
  }

  lemma OpenersCloseNothing(w: World, s: Step)
    requires !Files(s) && !s.Advance? && !s.CallReport? && !s.CallCompletion? && !s.CallParticipant?
               && !s.CallAdminCancellation?
               && !s.CallAdminBooking?
    ensures Do(w, s).db.closures == w.db.closures
  {
  }

  /** Over every run: rows get closures only from a call that finishes its decision, one at a time, and each applies
      what the decision recorded, unless it is a report's penalty that the account may no longer receive. */
  lemma ClosesAsRecorded(db: Db, steps: seq<Step>, s: Step)
    requires Fresh(db)
    ensures var w := Run(World(db, map[]), steps);
            var d := Do(w, s).db;
            || d.closures == w.db.closures
            || (s.Advance? && s.tid in w.calls && ClosesDecision(w.db, d, w.calls[s.tid], s.a))
  {
    var w := Run(World(db, map[]), steps);
    FreshIsGood(db);
    RunKeeps(World(db, map[]), steps);
    if !s.Advance? {
      ParticipantsCloseNothing(w, s);
    } else if s.tid in w.calls {
      var c := w.calls[s.tid];
      assert Fits(w.db, c);
      if c.task.Resolve? { assert OpShape(c.task.key, w.db.ops[c.task.key]); }
      if c.pc == AtFinalize { FinalizeCloses(w.db, c, s.a, s.answer, s.mint); } else {
        OthersCloseNothing(w.db, c, s.a, s.answer, s.mint);
      }
    }
  }

  // ------------------------------------------------------ a call on its own

  /** What an undisturbed call adds to the closures: nothing, or the one of its decision. */
  ghost predicate SoloCloses(db: Db, d: Db, t: Task, a: Account) {
    && t.Resolve? && t.key in db.ops && t.key in d.ops && (db.ops[t.key].status == Done ==> d.ops[t.key].status == Done)
    && if db.ops[t.key].status != Done && d.ops[t.key].status == Done then ClosedOnce(db, d, t, a)
       else d.closures == db.closures
  }

  lemma OneClosing(db: Db, c: Call, a: Account, answer: GatewayAnswer, mint: Id)
    requires c.task.Resolve? && c.task.key.ReportCase? && c.task.key in db.ops
    ensures var p := AdvanceCall(db, c, a, answer, mint);
            p.1.task == c.task && SoloCloses(db, p.0, c.task, a)
  {
    if c.pc == AtFinalize {
      if FinalizeReport(db, c.task.key.id, c.task.outcome, c.task.penalty, a).Some? {
        ReportClosesOnce(db, c.task.key.id, c.task.outcome, c.task.penalty, a);
      }
    } else {
      OthersCloseNothing(db, c, a, answer, mint);
      DoneStays(db, c, a, answer, mint);
    }
  }

  lemma ReportClosesOnce(db: Db, id: Id, outcome: Outcome, penalty: Penalty, a: Account)
    requires ReportCase(id) in db.ops && FinalizeReport(db, id, outcome, penalty, a).Some?
    ensures SoloCloses(db, FinalizeReport(db, id, outcome, penalty, a).value,
              Resolve(ReportCase(id), outcome, penalty), a)
  {
  }

  lemma DoneStays(db: Db, c: Call, a: Account, answer: GatewayAnswer, mint: Id)
    requires c.task.Resolve? && c.task.key in db.ops && c.pc != AtFinalize
    ensures var p := AdvanceCall(db, c, a, answer, mint);
            p.1.task == c.task && c.task.key in p.0.ops
            && (p.0.ops[c.task.key].status == Done <==> db.ops[c.task.key].status == Done)
  {
  }

  lemma {:induction false} AloneCloses(db: Db, c: Call, a: Account, answer: GatewayAnswer, mint: Id, n: nat)
    requires c.task.Resolve? && c.task.key.ReportCase? && c.task.key in db.ops
    ensures SoloCloses(db, Alone(db, c, a, answer, mint, n), c.task, a)
    decreases n
  {
    if n > 0 {
      var (d, c') := AdvanceCall(db, c, a, answer, mint);
      OneClosing(db, c, a, answer, mint);
      AloneCloses(d, c', a, answer, mint, n - 1);
    }
  }

  /** A claim finishes nothing. */
  lemma ReportClaimsFinishNothing(db: Db, id: Id, outcome: Outcome, penalty: Penalty, a: Account)
    requires ClaimReport(db, id, outcome, penalty, a).Some?
    ensures var d := ClaimReport(db, id, outcome, penalty, a).value;
            ReportCase(id) in d.ops && d.ops[ReportCase(id)].status == Done ==>
              ReportCase(id) in db.ops && db.ops[ReportCase(id)].status == Done
  {
    if ClaimReport(db, id, outcome, penalty, a).value != db {
      ClaimReportShape(db, id, outcome, penalty, a);
      AdoptFinishesNothing(db, ReportCase(id), outcome, penalty);
    }
  }

  lemma AdoptFinishesNothing(db: Db, key: CaseKey, outcome: Outcome, penalty: Penalty)
    requires Adopt(db, key, outcome, penalty).Some?
    ensures var d := Adopt(db, key, outcome, penalty).value;
            key in d.ops && (d.ops[key].status == Done ==> key in db.ops && db.ops[key].status == Done)
  {
    var op := BeginShape(db, key, outcome, penalty);
    AdoptionInWork(db.(ops := db.ops[key := op]), key, outcome);
  }

  lemma AdoptionInWork(db: Db, key: CaseKey, outcome: Outcome)
    requires key in db.ops && Reconcile(db, key, outcome).Some?
    ensures var d := Reconcile(db, key, outcome).value;
            key in d.ops && (d.ops[key].status == Done ==> db.ops[key].status == Done)
  {
  }
}
