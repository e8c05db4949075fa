/** Finalizing a decision keeps the invariant and closes it once. */
module FinalizeSteps {
  import opened BookingRows
  import opened Transactions
  import opened TransactionShapes
  import opened ResolutionInvariant
  import opened CaseSteps
  import opened DecisionSteps

  lemma ClosuresGrow(ops: map<CaseKey, Operation>, closures: seq<Closure>, key: CaseKey, applied: Penalty)
    requires ClosuresGood(ops, closures) && key in ops && ops[key].status != Done
    requires applied == NoPenalty || applied == ops[key].penalty
    ensures ClosuresGood(ops[key := ops[key].(stage := Finalized, status := Done)], closures + [Closure(key, applied)])
  {
    var ops' := ops[key := ops[key].(stage := Finalized, status := Done)];
    var closures' := closures + [Closure(key, applied)];
    forall k | k in ops' && ops'[k].status == Done ensures exists i | 0 <= i < |closures'| :: closures'[i].key == k {
      if k == key {
        assert closures'[|closures|].key == k;
      } else {
        assert k in ops && ops[k].status == Done;
        var i :| 0 <= i < |closures| && closures[i].key == k;
        assert closures'[i].key == k;
      }
    }
  }

  lemma FinishedOpFits(db: Db, key: CaseKey)
    requires key in db.ops && OpFits(db, key, db.ops[key]) && db.ops[key].status != Done
    requires Financial(db.ops[key].outcome) ==> Reached(db.booking, db.ops[key].outcome)
    ensures OpFits(db, key, db.ops[key].(stage := Finalized, status := Done))
  {
  }

  lemma CloseOpKeeps(db: Db, key: CaseKey, applied: Penalty)
    requires Good(db) && key in db.ops && db.ops[key].status != Done
    requires Financial(db.ops[key].outcome) ==> Reached(db.booking, db.ops[key].outcome)
    requires applied == NoPenalty || applied == db.ops[key].penalty
    ensures var d := CloseOp(db, key, applied); Good(d) && Evolves(db, d)
  {
    EvolvesReflexive(db);
    ClosuresGrow(db.ops, db.closures, key, applied);
    assert OpFits(db, key, db.ops[key]);
    FinishedOpFits(db, key);
    OpReplaced(db, key, db.ops[key].(stage := Finalized, status := Done));
  }

  /** A report whose decision is finished may be closed. */
  lemma CloseReportKeeps(db: Db, id: Id, status: ReportStatus)
    requires Good(db) && id in db.reports && (status == RpResolved || status == RpDismissed)
    requires ReportCase(id) in db.ops ==> db.ops[ReportCase(id)].status == Done
    ensures var d := db.(reports := db.reports[id := db.reports[id].(status := status)]); Good(d) && Evolves(db, d)
  {
    EvolvesReflexive(db);
    var reports := db.reports[id := db.reports[id].(status := status)];
    forall k | k in db.ops ensures OpOnReports(k, db.ops[k], reports, db.cancellations) {
      assert OpOnReports(k, db.ops[k], db.reports, db.cancellations);
    }
  }

  lemma CloseCancellationKeeps(db: Db, id: Id, status: CancelStatus)
    requires Good(db) && id in db.cancellations && (status == CApproved || status == CResolved)
    requires db.cancellations[id].immediate ==> db.booking.status == Canceled
    ensures var d := db.(cancellations := db.cancellations[id := db.cancellations[id].(status := status)]);
              Good(d) && Evolves(db, d)
  {
    EvolvesReflexive(db);
    CalmCancellations(db.ops, db.reports, db.cancellations,
        db.cancellations[id := db.cancellations[id].(status := status)]);
  }

  /** Restoring needs a booking no decision holds. */
  lemma RestoreKeeps(db: Db)
    requires Good(db) && !FinancialReserved(db.ops, None)
    ensures Good(Restore(db)) && Evolves(db, Restore(db))
  {
    EvolvesReflexive(db);
    var d := Restore(db);
    if d != db {
      forall k | k in db.ops ensures OpOnBooking(k, db.ops[k], d.booking) {
        assert OpShape(k, db.ops[k]) && OpOnBooking(k, db.ops[k], db.booking);
      }
    }
  }

  /** While a case is open, a decision without a money outcome on it shows that nobody holds the money. */
  lemma NobodyHolds(db: Db, key: CaseKey)
    requires Good(db) && key in db.ops && !Financial(db.ops[key].outcome)
    requires match key
             case ReportCase(id) => id in db.reports && db.reports[id].Active()
                 && db.reports[id].kind != CancellationEscalation
             case CancellationCase(id) => id in db.cancellations && db.cancellations[id].Active()
             case _ => false
    ensures !FinancialReserved(db.ops, None)
  {
    OwnCaseExcludesOthers(db, key);
    assert OpShape(key, db.ops[key]);
  }

  lemma ReportClosedKeeps(db: Db, id: Id, status: ReportStatus, applied: Penalty)
    requires Good(db) && id in db.reports && (status == RpResolved || status == RpDismissed)
    requires ReportCase(id) in db.ops && db.ops[ReportCase(id)].status != Done
    requires Financial(db.ops[ReportCase(id)].outcome) ==> Reached(db.booking, db.ops[ReportCase(id)].outcome)
    requires applied == NoPenalty || applied == db.ops[ReportCase(id)].penalty
    ensures var d := CloseReport(db, id, status, applied); Good(d) && Evolves(db, d)
  {
    EvolvesReflexive(db);
    var d1 := CloseOp(db, ReportCase(id), applied);
    CloseOpKeeps(db, ReportCase(id), applied);
    CloseReportKeeps(d1, id, status);
    EvolvesTransitive(db, d1, CloseReport(db, id, status, applied));
  }

  lemma ReportOpFacts(db: Db, id: Id)
    requires Good(db) && ReportCase(id) in db.ops
    ensures id in db.reports && db.reports[id].kind != CancellationEscalation
    ensures db.ops[ReportCase(id)].outcome in {Dismiss, ResolveSafety, CancelBooking, ReleaseAndComplete}
  {
    var k := ReportCase(id);
    assert OpShape(k, db.ops[k]) && OpOnReports(k, db.ops[k], db.reports, db.cancellations);
  }

  /** Restoring after a closed case composes with what closing it kept. */
  lemma RestoreAfter(a: Db, d: Db)
    requires Continues(a, d) && !FinancialReserved(d.ops, None)
    ensures Continues(a, Restore(d))
  {
    ContinuesMeans(a, d);
    RestoreKeeps(d);
    EvolvesTransitive(a, d, Restore(d));
  }

  /** `d` is the given closed report decision, in order, with nobody holding the money. */
  lemma ReportClosedQuietly(db: Db, id: Id, status: ReportStatus, applied: Penalty) returns (d: Db)
    requires Good(db) && id in db.reports && db.reports[id].status == RpUnderReview
               && (status == RpResolved || status == RpDismissed)
    requires ReportCase(id) in db.ops && db.ops[ReportCase(id)].status != Done
               && !Financial(db.ops[ReportCase(id)].outcome)
    requires applied == NoPenalty || applied == db.ops[ReportCase(id)].penalty
    ensures d == CloseReport(db, id, status, applied)
    ensures Continues(db, d) && !FinancialReserved(d.ops, None)
  {
    d := CloseReport(db, id, status, applied);
    ReportOpFacts(db, id);
    ReportClosedKeeps(db, id, status, applied);
    QuietAfterReport(db, id, applied);
  }

  lemma ReportRestores(db: Db, id: Id, status: ReportStatus, applied: Penalty)
    requires Good(db) && id in db.reports && db.reports[id].status == RpUnderReview
               && (status == RpResolved || status == RpDismissed)
    requires ReportCase(id) in db.ops && db.ops[ReportCase(id)].status != Done
               && !Financial(db.ops[ReportCase(id)].outcome)
    requires applied == NoPenalty || applied == db.ops[ReportCase(id)].penalty
    ensures Continues(db, Restore(CloseReport(db, id, status, applied)))
  {
    var d := ReportClosedQuietly(db, id, status, applied);
    RestoreAfter(db, d);
  }

  /** Once a decision that moves no money is closed, nobody holds the money. */
  lemma QuietAfterReport(db: Db, id: Id, applied: Penalty)
    requires Good(db) && id in db.reports && db.reports[id].Active() && db.reports[id].kind != CancellationEscalation
    requires ReportCase(id) in db.ops && !Financial(db.ops[ReportCase(id)].outcome)
    ensures !FinancialReserved(CloseOp(db, ReportCase(id), applied).ops, None)
  {
    NobodyHolds(db, ReportCase(id));
    QuietAfterClose(db, ReportCase(id), applied);
  }

  lemma FinalizeReportKeeps(db: Db, id: Id, outcome: Outcome, penalty: Penalty, a: Account)
    requires Good(db) && ReportCase(id) in db.ops
    requires db.ops[ReportCase(id)].outcome == outcome && db.ops[ReportCase(id)].penalty == penalty
    ensures Keeps(db, FinalizeReport(db, id, outcome, penalty, a))
  {
    EvolvesReflexive(db);
    var key := ReportCase(id);
    ReportOpFacts(db, id);
    if FinalizeReport(db, id, outcome, penalty, a).Some? && db.ops[key].status != Done {
      FinalizeReportShape(db, id, outcome, penalty, a);
      if outcome == Dismiss || outcome == ResolveSafety {
        ReportRestores(db, id, if outcome == Dismiss then RpDismissed else RpResolved, AppliedPenalty(penalty, a));
        ContinuesMeans(db, FinalizeReport(db, id, outcome, penalty, a).value);
      } else {
        ReportClosedKeeps(db, id, RpResolved, AppliedPenalty(penalty, a));
      }
    }
  }

  lemma ClosedEscalationFits(ops: map<CaseKey, Operation>, es: map<Id, EscalationStatus>, id: Id)
    requires OpsOnEscalations(ops, es) && id in es && OpenEscalation(es[id])
    requires CompletionCase(id) in ops && ops[CompletionCase(id)].status == Done
    ensures OpsOnEscalations(ops, es[id := EResolved]) && EscalationsEvolve(es, es[id := EResolved])
  {
  }

  lemma FinalizeCompletionKeeps(db: Db, id: Id, outcome: Outcome)
    requires Good(db) && CompletionCase(id) in db.ops && db.ops[CompletionCase(id)].outcome == outcome
    ensures Keeps(db, FinalizeCompletion(db, id, outcome))
  {
    EvolvesReflexive(db);
    var key := CompletionCase(id);
    var r := FinalizeCompletion(db, id, outcome);
    if r.Some? && db.ops[key].status != Done {
      assert OpShape(key, db.ops[key]);
      var d := CloseOp(db, key, NoPenalty);
      CloseOpKeeps(db, key, NoPenalty);
      ClosedEscalationFits(d.ops, d.escalations, id);
    }
  }

  /** The decision closed, and the report behind its request, if it has one. */
  lemma ApprovedClosesReport(db: Db, id: Id) returns (d: Db)
    requires Good(db) && CancellationCase(id) in db.ops && db.ops[CancellationCase(id)].outcome == ParticipantApprove
    requires FinalizeByParticipant(db, id).Some? && db.ops[CancellationCase(id)].status != Done
    ensures Continues(db, d) && id in db.cancellations && CancelSettled(db.booking)
    ensures d == CloseOp(db, CancellationCase(id), NoPenalty).(reports := FinalizeByParticipant(db, id).value.reports)
  {
    var r := FinalizeByParticipant(db, id).value;
    var c := db.cancellations[id];
    var d1 := CloseOp(db, CancellationCase(id), NoPenalty);
    CloseOpKeeps(db, CancellationCase(id), NoPenalty);
    d := d1;
    if r.reports != db.reports {
      d := d1.(reports := d1.reports[c.report.value := d1.reports[c.report.value].(status := RpResolved)]);
      LinkedReportIsNotDecided(d1, id);
      CloseReportKeeps(d1, c.report.value, RpResolved);
      EvolvesTransitive(db, d1, d);
    }
  }

  /** Then the request itself is approved. */
  lemma ApprovedRequest(a: Db, d: Db, id: Id)
    requires Continues(a, d) && id in d.cancellations && d.booking.status == Canceled
    ensures Continues(a, d.(cancellations := d.cancellations[id := d.cancellations[id].(status := CApproved)]))
  {
    ContinuesMeans(a, d);
    CloseCancellationKeeps(d, id, CApproved);
    EvolvesTransitive(a, d, d.(cancellations := d.cancellations[id := d.cancellations[id].(status := CApproved)]));
  }

  lemma FinalizeByParticipantKeeps(db: Db, id: Id)
    requires Good(db) && CancellationCase(id) in db.ops && db.ops[CancellationCase(id)].outcome == ParticipantApprove
    ensures Keeps(db, FinalizeByParticipant(db, id))
  {
    EvolvesReflexive(db);
    var r := FinalizeByParticipant(db, id);
    if r.Some? && db.ops[CancellationCase(id)].status != Done {
      var d := ApprovedClosesReport(db, id);
      ApprovedRequest(db, d, id);
      ContinuesMeans(db, r.value);
    }
  }

  lemma LinkedReportIsNotDecided(db: Db, id: Id)
    requires Good(db) && id in db.cancellations && db.cancellations[id].report.Some?
    ensures db.cancellations[id].report.value in db.reports && ReportCase(db.cancellations[id].report.value) !in db.ops
  {
    var k := ReportCase(db.cancellations[id].report.value);
    if k in db.ops && OpOnReports(k, db.ops[k], db.reports, db.cancellations) {
      assert false;
    }
  }

  /** Closing the decision and the escalation report behind a cancellation. */
  lemma OpAndReportClosedKeeps(db: Db, id: Id, status: ReportStatus, applied: Penalty)
    requires Good(db) && id in db.cancellations && CancellationCase(id) in db.ops
               && db.ops[CancellationCase(id)].status != Done
    requires db.cancellations[id].report.Some? && db.cancellations[id].report.value in db.reports
    requires status == RpResolved || status == RpDismissed
    requires Financial(db.ops[CancellationCase(id)].outcome) ==>
               Reached(db.booking, db.ops[CancellationCase(id)].outcome)
    requires applied == NoPenalty || applied == db.ops[CancellationCase(id)].penalty
    ensures var d := CloseOp(db, CancellationCase(id), applied);
            var r := db.cancellations[id].report.value;
            var closed := d.(reports := d.reports[r := d.reports[r].(status := status)]);
            Good(closed) && Evolves(db, closed)
  {
    var r := db.cancellations[id].report.value;
    var d := CloseOp(db, CancellationCase(id), applied);
    CloseOpKeeps(db, CancellationCase(id), applied);
    LinkedReportIsNotDecided(d, id);
    CloseReportKeeps(d, r, status);
    EvolvesTransitive(db, d, d.(reports := d.reports[r := d.reports[r].(status := status)]));
  }

  lemma CancellationClosedKeeps(db: Db, id: Id, approve: bool, applied: Penalty)
    requires Good(db) && id in db.cancellations && CancellationCase(id) in db.ops
               && db.ops[CancellationCase(id)].status != Done
    requires db.cancellations[id].report.Some? && db.cancellations[id].report.value in db.reports
    requires Financial(db.ops[CancellationCase(id)].outcome) ==>
               Reached(db.booking, db.ops[CancellationCase(id)].outcome)
    requires applied == NoPenalty || applied == db.ops[CancellationCase(id)].penalty
    ensures Continues(db, CloseCancellation(db, id, approve, applied))
  {
    var r := db.cancellations[id].report.value;
    var status := if approve then RpResolved else RpDismissed;
    var d := CloseOp(db, CancellationCase(id), applied);
    var closed := d.(reports := d.reports[r := d.reports[r].(status := status)]);
    OpAndReportClosedKeeps(db, id, status, applied);
    CloseCancellationKeeps(closed, id, CResolved);
    EvolvesTransitive(db, closed, CloseCancellation(db, id, approve, applied));
  }

  lemma DeniedRestores(db: Db, d: Db, id: Id)
    requires Good(db) && CancellationCase(id) in db.ops && db.ops[CancellationCase(id)].outcome == AdminDeny
    requires id in db.cancellations && db.cancellations[id].Active()
    requires Continues(db, d) && d.ops == CloseOp(db, CancellationCase(id), NoPenalty).ops
    ensures Continues(db, Restore(d))
  {
    NobodyHolds(db, CancellationCase(id));
    QuietAfterClose(db, CancellationCase(id), NoPenalty);
    RestoreAfter(db, d);
  }

  lemma FinalizeByAdminKeeps(db: Db, id: Id, approve: bool, penalty: Penalty, a: Account)
    requires Good(db) && CancellationCase(id) in db.ops
    requires db.ops[CancellationCase(id)].outcome == (if approve then AdminApprove else AdminDeny)
    requires db.ops[CancellationCase(id)].penalty == penalty
    ensures Keeps(db, FinalizeByAdmin(db, id, approve, penalty, a))
  {
    EvolvesReflexive(db);
    var key := CancellationCase(id);
    var r := FinalizeByAdmin(db, id, approve, penalty, a);
    if r.Some? && db.ops[key].status != Done {
      var applied := if approve then penalty else NoPenalty;
      var d := CloseCancellation(db, id, approve, applied);
      CancellationClosedKeeps(db, id, approve, applied);
      if !approve {
        DeniedRestores(db, d, id);
      }
      ContinuesMeans(db, r.value);
    }
  }

  lemma FinalizeAdminKeeps(db: Db, outcome: Outcome)
    requires Good(db) && AdminCase in db.ops && db.ops[AdminCase].outcome == outcome
    ensures Keeps(db, FinalizeAdmin(db, outcome))
  {
    EvolvesReflexive(db);
    var r := FinalizeAdmin(db, outcome);
    if r.Some? && r.value != db {
      assert OpShape(AdminCase, db.ops[AdminCase]);
      CloseOpKeeps(db, AdminCase, NoPenalty);
    }
  }

  lemma FinalizeKeeps(db: Db, key: CaseKey, a: Account)
    requires Good(db) && key in db.ops
    ensures Keeps(db, Finalize(db, key, db.ops[key].outcome, db.ops[key].penalty, a))
  {
    EvolvesReflexive(db);
    var op := db.ops[key];
    assert OpShape(key, op);
    match key {
      case ReportCase(id) => FinalizeReportKeeps(db, id, op.outcome, op.penalty, a);
      case CompletionCase(id) => FinalizeCompletionKeeps(db, id, op.outcome);
      case CancellationCase(id) =>
        if op.outcome == ParticipantApprove { FinalizeByParticipantKeeps(db, id); }
        else { FinalizeByAdminKeeps(db, id, op.outcome == AdminApprove, op.penalty, a); }
      case AdminCase => FinalizeAdminKeeps(db, op.outcome);
    }
  }
}
