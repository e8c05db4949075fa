/** Claiming a decision keeps the invariant. */
module ClaimSteps {
  import opened BookingRows
  import opened Transactions
  import opened TransactionShapes
  import opened ResolutionInvariant
  import opened CaseSteps
  import opened DecisionSteps

  lemma BeginKeeps(db: Db, key: CaseKey, outcome: Outcome, penalty: Penalty)
    requires Good(db)
    requires key !in db.ops ==> OpFits(db, key, Operation(Claimed, Processing, outcome, penalty))
    ensures Keeps(db, BeginResolution(db, key, outcome, penalty))
  {
    EvolvesReflexive(db);
    if BeginResolution(db, key, outcome, penalty).Some? {
      var op := BeginShape(db, key, outcome, penalty);
      if key in db.ops && db.ops[key].Finished() {
        assert db.ops[key := op] == db.ops;
      } else {
        if key in db.ops {
          assert OpFits(db, key, db.ops[key]);
        }
        OpUpdateKeeps(db, key, op);
      }
    }
  }

  lemma ReconcileKeeps(db: Db, key: CaseKey)
    requires Good(db) && key in db.ops && Financial(db.ops[key].outcome)
    ensures Keeps(db, Reconcile(db, key, db.ops[key].outcome))
  {
    EvolvesReflexive(db);
    if db.ops[key].stage == Reserved && Reached(db.booking, db.ops[key].outcome) {
      MarkStageKeeps(db, key, Established);
    }
  }

  lemma AdoptKeeps(db: Db, key: CaseKey, outcome: Outcome, penalty: Penalty)
    requires Good(db)
    requires key !in db.ops ==> OpFits(db, key, Operation(Claimed, Processing, outcome, penalty))
    ensures Keeps(db, Adopt(db, key, outcome, penalty))
  {
    if Adopt(db, key, outcome, penalty).Some? {
      var d, op := BegunContinues(db, key, outcome, penalty);
      if Financial(outcome) { ReconciledKeeps(db, d, key, outcome); }
      ContinuesMeans(db, Adopt(db, key, outcome, penalty).value);
    }
  }

  lemma BegunContinues(db: Db, key: CaseKey, outcome: Outcome, penalty: Penalty) returns (d: Db, op: Operation)
    requires Good(db) && BeginResolution(db, key, outcome, penalty).Some?
    requires key !in db.ops ==> OpFits(db, key, Operation(Claimed, Processing, outcome, penalty))
    ensures BeginResolution(db, key, outcome, penalty) == Some(d) && d == db.(ops := db.ops[key := op])
    ensures Continues(db, d) && op.outcome == outcome
  {
    op := BeginShape(db, key, outcome, penalty);
    d := db.(ops := db.ops[key := op]);
    BeginKeeps(db, key, outcome, penalty);
    ContinuesMeans(db, d);
  }

  /** Adopting a committed effect composes with what beginning the decision kept. */
  lemma ReconciledKeeps(a: Db, d: Db, key: CaseKey, outcome: Outcome)
    requires Continues(a, d) && key in d.ops && d.ops[key].outcome == outcome && Financial(outcome)
    requires Reconcile(d, key, outcome).Some?
    ensures Continues(a, Reconcile(d, key, outcome).value)
  {
    ContinuesMeans(a, d);
    ReconcileKeeps(d, key);
    EvolvesTransitive(a, d, Reconcile(d, key, outcome).value);
  }

  /** A claim's last write only moves its own open case under review. */
  lemma ReviewReportKeeps(db: Db, id: Id)
    requires Good(db) && id in db.reports && db.reports[id].Active()
    ensures Keeps(db, Some(db.(reports := db.reports[id := db.reports[id].(status := RpUnderReview)])))
  {
    EvolvesReflexive(db);
    CalmReports(db.ops, db.reports, db.reports[id := db.reports[id].(status := RpUnderReview)], db.cancellations,
        Parked(db.booking));
  }

  lemma ReviewCancellationKeeps(db: Db, id: Id)
    requires Good(db) && id in db.cancellations && db.cancellations[id].Active()
    ensures Keeps(db, Some(db.(cancellations := db.cancellations[id := db.cancellations[id].(status := CUnderReview)])))
  {
    EvolvesReflexive(db);
    CalmCancellations(db.ops, db.reports, db.cancellations,
        db.cancellations[id := db.cancellations[id].(status := CUnderReview)]);
  }

  lemma ReviewEscalationKeeps(db: Db, id: Id)
    requires Good(db) && id in db.escalations && OpenEscalation(db.escalations[id])
    ensures Keeps(db, Some(db.(escalations := db.escalations[id := EUnderReview])))
  {
    EvolvesReflexive(db);
    CalmEscalations(db.ops, db.escalations, id);
  }

  lemma NewReportOpFits(db: Db, id: Id, outcome: Outcome, penalty: Penalty)
    requires Good(db) && id in db.reports && OutcomeAllowed(db.booking, db.reports[id], outcome)
    ensures OpFits(db, ReportCase(id), Operation(Claimed, Processing, outcome, penalty))
  {
  }

  lemma ClaimReportKeeps(db: Db, id: Id, outcome: Outcome, penalty: Penalty, a: Account)
    requires Good(db)
    ensures Keeps(db, ClaimReport(db, id, outcome, penalty, a))
  {
    EvolvesReflexive(db);
    var r := ClaimReport(db, id, outcome, penalty, a);
    if r.Some? && r.value != db {
      ClaimReportShape(db, id, outcome, penalty, a);
      var op := AdoptShape(db, ReportCase(id), outcome, penalty);
      var d := Adopt(db, ReportCase(id), outcome, penalty).value;
      if ReportCase(id) !in db.ops {
        NewReportOpFits(db, id, outcome, penalty);
      }
      AdoptKeeps(db, ReportCase(id), outcome, penalty);
      if r.value != d {
        ReviewReportKeeps(d, id);
        Chain(db, d, r.value);
      }
    }
  }

  lemma NewCompletionOpFits(db: Db, id: Id, outcome: Outcome)
    requires Good(db) && id in db.escalations && outcome in {ReleaseAndComplete, RefundSeeker, KeepAwaiting}
    ensures OpFits(db, CompletionCase(id), Operation(Claimed, Processing, outcome, NoPenalty))
  {
  }

  lemma ClaimCompletionKeeps(db: Db, id: Id, outcome: Outcome)
    requires Good(db)
    ensures Keeps(db, ClaimCompletion(db, id, outcome))
  {
    EvolvesReflexive(db);
    var r := ClaimCompletion(db, id, outcome);
    if r.Some? && r.value != db {
      ClaimCompletionShape(db, id, outcome);
      var op := AdoptShape(db, CompletionCase(id), outcome, NoPenalty);
      NewCompletionOpFits(db, id, outcome);
      var d := Adopt(db, CompletionCase(id), outcome, NoPenalty).value;
      AdoptKeeps(db, CompletionCase(id), outcome, NoPenalty);
      if r.value != d {
        ReviewEscalationKeeps(d, id);
        Chain(db, d, r.value);
      }
    }
  }

  lemma NewCancellationOpFits(db: Db, id: Id, outcome: Outcome, penalty: Penalty)
    requires id in db.cancellations && outcome in {ParticipantApprove, AdminApprove, AdminDeny}
    requires outcome != ParticipantApprove ==> db.cancellations[id].report.Some?
    requires penalty == NoPenalty || (penalty.Fault? && outcome == AdminApprove && db.booking.started)
    ensures OpFits(db, CancellationCase(id), Operation(Claimed, Processing, outcome, penalty))
  {
  }

  lemma ClaimByParticipantKeeps(db: Db, id: Id)
    requires Good(db)
    ensures Keeps(db, ClaimByParticipant(db, id))
  {
    EvolvesReflexive(db);
    var r := ClaimByParticipant(db, id);
    if r.Some? && r.value != db {
      var d := BeginResolution(db, CancellationCase(id), ParticipantApprove, NoPenalty).value;
      var op := BeginShape(db, CancellationCase(id), ParticipantApprove, NoPenalty);
      NewCancellationOpFits(db, id, ParticipantApprove, NoPenalty);
      BeginKeeps(db, CancellationCase(id), ParticipantApprove, NoPenalty);
      if r.value != d {
        ReviewCancellationKeeps(d, id);
        Chain(db, d, r.value);
      }
    }
  }

  lemma ReviewLinkedKeeps(db: Db, id: Id)
    requires Good(db) && id in db.cancellations && db.cancellations[id].Active()
    requires db.cancellations[id].report.Some? && db.cancellations[id].report.value in db.reports
    ensures Keeps(db, Some(db.(cancellations := db.cancellations[id := db.cancellations[id].(status := CUnderReview)],
                               reports := ReviewLinkedReport(db.reports, db.cancellations[id].report.value,
                                   RpUnderReview))))
  {
    var rep := db.cancellations[id].report.value;
    var d := db.(cancellations := db.cancellations[id := db.cancellations[id].(status := CUnderReview)]);
    ReviewCancellationKeeps(db, id);
    if d.reports[rep].Active() {
      ReviewReportKeeps(d, rep);
      EvolvesTransitive(db, d, d.(reports := d.reports[rep := d.reports[rep].(status := RpUnderReview)]));
    }
  }

  lemma ClaimByAdminKeeps(db: Db, id: Id, approve: bool, fault: Option<Participant>)
    requires Good(db)
    ensures Keeps(db, ClaimByAdmin(db, id, approve, fault))
  {
    EvolvesReflexive(db);
    var key := CancellationCase(id);
    var r := ClaimByAdmin(db, id, approve, fault);
    if r.Some? && r.value != db {
      var outcome := if approve then AdminApprove else AdminDeny;
      var penalty := FaultFinding(fault);
      ClaimByAdminShape(db, id, approve, fault);
      var d := BeginResolution(db, key, outcome, penalty).value;
      var op := BeginShape(db, key, outcome, penalty);
      if key !in db.ops {
        NewCancellationOpFits(db, id, outcome, penalty);
      }
      BeginKeeps(db, key, outcome, penalty);
      if r.value != d {
        ReviewLinkedKeeps(d, id);
        Chain(db, d, r.value);
      }
    }
  }

  lemma AdminReservedKeeps(db: Db, outcome: Outcome)
    requires Good(db) && AdminCase !in db.ops && outcome in {CancelBooking, ReleaseAndComplete}
    requires !Parked(db.booking) && db.booking.status != Declined
    requires !OtherBlockingCase(db, None, None, None) && !FinancialReserved(db.ops, Some(AdminCase))
    ensures Good(AdminReserved(db, outcome)) && Evolves(db, AdminReserved(db, outcome))
  {
    var d := db.(booking := db.booking.(status := UnderReview, before := Some(db.booking.status)));
    ReviewKeeps(db);
    OpUpdateKeeps(d, AdminCase, Operation(Reserved, Processing, outcome, NoPenalty));
    EvolvesTransitive(db, d, AdminReserved(db, outcome));
  }

  lemma ClaimAdminKeeps(db: Db, outcome: Outcome, banned: bool, requireBanned: bool)
    requires Good(db)
    ensures Keeps(db, ClaimAdmin(db, outcome, banned, requireBanned))
  {
    if ClaimAdmin(db, outcome, banned, requireBanned).Some? {
      if AdminCase in db.ops {
        RepeatedAdminKeeps(db, outcome, banned, requireBanned);
      } else {
        ClaimAdminShape(db, outcome, banned, requireBanned);
        AdminReservedKeeps(db, outcome);
      }
    }
  }

  lemma RepeatedAdminKeeps(db: Db, outcome: Outcome, banned: bool, requireBanned: bool)
    requires Good(db) && AdminCase in db.ops
    ensures Keeps(db, ClaimAdmin(db, outcome, banned, requireBanned))
  {
    EvolvesReflexive(db);
    AdoptKeeps(db, AdminCase, outcome, NoPenalty);
    if ClaimAdmin(db, outcome, banned, requireBanned).Some? {
      assert OpShape(AdminCase, db.ops[AdminCase]);
      RepeatedAdminAdopts(db, outcome, banned, requireBanned);
    }
  }

  /** A repeated direct decision leaves the rows alone or adopts what was committed. */
  lemma RepeatedAdminAdopts(db: Db, outcome: Outcome, banned: bool, requireBanned: bool)
    requires AdminCase in db.ops && OpShape(AdminCase, db.ops[AdminCase])
               && ClaimAdmin(db, outcome, banned, requireBanned).Some?
    ensures var r := ClaimAdmin(db, outcome, banned, requireBanned);
            r == Some(db) || r == Adopt(db, AdminCase, outcome, NoPenalty)
  {
  }
}
