/** What the larger claim and finalize transactions come down to. */
module TransactionShapes {
  import opened BookingRows
  import opened Transactions

  lemma BeginShape(db: Db, key: CaseKey, outcome: Outcome, penalty: Penalty) returns (op: Operation)
    requires BeginResolution(db, key, outcome, penalty).Some?
    ensures BeginResolution(db, key, outcome, penalty).value == db.(ops := db.ops[key := op])
    ensures op.outcome == outcome && op.penalty == penalty
    ensures key !in db.ops ==> op == Operation(Claimed, Processing, outcome, penalty)
    ensures key in db.ops ==> op == if db.ops[key].Finished() then db.ops[key] else db.ops[key].(status := Processing)
  {
    if key in db.ops {
      if db.ops[key].Finished() {
        op := db.ops[key];
        assert db.ops == db.ops[key := op];
      } else {
        op := db.ops[key].(status := Processing);
      }
    } else {
      op := Operation(Claimed, Processing, outcome, penalty);
    }
  }

  lemma AdoptShape(db: Db, key: CaseKey, outcome: Outcome, penalty: Penalty) returns (op: Operation)
    requires Adopt(db, key, outcome, penalty).Some?
    ensures Adopt(db, key, outcome, penalty).value == db.(ops := db.ops[key := op])
    ensures op.outcome == outcome && op.penalty == penalty
  {
    op := BeginShape(db, key, outcome, penalty);
    var begun := db.(ops := db.ops[key := op]);
    if Adopt(db, key, outcome, penalty).value != begun {
      assert db.ops[key := op][key := op.(stage := Established, status := Processing)]
          == db.ops[key := op.(stage := Established, status := Processing)];
      op := op.(stage := Established, status := Processing);
    }
  }

  lemma ClaimReportShape(db: Db, id: Id, outcome: Outcome, penalty: Penalty, a: Account)
    requires ClaimReport(db, id, outcome, penalty, a).Some? && ClaimReport(db, id, outcome, penalty, a).value != db
    ensures id in db.reports && db.reports[id].Active() && Adopt(db, ReportCase(id), outcome, penalty).Some?
    ensures ReportCase(id) !in db.ops ==> OutcomeAllowed(db.booking, db.reports[id], outcome)
    ensures var d := Adopt(db, ReportCase(id), outcome, penalty).value;
            ClaimReport(db, id, outcome, penalty, a).value in
              [d, d.(reports := d.reports[id := db.reports[id].(status := RpUnderReview)])]
  {
    var op := AdoptShape(db, ReportCase(id), outcome, penalty);
  }

  lemma ClaimCompletionShape(db: Db, id: Id, outcome: Outcome)
    requires ClaimCompletion(db, id, outcome).Some? && ClaimCompletion(db, id, outcome).value != db
    ensures id in db.escalations && OpenEscalation(db.escalations[id])
              && outcome in {ReleaseAndComplete, RefundSeeker, KeepAwaiting}
    ensures Adopt(db, CompletionCase(id), outcome, NoPenalty).Some?
    ensures var d := Adopt(db, CompletionCase(id), outcome, NoPenalty).value;
            ClaimCompletion(db, id, outcome).value in [d, d.(escalations := d.escalations[id := EUnderReview])]
  {
    var op := AdoptShape(db, CompletionCase(id), outcome, NoPenalty);
  }

  lemma ClaimByAdminShape(db: Db, id: Id, approve: bool, fault: Option<Participant>)
    requires ClaimByAdmin(db, id, approve, fault).Some? && ClaimByAdmin(db, id, approve, fault).value != db
    ensures id in db.cancellations && db.cancellations[id].status in {CEscalated, CUnderReview}
    ensures var outcome := if approve then AdminApprove else AdminDeny;
            var penalty := FaultFinding(fault);
            var c := db.cancellations[id];
            && BeginResolution(db, CancellationCase(id), outcome, penalty).Some?
            && var d := BeginResolution(db, CancellationCase(id), outcome, penalty).value;
               || (ClaimByAdmin(db, id, approve, fault).value == d && CancellationCase(id) in db.ops)
               || (c.report.Some? && c.report.value in db.reports
                   && ClaimByAdmin(db, id, approve, fault).value ==
                        d.(cancellations := d.cancellations[id := c.(status := CUnderReview)],
                           reports := ReviewLinkedReport(db.reports, c.report.value, RpUnderReview)))
  {
    var outcome := if approve then AdminApprove else AdminDeny;
    var penalty := FaultFinding(fault);
    var op := BeginShape(db, CancellationCase(id), outcome, penalty);
  }

  lemma ClaimAdminShape(db: Db, outcome: Outcome, banned: bool, requireBanned: bool)
    requires ClaimAdmin(db, outcome, banned, requireBanned).Some? && AdminCase !in db.ops
    ensures outcome in {CancelBooking, ReleaseAndComplete} && AdminOutcomeAllowed(db.booking, banned, outcome)
    ensures !OtherBlockingCase(db, None, None, None) && !FinancialReserved(db.ops, Some(AdminCase))
    ensures ClaimAdmin(db, outcome, banned, requireBanned).value == AdminReserved(db, outcome)
  {
    var claimed := Operation(Claimed, Processing, outcome, NoPenalty);
    var ops := db.ops[AdminCase := claimed];
    assert ops[AdminCase := claimed.(stage := Reserved)] == db.ops[AdminCase := claimed.(stage := Reserved)];
    assert forall k | k in db.ops :: k in ops && ops[k] == db.ops[k];
  }

  lemma FinalizeReportShape(db: Db, id: Id, outcome: Outcome, penalty: Penalty, a: Account)
    requires ReportCase(id) in db.ops && db.ops[ReportCase(id)].status != Done
    requires id in db.reports
    requires FinalizeReport(db, id, outcome, penalty, a).Some?
    ensures db.reports[id].status == RpUnderReview && FinalStateReached(db.booking, outcome)
    ensures var d :=
              CloseReport(db, id, if outcome == Dismiss then RpDismissed else RpResolved, AppliedPenalty(penalty, a));
            FinalizeReport(db, id, outcome, penalty, a).value == if outcome == Dismiss
                || outcome == ResolveSafety then Restore(d) else d
  {
  }

  lemma QuietAfterClose(db: Db, key: CaseKey, applied: Penalty)
    requires key in db.ops && !FinancialReserved(db.ops, None)
    ensures !FinancialReserved(CloseOp(db, key, applied).ops, None)
  {
  }

  /** Beginning a held decision again keeps it held, and adopts a committed cancellation. */
  lemma AdoptHeld(db: Db, key: CaseKey) returns (op: Operation)
    requires key in db.ops && db.ops[key].HoldsMoney() && Cancels(db.ops[key].outcome)
    ensures Adopt(db, key, db.ops[key].outcome, db.ops[key].penalty) == Some(db.(ops := db.ops[key := op]))
    ensures op.outcome == db.ops[key].outcome && op.penalty == db.ops[key].penalty && op.HoldsMoney()
    ensures op.stage == Reserved ==>
              !(CancelledFully(db.booking)
                  && (db.booking.online ==> db.refund.Some? && db.refund.value.gatewayId.Some?))
  {
    var begun := db.ops[key].(status := Processing);
    var d := db.(ops := db.ops[key := begun]);
    assert BeginResolution(db, key, db.ops[key].outcome, db.ops[key].penalty) == Some(d);
    op := begun;
    if Reconcile(d, key, begun.outcome) != Some(d) {
      op := begun.(stage := Established);
      assert d.ops[key := op] == db.ops[key := op];
    }
  }

  lemma RetryReportShape(db: Db, id: Id, a: Account) returns (op: Operation)
    requires ReportCase(id) in db.ops && db.ops[ReportCase(id)].HoldsMoney()
               && db.ops[ReportCase(id)].outcome == CancelBooking
    requires id in db.reports && db.reports[id].Active() && db.reports[id].kind != CancellationEscalation
    requires !OtherBlockingCase(db, Some(id), None, None)
    ensures op.outcome == CancelBooking && op.penalty == db.ops[ReportCase(id)].penalty && op.HoldsMoney()
    ensures ClaimReport(db, id, CancelBooking, op.penalty, a)
              == Some(db.(ops := db.ops[ReportCase(id) := op],
                  reports := db.reports[id := db.reports[id].(status := RpUnderReview)]))
  {
    op := AdoptHeld(db, ReportCase(id));
  }

  lemma RetryCompletionShape(db: Db, id: Id) returns (op: Operation)
    requires CompletionCase(id) in db.ops && db.ops[CompletionCase(id)].HoldsMoney()
    requires db.ops[CompletionCase(id)].outcome == RefundSeeker && db.ops[CompletionCase(id)].penalty == NoPenalty
    requires id in db.escalations && OpenEscalation(db.escalations[id])
    requires db.booking.online
               && (db.booking.status == Canceled ==>
                     CancelledFully(db.booking) && db.refund.Some? && db.refund.value.gatewayId.Some?)
    requires db.booking.status == Canceled
               || (db.booking.status == UnderReview && db.booking.before == Some(AwaitingConfirmation))
    ensures op.outcome == RefundSeeker && op.penalty == NoPenalty && op.HoldsMoney()
    ensures op.stage == Reserved ==> db.booking.status != Canceled
    ensures ClaimCompletion(db, id, RefundSeeker)
              == Some(db.(ops := db.ops[CompletionCase(id) := op], escalations := db.escalations[id := EUnderReview]))
  {
    op := AdoptHeld(db, CompletionCase(id));
  }

  lemma RetryAdminShape(db: Db, banned: bool, requireBanned: bool) returns (op: Operation)
    requires AdminCase in db.ops && db.ops[AdminCase].HoldsMoney()
    requires db.ops[AdminCase].outcome == CancelBooking && db.ops[AdminCase].penalty == NoPenalty
    requires db.booking.status == Canceled ==>
               CancelledFully(db.booking) && (db.booking.online ==> db.refund.Some? && db.refund.value.gatewayId.Some?)
    requires db.booking.status == Canceled || (db.booking.status == UnderReview && db.booking.before.Some?)
    ensures op.outcome == CancelBooking && op.penalty == NoPenalty && op.HoldsMoney()
    ensures ClaimAdmin(db, CancelBooking, banned, requireBanned) == Some(db.(ops := db.ops[AdminCase := op]))
  {
    op := AdoptHeld(db, AdminCase);
  }

  /** The request states a claim of the given kind accepts. */
  predicate RequestClaimable(c: Cancellation, participant: bool) {
    c.status == CUnderReview || c.status == (if participant then CPending else CEscalated)
  }

  lemma RetryParticipantShape(db: Db, id: Id)
    requires CancellationCase(id) in db.ops && db.ops[CancellationCase(id)].HoldsMoney()
    requires id in db.cancellations && RequestClaimable(db.cancellations[id], true)
    requires db.ops[CancellationCase(id)].outcome == ParticipantApprove
               && db.ops[CancellationCase(id)].penalty == NoPenalty
    ensures ClaimByParticipant(db, id)
              == Some(db.(ops := db.ops[CancellationCase(id) := db.ops[CancellationCase(id)].(status := Processing)],
                          cancellations := db.cancellations[id := db.cancellations[id].(status := CUnderReview)]))
  {
  }

  lemma RetryAdminCancellationShape(db: Db, id: Id, fault: Option<Participant>)
    requires CancellationCase(id) in db.ops && db.ops[CancellationCase(id)].HoldsMoney()
    requires id in db.cancellations && RequestClaimable(db.cancellations[id], false)
    requires !OtherBlockingCase(db, db.cancellations[id].report, Some(id), None)
    requires db.ops[CancellationCase(id)].outcome == AdminApprove
    requires db.ops[CancellationCase(id)].penalty == FaultFinding(fault)
    requires fault.Some? ==> db.booking.started
    requires db.cancellations[id].report.Some? && db.cancellations[id].report.value in db.reports
    ensures ClaimByAdmin(db, id, true, fault)
              == Some(db.(ops := db.ops[CancellationCase(id) := db.ops[CancellationCase(id)].(status := Processing)],
                          cancellations := db.cancellations[id := db.cancellations[id].(status := CUnderReview)],
                          reports := ReviewLinkedReport(db.reports, db.cancellations[id].report.value, RpUnderReview)))
  {
    var op := db.ops[CancellationCase(id)].(status := Processing);
    assert BeginResolution(db, CancellationCase(id), AdminApprove, op.penalty)
        == Some(db.(ops := db.ops[CancellationCase(id) := op]));
  }
}
