/** Staging a decision keeps the invariant: markers, reservations and the administrator's settlement. */
module DecisionSteps {
  import opened BookingRows
  import opened Transactions
  import opened ResolutionInvariant
  import opened CaseSteps

  ghost predicate OpFits(db: Db, key: CaseKey, op: Operation) {
    && OpShape(key, op) && OpOnBooking(key, op, db.booking)
    && OpOnReports(key, op, db.reports, db.cancellations)
    && OpOnCancellations(key, op, db.cancellations)
    && OpOnEscalations(key, op, db.escalations)
  }

  ghost predicate OpsFit(db: Db, ops: map<CaseKey, Operation>) {
    && OpsShaped(ops) && OpsOnBooking(ops, db.booking)
    && OpsOnReports(ops, db.reports, db.cancellations)
    && OpsOnCancellations(ops, db.cancellations)
    && OpsOnEscalations(ops, db.escalations)
  }

  /** Replacing one decision by a fitting one keeps the whole table fitting. */
  lemma OpReplaced(db: Db, key: CaseKey, op: Operation)
    requires OpsFit(db, db.ops) && OpFits(db, key, op)
    requires key in db.ops ==>
               && db.ops[key].outcome == op.outcome && db.ops[key].penalty == op.penalty
               && Rank(db.ops[key].stage) <= Rank(op.stage) && db.ops[key].status != Done
    requires op.HoldsMoney() ==> !FinancialReserved(db.ops, Some(key))
    ensures OpsFit(db, db.ops[key := op]) && OpsEvolve(db.ops, db.ops[key := op])
  {
    OpAlone(db.ops, key, op);
    var ops := db.ops[key := op];
    forall k | k in ops ensures OpFits(db, k, ops[k]) {
      if k != key { assert OpFits(db, k, db.ops[k]); }
    }
  }

  lemma OpAlone(ops: map<CaseKey, Operation>, key: CaseKey, op: Operation)
    requires OpsShaped(ops) && OpShape(key, op) && (op.HoldsMoney() ==> !FinancialReserved(ops, Some(key)))
    ensures OpsShaped(ops[key := op])
  {
  }

  lemma OpUpdateKeeps(db: Db, key: CaseKey, op: Operation)
    requires Good(db) && OpFits(db, key, op) && op.status != Done
    requires key in db.ops ==>
               && db.ops[key].outcome == op.outcome && db.ops[key].penalty == op.penalty
               && Rank(db.ops[key].stage) <= Rank(op.stage) && db.ops[key].status != Done
    requires op.HoldsMoney() ==> !FinancialReserved(db.ops, Some(key))
    ensures var d := db.(ops := db.ops[key := op]); Good(d) && Evolves(db, d)
  {
    EvolvesReflexive(db);
    OpReplaced(db, key, op);
  }

  lemma MarkFailedKeeps(db: Db, key: CaseKey)
    requires Good(db)
    ensures Good(MarkFailed(db, key)) && Evolves(db, MarkFailed(db, key))
  {
    EvolvesReflexive(db);
    if key in db.ops && !db.ops[key].Finished() {
      OpUpdateKeeps(db, key, db.ops[key].(status := FailedRetryable));
    }
  }

  /** A stage marker may be written once the money has moved, or when it does not matter. */
  lemma MarkStageKeeps(db: Db, key: CaseKey, stage: Stage)
    requires Good(db) && key in db.ops
    requires stage == DecisionReady
             || (stage == Established && Rank(db.ops[key].stage) >= 2 && Reached(db.booking, db.ops[key].outcome))
    ensures Keeps(db, MarkStage(db, key, stage))
  {
    EvolvesReflexive(db);
    var op := db.ops[key];
    if !op.Finished() && Rank(stage) >= Rank(op.stage) {
      OpUpdateKeeps(db, key, op.(stage := stage, status := Processing));
    }
  }

  /** An open case of its own shows that no other decision holds the money. */
  lemma OwnCaseExcludesOthers(db: Db, key: CaseKey)
    requires Good(db)
    requires match key
             case ReportCase(id) => id in db.reports && db.reports[id].Active()
                 && db.reports[id].kind != CancellationEscalation
             case CancellationCase(id) => id in db.cancellations && db.cancellations[id].Active()
             case CompletionCase(id) => id in db.escalations && OpenEscalation(db.escalations[id])
             case AdminCase => false
    ensures !FinancialReserved(db.ops, Some(key))
  {
    forall k | k in db.ops && db.ops[k].HoldsMoney() ensures k == key {
      assert OpOnReports(k, db.ops[k], db.reports, db.cancellations);
      assert OpOnCancellations(k, db.ops[k], db.cancellations);
      assert OpOnEscalations(k, db.ops[k], db.escalations);
    }
  }

  /** Setting a live booking under review keeps its money rows in order. */
  lemma ReviewKeeps(db: Db)
    requires Good(db) && !Parked(db.booking) && db.booking.status != Declined
    ensures var d := db.(booking := db.booking.(status := UnderReview, before := Some(db.booking.status)));
            Good(d) && Evolves(db, d)
  {
    EvolvesReflexive(db);
    LiveBooking(db.ops, db.booking, db.booking.(status := UnderReview, before := Some(db.booking.status)));
  }

  lemma ReserveMarks(db: Db, key: CaseKey)
    requires Good(db) && key in db.ops && !db.ops[key].Finished() && Rank(db.ops[key].stage) <= 2
    requires Financial(db.ops[key].outcome) && !FinancialReserved(db.ops, Some(key))
    requires OpOnBooking(key, db.ops[key].(stage := Reserved, status := Processing), db.booking)
    requires match key
             case ReportCase(id) => !OtherBlockingCase(db, Some(id), None, None)
             case CancellationCase(id) => id in db.cancellations
                 && !OtherBlockingCase(db, db.cancellations[id].report, Some(id), None)
             case CompletionCase(id) => id in db.escalations && db.escalations[id] == EUnderReview
                 && !OtherBlockingCase(db, None, None, Some(id))
             case AdminCase => !OtherBlockingCase(db, None, None, None)
    ensures Keeps(db, MarkStage(db, key, Reserved))
  {
    EvolvesReflexive(db);
    var op := db.ops[key];
    assert OpShape(key, op) && OpOnReports(key, op, db.reports, db.cancellations);
    assert OpOnCancellations(key, op, db.cancellations) && OpOnEscalations(key, op, db.escalations);
    OpUpdateKeeps(db, key, op.(stage := Reserved, status := Processing));
  }

  /** A completion decision puts the booking under review when it reserves. */
  lemma ReviewedReserve(db: Db, id: Id)
    requires Good(db) && CompletionCase(id) in db.ops && Financial(db.ops[CompletionCase(id)].outcome)
    requires db.ops[CompletionCase(id)].status != Done && !db.ops[CompletionCase(id)].EffectEstablished()
    requires Reserve(db, CompletionCase(id)).Some? && db.booking.status == AwaitingConfirmation
    requires !FinancialReserved(db.ops, Some(CompletionCase(id)))
    ensures Continues(db, Reserve(db, CompletionCase(id)).value)
  {
    var key := CompletionCase(id);
    var d := db.(booking := db.booking.(status := UnderReview, before := Some(AwaitingConfirmation)));
    assert OpShape(key, db.ops[key]);
    ReviewKeeps(db);
    ReserveMarks(d, key);
    EvolvesTransitive(db, d, Reserve(db, key).value);
  }

  lemma PlainReserve(db: Db, key: CaseKey)
    requires Good(db) && key in db.ops && Financial(db.ops[key].outcome)
    requires db.ops[key].status != Done && !db.ops[key].EffectEstablished()
    requires Reserve(db, key).Some? && (key.CompletionCase? ==> db.booking.status != AwaitingConfirmation)
    requires !FinancialReserved(db.ops, Some(key))
    ensures Continues(db, Reserve(db, key).value)
  {
    assert OpShape(key, db.ops[key]) && OpOnReports(key, db.ops[key], db.reports, db.cancellations);
    assert OpOnBooking(key, db.ops[key], db.booking);
    ReserveMarks(db, key);
  }

  /** A reservation that goes through leaves the decision at least reserved. */
  lemma ReserveRanks(db: Db, key: CaseKey)
    requires key in db.ops && (db.ops[key].status == Done <==> db.ops[key].stage == Finalized) && Reserve(db, key).Some?
    ensures Rank(Reserve(db, key).value.ops[key].stage) >= 2
  {
  }

  lemma ReserveContinues(db: Db, key: CaseKey)
    requires Good(db) && key in db.ops && Financial(db.ops[key].outcome) && Reserve(db, key).Some?
    requires db.ops[key].status != Done && !db.ops[key].EffectEstablished()
    ensures Continues(db, Reserve(db, key).value)
  {
    OwnCaseExcludesOthers(db, key);
    if key.CompletionCase? && db.booking.status == AwaitingConfirmation {
      ReviewedReserve(db, key.id);
    } else {
      PlainReserve(db, key);
    }
  }

  lemma ReserveKeeps(db: Db, key: CaseKey)
    requires Good(db) && key in db.ops && Financial(db.ops[key].outcome)
    ensures Keeps(db, Reserve(db, key))
    ensures Reserve(db, key).Some? ==> Rank(Reserve(db, key).value.ops[key].stage) >= 2
  {
    EvolvesReflexive(db);
    assert OpShape(key, db.ops[key]);
    if Reserve(db, key).Some? {
      ReserveRanks(db, key);
      if db.ops[key].status != Done && !db.ops[key].EffectEstablished() {
        ReserveContinues(db, key);
        ContinuesMeans(db, Reserve(db, key).value);
      }
    }
  }

  /** A decision past its reservation is either the only holder or already done. */
  lemma SoleHolder(db: Db, key: CaseKey, k: CaseKey)
    requires Good(db) && key in db.ops && Rank(db.ops[key].stage) >= 2 && Financial(db.ops[key].outcome)
    requires k in db.ops && db.ops[k].HoldsMoney() && !Reached(db.booking, db.ops[key].outcome)
    ensures k == key
  {
    assert OpShape(key, db.ops[key]) && OpOnBooking(key, db.ops[key], db.booking);
  }

  lemma AdminSettleKeeps(db: Db, key: CaseKey)
    requires Good(db) && key in db.ops && db.ops[key].outcome == ReleaseAndComplete && Rank(db.ops[key].stage) >= 2
    ensures Keeps(db, Settle(db, true))
    ensures Settle(db, true).Some? ==> Settle(db, true).value.booking.status == Completed
  {
    EvolvesReflexive(db);
    var r := Settle(db, true);
    if r.Some? && r.value != db {
      var op := db.ops[key];
      assert OpShape(key, op) && OpOnBooking(key, op, db.booking) && OpOnReports(key, op, db.reports, db.cancellations);
      SettleKeepsMoney(db, true);
      forall k | k in db.ops && db.ops[k].HoldsMoney() ensures db.ops[k].outcome == ReleaseAndComplete {
        SoleHolder(db, key, k);
      }
      forall k | k in db.ops && db.ops[k].status != Done && k.ReportCase? ensures db.ops[k].outcome != CancelBooking {
        assert OpOnReports(k, db.ops[k], db.reports, db.cancellations);
      }
      CompletionFitsOps(db.ops, db.booking, r.value.booking);
    }
  }
}
