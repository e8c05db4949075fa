/** The refund protocol and the cancellation of a booking keep the invariant. */
module RefundSteps {
  import opened BookingRows
  import opened Transactions
  import opened ResolutionInvariant
  import opened CaseSteps
  import opened DecisionSteps

  lemma RefundReserveKeeps(db: Db)
    ensures Keeps(db, RefundReserve(db))
    ensures Good(db) && RefundReserve(db).Some? && db.booking.online ==> RefundReserve(db).value.refund.Some?
  {
    EvolvesReflexive(db);
  }

  lemma RefundMarkFailedKeeps(db: Db)
    ensures Keeps(db, RefundMarkFailed(db))
  {
    EvolvesReflexive(db);
  }

  lemma GatewayKeeps(db: Db, mint: Id)
    ensures Keeps(db, Some(db.(gateway := Some(AcceptedRefund(db, mint)))))
  {
    EvolvesReflexive(db);
  }

  /** Who may cancel: an immediate request, or a decision past its reservation. */
  ghost predicate MayCancel(db: Db, t: Task) {
    && (t.Resolve? ==>
          t.key in db.ops && db.ops[t.key].outcome == t.outcome && Cancels(t.outcome) && Rank(db.ops[t.key].stage) >= 2)
    && (t.Immediate? ==> t.request in db.cancellations && db.cancellations[t.request].immediate)
  }

  lemma CancelFitsOps(db: Db, t: Task, b: Booking)
    requires Good(db) && MayCancel(db, t) && !db.booking.Terminal() && b.status == Canceled
    requires BookingEvolves(db.booking, b)
    ensures OpsOnBooking(db.ops, b)
  {
    forall k | k in db.ops ensures OpOnBooking(k, db.ops[k], b) {
      assert OpShape(k, db.ops[k]) && OpOnBooking(k, db.ops[k], db.booking);
      if db.ops[k].HoldsMoney() && db.ops[k].outcome == ReleaseAndComplete {
        if t.Resolve? {
          SoleHolder(db, t.key, k);
        } else {
          OwnCaseExcludesOthers(db, CancellationCase(t.request));
        }
      }
    }
  }

  lemma RefundFinalizeKeeps(db: Db, t: Task, resumed: bool, id: Id, status: RefundStatus)
    requires Good(db) && MayCancel(db, t) && db.gateway == Some(id)
    ensures Keeps(db, RefundFinalize(db, resumed, id, status))
    ensures RefundFinalize(db, resumed, id, status).Some? && db.booking.online ==>
              RefundFinalize(db, resumed, id, status).value.booking.status == Canceled
  {
    EvolvesReflexive(db);
    var r := RefundFinalize(db, resumed, id, status);
    if r.Some? && r.value != db {
      CancelFitsOps(db, t, r.value.booking);
    }
  }

  lemma CancelCloseKeeps(db: Db, t: Task, held: bool)
    requires Good(db) && MayCancel(db, t)
    requires if held then db.booking.status == Canceled else !db.booking.online || db.booking.Terminal()
    ensures Keeps(db, CancelClose(db, held, t.Immediate?))
    ensures CancelClose(db, held, t.Immediate?).Some? ==>
              CancelClose(db, held, t.Immediate?).value.booking.status == Canceled
  {
    EvolvesReflexive(db);
    var r := CancelClose(db, held, t.Immediate?);
    if r.Some? && r.value != db {
      CancelFitsOps(db, t, r.value.booking);
    }
  }

  lemma ImmediateCloseKeeps(db: Db, request: Id)
    requires request in db.cancellations && db.cancellations[request].immediate
    ensures Keeps(db, ImmediateClose(db, request))
  {
    EvolvesReflexive(db);
    var r := ImmediateClose(db, request);
    if Good(db) && r.Some? {
      CalmCancellations(db.ops, db.reports, db.cancellations, r.value.cancellations);
    }
  }
}
