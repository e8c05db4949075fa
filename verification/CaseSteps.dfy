/** Opening and reviewing cases, the ordinary lifecycle and the seeker's settlement keep the invariant. */
module CaseSteps {
  import opened BookingRows
  import opened Transactions
  import opened ResolutionInvariant

  /** A live, unpaused booking may move among the states that are not completion. */
  lemma LiveBooking(ops: map<CaseKey, Operation>, a: Booking, b: Booking)
    requires OpsOnBooking(ops, a) && !Parked(a) && b.status != Completed && BookingEvolves(a, b)
    ensures OpsOnBooking(ops, b)
  {
  }

  /** Rewriting cancellations without opening one or changing a link disturbs nobody. */
  lemma CalmCancellations(ops: map<CaseKey, Operation>, reports: map<Id, Report>, a: map<Id, Cancellation>,
      b: map<Id, Cancellation>)
    requires LinksGood(reports, a) && OpsOnReports(ops, reports, a) && OpsOnCancellations(ops, a)
    requires a.Keys == b.Keys
    requires forall c | c in a ::
               b[c].report == a[c].report && b[c].immediate == a[c].immediate && (b[c].Active() ==> a[c].Active())
    ensures LinksGood(reports, b) && OpsOnReports(ops, reports, b) && OpsOnCancellations(ops, b)
              && CancellationsEvolve(a, b)
  {
  }

  /** Moving a report between its two active states disturbs nobody. */
  lemma CalmReports(ops: map<CaseKey, Operation>, a: map<Id, Report>, b: map<Id, Report>,
      cancellations: map<Id, Cancellation>, parked: bool)
    requires LinksGood(a, cancellations) && OpsOnReports(ops, a, cancellations) && ParkedGood(a, parked)
    requires a.Keys == b.Keys && forall r | r in a :: b[r].kind == a[r].kind && (b[r].Active() <==> a[r].Active())
    ensures LinksGood(b, cancellations) && OpsOnReports(ops, b, cancellations) && ParkedGood(b, parked)
              && ReportsEvolve(a, b)
  {
  }

  /** A report may be filed while nobody holds the money. */
  lemma QuietReport(ops: map<CaseKey, Operation>, reports: map<Id, Report>, cancellations: map<Id, Cancellation>,
      id: Id, r: Report)
    requires LinksGood(reports, cancellations) && OpsOnReports(ops, reports, cancellations)
    requires !FinancialReserved(ops, None) && id !in reports
    ensures LinksGood(reports[id := r], cancellations) && OpsOnReports(ops, reports[id := r], cancellations)
    ensures ReportsEvolve(reports, reports[id := r])
  {
  }

  /** Pausing a live booking keeps its payment held and says where it came from. */
  lemma FreezeKeepsMoney(db: Db, status: BookingStatus)
    requires MoneyGood(db.booking, db.queue, db.released)
               && RefundGood(db.booking, db.refund, db.refundLedger, db.gateway)
    requires !Parked(db.booking) && db.booking.status != Declined && (status == Disputed || status == UnderReview)
    ensures var d := Freeze(db, status);
            && MoneyGood(d.booking, d.queue, d.released) && RefundGood(d.booking, d.refund, d.refundLedger, d.gateway)
            && BookingEvolves(db.booking, d.booking)
  {
  }

  lemma CalmEscalations(ops: map<CaseKey, Operation>, es: map<Id, EscalationStatus>, id: Id)
    requires OpsOnEscalations(ops, es) && id in es && OpenEscalation(es[id])
    ensures OpsOnEscalations(ops, es[id := EUnderReview]) && EscalationsEvolve(es, es[id := EUnderReview])
  {
  }

  lemma OpenSafetyReportKeeps(db: Db, id: Id)
    ensures Keeps(db, OpenSafetyReport(db, id))
  {
    EvolvesReflexive(db);
    var r := OpenSafetyReport(db, id);
    if Good(db) && r.Some? {
      SafetyReportShape(db, id);
      if !Parked(db.booking) {
        PausingReportKeeps(db, id);
      } else {
        ParkedReportKeeps(db, id);
      }
      ContinuesMeans(db, r.value);
    }
  }

  lemma SafetyReportShape(db: Db, id: Id)
    requires OpenSafetyReport(db, id).Some?
    ensures db.booking.status != Declined && id !in db.reports && !FinancialReserved(db.ops, None)
    ensures OpenSafetyReport(db, id).value
              == (if Parked(db.booking) then db
                  else Freeze(db, Disputed)).(reports := db.reports[id := Report(Safety, RpPending)])
  {
  }

  lemma ParkedReportKeeps(db: Db, id: Id)
    requires Good(db) && Parked(db.booking) && id !in db.reports && !FinancialReserved(db.ops, None)
    ensures Continues(db, db.(reports := db.reports[id := Report(Safety, RpPending)]))
  {
    EvolvesReflexive(db);
    QuietReport(db.ops, db.reports, db.cancellations, id, Report(Safety, RpPending));
    ContinuesMeans(db, db.(reports := db.reports[id := Report(Safety, RpPending)]));
  }

  lemma PausingReportKeeps(db: Db, id: Id)
    requires Good(db) && !Parked(db.booking) && db.booking.status != Declined && id !in db.reports
               && !FinancialReserved(db.ops, None)
    ensures Continues(db, Freeze(db, Disputed).(reports := db.reports[id := Report(Safety, RpPending)]))
  {
    EvolvesReflexive(db);
    QuietReport(db.ops, db.reports, db.cancellations, id, Report(Safety, RpPending));
    FreezeKeepsMoney(db, Disputed);
    LiveBooking(db.ops, db.booking, Freeze(db, Disputed).booking);
    ContinuesMeans(db, Freeze(db, Disputed).(reports := db.reports[id := Report(Safety, RpPending)]));
  }

  lemma OpenDisputeKeeps(db: Db, id: Id)
    ensures Keeps(db, OpenDispute(db, id))
  {
    EvolvesReflexive(db);
    var r := OpenDispute(db, id);
    if Good(db) && r.Some? {
      QuietReport(db.ops, db.reports, db.cancellations, id, Report(CompletionDispute, RpPending));
      LiveBooking(db.ops, db.booking, r.value.booking);
    }
  }

  lemma QuietCancellation(ops: map<CaseKey, Operation>, reports: map<Id, Report>, cancellations: map<Id, Cancellation>,
      id: Id, c: Cancellation)
    requires LinksGood(reports, cancellations) && OpsOnReports(ops, reports, cancellations)
               && OpsOnCancellations(ops, cancellations)
    requires !FinancialReserved(ops, None) && c.report.None? && id !in cancellations
    ensures LinksGood(reports, cancellations[id := c]) && OpsOnReports(ops, reports, cancellations[id := c])
    ensures OpsOnCancellations(ops, cancellations[id := c])
              && CancellationsEvolve(cancellations, cancellations[id := c])
  {
  }

  /** A request on a started booking leaves the booking alone. */
  lemma LateRequestKeeps(db: Db, id: Id)
    requires Good(db) && OpenCancellation(db, id).Some? && db.booking.started
    ensures Good(OpenCancellation(db, id).value) && Evolves(db, OpenCancellation(db, id).value)
  {
    EvolvesReflexive(db);
    var c := Cancellation(CPending, false, None);
    QuietCancellation(db.ops, db.reports, db.cancellations, id, c);
    assert OpenCancellation(db, id).value == db.(cancellations := db.cancellations[id := c]);
  }

  /** A request before the start pauses the booking. */
  lemma EarlyRequestKeeps(db: Db, id: Id)
    requires Good(db) && OpenCancellation(db, id).Some? && !db.booking.started
    ensures Good(OpenCancellation(db, id).value) && Evolves(db, OpenCancellation(db, id).value)
  {
    EvolvesReflexive(db);
    var c := Cancellation(CUnderReview, true, None);
    QuietCancellation(db.ops, db.reports, db.cancellations, id, c);
    var frozen := Freeze(db, UnderReview);
    FreezeKeepsMoney(db, UnderReview);
    LiveBooking(db.ops, db.booking, frozen.booking);
    assert OpenCancellation(db, id).value == frozen.(cancellations := db.cancellations[id := c]);
  }

  lemma OpenCancellationKeeps(db: Db, id: Id)
    ensures Keeps(db, OpenCancellation(db, id))
  {
    if Good(db) && OpenCancellation(db, id).Some? {
      if db.booking.started { LateRequestKeeps(db, id); } else { EarlyRequestKeeps(db, id); }
    }
  }

  lemma DeclineCancellationKeeps(db: Db, id: Id)
    ensures Keeps(db, DeclineCancellation(db, id))
  {
    EvolvesReflexive(db);
    var r := DeclineCancellation(db, id);
    if Good(db) && r.Some? {
      CalmCancellations(db.ops, db.reports, db.cancellations, r.value.cancellations);
    }
  }

  lemma EscalatedLinks(ops: map<CaseKey, Operation>, reports: map<Id, Report>, cancellations: map<Id, Cancellation>,
      id: Id, report: Id)
    requires LinksGood(reports, cancellations) && OpsOnReports(ops, reports, cancellations)
               && OpsOnCancellations(ops, cancellations)
    requires !FinancialReserved(ops, None) && report !in reports && id in cancellations
               && cancellations[id].status == CDeclined
    ensures var rs := reports[report := Report(CancellationEscalation, RpPending)];
            var cs := cancellations[id := cancellations[id].(status := CEscalated, report := Some(report))];
            && LinksGood(rs, cs) && OpsOnReports(ops, rs, cs) && OpsOnCancellations(ops, cs)
            && CancellationsEvolve(cancellations, cs)
  {
  }

  lemma EscalateCancellationKeeps(db: Db, id: Id, report: Id)
    ensures Keeps(db, EscalateCancellation(db, id, report))
  {
    EvolvesReflexive(db);
    var r := EscalateCancellation(db, id, report);
    if Good(db) && r.Some? {
      QuietReport(db.ops, db.reports, db.cancellations, report, Report(CancellationEscalation, RpPending));
      EscalatedLinks(db.ops, db.reports, db.cancellations, id, report);
    }
  }

  lemma OpenEscalationCaseKeeps(db: Db, id: Id)
    ensures Keeps(db, OpenEscalationCase(db, id))
  {
    EvolvesReflexive(db);
  }

  lemma StartEscalationReviewKeeps(db: Db, id: Id)
    ensures Keeps(db, StartEscalationReview(db, id))
  {
    EvolvesReflexive(db);
    var r := StartEscalationReview(db, id);
    if Good(db) && r.Some? && r.value != db {
      CalmEscalations(db.ops, db.escalations, id);
    }
  }

  lemma StartReportReviewKeeps(db: Db, id: Id)
    ensures Keeps(db, StartReportReview(db, id))
  {
    EvolvesReflexive(db);
    var r := StartReportReview(db, id);
    if Good(db) && r.Some? && r.value != db {
      CalmReports(db.ops, db.reports, r.value.reports, db.cancellations, Parked(db.booking));
      CalmCancellations(db.ops, r.value.reports, db.cancellations, r.value.cancellations);
    }
  }

  lemma AcceptCashKeeps(db: Db)
    ensures Keeps(db, AcceptCash(db))
  {
    EvolvesReflexive(db);
    if Good(db) && AcceptCash(db).Some? {
      LiveBooking(db.ops, db.booking, AcceptCash(db).value.booking);
    }
  }

  lemma DeclineCashKeeps(db: Db)
    ensures Keeps(db, DeclineCash(db))
  {
    EvolvesReflexive(db);
    if Good(db) && DeclineCash(db).Some? {
      LiveBooking(db.ops, db.booking, DeclineCash(db).value.booking);
    }
  }

  lemma StartJobKeeps(db: Db)
    ensures Keeps(db, StartJob(db))
  {
    EvolvesReflexive(db);
    if Good(db) && StartJob(db).Some? {
      LiveBooking(db.ops, db.booking, StartJob(db).value.booking);
    }
  }

  lemma MarkCompleteKeeps(db: Db)
    ensures Keeps(db, MarkComplete(db))
  {
    EvolvesReflexive(db);
    if Good(db) && MarkComplete(db).Some? && db.booking.status == Ongoing {
      LiveBooking(db.ops, db.booking, MarkComplete(db).value.booking);
    }
  }

  lemma SettleKeepsMoney(db: Db, admin: bool)
    requires MoneyGood(db.booking, db.queue, db.released)
               && RefundGood(db.booking, db.refund, db.refundLedger, db.gateway)
    requires Settle(db, admin).Some? && !db.booking.Terminal()
    ensures var d := Settle(db, admin).value;
            && MoneyGood(d.booking, d.queue, d.released) && RefundGood(d.booking, d.refund, d.refundLedger, d.gateway)
            && BookingEvolves(db.booking, d.booking) && d.booking.status == Completed
  {
  }

  /** Completion is compatible with every decision when no other one holds the money and none is a pending
      cancellation. */
  lemma CompletionFitsOps(ops: map<CaseKey, Operation>, a: Booking, b: Booking)
    requires OpsShaped(ops) && OpsOnBooking(ops, a) && !a.Terminal() && b.status == Completed && BookingEvolves(a, b)
    requires forall k | k in ops && ops[k].status != Done :: k.ReportCase? ==> ops[k].outcome != CancelBooking
    requires forall k | k in ops && ops[k].HoldsMoney() :: k.CancellationCase? || ops[k].outcome == ReleaseAndComplete
    ensures OpsOnBooking(ops, b)
  {
  }

  lemma ClosedEscalationsFit(ops: map<CaseKey, Operation>, es: map<Id, EscalationStatus>, to: EscalationStatus)
    requires OpsOnEscalations(ops, es) && !OpenEscalation(to)
    requires forall k | k in ops && ops[k].HoldsMoney() :: !k.CompletionCase?
    ensures OpsOnEscalations(ops, CloseEscalations(es, to)) && EscalationsEvolve(es, CloseEscalations(es, to))
  {
  }

  /** A live booking is held by no staged decision except, perhaps, a cancellation. */
  lemma LiveHolders(db: Db)
    requires Good(db) && !Parked(db.booking)
    ensures forall k | k in db.ops && db.ops[k].HoldsMoney() :: k.CancellationCase?
    ensures forall k | k in db.ops && db.ops[k].status != Done :: !k.ReportCase?
  {
    forall k | k in db.ops && db.ops[k].status != Done
      ensures !k.ReportCase? && (db.ops[k].HoldsMoney() ==> k.CancellationCase?)
    {
      assert OpShape(k, db.ops[k]) && OpOnBooking(k, db.ops[k], db.booking)
          && OpOnReports(k, db.ops[k], db.reports, db.cancellations);
    }
  }

  lemma SeekerSettleKeeps(db: Db)
    ensures Keeps(db, Settle(db, false))
  {
    EvolvesReflexive(db);
    var r := Settle(db, false);
    if Good(db) && r.Some? && r.value != db {
      LiveHolders(db);
      SettleKeepsMoney(db, false);
      CompletionFitsOps(db.ops, db.booking, r.value.booking);
      ClosedEscalationsFit(db.ops, db.escalations, EResolved);
    }
  }
}
