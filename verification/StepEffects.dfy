/** What each step of a booking's callers requires and changes, told on the rows alone: exactly when it is
    refused, and what it leaves otherwise. The rows it does not mention stay as they were. */
module StepEffects {
  import opened BookingRows
  import opened Transactions
  import opened Interleaving

  // ------------------------------------------------------------ on the rows

  predicate RefundRunning(db: Db) { db.refund.Some? && db.refund.value.status == RProcessing }

  predicate OpenReport(db: Db, r: Id) { r in db.reports && db.reports[r].status in {RpPending, RpUnderReview} }

  /** A declined request is still open: it may be escalated. */
  predicate OpenRequest(db: Db, c: Id) {
    c in db.cancellations && db.cancellations[c].status in {CPending, CDeclined, CEscalated, CUnderReview}
  }

  predicate OpenCase(db: Db, e: Id) { e in db.escalations && db.escalations[e] in {EPending, EUnderReview} }

  /** The decision of this case has reserved or moved the money and is not finished. */
  predicate Reserving(db: Db, k: CaseKey) {
    && k in db.ops && db.ops[k].stage in {Reserved, Established}
    && db.ops[k].status in {Processing, FailedRetryable}
  }

  ghost predicate NobodyReserves(db: Db) { forall k :: !Reserving(db, k) }

  /** The booking leaves its status for a pause that remembers it, and held money is frozen. */
  predicate PausedAs(a: Db, d: Db, status: BookingStatus) {
    && d.booking.status == status && d.booking.before == Some(a.booking.status)
    && d.booking.online == a.booking.online && d.booking.started == a.booking.started
    && (if a.booking.payment == PaidHeld
        then d.booking.payment == FrozenHeld && QueueMoney(a, d, FrozenHeld)
        else d.booking.payment == a.booking.payment && d.queue == a.queue)
  }

  predicate QueueMoney(a: Db, d: Db, payment: PaymentStatus) {
    if a.queue.Some? then d.queue == Some(QueueRow(a.queue.value.status, payment)) else d.queue.None?
  }

  /** A case other than the decision's own is open. */
  predicate Blocked(db: Db, key: CaseKey) {
    || (exists r | r in db.reports && key != ReportCase(r) && !LinkedBy(db, key, r) ::
          db.reports[r].status in {RpPending, RpUnderReview})
    || (exists c | c in db.cancellations && key != CancellationCase(c) ::
          db.cancellations[c].status in {CPending, CDeclined, CEscalated, CUnderReview})
    || (exists e | e in db.escalations && key != CompletionCase(e) :: db.escalations[e] in {EPending, EUnderReview})
  }

  /** The report through which the decision's own cancellation request was escalated. */
  predicate LinkedBy(db: Db, key: CaseKey, report: Id) {
    key.CancellationCase? && key.id in db.cancellations && db.cancellations[key.id].report == Some(report)
  }

  /** This is what the claim and the reservation look for. */
  lemma BlockedIsOther(db: Db, key: CaseKey)
    ensures key.ReportCase? ==> Blocked(db, key) == OtherBlockingCase(db, Some(key.id), None, None)
    ensures key.CompletionCase? ==> Blocked(db, key) == OtherBlockingCase(db, None, None, Some(key.id))
    ensures key.CancellationCase? && key.id in db.cancellations ==>
              Blocked(db, key) == OtherBlockingCase(db, db.cancellations[key.id].report, Some(key.id), None)
    ensures key.AdminCase? ==> Blocked(db, key) == OtherBlockingCase(db, None, None, None)
  {
    assert forall r | r in db.reports :: db.reports[r].Active() <==> db.reports[r].status in {RpPending, RpUnderReview};
    assert forall c | c in db.cancellations ::
        db.cancellations[c].Active() <==> db.cancellations[c].status in {CPending, CDeclined, CEscalated, CUnderReview};
    assert forall e | e in db.escalations :: OpenEscalation(db.escalations[e]) <==>
        db.escalations[e] in {EPending, EUnderReview};
  }

  /** The report is open and its kind and booking admit the outcome. */
  predicate ReportDecidable(db: Db, id: Id, outcome: Outcome) {
    && id in db.reports && db.reports[id].status in {RpPending, RpUnderReview}
    && match db.reports[id].kind
       case Safety => outcome in {Dismiss, ResolveSafety} || (outcome == CancelBooking && Unsettled(db.booking))
       case CompletionDispute =>
         || outcome == Dismiss || (outcome == CancelBooking && Unsettled(db.booking))
         || (outcome == ReleaseAndComplete && db.booking.before == Some(AwaitingConfirmation))
       case CancellationEscalation => false
  }

  predicate Unsettled(b: Booking) { b.status !in {Completed, Canceled} }

  predicate MovesMoney(outcome: Outcome) {
    outcome in {CancelBooking, RefundSeeker, ParticipantApprove, AdminApprove, ReleaseAndComplete}
  }

  predicate Busy(b: Booking) { b.status in {Accepted, Ongoing, AwaitingConfirmation} }

  // --------------------------------------------------------------- openers

  lemma SafetyReportEffect(w: World, id: Id)
    ensures var db := w.db;
            var w' := Do(w, FileSafetyReport(id));
            var d := w'.db;
            if id !in db.reports && !RefundRunning(db) && NobodyReserves(db)
               && (Busy(db.booking) || db.booking.status in {Disputed, UnderReview, Completed, Canceled})
            then && d.reports == db.reports[id := Report(Safety, RpPending)]
                 && w' == w.(db := db.(booking := d.booking, queue := d.queue, reports := d.reports))
                 && (if Busy(db.booking) then PausedAs(db, d, Disputed)
                     else d.booking == db.booking && d.queue == db.queue)
            else w' == w
  {
    NobodyMeans(w.db);
    if OpenSafetyReport(w.db, id).Some? { SafetyReportFiled(w.db, id); }
  }

  lemma SafetyReportFiled(db: Db, id: Id)
    requires OpenSafetyReport(db, id).Some?
    ensures var d := OpenSafetyReport(db, id).value;
            && d == db.(booking := d.booking, queue := d.queue, reports := db.reports[id := Report(Safety, RpPending)])
            && (if Busy(db.booking) then PausedAs(db, d, Disputed)
                else d.booking == db.booking && d.queue == db.queue)
  {
  }

  lemma NobodyMeans(db: Db)
    ensures forall k | k in db.ops :: Reserving(db, k) <==> db.ops[k].HoldsMoney()
    ensures NobodyReserves(db) <==> !FinancialReserved(db.ops, None)
    ensures OtherCancellation(db.cancellations, None) <==> exists c :: OpenRequest(db, c)
    ensures OtherEscalation(db.escalations, None) <==> exists e :: OpenCase(db, e)
  {
    if !NobodyReserves(db) {
      var k :| Reserving(db, k);
      assert Some(k) != None && db.ops[k].HoldsMoney();
    }
    if c :| OpenRequest(db, c) { assert Some(c) != None && db.cancellations[c].Active(); }
    if e :| OpenCase(db, e) { assert Some(e) != None && OpenEscalation(db.escalations[e]); }
    if OtherCancellation(db.cancellations, None) {
      var c :| c in db.cancellations && db.cancellations[c].Active();
      assert OpenRequest(db, c);
    }
    if OtherEscalation(db.escalations, None) {
      var e :| e in db.escalations && OpenEscalation(db.escalations[e]);
      assert OpenCase(db, e);
    }
  }

  lemma DisputeEffect(w: World, id: Id)
    ensures var db := w.db;
            var w' := Do(w, FileDispute(id));
            var d := w'.db;
            var payment := if db.booking.online then FrozenHeld else Unpaid;
            if id !in db.reports && db.booking.status == AwaitingConfirmation && !RefundRunning(db)
                && NobodyReserves(db)
               && forall r | OpenReport(db, r) :: db.reports[r].kind != CompletionDispute
            then && d.reports == db.reports[id := Report(CompletionDispute, RpPending)]
                 && d.booking == Booking(db.booking.online, Disputed, Some(AwaitingConfirmation), payment,
                      db.booking.started)
                 && QueueMoney(db, d, payment) && d.escalations.Keys == db.escalations.Keys
                 && (forall e | e in db.escalations ::
                       d.escalations[e] == if OpenCase(db, e) then EDismissed else db.escalations[e])
                 && w' == w.(db := db.(booking := d.booking, queue := d.queue, reports := d.reports,
                                       escalations := d.escalations))
            else w' == w
  {
    NobodyMeans(w.db);
    assert forall r | r in w.db.reports :: OpenReport(w.db, r) <==> w.db.reports[r].Active();
  }

  /** Before the start the request is taken under review at once and its call begins; later it waits. */
  lemma RequestEffect(w: World, id: Id, tid: nat)
    ensures var db := w.db;
            var w' := Do(w, FileCancellation(id, tid));
            var d := w'.db;
            if id !in db.cancellations && tid !in w.calls && (forall c :: !OpenRequest(db, c)) && NobodyReserves(db)
               && db.booking.status !in {Canceled, Completed, Declined, Disputed, UnderReview}
            then if db.booking.started
                 then w' == w.(db := db.(cancellations := db.cancellations[id := Cancellation(CPending, false, None)]))
                 else && PausedAs(db, d, UnderReview)
                      && d.cancellations == db.cancellations[id := Cancellation(CUnderReview, true, None)]
                      && w' == World(db.(booking := d.booking, queue := d.queue, cancellations := d.cancellations),
                                     w.calls[tid := Call(Immediate(id), AtCancelRead)])
            else w' == w
  {
    NobodyMeans(w.db);
    if OpenCancellation(w.db, id).Some? {
      if w.db.booking.started { RequestFiled(w.db, id); } else { RequestPauses(w.db, id); }
    }
  }

  lemma RequestFiled(db: Db, id: Id)
    requires db.booking.started && OpenCancellation(db, id).Some?
    ensures OpenCancellation(db, id).value
              == db.(cancellations := db.cancellations[id := Cancellation(CPending, false, None)])
  {
  }

  lemma RequestPauses(db: Db, id: Id)
    requires !db.booking.started && OpenCancellation(db, id).Some?
    ensures var d := OpenCancellation(db, id).value;
            && PausedAs(db, d, UnderReview)
            && d == db.(booking := d.booking, queue := d.queue,
                        cancellations := db.cancellations[id := Cancellation(CUnderReview, true, None)])
  {
  }

  lemma RequestRetryEffect(w: World, id: Id, tid: nat)
    ensures var db := w.db;
            Do(w, RetryImmediate(id, tid))
              == if tid !in w.calls && id in db.cancellations && db.cancellations[id].status == CUnderReview
                    && db.cancellations[id].immediate && (!db.booking.started || db.booking.status == Canceled)
                 then w.(calls := w.calls[tid := Call(Immediate(id), AtCancelRead)]) else w
  {
  }

  lemma AnswerEffects(w: World, id: Id, report: Id)
    ensures var cs := w.db.cancellations;
            Do(w, RespondDecline(id))
              == if id in cs && cs[id].status == CPending
                 then w.(db := w.db.(cancellations := cs[id := cs[id].(status := CDeclined)])) else w
    ensures var cs := w.db.cancellations;
            Do(w, Escalate(id, report))
              == if id in cs && cs[id].status == CDeclined && report !in w.db.reports && NobodyReserves(w.db)
                 then w.(db := w.db.(cancellations :=
                     cs[id := Cancellation(CEscalated, cs[id].immediate, Some(report))],
                                     reports := w.db.reports[report := Report(CancellationEscalation, RpPending)]))
                 else w
    ensures Do(w, FileEscalation(id))
              == if id !in w.db.escalations && w.db.booking.online && w.db.booking.status == AwaitingConfirmation
                    && NobodyReserves(w.db) && forall e :: !OpenCase(w.db, e)
                 then w.(db := w.db.(escalations := w.db.escalations[id := EPending])) else w
  {
    NobodyMeans(w.db);
    assert forall e | e in w.db.escalations :: OpenCase(w.db, e) <==> OpenEscalation(w.db.escalations[e]);
  }

  /** Opening a pending report for review takes an escalated request that points to it along. */
  lemma ReviewEffects(w: World, id: Id)
    ensures var d := Do(w, ReviewReport(id)).db;
            var db := w.db;
            if id in db.reports && db.reports[id].status == RpPending
            then && d.reports == db.reports[id := Report(db.reports[id].kind, RpUnderReview)]
                 && d.cancellations.Keys == db.cancellations.Keys
                 && (forall c | c in db.cancellations ::
                       d.cancellations[c] == if db.cancellations[c].report == Some(id)
                           && db.cancellations[c].status == CEscalated
                                             then db.cancellations[c].(status := CUnderReview) else db.cancellations[c])
                 && Do(w, ReviewReport(id)) == w.(db := db.(reports := d.reports, cancellations := d.cancellations))
            else Do(w, ReviewReport(id)) == w
    ensures Do(w, ReviewEscalation(id))
              == if id in w.db.escalations && w.db.escalations[id] == EPending
                 then w.(db := w.db.(escalations := w.db.escalations[id := EUnderReview])) else w
  {
  }

  // ------------------------------------------------------ ordinary lifecycle

  lemma CashEffects(w: World)
    ensures var b := w.db.booking;
            Do(w, ProviderAccepts)
              == if b.status == PendingApproval
                 then w.(db := w.db.(booking := Booking(b.online, Accepted, b.before, b.payment, false))) else w
    ensures var b := w.db.booking;
            Do(w, ProviderDeclines)
              == if b.status == PendingApproval && b.payment !in {PaidHeld, FrozenHeld}
                 then w.(db := w.db.(booking := b.(status := Declined))) else w
  {
  }

  lemma StartEffect(w: World)
    ensures var b := w.db.booking;
            var open := !b.started && !RefundRunning(w.db);
            var begun := Booking(b.online, Ongoing, b.before, b.payment, true);
            Do(w, ProviderStarts)
              == if open && b.online && b.status in {Accepted, Waiting} && b.payment == PaidHeld
                    && w.db.queue == Some(QueueRow(QWaiting, PaidHeld))
                 then w.(db := w.db.(booking := begun, queue := Some(QueueRow(QServing, PaidHeld))))
                 else if open && !b.online && b.status == Accepted && b.payment == Unpaid && w.db.queue.None?
                 then w.(db := w.db.(booking := begun))
                 else w
  {
  }

  lemma FinishEffect(w: World)
    ensures var b := w.db.booking;
            Do(w, ProviderFinishes)
              == if !RefundRunning(w.db) && b.status == Ongoing
                 then w.(db := w.db.(booking := b.(status := AwaitingConfirmation),
                                     queue := if w.db.queue.Some? then Some(QueueRow(QDone, w.db.queue.value.payment))
                                              else None))
                 else w
  {
  }

  /** A completed job may be reported again. */
  lemma FinishAccepted(db: Db)
    ensures MarkComplete(db).Some? <==> !RefundRunning(db) && db.booking.status in {Ongoing, AwaitingConfirmation}
  {
  }

  /** A settled booking: released or confirmed, its queue entry done. */
  ghost predicate SettledAs(a: Db, d: Db) {
    var payment := if a.booking.online then Released else CashConfirmed;
    && d.booking == Booking(a.booking.online, Completed, None, payment, a.booking.started) && d.released
    && d.queue == (if a.queue.Some? then Some(QueueRow(QDone, payment)) else None)
    && d == a.(booking := d.booking, released := true, queue := d.queue, escalations := d.escalations)
  }

  lemma ConfirmEffect(w: World)
    ensures var db := w.db;
            var d := Do(w, SeekerConfirms).db;
            if !RefundRunning(db) && db.booking.status == AwaitingConfirmation
               && db.booking.payment == (if db.booking.online then PaidHeld else Unpaid)
            then && SettledAs(db, d) && d.escalations.Keys == db.escalations.Keys
                 && (forall e | e in db.escalations ::
                       d.escalations[e] == if OpenCase(db, e) then EResolved else db.escalations[e])
            else d == db
    ensures Do(w, SeekerConfirms) == w.(db := Do(w, SeekerConfirms).db)
  {
  }
}
