/** What each transaction of a decision's call requires and changes, told on the rows alone: which new decisions are
    accepted, and where every step of a call leaves the rows and the call. */
module CallEffects {
  import opened BookingRows
  import opened Transactions
  import opened Interleaving
  import opened StepEffects

  // ------------------------------------------------------------ new decisions

  /** The rows and the call that a new decision leaves. */
  ghost predicate Begun(w: World, w': World, tid: nat, key: CaseKey, op: Operation, pc: Pc) {
    && w'.db.ops == w.db.ops[key := op] && w'.calls == w.calls[tid := Call(Resolve(key, op.outcome, op.penalty), pc)]
    && w'.db == w.db.(booking := w'.db.booking, reports := w'.db.reports, cancellations := w'.db.cancellations,
                      escalations := w'.db.escalations, ops := w'.db.ops)
  }

  /** A new report decision must fit the open report, name a penalty the account may receive and, to move money,
      find no other case open. */
  ghost predicate ReportAccepted(db: Db, id: Id, outcome: Outcome, penalty: Penalty, a: Account) {
    && ReportDecidable(db, id, outcome)
    && (penalty != NoPenalty ==>
          outcome != Dismiss && a.penaltyAllowed && !(penalty == Suspend && a.unstartedBookings))
    && (outcome in {CancelBooking, ReleaseAndComplete} ==> !Blocked(db, ReportCase(id)))
  }

  lemma NewReportClaim(db: Db, id: Id, outcome: Outcome, penalty: Penalty, a: Account)
    requires ReportCase(id) !in db.ops
    ensures ClaimReport(db, id, outcome, penalty, a)
              == if ReportAccepted(db, id, outcome, penalty, a)
                 then Some(db.(ops := db.ops[ReportCase(id) := Operation(Claimed, Processing, outcome, penalty)],
                               reports := db.reports[id := Report(db.reports[id].kind, RpUnderReview)]))
                 else None
  {
    var claimed := db.(ops := db.ops[ReportCase(id) := Operation(Claimed, Processing, outcome, penalty)]);
    assert Adopt(db, ReportCase(id), outcome, penalty) == Some(claimed);
    DecidableIsAllowed(db, id, outcome);
    if ReportDecidable(db, id, outcome) { ReviewedWhenDecidable(db, claimed, id, outcome); }
  }

  lemma DecidableIsAllowed(db: Db, id: Id, outcome: Outcome)
    ensures ReportDecidable(db, id, outcome) <==>
              id in db.reports && OutcomeAllowed(db.booking, db.reports[id], outcome)
  {
  }

  lemma ReviewedWhenDecidable(db: Db, d: Db, id: Id, outcome: Outcome)
    requires ReportDecidable(db, id, outcome) && ReportCase(id) in d.ops && d == db.(ops := d.ops)
    requires d.ops[ReportCase(id)].stage == Claimed
    ensures Transactions.ReviewReport(d, id, outcome)
              == if outcome in {CancelBooking, ReleaseAndComplete} && Blocked(db, ReportCase(id)) then None
                 else Some(d.(reports := db.reports[id := Report(db.reports[id].kind, RpUnderReview)]))
  {
    BlockedIsOther(db, ReportCase(id));
  }

  /** An accepted claim starts its call; a refused one, or one whose name is taken, leaves no trace. */
  lemma Spawned(w: World, tid: nat, r: Option<Db>, key: CaseKey, op: Operation)
    requires r.Some? ==> key in r.value.ops && r.value.ops[key] == op
    ensures Spawn(w, tid, r, key)
              == if r.None? || tid in w.calls then w
                 else World(r.value, w.calls[tid := Call(Resolve(key, op.outcome, op.penalty), StartOf(key, op))])
  {
  }

  lemma NewReportDecision(w: World, tid: nat, id: Id, outcome: Outcome, penalty: Penalty, a: Account)
    requires ReportCase(id) !in w.db.ops
    ensures var db := w.db;
            var w' := Do(w, CallReport(tid, id, outcome, penalty, a));
            if tid !in w.calls && ReportAccepted(db, id, outcome, penalty, a)
            then && Begun(w, w', tid, ReportCase(id), Operation(Claimed, Processing, outcome, penalty),
                          if outcome in {CancelBooking, ReleaseAndComplete} then AtReserve else AtMarkReady)
                 && w'.db.reports == db.reports[id := Report(db.reports[id].kind, RpUnderReview)]
                 && w'.db.booking == db.booking && w'.db.cancellations == db.cancellations
                 && w'.db.escalations == db.escalations
            else w' == w
  {
    NewReportClaim(w.db, id, outcome, penalty, a);
  }

  lemma NewCompletionDecision(w: World, tid: nat, id: Id, outcome: Outcome)
    requires CompletionCase(id) !in w.db.ops
    ensures var db := w.db;
            var w' := Do(w, CallCompletion(tid, id, outcome));
            if && tid !in w.calls && OpenCase(db, id) && outcome in {ReleaseAndComplete, RefundSeeker, KeepAwaiting}
               && db.booking.status == AwaitingConfirmation
            then && Begun(w, w', tid, CompletionCase(id), Operation(Claimed, Processing, outcome, NoPenalty),
                          if outcome == KeepAwaiting then AtMarkReady else AtReserve)
                 && w'.db.escalations == db.escalations[id := EUnderReview] && w'.db.booking == db.booking
                 && w'.db.reports == db.reports && w'.db.cancellations == db.cancellations
            else w' == w
  {
    var claimed := w.db.(ops := w.db.ops[CompletionCase(id) := Operation(Claimed, Processing, outcome, NoPenalty)]);
    assert Adopt(w.db, CompletionCase(id), outcome, NoPenalty) == Some(claimed);
  }

  lemma NewApproval(w: World, tid: nat, id: Id)
    requires CancellationCase(id) !in w.db.ops
    ensures var db := w.db;
            var w' := Do(w, CallParticipant(tid, id));
            if tid !in w.calls && id in db.cancellations && db.cancellations[id].status in {CPending, CUnderReview}
            then && Begun(w, w', tid, CancellationCase(id),
                Operation(Claimed, Processing, ParticipantApprove, NoPenalty),
                          AtReserve)
                 && w'.db.cancellations == db.cancellations[id := db.cancellations[id].(status := CUnderReview)]
                 && w'.db.booking == db.booking && w'.db.reports == db.reports && w'.db.escalations == db.escalations
            else w' == w
  {
  }

  /** The request is under an administrator's eyes, with the report it was escalated through. */
  predicate Escalated(db: Db, id: Id) {
    && id in db.cancellations && db.cancellations[id].status in {CEscalated, CUnderReview}
    && db.cancellations[id].report.Some? && db.cancellations[id].report.value in db.reports
  }

  /** A fault may be found only with a started booking whose cancellation is approved. */
  ghost predicate CancellationAccepted(db: Db, id: Id, approve: bool, fault: Option<Participant>) {
    && Escalated(db, id) && (fault.Some? ==> approve && db.booking.started)
    && (approve ==> !Blocked(db, CancellationCase(id)))
  }

  function CancellationOp(approve: bool, fault: Option<Participant>): Operation {
    Operation(Claimed, Processing, if approve then AdminApprove else AdminDeny,
              if fault.Some? then Fault(fault.value) else NoPenalty)
  }

  lemma NewCancellationClaim(db: Db, id: Id, approve: bool, fault: Option<Participant>)
    requires CancellationCase(id) !in db.ops
    ensures ClaimByAdmin(db, id, approve, fault)
              == if CancellationAccepted(db, id, approve, fault)
                 then var r := db.cancellations[id].report.value;
                      Some(db.(ops := db.ops[CancellationCase(id) := CancellationOp(approve, fault)],
                               cancellations := db.cancellations[id := db.cancellations[id].(status := CUnderReview)],
                               reports := if OpenReport(db, r)
                                   then db.reports[r := Report(db.reports[r].kind, RpUnderReview)]
                                          else db.reports))
                 else None
  {
    var d := db.(ops := db.ops[CancellationCase(id) := CancellationOp(approve, fault)]);
    assert BeginResolution(db, CancellationCase(id), d.ops[CancellationCase(id)].outcome,
                           d.ops[CancellationCase(id)].penalty) == Some(d);
    if Escalated(db, id) { RequestReviewed(db, d, id, approve); }
  }

  lemma RequestReviewed(db: Db, d: Db, id: Id, approve: bool)
    requires Escalated(db, id) && CancellationCase(id) in d.ops && d == db.(ops := d.ops)
    requires d.ops[CancellationCase(id)].stage == Claimed
    ensures var r := db.cancellations[id].report.value;
            ReviewCancellation(d, id, approve)
              == if approve && Blocked(db, CancellationCase(id)) then None
                 else Some(d.(cancellations := db.cancellations[id := db.cancellations[id].(status := CUnderReview)],
                              reports := if OpenReport(db, r)
                                  then db.reports[r := Report(db.reports[r].kind, RpUnderReview)]
                                         else db.reports))
  {
    BlockedIsOther(db, CancellationCase(id));
  }

  lemma NewCancellationDecision(w: World, tid: nat, id: Id, approve: bool, fault: Option<Participant>)
    requires CancellationCase(id) !in w.db.ops
    ensures var db := w.db;
            var w' := Do(w, CallAdminCancellation(tid, id, approve, fault));
            if tid !in w.calls && CancellationAccepted(db, id, approve, fault)
            then var r := db.cancellations[id].report.value;
                 && Begun(w, w', tid, CancellationCase(id), CancellationOp(approve, fault),
                          if approve then AtReserve else AtMarkReady)
                 && w'.db.cancellations == db.cancellations[id := db.cancellations[id].(status := CUnderReview)]
                 && w'.db.reports
                     == (if OpenReport(db, r) then db.reports[r := Report(db.reports[r].kind, RpUnderReview)]
                                      else db.reports)
                 && w'.db.booking == db.booking && w'.db.escalations == db.escalations
            else w' == w
  {
    NewCancellationClaim(w.db, id, approve, fault);
  }

  /** A direct decision claims and reserves at once, and takes the booking under review. */
  ghost predicate DirectAccepted(db: Db, outcome: Outcome, banned: bool, requireBanned: bool) {
    && (requireBanned ==> banned) && !Blocked(db, AdminCase) && NobodyReserves(db)
    && match outcome
       case CancelBooking =>
         || (!db.booking.started && db.booking.status in {PendingApproval, Waiting, Accepted})
         || (banned && db.booking.status in {Ongoing, AwaitingConfirmation})
       case ReleaseAndComplete => banned && db.booking.online && db.booking.status == AwaitingConfirmation
       case _ => false
  }

  lemma NewDirectClaim(db: Db, outcome: Outcome, banned: bool, requireBanned: bool)
    requires AdminCase !in db.ops
    ensures var b := db.booking;
            ClaimAdmin(db, outcome, banned, requireBanned)
              == if DirectAccepted(db, outcome, banned, requireBanned)
                 then Some(db.(booking := Booking(b.online, UnderReview, Some(b.status), b.payment, b.started),
                               ops := db.ops[AdminCase := Operation(Reserved, Processing, outcome, NoPenalty)]))
                 else None
  {
    BlockedIsOther(db, AdminCase);
    NobodyMeans(db);
    if outcome in {CancelBooking, ReleaseAndComplete} {
      var d := db.(ops := db.ops[AdminCase := Operation(Claimed, Processing, outcome, NoPenalty)]);
      assert Adopt(db, AdminCase, outcome, NoPenalty) == Some(d);
      AdminReserves(db, d, outcome, banned);
    }
  }

  lemma NewAdminDecision(w: World, tid: nat, outcome: Outcome, banned: bool, requireBanned: bool)
    requires AdminCase !in w.db.ops
    ensures var db := w.db;
            var b := db.booking;
            var w' := Do(w, CallAdminBooking(tid, outcome, banned, requireBanned));
            if tid !in w.calls && DirectAccepted(db, outcome, banned, requireBanned)
            then && Begun(w, w', tid, AdminCase, Operation(Reserved, Processing, outcome, NoPenalty),
                          if outcome == CancelBooking then AtCancelRead else AtSettle)
                 && w'.db.booking == Booking(b.online, UnderReview, Some(b.status), b.payment, b.started)
                 && w'.db.reports == db.reports && w'.db.cancellations == db.cancellations
                 && w'.db.escalations == db.escalations
            else w' == w
  {
    NewDirectClaim(w.db, outcome, banned, requireBanned);
    Spawned(w, tid, ClaimAdmin(w.db, outcome, banned, requireBanned), AdminCase,
            Operation(Reserved, Processing, outcome, NoPenalty));
  }

  lemma AdminReserves(db: Db, d: Db, outcome: Outcome, banned: bool)
    requires AdminCase !in db.ops
               && d == db.(ops := db.ops[AdminCase := Operation(Claimed, Processing, outcome, NoPenalty)])
    ensures ReserveAdmin(d, outcome, banned)
              == if AdminOutcomeAllowed(db.booking, banned, outcome) && !OtherBlockingCase(db, None, None, None)
                    && !FinancialReserved(db.ops, None)
                 then Some(AdminReserved(db, outcome)) else None
  {
    assert FinancialReserved(d.ops, Some(AdminCase)) <==> FinancialReserved(db.ops, None) by {
      if k :| k in d.ops && Some(k) != Some(AdminCase) && d.ops[k].HoldsMoney() {
        assert db.ops[k].HoldsMoney() && Some(k) != None;
      }
      if k :| k in db.ops && Some(k) != None && db.ops[k].HoldsMoney() {
        assert d.ops[k].HoldsMoney() && Some(k) != Some(AdminCase);
      }
    }
    var op := Operation(Reserved, Processing, outcome, NoPenalty);
    assert d.ops[AdminCase := op] == db.ops[AdminCase := op];
  }

  // -------------------------------------------------- a decision taken up again

  /** The decided effect is in the rows already. */
  predicate InTheRows(db: Db, outcome: Outcome) {
    if outcome == ReleaseAndComplete
    then db.booking.status == Completed && db.booking.payment in {Released, CashConfirmed} && db.released
    else && db.booking.status == Canceled && db.booking.payment == (if db.booking.online then Refunded else Unpaid)
         && (db.booking.online ==> db.refund.Some? && db.refund.value.gatewayId.Some?)
  }

  /** Another outcome or penalty is refused; a finished decision is left alone; a reserved one whose effect is in the
      rows is marked established. */
  lemma TakenUpAgain(db: Db, key: CaseKey, outcome: Outcome, penalty: Penalty)
    requires key in db.ops
    ensures var op := db.ops[key];
            Adopt(db, key, outcome, penalty)
              == if op.outcome != outcome || op.penalty != penalty then None
                 else if op.status == Done || op.stage == Finalized then Some(db)
                 else Some(db.(ops := db.ops[key := Operation(
                             if op.stage == Reserved && outcome in {CancelBooking, RefundSeeker, ParticipantApprove,
                                                                    AdminApprove, ReleaseAndComplete}
                                && InTheRows(db, outcome) then Established else op.stage,
                             Processing, outcome, penalty)]))
  {
    var op := db.ops[key];
    var begun := db.(ops := db.ops[key := op.(status := Processing)]);
    assert begun.ops[key := op.(stage := Established, status := Processing)]
        == db.ops[key := op.(stage := Established, status := Processing)];
  }

  /** The record of an unfinished decision that is taken up with the same details. */
  function BackInWork(db: Db, op: Operation): Operation {
    Operation(if op.stage == Reserved && MovesMoney(op.outcome) && InTheRows(db, op.outcome) then Established
              else op.stage, Processing, op.outcome, op.penalty)
  }

  /** Where its call goes on: what is established is only marked and closed, what is not is reserved and carried out
      first; a direct decision has reserved already. */
  function GoesOnAt(key: CaseKey, op: Operation): Pc {
    if op.stage == Established
    then (if key.AdminCase? || (key.CancellationCase? && op.outcome == ParticipantApprove) then AtFinalize
          else AtMarkReady)
    else if key.AdminCase? then (if op.outcome == CancelBooking then AtCancelRead else AtSettle)
    else if MovesMoney(op.outcome) then AtReserve else AtMarkReady
  }

  /** On record, unfinished, with an outcome its kind can have. */
  predicate Underway(db: Db, key: CaseKey) {
    && key in db.ops && db.ops[key].status != Done && db.ops[key].stage != Finalized
    && match key
       case ReportCase(_) => db.ops[key].outcome in {Dismiss, ResolveSafety, CancelBooking, ReleaseAndComplete}
       case CompletionCase(_) =>
         db.ops[key].outcome in {ReleaseAndComplete, RefundSeeker, KeepAwaiting} && db.ops[key].penalty == NoPenalty
       case CancellationCase(_) => db.ops[key].outcome in {ParticipantApprove, AdminApprove, AdminDeny}
       case AdminCase =>
         && db.ops[key].outcome in {CancelBooking, ReleaseAndComplete} && db.ops[key].penalty == NoPenalty
         && db.ops[key].stage in {Reserved, Established}
  }

  /** This is where every call on a decision under way starts. */
  lemma StartsWhere(db: Db, key: CaseKey)
    requires Underway(db, key)
    ensures StartOf(key, db.ops[key]) == GoesOnAt(key, db.ops[key])
  {
  }

  lemma UnderwayAdopts(db: Db, key: CaseKey)
    requires Underway(db, key)
    ensures Adopt(db, key, db.ops[key].outcome, db.ops[key].penalty)
              == Some(db.(ops := db.ops[key := BackInWork(db, db.ops[key])]))
    ensures StartOf(key, BackInWork(db, db.ops[key])) == GoesOnAt(key, BackInWork(db, db.ops[key]))
  {
    TakenUpAgain(db, key, db.ops[key].outcome, db.ops[key].penalty);
  }

  /** A report decision under way goes on with the same details, on an open report that still admits it unless the money
      was reserved; until its effect is established no other case may be open. */
  ghost predicate ReportGoesOn(db: Db, id: Id)
    requires ReportCase(id) in db.ops
  {
    var op := db.ops[ReportCase(id)];
    && OpenReport(db, id) && db.reports[id].kind != CancellationEscalation
    && (op.outcome == Dismiss ==> op.penalty == NoPenalty)
    && (op.stage in {Claimed, DecisionReady} ==> ReportDecidable(db, id, op.outcome))
    && (BackInWork(db, op).stage != Established ==>
          && (op.outcome == ReleaseAndComplete ==>
                db.reports[id].kind == CompletionDispute && db.booking.before == Some(AwaitingConfirmation))
          && (MovesMoney(op.outcome) ==> !Blocked(db, ReportCase(id))))
  }

  lemma ReportClaimedAgain(db: Db, id: Id, a: Account)
    requires Underway(db, ReportCase(id))
    ensures var op := db.ops[ReportCase(id)];
            ClaimReport(db, id, op.outcome, op.penalty, a)
              == if !ReportGoesOn(db, id) then None
                 else Some(db.(ops := db.ops[ReportCase(id) := BackInWork(db, op)],
                               reports := db.reports[id := Report(db.reports[id].kind, RpUnderReview)]))
  {
    UnderwayAdopts(db, ReportCase(id));
    var op := db.ops[ReportCase(id)];
    var d := db.(ops := db.ops[ReportCase(id) := BackInWork(db, op)]);
    DecidableIsAllowed(db, id, op.outcome);
    BlockedIsOther(d, ReportCase(id));
  }

  lemma ReportDecisionAgain(w: World, tid: nat, id: Id, outcome: Outcome, penalty: Penalty, a: Account)
    requires Underway(w.db, ReportCase(id))
    ensures var key := ReportCase(id);
            var op := w.db.ops[key];
            Do(w, CallReport(tid, id, outcome, penalty, a))
              == if tid in w.calls || outcome != op.outcome || penalty != op.penalty || !ReportGoesOn(w.db, id) then w
                 else World(w.db.(ops := w.db.ops[key := BackInWork(w.db, op)],
                                  reports := w.db.reports[id := Report(w.db.reports[id].kind, RpUnderReview)]),
                            w.calls[tid := Call(Resolve(key, outcome, penalty), GoesOnAt(key, BackInWork(w.db, op)))])
  {
    var key := ReportCase(id);
    var op := w.db.ops[key];
    UnderwayAdopts(w.db, key);
    if outcome == op.outcome && penalty == op.penalty {
      ReportClaimedAgain(w.db, id, a);
      Spawned(w, tid, ClaimReport(w.db, id, outcome, penalty, a), key, BackInWork(w.db, op));
    } else {
      OtherReportDetails(w.db, id, outcome, penalty, a);
    }
  }

  lemma OtherReportDetails(db: Db, id: Id, outcome: Outcome, penalty: Penalty, a: Account)
    requires Underway(db, ReportCase(id))
    requires outcome != db.ops[ReportCase(id)].outcome || penalty != db.ops[ReportCase(id)].penalty
    ensures ClaimReport(db, id, outcome, penalty, a).None?
  {
    TakenUpAgain(db, ReportCase(id), outcome, penalty);
  }

  /** A completion decision under way goes on while its escalation is open and the booking awaited, or parked by its own
      reservation, or its effect established. */
  lemma CompletionDecisionAgain(w: World, tid: nat, id: Id, outcome: Outcome)
    requires Underway(w.db, CompletionCase(id))
    ensures var key := CompletionCase(id);
            var op := w.db.ops[key];
            var b := w.db.booking;
            Do(w, CallCompletion(tid, id, outcome))
              == if && tid !in w.calls && outcome == op.outcome && OpenCase(w.db, id)
                    && (BackInWork(w.db, op).stage != Established ==>
                          || b.status == AwaitingConfirmation
                          || (op.stage == Reserved && b.status == UnderReview
                                && b.before == Some(AwaitingConfirmation)))
                 then World(w.db.(ops := w.db.ops[key := BackInWork(w.db, op)],
                                  escalations := w.db.escalations[id := EUnderReview]),
                            w.calls[tid := Call(Resolve(key, outcome, NoPenalty), GoesOnAt(key, BackInWork(w.db, op)))])
                 else w
  {
    var key := CompletionCase(id);
    var op := w.db.ops[key];
    UnderwayAdopts(w.db, key);
    if outcome == op.outcome {
      CompletionClaimedAgain(w.db, id);
      Spawned(w, tid, ClaimCompletion(w.db, id, outcome), key, BackInWork(w.db, op));
    } else {
      TakenUpAgain(w.db, key, outcome, NoPenalty);
    }
  }

  lemma CompletionClaimedAgain(db: Db, id: Id)
    requires Underway(db, CompletionCase(id))
    ensures var op := db.ops[CompletionCase(id)];
            var b := db.booking;
            ClaimCompletion(db, id, op.outcome)
              == if && OpenCase(db, id)
                    && (BackInWork(db, op).stage != Established ==>
                          || b.status == AwaitingConfirmation
                          || (op.stage == Reserved && b.status == UnderReview
                                && b.before == Some(AwaitingConfirmation)))
                 then Some(db.(ops := db.ops[CompletionCase(id) := BackInWork(db, op)],
                               escalations := db.escalations[id := EUnderReview]))
                 else None
  {
    UnderwayAdopts(db, CompletionCase(id));
  }

  /** A participant's approval goes on while the request is open to participants; its claim does not look whether the
      booking was cancelled meanwhile. */
  lemma ApprovalAgain(w: World, tid: nat, id: Id)
    requires Underway(w.db, CancellationCase(id)) && w.db.ops[CancellationCase(id)].penalty == NoPenalty
    ensures var key := CancellationCase(id);
            var op := w.db.ops[key];
            Do(w, CallParticipant(tid, id))
              == if && tid !in w.calls && op.outcome == ParticipantApprove
                    && id in w.db.cancellations && w.db.cancellations[id].status in {CPending, CUnderReview}
                 then World(w.db.(ops := w.db.ops[key := op.(status := Processing)],
                                  cancellations := w.db.cancellations[id :=
                                    w.db.cancellations[id].(status := CUnderReview)]),
                            w.calls[tid := Call(Resolve(key, ParticipantApprove, NoPenalty),
                                                if op.stage == Established then AtFinalize else AtReserve)])
                 else w
  {
  }

  /** An administrator's decision goes on with the same finding while the request is escalated; until it is established
      an approval finds no other case open. */
  ghost predicate CancellationGoesOn(db: Db, id: Id, approve: bool, fault: Option<Participant>)
    requires CancellationCase(id) in db.ops
  {
    var op := db.ops[CancellationCase(id)];
    && op.outcome == (if approve then AdminApprove else AdminDeny)
    && op.penalty == (if fault.Some? then Fault(fault.value) else NoPenalty)
    && Escalated(db, id) && (fault.Some? ==> approve && db.booking.started)
    && (approve && op.stage != Established ==> !Blocked(db, CancellationCase(id)))
  }

  lemma CancellationClaimedAgain(db: Db, id: Id, approve: bool, fault: Option<Participant>)
    requires Underway(db, CancellationCase(id))
    ensures var key := CancellationCase(id);
            var op := db.ops[key];
            ClaimByAdmin(db, id, approve, fault)
              == if CancellationGoesOn(db, id, approve, fault)
                 then var r := db.cancellations[id].report.value;
                      Some(db.(ops := db.ops[key := op.(status := Processing)],
                               cancellations := db.cancellations[id := db.cancellations[id].(status := CUnderReview)],
                               reports := if OpenReport(db, r)
                                          then db.reports[r := Report(db.reports[r].kind, RpUnderReview)]
                                          else db.reports))
                 else None
  {
    var key := CancellationCase(id);
    var d := db.(ops := db.ops[key := db.ops[key].(status := Processing)]);
    BlockedIsOther(d, key);
  }

  /** A direct decision under way goes on with its outcome once established, or while the booking it paused is still
      under review. */
  lemma DirectClaimedAgain(db: Db, outcome: Outcome, banned: bool, requireBanned: bool)
    requires Underway(db, AdminCase)
    ensures var op := db.ops[AdminCase];
            ClaimAdmin(db, outcome, banned, requireBanned)
              == if && outcome == op.outcome
                    && (BackInWork(db, op).stage != Established ==>
                          db.booking.status == UnderReview && db.booking.before.Some?)
                 then Some(db.(ops := db.ops[AdminCase := BackInWork(db, op)])) else None
  {
    if outcome == db.ops[AdminCase].outcome {
      UnderwayAdopts(db, AdminCase);
    } else {
      TakenUpAgain(db, AdminCase, outcome, NoPenalty);
    }
  }

  /** Asking again for a finished decision of a closed case is answered without another run of it. */
  lemma FinishedDecisionAgain(w: World, tid: nat, id: Id, outcome: Outcome, penalty: Penalty, a: Account)
    requires tid !in w.calls
    ensures ReportCase(id) in w.db.ops && w.db.ops[ReportCase(id)].status == Done
            && id in w.db.reports && !OpenReport(w.db, id) && w.db.reports[id].kind != CancellationEscalation ==>
              Do(w, CallReport(tid, id, outcome, penalty, a)).db == w.db
              && tid in Do(w, CallReport(tid, id, outcome, penalty, a)).calls
              && Do(w, CallReport(tid, id, outcome, penalty, a)).calls[tid].pc == Stopped
    ensures CompletionCase(id) in w.db.ops && w.db.ops[CompletionCase(id)].status == Done
            && id in w.db.escalations && !OpenCase(w.db, id)
            && outcome in {ReleaseAndComplete, RefundSeeker, KeepAwaiting} ==>
              Do(w, CallCompletion(tid, id, outcome)).db == w.db
              && tid in Do(w, CallCompletion(tid, id, outcome)).calls
              && Do(w, CallCompletion(tid, id, outcome)).calls[tid].pc == Stopped
    ensures AdminCase in w.db.ops && w.db.ops[AdminCase].status == Done && w.db.ops[AdminCase].outcome == outcome
            && outcome in {CancelBooking, ReleaseAndComplete} ==>
              Do(w, CallAdminBooking(tid, outcome, false, true)).db == w.db
              && tid in Do(w, CallAdminBooking(tid, outcome, false, true)).calls
              && Do(w, CallAdminBooking(tid, outcome, false, true)).calls[tid].pc == Stopped
  {
  }

  /** The same for a request that is closed. */
  lemma FinishedRequestAgain(w: World, tid: nat, id: Id, approve: bool, fault: Option<Participant>)
    requires tid !in w.calls && id in w.db.cancellations && w.db.cancellations[id].status in {CApproved, CResolved}
    requires CancellationCase(id) in w.db.ops && w.db.ops[CancellationCase(id)].status == Done
    ensures var w' := Do(w, CallParticipant(tid, id));
            w'.db == w.db && tid in w'.calls && w'.calls[tid].pc == Stopped
    ensures var op := w.db.ops[CancellationCase(id)];
            var w' := Do(w, CallAdminCancellation(tid, id, approve, fault));
            if && op.outcome == (if approve then AdminApprove else AdminDeny)
               && op.penalty == (if fault.Some? then Fault(fault.value) else NoPenalty)
               && (fault.Some? ==> approve && w.db.booking.started)
            then w'.db == w.db && tid in w'.calls && w'.calls[tid].pc == Stopped
            else w' == w
  {
  }

  // ------------------------------------------------------------ reserve, marks

  /** The record of an unfinished decision moves to a later stage, or stays at its own. */
  function Marked(db: Db, key: CaseKey, stage: Stage): Db
    requires key in db.ops
  {
    var op := db.ops[key];
    if op.status == Done || op.stage == Finalized then db
    else if op.stage in (match stage
                         case DecisionReady => {Claimed, DecisionReady}
                         case Reserved => {Claimed, DecisionReady, Reserved}
                         case Established => {Claimed, DecisionReady, Reserved, Established}
                         case _ => {})
    then db.(ops := db.ops[key := Operation(stage, Processing, op.outcome, op.penalty)])
    else db
  }

  lemma MarkEffects(db: Db, t: Task, a: Account, answer: GatewayAnswer, mint: Id)
    requires t.Resolve?
    ensures AdvanceCall(db, Call(t, AtMarkEstablished), a, answer, mint)
              == if t.key in db.ops then (Marked(db, t.key, Established), Call(t, AtFinalize))
                  else (db, Call(t, AtFailure))
    ensures AdvanceCall(db, Call(t, AtMarkReady), a, answer, mint)
              == if t.key in db.ops then (Marked(db, t.key, DecisionReady), Call(t, AtFinalize))
                  else (db, Call(t, AtFailure))
    ensures AdvanceCall(db, Call(t, AtFailure), a, answer, mint)
              == (if t.key in db.ops && db.ops[t.key].status != Done && db.ops[t.key].stage != Finalized
                  then db.(ops := db.ops[t.key := db.ops[t.key].(status := FailedRetryable)]) else db,
                  Call(t, Stopped))
  {
  }

  /** The decision's own case is under review. */
  predicate CaseReviewed(db: Db, key: CaseKey) {
    match key
    case ReportCase(id) => id in db.reports && db.reports[id].status == RpUnderReview
    case CompletionCase(id) => id in db.escalations && db.escalations[id] == EUnderReview
    case CancellationCase(id) => id in db.cancellations && db.cancellations[id].status == CUnderReview
    case AdminCase => false
  }

  lemma ReserveEffect(db: Db, t: Task, a: Account, answer: GatewayAnswer, mint: Id)
    requires t.Resolve? && t.key in db.ops && db.ops[t.key].stage in {Claimed, DecisionReady, Reserved}
    requires db.ops[t.key].status != Done
    ensures var b := db.booking;
            var parked := b.status == UnderReview && b.before == Some(AwaitingConfirmation);
            AdvanceCall(db, Call(t, AtReserve), a, answer, mint)
              == if CaseReviewed(db, t.key) && !Blocked(db, t.key)
                    && (t.key.CompletionCase? ==> parked || b.status == AwaitingConfirmation)
                 then (Marked(db, t.key, Reserved).(
                         booking := if t.key.CompletionCase? && !parked
                                    then b.(status := UnderReview, before := Some(AwaitingConfirmation)) else b),
                       Call(t, if t.outcome in {CancelBooking, RefundSeeker, ParticipantApprove, AdminApprove}
                               then AtCancelRead else AtSettle))
                 else (db, Call(t, AtFailure))
  {
    BlockedIsOther(db, t.key);
  }

  // ------------------------------------------------------------- finalization

  /** Booking and queue once a decision that moves no money has given the booking back: what the pause remembered,
      unless another safety, completion or cancellation case is still open. */
  predicate GivenBack(a: Db, d: Db, othersOpen: bool) {
    if !othersOpen && a.booking.status in {Disputed, UnderReview} && a.booking.before.Some?
    then var payment := if a.booking.online then PaidHeld else Unpaid;
         && d.booking == Booking(a.booking.online, a.booking.before.value, None, payment, a.booking.started)
         && QueueMoney(a, d, payment)
    else d.booking == a.booking && d.queue == a.queue
  }

  ghost predicate ReportElse(db: Db, except: Id) { exists r :: r != except && OpenReport(db, r) }
  ghost predicate RequestElse(db: Db, except: Option<Id>) { exists c: Id :: Some(c) != except && OpenRequest(db, c) }

  lemma RestoreEffect(db: Db)
    ensures var d := Restore(db);
            && d == db.(booking := d.booking, queue := d.queue)
            && GivenBack(db, d, (exists r :: OpenReport(db, r)) || exists c :: OpenRequest(db, c))
  {
    NobodyMeans(db);
    if r :| OpenReport(db, r) { assert Some(r) != None && db.reports[r].Active(); }
    if OtherReport(db.reports, None) {
      var r :| r in db.reports && db.reports[r].Active();
      assert OpenReport(db, r);
    }
  }

  /** A closed decision: its record finished, and one closure with the penalty that took effect. */
  ghost predicate ClosedAs(a: Db, d: Db, key: CaseKey, applied: Penalty) {
    && key in a.ops && d.ops == a.ops[key := Operation(Finalized, Done, a.ops[key].outcome, a.ops[key].penalty)]
    && d.closures == a.closures + [Closure(key, applied)]
    && d == a.(booking := d.booking, queue := d.queue, reports := d.reports, cancellations := d.cancellations,
               escalations := d.escalations, ops := d.ops, closures := d.closures)
  }

  /** The booking is where the outcome of a report wants it. */
  predicate Landed(b: Booking, outcome: Outcome) {
    match outcome
    case CancelBooking => b.status == Canceled && b.payment == (if b.online then Refunded else Unpaid)
    case ReleaseAndComplete => b.status == Completed && b.payment in {Released, CashConfirmed}
    case _ => true
  }

  /** A report decision is closed once its effect is in the booking and its penalty is not refused. */
  predicate ReportCloses(db: Db, id: Id, outcome: Outcome, penalty: Penalty, a: Account) {
    && ReportCase(id) in db.ops && CaseReviewed(db, ReportCase(id)) && Landed(db.booking, outcome)
    && !(a.penaltyAllowed && penalty == Suspend && a.unstartedBookings)
    && !(a.penaltyAllowed && penalty == TrustDeduct && a.adminParticipates)
  }

  lemma ReportClosing(db: Db, id: Id, outcome: Outcome, penalty: Penalty, a: Account)
    requires outcome in {Dismiss, ResolveSafety, CancelBooking, ReleaseAndComplete}
    requires ReportCase(id) in db.ops ==> db.ops[ReportCase(id)].status != Done
    ensures FinalizeReport(db, id, outcome, penalty, a)
              == if !ReportCloses(db, id, outcome, penalty, a) then None
                 else var closed := CloseReport(db, id, if outcome == Dismiss then RpDismissed else RpResolved,
                                                if a.penaltyAllowed then penalty else NoPenalty);
                      Some(if outcome in {Dismiss, ResolveSafety} then Restore(closed) else closed)
  {
  }

  lemma ClosedReport(db: Db, id: Id, status: ReportStatus, applied: Penalty)
    requires id in db.reports && ReportCase(id) in db.ops && status in {RpResolved, RpDismissed}
    ensures var d := CloseReport(db, id, status, applied);
            && ClosedAs(db, d, ReportCase(id), applied)
            && d == db.(ops := d.ops, closures := d.closures,
                        reports := db.reports[id := Report(db.reports[id].kind, status)])
            && ClosedAs(db, Restore(d), ReportCase(id), applied)
            && Restore(d) == d.(booking := Restore(d).booking, queue := Restore(d).queue)
            && GivenBack(db, Restore(d), ReportElse(db, id) || RequestElse(db, None))
  {
    var d := CloseReport(db, id, status, applied);
    RestoreEffect(d);
    OthersAfter(db, d, Some(id), None);
  }

  /** The recorded penalty takes effect when the account may receive it, and is dropped otherwise. */
  lemma ReportFinalizes(db: Db, id: Id, outcome: Outcome, penalty: Penalty, a: Account, answer: GatewayAnswer, mint: Id)
    requires outcome in {Dismiss, ResolveSafety, CancelBooking, ReleaseAndComplete}
    ensures var t := Resolve(ReportCase(id), outcome, penalty);
            var r := AdvanceCall(db, Call(t, AtFinalize), a, answer, mint);
            if t.key in db.ops && db.ops[t.key].status == Done then r == (db, Call(t, Stopped))
            else if ReportCloses(db, id, outcome, penalty, a)
            then && r.1 == Call(t, Stopped) && ClosedAs(db, r.0, t.key, if a.penaltyAllowed then penalty else NoPenalty)
                 && r.0.reports == db.reports[id := Report(db.reports[id].kind,
                                                           if outcome == Dismiss then RpDismissed else RpResolved)]
                 && r.0.cancellations == db.cancellations && r.0.escalations == db.escalations
                 && (if outcome in {Dismiss, ResolveSafety}
                     then GivenBack(db, r.0, ReportElse(db, id) || RequestElse(db, None))
                     else r.0.booking == db.booking && r.0.queue == db.queue)
            else r == (db, Call(t, AtFailure))
  {
    if !(ReportCase(id) in db.ops && db.ops[ReportCase(id)].status == Done) {
      ReportClosing(db, id, outcome, penalty, a);
      if ReportCloses(db, id, outcome, penalty, a) {
        ClosedReport(db, id, if outcome == Dismiss then RpDismissed else RpResolved,
                     if a.penaltyAllowed then penalty else NoPenalty);
      }
    }
  }

  /** With one report and one request closed, what is open is what was open besides them. */
  lemma OthersAfter(db: Db, d: Db, report: Option<Id>, request: Option<Id>)
    requires forall r: Id :: OpenReport(d, r) <==> OpenReport(db, r) && Some(r) != report
    requires forall c: Id :: OpenRequest(d, c) <==> OpenRequest(db, c) && Some(c) != request
    ensures (exists c :: OpenRequest(d, c)) <==> RequestElse(db, request)
    ensures report.Some? ==> ((exists r :: OpenReport(d, r)) <==> ReportElse(db, report.value))
  {
    if report.Some? && ReportElse(db, report.value) {
      var r :| r != report.value && OpenReport(db, r);
      assert OpenReport(d, r);
    }
    if RequestElse(db, request) {
      var c: Id :| Some(c) != request && OpenRequest(db, c);
      assert OpenRequest(d, c);
    }
  }

  lemma CompletionFinalizes(db: Db, id: Id, outcome: Outcome, penalty: Penalty, a: Account, answer: GatewayAnswer,
      mint: Id)
    requires outcome in {ReleaseAndComplete, RefundSeeker, KeepAwaiting}
    ensures var t := Resolve(CompletionCase(id), outcome, penalty);
            var b := db.booking;
            var r := AdvanceCall(db, Call(t, AtFinalize), a, answer, mint);
            if t.key in db.ops && db.ops[t.key].status == Done then r == (db, Call(t, Stopped))
            else if && t.key in db.ops && CaseReviewed(db, t.key)
                    && (match outcome
                        case ReleaseAndComplete => b.status == Completed && b.payment in {Released, CashConfirmed}
                        case RefundSeeker => b.status == Canceled && (b.online ==> b.payment == Refunded)
                        case _ => b.status == AwaitingConfirmation)
            then && r.1 == Call(t, Stopped) && ClosedAs(db, r.0, t.key, NoPenalty)
                 && r.0 == db.(ops := r.0.ops, closures := r.0.closures,
                               escalations := db.escalations[id := EResolved])
            else r == (db, Call(t, AtFailure))
  {
  }

  lemma ApprovalFinalizes(db: Db, id: Id, penalty: Penalty, a: Account, answer: GatewayAnswer, mint: Id)
    ensures var t := Resolve(CancellationCase(id), ParticipantApprove, penalty);
            var b := db.booking;
            var r := AdvanceCall(db, Call(t, AtFinalize), a, answer, mint);
            if t.key in db.ops && id in db.cancellations
                && db.ops[t.key].status == Done then r == (db, Call(t, Stopped))
            else if t.key in db.ops && id in db.cancellations && b.status == Canceled
                && (b.online ==> b.payment == Refunded)
            then var c := db.cancellations[id];
                 && r.1 == Call(t, Stopped) && ClosedAs(db, r.0, t.key, NoPenalty)
                 && r.0 == db.(ops := r.0.ops, closures := r.0.closures, reports := r.0.reports,
                               cancellations := db.cancellations[id := Cancellation(CApproved, c.immediate, c.report)])
                 && r.0.reports == (if c.report.Some? && OpenReport(db, c.report.value)
                                       && db.reports[c.report.value].kind == CancellationEscalation
                                    then db.reports[c.report.value := Report(CancellationEscalation, RpResolved)]
                                    else db.reports)
            else r == (db, Call(t, AtFailure))
  {
  }

  /** An approval closes with the fault found; a denial gives the booking back. */
  lemma CancellationFinalizes(db: Db, id: Id, approve: bool, penalty: Penalty, a: Account, answer: GatewayAnswer,
      mint: Id)
    ensures var t := Resolve(CancellationCase(id), if approve then AdminApprove else AdminDeny, penalty);
            var b := db.booking;
            var r := AdvanceCall(db, Call(t, AtFinalize), a, answer, mint);
            if t.key in db.ops && id in db.cancellations
                && db.ops[t.key].status == Done then r == (db, Call(t, Stopped))
            else if && t.key in db.ops && CaseReviewed(db, t.key) && Escalated(db, id)
                    && (approve ==> b.status == Canceled && (b.online ==> b.payment == Refunded)
                                    && !(penalty.Fault? && a.adminParticipates))
            then var c := db.cancellations[id];
                 var k := c.report.value;
                 && r.1 == Call(t, Stopped) && ClosedAs(db, r.0, t.key, if approve then penalty else NoPenalty)
                 && r.0.cancellations == db.cancellations[id := Cancellation(CResolved, c.immediate, c.report)]
                 && r.0.reports == db.reports[k :=
                      Report(db.reports[k].kind, if approve then RpResolved else RpDismissed)]
                 && r.0.escalations == db.escalations
                 && (if approve then r.0.booking == b && r.0.queue == db.queue
                     else GivenBack(db, r.0, ReportElse(db, k) || RequestElse(db, Some(id))))
            else r == (db, Call(t, AtFailure))
  {
    if FinalizeByAdmin(db, id, approve, penalty, a).Some? && db.ops[CancellationCase(id)].status != Done {
      ClosedCancellation(db, id, approve, if approve then penalty else NoPenalty);
    }
  }

  lemma ClosedCancellation(db: Db, id: Id, approve: bool, applied: Penalty)
    requires Escalated(db, id) && CancellationCase(id) in db.ops
    ensures var d := CloseCancellation(db, id, approve, applied);
            var c := db.cancellations[id];
            var k := c.report.value;
            && ClosedAs(db, d, CancellationCase(id), applied)
            && d == db.(ops := d.ops, closures := d.closures,
                        cancellations := db.cancellations[id := Cancellation(CResolved, c.immediate, c.report)],
                        reports := db.reports[k :=
                            Report(db.reports[k].kind, if approve then RpResolved else RpDismissed)])
            && ClosedAs(db, Restore(d), CancellationCase(id), applied)
            && Restore(d) == d.(booking := Restore(d).booking, queue := Restore(d).queue)
            && GivenBack(db, Restore(d), ReportElse(db, k) || RequestElse(db, Some(id)))
  {
    var d := CloseCancellation(db, id, approve, applied);
    RestoreEffect(d);
    OthersAfter(db, d, db.cancellations[id].report, Some(id));
  }

  lemma DirectFinalizes(db: Db, outcome: Outcome, penalty: Penalty, a: Account, answer: GatewayAnswer, mint: Id)
    requires outcome in {CancelBooking, ReleaseAndComplete}
    ensures var t := Resolve(AdminCase, outcome, penalty);
            var b := db.booking;
            var r := AdvanceCall(db, Call(t, AtFinalize), a, answer, mint);
            if AdminCase in db.ops && db.ops[AdminCase].status == Done then r == (db, Call(t, Stopped))
            else if && AdminCase in db.ops
                    && (if outcome == CancelBooking
                        then b.status == Canceled && b.payment == (if b.online then Refunded else Unpaid)
                        else b.status == Completed && b.payment == Released)
            then && r.1 == Call(t, Stopped) && ClosedAs(db, r.0, AdminCase, NoPenalty)
                 && r.0 == db.(ops := r.0.ops, closures := r.0.closures)
            else r == (db, Call(t, AtFailure))
  {
  }

  // ------------------------------------------------------ moving the money

  /** A call that threw records the failure of its decision; an immediate cancellation just ends. */
  function Thrown(t: Task): Call { Call(t, if t.Resolve? then AtFailure else Stopped) }

  /** Advancing or throwing concerns one call that has begun and not ended. */
  lemma CallSteps(w: World, tid: nat, a: Account, answer: GatewayAnswer, mint: Id)
    ensures Do(w, Advance(tid, a, answer, mint))
              == if tid in w.calls
                 then var r := AdvanceCall(w.db, w.calls[tid], a, answer, mint); World(r.0, w.calls[tid := r.1]) else w
    ensures Do(w, Throw(tid))
              == if tid in w.calls && w.calls[tid].pc != Stopped
                 then w.(calls := w.calls[tid := Thrown(w.calls[tid].task)]) else w
  {
  }

  /** An immediate cancellation goes on only while its request and the paused, unstarted booking stand. */
  lemma CancelReadEffect(db: Db, t: Task, a: Account, answer: GatewayAnswer, mint: Id)
    ensures var b := db.booking;
            AdvanceCall(db, Call(t, AtCancelRead), a, answer, mint)
              == (db,
                  if && b.status !in {Completed, Declined}
                     && (t.Immediate? && b.status != Canceled ==>
                           && t.request in db.cancellations && db.cancellations[t.request].status == CUnderReview
                           && db.cancellations[t.request].immediate && !b.started && b.status == UnderReview)
                  then Call(t, if b.payment in {PaidHeld, FrozenHeld} then AtRefundRead else AtCancelClose(false))
                  else Thrown(t))
  {
  }

  predicate Recorded(db: Db) { db.refund.Some? && db.refund.value.gatewayId.Some? }

  lemma RefundReadEffect(db: Db, t: Task, a: Account, answer: GatewayAnswer, mint: Id)
    ensures var b := db.booking;
            AdvanceCall(db, Call(t, AtRefundRead), a, answer, mint)
              == (db,
                  if db.queue.None? then Thrown(t)
                  else if Recorded(db) && b.status == Canceled
                      && b.payment == Refunded then Call(t, AtCancelClose(true))
                  else if Recorded(db) || b.payment in {PaidHeld, FrozenHeld} then Call(t, AtRefundReserve)
                  else Thrown(t))
  {
  }

  /** A refund already recorded is resumed; one in progress is asked for again; otherwise held money is reserved. */
  lemma RefundReserveEffect(db: Db, t: Task, a: Account, answer: GatewayAnswer, mint: Id)
    ensures var b := db.booking;
            var r := AdvanceCall(db, Call(t, AtRefundReserve), a, answer, mint);
            if db.released || b.status == Completed || b.payment in {Released, CashConfirmed} then r == (db, Thrown(t))
            else if Recorded(db)
            then r == (db, Call(t, AtRefundFinalize(true, db.refund.value.gatewayId.value, db.refund.value.status)))
            else if RefundRunning(db) then r == (db, Call(t, AtGateway))
            else if b.payment in {PaidHeld, FrozenHeld}
            then r == (db.(refund := Some(Refund(RProcessing, None))), Call(t, AtGateway))
            else r == (db, Thrown(t))
  {
  }

  /** The gateway answers a second request for the same booking with the first refund. */
  lemma GatewayEffect(db: Db, t: Task, a: Account, answer: GatewayAnswer, mint: Id)
    ensures var id := if db.gateway.Some? then db.gateway.value else mint;
            AdvanceCall(db, Call(t, AtGateway), a, answer, mint)
              == match answer
                 case Refuses => (db, Call(t, AtGatewayError))
                 case AcceptsButAnswerLost => (db.(gateway := Some(id)), Call(t, AtGatewayError))
                 case Accepts(status) => (db.(gateway := Some(id)), Call(t, AtRefundFinalize(false, id, status)))
    ensures AdvanceCall(db, Call(t, AtGatewayError), a, answer, mint)
              == (if db.refund.Some? then db.(refund := Some(Refund(RFailed, db.refund.value.gatewayId)))
                  else db, Thrown(t))
  {
  }

  lemma RefundFinalizeEffect(db: Db, t: Task, resumed: bool, id: Id, status: RefundStatus, a: Account,
      answer: GatewayAnswer, mint: Id)
    ensures var b := db.booking;
            var r := AdvanceCall(db, Call(t, AtRefundFinalize(resumed, id, status)), a, answer, mint);
            if db.queue.Some? && b.status == Canceled
                && b.payment == Refunded then r == (db, Call(t, AtCancelClose(true)))
            else if && db.queue.Some? && !db.released && b.status != Completed && b.payment in {PaidHeld, FrozenHeld}
                    && db.refund.Some? && (resumed || RefundRunning(db))
            then r == (db.(refund := Some(Refund(status, Some(id))),
                           booking := Booking(b.online, Canceled, None, Refunded, b.started),
                           queue := Some(QueueRow(QCancelled, Refunded)),
                           refundLedger := if id in db.refundLedger then db.refundLedger else db.refundLedger + [id]),
                       Call(t, AtCancelClose(true)))
            else r == (db, Thrown(t))
  {
  }

  /** A booking without held money is cancelled here, unless a refund of it is in progress. */
  lemma CancelCloseEffect(db: Db, t: Task, held: bool, a: Account, answer: GatewayAnswer, mint: Id)
    ensures var b := db.booking;
            var r := AdvanceCall(db, Call(t, AtCancelClose(held)), a, answer, mint);
            var next := Call(t, if t.Resolve? then AtMarkEstablished else AtImmediateClose);
            if || db.released || b.status in {Completed, Declined}
               || (t.Immediate? && b.status != Canceled && (b.started || b.status != UnderReview))
            then r == (db, Thrown(t))
            else if held || b.status == Canceled then r == (db, next)
            else if RefundRunning(db) then r == (db, Thrown(t))
            else r == (db.(booking := Booking(b.online, Canceled, None, b.payment, b.started),
                           queue := if db.queue.Some? then Some(QueueRow(QCancelled, db.queue.value.payment))
                               else None),
                       next)
  {
  }

  lemma ImmediateCloseEffect(db: Db, request: Id, a: Account, answer: GatewayAnswer, mint: Id)
    ensures var t := Immediate(request);
            AdvanceCall(db, Call(t, AtImmediateClose), a, answer, mint)
              == if db.booking.status == Canceled && request in db.cancellations
                 then (db.(cancellations :=
                     db.cancellations[request := db.cancellations[request].(status := CApproved)]),
                       Call(t, Stopped))
                 else (db, Call(t, Stopped))
  {
  }

  /** An administrator settles an awaited booking, or one paused while awaited, and leaves the escalations alone. */
  lemma AdminSettleEffect(db: Db, t: Task, a: Account, answer: GatewayAnswer, mint: Id)
    ensures var b := db.booking;
            var r := AdvanceCall(db, Call(t, AtSettle), a, answer, mint);
            if && !RefundRunning(db) && b.status == Completed && db.released then r == (db, Call(t, AtMarkEstablished))
            else if && !RefundRunning(db)
                    && (b.status == AwaitingConfirmation
                        || (b.status in {Disputed, UnderReview} && b.before == Some(AwaitingConfirmation)))
                    && b.payment == (if !b.online then Unpaid else if b.status == Disputed then FrozenHeld
                         else PaidHeld)
            then SettledAs(db, r.0) && r.0.escalations == db.escalations && r.1 == Call(t, AtMarkEstablished)
            else r == (db, Thrown(t))
  {
  }
}
