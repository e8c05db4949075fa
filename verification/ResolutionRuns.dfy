/** The main results about one booking, for every run: any number of calls, in
    any interleaving, with crashes, thrown errors and lost gateway answers. */
module ResolutionRuns {
  import opened BookingRows
  import opened Transactions
  import opened Interleaving
  import opened ResolutionInvariant
  import opened CaseSteps
  import opened ClaimSteps
  import opened ResolutionSafety

  lemma RowsKeeps(w: World, r: Option<Db>)
    requires WorldGood(w) && Keeps(w.db, r)
    ensures WorldGood(Rows(w, r)) && Evolves(w.db, Rows(w, r).db)
  {
    EvolvesReflexive(w.db);
    if r.Some? {
      forall t | t in w.calls ensures Fits(r.value, w.calls[t]) {
        FitsStable(w.db, r.value, w.calls[t]);
      }
    }
  }

  lemma StartFits(db: Db, key: CaseKey)
    requires Good(db) && key in db.ops
    ensures Fits(db, Call(Resolve(key, db.ops[key].outcome, db.ops[key].penalty), StartOf(key, db.ops[key])))
  {
    assert OpShape(key, db.ops[key]);
  }

  lemma SpawnKeeps(w: World, tid: nat, r: Option<Db>, key: CaseKey)
    requires WorldGood(w) && Keeps(w.db, r)
    ensures WorldGood(Spawn(w, tid, r, key)) && Evolves(w.db, Spawn(w, tid, r, key).db)
  {
    RowsKeeps(w, r);
    EvolvesReflexive(w.db);
    if r.Some? && key in r.value.ops {
      StartFits(r.value, key);
    }
  }

  lemma AdvanceStepKeeps(w: World, tid: nat, a: Account, answer: GatewayAnswer, mint: Id)
    requires WorldGood(w) && tid in w.calls
    ensures var p := AdvanceCall(w.db, w.calls[tid], a, answer, mint);
            WorldGood(World(p.0, w.calls[tid := p.1])) && Evolves(w.db, p.0)
  {
    var p := AdvanceCall(w.db, w.calls[tid], a, answer, mint);
    AdvanceKeeps(w.db, w.calls[tid], a, answer, mint);
    forall t | t in w.calls && t != tid ensures Fits(p.0, w.calls[t]) {
      FitsStable(w.db, p.0, w.calls[t]);
    }
  }

  lemma FileCancellationKeeps(w: World, id: Id, tid: nat)
    requires WorldGood(w)
    ensures var w' := Do(w, FileCancellation(id, tid)); WorldGood(w') && Evolves(w.db, w'.db)
  {
    EvolvesReflexive(w.db);
    var r := OpenCancellation(w.db, id);
    OpenCancellationKeeps(w.db, id);
    RowsKeeps(w, r);
    if r.Some? && r.value.cancellations[id].immediate {
      CallJoins(w.(db := r.value), tid, Call(Immediate(id), AtCancelRead));
    }
  }

  lemma CallJoins(w: World, tid: nat, c: Call)
    requires WorldGood(w) && Fits(w.db, c)
    ensures WorldGood(w.(calls := w.calls[tid := c]))
  {
  }

  lemma OpenerStepKeeps(w: World, s: Step)
    requires WorldGood(w)
    requires s.FileSafetyReport? || s.FileDispute? || s.RespondDecline? || s.Escalate? || s.FileEscalation?
             || s.ReviewReport? || s.ReviewEscalation?
    ensures WorldGood(Do(w, s)) && Evolves(w.db, Do(w, s).db)
  {
    var db := w.db;
    match s {
      case FileSafetyReport(id) => OpenSafetyReportKeeps(db, id); RowsKeeps(w, OpenSafetyReport(db, id));
      case FileDispute(id) => OpenDisputeKeeps(db, id); RowsKeeps(w, OpenDispute(db, id));
      case RespondDecline(id) => DeclineCancellationKeeps(db, id); RowsKeeps(w, DeclineCancellation(db, id));
      case Escalate(id, report) => EscalateCancellationKeeps(db, id, report);
          RowsKeeps(w, EscalateCancellation(db, id, report));
      case FileEscalation(id) => OpenEscalationCaseKeeps(db, id); RowsKeeps(w, OpenEscalationCase(db, id));
      case ReviewReport(id) => StartReportReviewKeeps(db, id); RowsKeeps(w, StartReportReview(db, id));
      case ReviewEscalation(id) => StartEscalationReviewKeeps(db, id); RowsKeeps(w, StartEscalationReview(db, id));
    }
  }

  lemma LifecycleStepKeeps(w: World, s: Step)
    requires WorldGood(w)
    requires s.ProviderAccepts? || s.ProviderDeclines? || s.ProviderStarts? || s.ProviderFinishes? || s.SeekerConfirms?
    ensures WorldGood(Do(w, s)) && Evolves(w.db, Do(w, s).db)
  {
    var db := w.db;
    match s {
      case ProviderAccepts => AcceptCashKeeps(db); RowsKeeps(w, AcceptCash(db));
      case ProviderDeclines => DeclineCashKeeps(db); RowsKeeps(w, DeclineCash(db));
      case ProviderStarts => StartJobKeeps(db); RowsKeeps(w, StartJob(db));
      case ProviderFinishes => MarkCompleteKeeps(db); RowsKeeps(w, MarkComplete(db));
      case SeekerConfirms => SeekerSettleKeeps(db); RowsKeeps(w, Settle(db, false));
    }
  }

  lemma CaseClaimKeeps(w: World, s: Step)
    requires WorldGood(w) && (s.CallReport? || s.CallCompletion? || s.CallParticipant?)
    ensures WorldGood(Do(w, s)) && Evolves(w.db, Do(w, s).db)
  {
    var db := w.db;
    match s {
      case CallReport(tid, id, outcome, penalty, a) =>
        ClaimReportKeeps(db, id, outcome, penalty, a);
        SpawnKeeps(w, tid, ClaimReport(db, id, outcome, penalty, a), ReportCase(id));
      case CallCompletion(tid, id, outcome) =>
        ClaimCompletionKeeps(db, id, outcome);
        SpawnKeeps(w, tid, ClaimCompletion(db, id, outcome), CompletionCase(id));
      case CallParticipant(tid, id) =>
        ClaimByParticipantKeeps(db, id);
        SpawnKeeps(w, tid, ClaimByParticipant(db, id), CancellationCase(id));
    }
  }

  lemma AdminClaimKeeps(w: World, s: Step)
    requires WorldGood(w) && (s.CallAdminCancellation? || s.CallAdminBooking?)
    ensures WorldGood(Do(w, s)) && Evolves(w.db, Do(w, s).db)
  {
    var db := w.db;
    match s {
      case CallAdminCancellation(tid, id, approve, fault) =>
        ClaimByAdminKeeps(db, id, approve, fault);
        SpawnKeeps(w, tid, ClaimByAdmin(db, id, approve, fault), CancellationCase(id));
      case CallAdminBooking(tid, outcome, banned, requireBanned) =>
        ClaimAdminKeeps(db, outcome, banned, requireBanned);
        SpawnKeeps(w, tid, ClaimAdmin(db, outcome, banned, requireBanned), AdminCase);
    }
  }

  lemma CallStepKeeps(w: World, s: Step)
    requires WorldGood(w) && (s.RetryImmediate? || s.Advance? || s.Throw?)
    ensures WorldGood(Do(w, s)) && Evolves(w.db, Do(w, s).db)
  {
    EvolvesReflexive(w.db);
    match s {
      case RetryImmediate(id, tid) =>
      case Advance(tid, a, answer, mint) =>
        if tid in w.calls {
          AdvanceStepKeeps(w, tid, a, answer, mint);
        }
      case Throw(tid) =>
        if tid in w.calls {
          FailedFits(w.db, w.calls[tid]);
        }
    }
  }

  /** Every step of every caller keeps the invariant and moves the rows one way. */
  lemma StepKeeps(w: World, s: Step)
    requires WorldGood(w)
    ensures WorldGood(Do(w, s)) && Evolves(w.db, Do(w, s).db)
  {
    if s.FileSafetyReport? || s.FileDispute? || s.RespondDecline? || s.Escalate? || s.FileEscalation?
       || s.ReviewReport? || s.ReviewEscalation? {
      OpenerStepKeeps(w, s);
    } else if s.ProviderAccepts? || s.ProviderDeclines? || s.ProviderStarts? || s.ProviderFinishes?
        || s.SeekerConfirms? {
      LifecycleStepKeeps(w, s);
    } else if s.CallReport? || s.CallCompletion? || s.CallParticipant? {
      CaseClaimKeeps(w, s);
    } else if s.CallAdminCancellation? || s.CallAdminBooking? {
      AdminClaimKeeps(w, s);
    } else if s.FileCancellation? {
      FileCancellationKeeps(w, s.id, s.tid);
    } else {
      CallStepKeeps(w, s);
    }
  }

  lemma {:induction false} RunKeeps(w: World, steps: seq<Step>)
    requires WorldGood(w)
    ensures WorldGood(Run(w, steps)) && Evolves(w.db, Run(w, steps).db)
    decreases |steps|
  {
    EvolvesReflexive(w.db);
    if steps != [] {
      StepKeeps(w, steps[0]);
      RunKeeps(Do(w, steps[0]), steps[1..]);
      EvolvesTransitive(w.db, Do(w, steps[0]).db, Run(w, steps).db);
    }
  }

  lemma FreshIsGood(db: Db)
    requires Fresh(db)
    ensures WorldGood(World(db, map[]))
  {
  }

  lemma {:induction false} RunSplits(w: World, first: seq<Step>, later: seq<Step>)
    ensures Run(w, first + later) == Run(Run(w, first), later)
    decreases |first|
  {
    if first == [] {
      assert first + later == later;
    } else {
      assert (first + later)[1..] == first[1..] + later;
      RunSplits(Do(w, first[0]), first[1..], later);
    }
  }

  /** The state of a booking after a run from its creation. */
  function After(db: Db, steps: seq<Step>): Db { Run(World(db, map[]), steps).db }

  lemma AfterIsGood(db: Db, steps: seq<Step>)
    requires Fresh(db)
    ensures Good(After(db, steps))
  {
    FreshIsGood(db);
    RunKeeps(World(db, map[]), steps);
  }

  // ---------------------------------------------------------- main results

  /** Mutual exclusion: in every reachable state at most one unfinished decision,
      of any of the four kinds, has reserved or moved the booking's money; and no
      case but its own is open. */
  lemma AtMostOneDecisionHoldsTheMoney(db: Db, steps: seq<Step>, j: CaseKey, k: CaseKey)
    requires Fresh(db) && j in After(db, steps).ops && k in After(db, steps).ops
    requires After(db, steps).ops[j].HoldsMoney() && After(db, steps).ops[k].HoldsMoney()
    ensures j == k
    ensures forall r | r in After(db, steps).reports && After(db, steps).reports[r].Active() ::
              k == ReportCase(r) || (k.CancellationCase? && k.id in After(db, steps).cancellations
                                     && After(db, steps).cancellations[k.id].report == Some(r))
    ensures forall c | c in After(db, steps).cancellations && After(db, steps).cancellations[c].Active() ::
              k == CancellationCase(c)
    ensures forall e | e in After(db, steps).escalations && OpenEscalation(After(db, steps).escalations[e]) ::
              k == CompletionCase(e)
  {
    AfterIsGood(db, steps);
    var d := After(db, steps);
    assert OpOnReports(k, d.ops[k], d.reports, d.cancellations);
    assert OpOnCancellations(k, d.ops[k], d.cancellations);
    assert OpOnEscalations(k, d.ops[k], d.escalations);
  }

  /** Held money is never dropped: an online booking is cancelled exactly when its
      payment is refunded, and completed exactly when it is released. */
  lemma OnlineMoneyFollowsTheBooking(db: Db, steps: seq<Step>)
    requires Fresh(db) && db.booking.online
    ensures var b := After(db, steps).booking;
            && (b.status == Canceled <==> b.payment == Refunded)
            && (b.status == Completed <==> b.payment == Released)
            && (!b.Terminal() ==> b.Held())
  {
    AfterIsGood(db, steps);
    FreshIsGood(db);
    RunKeeps(World(db, map[]), steps);
  }

  /** Whatever happens later, cancelled and completed bookings stay as they are,
      recorded decisions keep outcome and penalty, stage ranks never fall, and
      finished decisions and closed cases stay closed. */
  lemma HistoryOnlyMovesForward(db: Db, first: seq<Step>, later: seq<Step>)
    requires Fresh(db)
    ensures Evolves(After(db, first), After(db, first + later))
  {
    FreshIsGood(db);
    RunKeeps(World(db, map[]), first);
    RunSplits(World(db, map[]), first, later);
    RunKeeps(Run(World(db, map[]), first), later);
  }

  /** A refunded booking carries the gateway's one refund: recorded, in the ledger
      exactly once, with its queue entry cancelled. No other booking has a ledger row. */
  lemma RefundIsRecordedOnce(db: Db, steps: seq<Step>)
    requires Fresh(db)
    ensures var d := After(db, steps);
            && (d.booking.payment == Refunded ==>
                  && d.gateway.Some? && d.refund.Some? && d.refund.value.gatewayId == d.gateway
                  && d.refundLedger == [d.gateway.value]
                  && d.queue == Some(QueueRow(QCancelled, Refunded)))
            && (d.booking.payment != Refunded ==>
                  d.refundLedger == [] && (d.refund.Some? ==> d.refund.value.gatewayId.None?))
  {
    AfterIsGood(db, steps);
  }

  /** A decision is finished exactly when it has a closure, it has at most one, and
      the closure applied either the recorded penalty or none. */
  lemma ClosedExactlyOnce(db: Db, steps: seq<Step>, k: CaseKey)
    requires Fresh(db) && k in After(db, steps).ops
    ensures var d := After(db, steps);
            && (d.ops[k].status == Done <==> exists i | 0 <= i < |d.closures| :: d.closures[i].key == k)
            && (forall i, j | 0 <= i < |d.closures| && 0 <= j < |d.closures| && d.closures[i].key == k
                  && d.closures[j].key == k :: i == j)
            && (forall i | 0 <= i < |d.closures| && d.closures[i].key == k ::
                  d.closures[i].applied in {NoPenalty, d.ops[k].penalty})
            && (d.ops[k].status == Done && Financial(d.ops[k].outcome) ==> Reached(d.booking, d.ops[k].outcome))
  {
    AfterIsGood(db, steps);
    var d := After(db, steps);
    assert OpShape(k, d.ops[k]) && OpOnBooking(k, d.ops[k], d.booking);
  }
}
