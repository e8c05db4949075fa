/** Exactly when money the gateway has sent back can still be released to the provider as well. */
module DoublePayment {
  import opened BookingRows
  import opened Transactions
  import opened Interleaving
  import opened ResolutionInvariant
  import opened ResolutionSafety
  import opened ResolutionRuns
  import opened PauseRestore
  import opened CrashRecovery
  import opened RetryFinishes
  import opened ReleaseInvariant
  import opened ReleaseSteps
  import opened CallOutcomes

  // -------------------------------------- a paused booking is never released

  /** A refund is on record for a booking that is paused or cancelled. */
  ghost predicate Trapped(db: Db) {
    db.refund.Some? && (db.booking.Paused() || db.booking.status == Canceled)
  }

  /** Who owns the refund of a live booking blocks a release. */
  lemma OwnerBlocksRelease(db: Db)
    requires Good(db) && RefundOwned(db) && db.refund.Some? && !db.booking.Terminal()
    ensures !ReleasingHolder(db.ops)
  {
    ImmediateIsOpen(db);
    forall k | k in db.ops && db.ops[k].HoldsMoney() ensures db.ops[k].outcome != ReleaseAndComplete {
      assert OpShape(k, db.ops[k]) && OpOnCancellations(k, db.ops[k], db.cancellations);
      if CancellingHolder(db.ops) {
        var j :| j in db.ops && db.ops[j].HoldsMoney() && Cancels(db.ops[j].outcome);
        assert j == k;
      }
    }
  }

  lemma ImmediateIsOpen(db: Db)
    ensures SomeImmediate(db) ==> OtherCancellation(db.cancellations, None)
  {
  }

  /** Who owns the refund of a live booking keeps it from being restored. */
  lemma OwnerBlocksRestore(db: Db)
    requires RefundOwned(db) && db.refund.Some? && !db.booking.Terminal()
    ensures FinancialReserved(db.ops, None) || OtherCancellation(db.cancellations, None)
  {
    ImmediateIsOpen(db);
  }

  /** One step of rows whose invariants are known. */
  lemma StaysTrappedRows(a: Db, d: Db)
    requires Steady(a, d) && RefundOwned(a) && RefundOwned(d) && ImmediateLink(a, d) && Trapped(a)
    ensures Trapped(d)
  {
    if a.booking.Paused() {
      OwnerBlocksRelease(a);
      if !d.booking.Terminal() { OwnerBlocksRestore(d); }
    }
  }

  lemma StaysTrapped(w: World, s: Step)
    requires WorldGood(w) && Releasing(w.db) && Trapped(w.db)
    ensures WorldGood(Do(w, s)) && Releasing(Do(w, s).db) && Trapped(Do(w, s).db)
  {
    StepKeeps(w, s);
    StepPauses(w, s);
    StepReleases(w, s);
    StepLinks(w, s);
    LinkedMeans(w.db, Do(w, s).db);
    StaysTrappedRows(w.db, Do(w, s).db);
  }

  lemma {:induction false} NeverReleasedFrom(w: World, steps: seq<Step>)
    requires WorldGood(w) && Releasing(w.db) && Trapped(w.db)
    ensures !Run(w, steps).db.released
    decreases |steps|
  {
    if steps != [] {
      StaysTrapped(w, steps[0]);
      NeverReleasedFrom(Do(w, steps[0]), steps[1..]);
    }
  }

  // ------------------------------------------ otherwise it can be released

  /** The refund's owner, when the booking is not paused: a reserved cancellation of started work. */
  lemma OwnerIsCancellation(db: Db) returns (id: Id)
    requires Good(db) && Releasing(db) && db.refund.Some? && db.booking.Held() && !db.booking.Paused()
    ensures WorkBegun(db.booking.status) && db.booking.payment == PaidHeld
    ensures CancellationCase(id) in db.ops && db.ops[CancellationCase(id)].HoldsMoney()
              && Cancels(db.ops[CancellationCase(id)].outcome)
    ensures id in db.cancellations && db.cancellations[id].status == CUnderReview
  {
    forall c ensures !OpenImmediateIn(db.cancellations, c) {}
    var k :| k in db.ops && db.ops[k].HoldsMoney() && Cancels(db.ops[k].outcome);
    HeldFacts(db, k);
    assert k.CancellationCase?;
    id := k.id;
    assert !OpenImmediateIn(db.cancellations, id);
  }

  /** The same booking and queue, with the refund on record as failed. */
  ghost predicate FailureRecorded(db: Db, d: Db) {
    d.booking == db.booking && d.queue == db.queue && !d.RefundInProgress()
  }

  /** A cancelling call whose gateway request fails marks a refund in progress as failed. */
  lemma RefusedCancel(db: Db, mint: Id)
    requires Good(db) && db.booking.Held() && db.RefundInProgress()
    ensures CancelCall(db, Refuses, mint) == (db.(refund := Some(db.refund.value.(status := RFailed))), false)
  {
  }

  /** The reserved retry of a cancellation, alone, with a gateway that cannot be reached. */
  lemma RefusedRetry(db: Db, t: Task, a: Account, mint: Id)
    requires Ready(db, t) && db.ops[t.key].stage == Reserved && t.key.CancellationCase?
    requires db.booking.Held() && db.RefundInProgress()
    ensures FailureRecorded(db, Alone(db, Call(t, AtReserve), a, Refuses, mint, 8))
  {
    ReserveGoesThrough(db, t);
    var d := ReserveStaysReady(db, t);
    RefusedCancel(d, mint);
    FailedAlone(db, d, t, a, mint);
  }

  lemma FailedAlone(db: Db, d: Db, t: Task, a: Account, mint: Id)
    requires t.Resolve? && Cancels(t.outcome) && Reserve(db, t.key) == Some(d) && SameMoney(db, d) && d.refund.Some?
    requires CancelCall(d, Refuses, mint) == (d.(refund := Some(d.refund.value.(status := RFailed))), false)
    ensures FailureRecorded(db, Alone(db, Call(t, AtReserve), a, Refuses, mint, 8))
  {
    var failed := d.(refund := Some(d.refund.value.(status := RFailed)));
    var m := CancelFails(d, failed, t, a, mint);
    FailedAtLast(d, failed, t, a, mint, m);
    ReservedGoesOn(db, d, t, a, mint);
  }

  lemma CancelFails(d: Db, failed: Db, t: Task, a: Account, mint: Id) returns (m: nat)
    requires t.Resolve? && CancelCall(d, Refuses, mint) == (failed, false)
    ensures m >= 1 && Leads(d, Call(t, AtCancelRead), failed, Call(t, AtFailure), a, Refuses, mint, 7, m)
  {
    var used := CancelIsSolo(d, t, a, Refuses, mint, 7);
    m := 7 - used;
  }

  lemma ReservedGoesOn(db: Db, d: Db, t: Task, a: Account, mint: Id)
    requires t.Resolve? && Cancels(t.outcome) && Reserve(db, t.key) == Some(d)
    ensures Alone(db, Call(t, AtReserve), a, Refuses, mint, 8) == Alone(d, Call(t, AtCancelRead), a, Refuses, mint, 7)
  {
    OneStep(db, Call(t, AtReserve), d, Call(t, AtCancelRead), a, Refuses, mint, 8);
  }

  lemma FailedAtLast(d: Db, failed: Db, t: Task, a: Account, mint: Id, m: nat)
    requires t.Resolve? && m >= 1 && Leads(d, Call(t, AtCancelRead), failed, Call(t, AtFailure), a, Refuses, mint, 7, m)
    ensures Alone(d, Call(t, AtCancelRead), a, Refuses, mint, 7) == MarkFailed(failed, t.key)
  {
    LeadsTo(d, Call(t, AtCancelRead), failed, Call(t, AtFailure), a, Refuses, mint, 7, m);
    FailTail(failed, t, a, Refuses, mint, m);
  }

  /** The retry's claim leaves booking, queue and refund alone. */
  lemma ClaimedAgain(db: Db, id: Id, a: Account) returns (d: Db)
    requires Good(db) && db.booking.status != Canceled && db.booking.status != Completed
               && db.booking.status != Declined
    requires CancellationCase(id) in db.ops && db.ops[CancellationCase(id)].HoldsMoney()
               && Cancels(db.ops[CancellationCase(id)].outcome)
    requires id in db.cancellations && db.cancellations[id].status == CUnderReview
    ensures Reclaim(db, CancellationCase(id), a, false, false) == Some(d) && SameMoney(db, d)
    ensures Ready(d, RetryOf(db, CancellationCase(id))) && d.ops[CancellationCase(id)].stage == Reserved
  {
    var key := CancellationCase(id);
    HeldFacts(db, key);
    if db.ops[key].outcome == ParticipantApprove {
      RetriedParticipant(db, id);
      ClaimCancellationLeavesBooking(db, id, true, None);
    } else {
      RetriedAdminCancellation(db, id);
      ClaimCancellationLeavesBooking(db, id, true, NamedParty(db.ops[key].penalty));
    }
    d := Reclaim(db, key, a, false, false).value;
    ReadyIsReserved(d, RetryOf(db, key));
  }

  lemma ReadyIsReserved(d: Db, t: Task)
    requires Ready(d, t) && d.booking.status != Canceled
    ensures d.ops[t.key].stage == Reserved
  {
    assert OpShape(t.key, d.ops[t.key]) && OpOnBooking(t.key, d.ops[t.key], d.booking);
  }

  lemma {:induction false} SomebodyNew(ts: set<nat>) returns (t: nat)
    ensures forall u | u in ts :: u < t
    decreases ts
  {
    t := 0;
    if ts != {} {
      var u :| u in ts;
      var v := SomebodyNew(ts - {u});
      t := if v <= u then u + 1 else v;
      forall x | x in ts ensures x < t { assert x == u || x in ts - {u}; }
    }
  }

  /** The steps of a retry that cannot reach the gateway. */
  function RefusedSteps(db: Db, key: CaseKey, tid: nat, a: Account): seq<Step>
    requires key in db.ops
  {
    [RetryCall(db, key, tid, a, false, false)] + Advances(tid, a, Refuses, 0, 8)
  }

  lemma RefusedRun(w: World, w': World, key: CaseKey, tid: nat, a: Account, c: Call)
    requires key in w.db.ops && Do(w, RetryCall(w.db, key, tid, a, false, false)) == w' && tid in w'.calls
               && w'.calls[tid] == c
    ensures Run(w, RefusedSteps(w.db, key, tid, a)).db == Alone(w'.db, c, a, Refuses, 0, 8)
  {
    AloneIsARun(w', tid, a, Refuses, 0, 8);
    var steps := RefusedSteps(w.db, key, tid, a);
    assert steps[1..] == Advances(tid, a, Refuses, 0, 8);
  }

  lemma RetrySpawns(w: World, d: Db, id: Id, tid: nat, a: Account)
    requires Good(w.db) && tid !in w.calls && CancellationCase(id) in w.db.ops
               && w.db.ops[CancellationCase(id)].HoldsMoney()
    requires Reclaim(w.db, CancellationCase(id), a, false, false) == Some(d) && CancellationCase(id) in d.ops
    requires d.ops[CancellationCase(id)].stage == Reserved && d.ops[CancellationCase(id)].status != Done
    requires Cancels(d.ops[CancellationCase(id)].outcome)
    ensures var key := CancellationCase(id);
            Do(w, RetryCall(w.db, key, tid, a, false, false))
              == World(d, w.calls[tid := Call(Resolve(key, d.ops[key].outcome, d.ops[key].penalty), AtReserve)])
  {
    assert OpShape(CancellationCase(id), w.db.ops[CancellationCase(id)]);
    SpawnsReclaim(w, CancellationCase(id), tid, a, false, false);
  }

  /** A run after which the refund is no longer on record as in progress. */
  lemma FailsFirst(w: World, a: Account) returns (steps: seq<Step>)
    requires WorldGood(w) && Releasing(w.db) && w.db.refund.Some? && w.db.booking.Held() && !w.db.booking.Paused()
    ensures FailureRecorded(w.db, Run(w, steps).db)
  {
    steps := [];
    if w.db.RefundInProgress() {
      var id := OwnerIsCancellation(w.db);
      var d := ClaimedAgain(w.db, id, a);
      var tid := SomebodyNew(w.calls.Keys);
      steps := FailsWith(w, d, id, tid, a);
    }
  }

  lemma FailsWith(w: World, d: Db, id: Id, tid: nat, a: Account) returns (steps: seq<Step>)
    requires Good(w.db) && tid !in w.calls && CancellationCase(id) in w.db.ops
               && w.db.ops[CancellationCase(id)].HoldsMoney()
    requires Reclaim(w.db, CancellationCase(id), a, false, false) == Some(d) && SameMoney(w.db, d)
    requires Ready(d, RetryOf(w.db, CancellationCase(id))) && d.ops[CancellationCase(id)].stage == Reserved
    requires d.booking.Held() && d.RefundInProgress()
    ensures FailureRecorded(w.db, Run(w, steps).db)
  {
    var key := CancellationCase(id);
    var t := RetryOf(w.db, key);
    RetrySpawns(w, d, id, tid, a);
    RefusedRun(w, Do(w, RetryCall(w.db, key, tid, a, false, false)), key, tid, a, Call(t, AtReserve));
    RefusedRetry(d, t, a, 0);
    steps := RefusedSteps(w.db, key, tid, a);
  }

  lemma FinishedThenPaid(db: Db)
    requires WorkBegun(db.booking.status) && db.booking.online && db.booking.payment == PaidHeld
               && !db.RefundInProgress()
    ensures MarkComplete(db).Some? && Settle(MarkComplete(db).value, false).Some?
              && Settle(MarkComplete(db).value, false).value.released
  {
  }

  /** Then the job is finished and the seeker confirms. */
  lemma ConfirmedNext(w: World)
    requires WorkBegun(w.db.booking.status) && w.db.booking.online && w.db.booking.payment == PaidHeld
               && !w.db.RefundInProgress()
    ensures Run(w, [ProviderFinishes, SeekerConfirms]).db.released
  {
    FinishedThenPaid(w.db);
    var w1 := w.(db := MarkComplete(w.db).value);
    assert Do(w, ProviderFinishes) == w1;
    assert [ProviderFinishes, SeekerConfirms][1..] == [SeekerConfirms] && [SeekerConfirms][1..] == [];
    assert Run(w1, [SeekerConfirms]) == Run(Do(w1, SeekerConfirms), []);
  }

  lemma ReleasedFrom(w: World, a: Account) returns (later: seq<Step>)
    requires WorldGood(w) && Releasing(w.db) && w.db.refund.Some? && w.db.booking.Held() && !w.db.booking.Paused()
    ensures Run(w, later).db.released
  {
    var id := OwnerIsCancellation(w.db);
    var first := FailsFirst(w, a);
    RunKeeps(w, first);
    ConfirmedNext(Run(w, first));
    later := first + [ProviderFinishes, SeekerConfirms];
    RunSplits(w, first, [ProviderFinishes, SeekerConfirms]);
  }

  // -------------------------------------------------------- the main result

  /** In a reachable state in which the gateway has sent the money back and the booking still holds it,
      some continuation also releases it to the provider if and only if the booking is not paused. */
  lemma ReleaseStillPossibleExactly(db: Db, steps: seq<Step>)
    requires Fresh(db) && After(db, steps).gateway.Some? && After(db, steps).booking.Held()
    ensures (exists later :: After(db, steps + later).released) <==> !After(db, steps).booking.Paused()
  {
    var w := Run(World(db, map[]), steps);
    FreshIsGood(db);
    FreshReleases(db);
    RunReleases(World(db, map[]), steps);
    if w.db.booking.Paused() {
      forall later ensures !After(db, steps + later).released {
        RunSplits(World(db, map[]), steps, later);
        NeverReleasedFrom(w, later);
      }
    } else {
      var later := ReleasedFrom(w, Account(true, false, false));
      RunSplits(World(db, map[]), steps, later);
    }
  }
}
