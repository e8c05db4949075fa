/** The main results about payments, offers and requests, for every run. */
module MarketRuns {
  import opened BookingRows
  import opened MarketRows
  import opened MarketSteps
  import opened MarketInvariant
  import opened CaptureFate

  function After(steps: seq<Step>): Market { Run(EmptyMarket(), steps) }

  lemma {:induction false} RunKeeps(m: Market, steps: seq<Step>)
    requires Lockstep(m)
    ensures Lockstep(Run(m, steps)) && Onward(m, Run(m, steps))
    decreases |steps|
  {
    if steps != [] {
      StepKeeps(m, steps[0]);
      RunKeeps(Do(m, steps[0]), steps[1..]);
      OnwardThrough(m, Do(m, steps[0]), Run(m, steps));
    }
  }

  lemma {:induction false} RunSplits(m: Market, first: seq<Step>, later: seq<Step>)
    ensures Run(m, first + later) == Run(Run(m, first), later)
    decreases |first|
  {
    if first == [] {
      assert first + later == later;
    } else {
      assert (first + later)[1..] == first[1..] + later;
      RunSplits(Do(m, first[0]), first[1..], later);
    }
  }

  lemma AfterIsInStep(steps: seq<Step>)
    ensures Lockstep(After(steps))
  {
    RunKeeps(EmptyMarket(), steps);
  }

  // ------------------------------------------------ offers and requests

  /** A request is waiting for payment exactly when one of its offers is held, it
      is then the only selected one, and an open or removed request has none. */
  lemma RequestFollowsItsOffers(steps: seq<Step>, r: Id)
    requires r in After(steps).requests
    ensures var m := After(steps);
            && (m.requests[r].status == PaymentPending <==>
                  exists o | o in m.offers :: m.offers[o].request == r && m.offers[o].status == Held)
            && (m.requests[r].status == InProgress ==>
                  exists o | o in m.offers :: m.offers[o].request == r && m.offers[o].status == OfferAccepted)
            && (m.requests[r].status == Open || m.requests[r].removed ==>
                  forall o | o in m.offers && m.offers[o].request == r :: m.offers[o].status !in {Held, OfferAccepted})
            && (forall o, p | o in m.offers && p in m.offers && m.offers[o].request == r && m.offers[p].request == r
                               && m.offers[o].status in {Held, OfferAccepted}
                               && m.offers[p].status in {Held, OfferAccepted} :: o == p)
  {
    AfterIsInStep(steps);
    var m := After(steps);
    forall o | o in m.offers ensures m.offers[o].Selected() <==> m.offers[o].status in {Held, OfferAccepted} {}
    if m.requests[r].status == Open || m.requests[r].removed { OpenHasNoSelection(m, r); }
  }

  /** The many reasons that block deleting a request come down to two: it is not open,
      or a payment on one of its offers is pending, settled or owed back. */
  lemma DeletableExactly(steps: seq<Step>, r: Id)
    requires r in After(steps).requests
    ensures DeletionEligibility(After(steps), r) == Deletable <==>
              After(steps).requests[r].status == Open && !PaymentInTheWay(After(steps), r)
  {
    AfterIsInStep(steps);
    var m := After(steps);
    if m.requests[r].status == Open {
      OpenHasNoSelection(m, r);
      assert !SomeDeal(m, r, false) && !SomeDeal(m, r, true);
    }
  }

  /** At most one offer per request is ever accepted, however far apart in time. */
  lemma OneAcceptanceEver(first: seq<Step>, later: seq<Step>, o: Id, p: Id)
    requires o in After(first).offers && After(first).offers[o].status == OfferAccepted
    requires p in After(first + later).offers && After(first + later).offers[p].status == OfferAccepted
    requires After(first).offers[o].request == After(first + later).offers[p].request
    ensures o == p
  {
    AfterIsInStep(first);
    AfterIsInStep(first + later);
    RunSplits(EmptyMarket(), first, later);
    RunKeeps(After(first), later);
  }

  /** An accepted offer has exactly one booking, whose progress its request mirrors;
      only accepted offers have one. */
  lemma OneBookingPerOffer(steps: seq<Step>, o: Id)
    requires o in After(steps).offers
    ensures var m := After(steps);
            && (m.offers[o].status == OfferAccepted <==> exists d | d in m.deals :: m.deals[d].offer == Some(o))
            && (forall d, e | d in m.deals && e in m.deals && m.deals[d].offer == Some(o)
                  && m.deals[e].offer == Some(o) :: d == e)
            && (forall d | d in m.deals && m.deals[d].offer == Some(o) ::
                  && m.offers[o].request in m.requests
                  && m.requests[m.offers[o].request].status == Mirror(m.deals[d].progress))
  {
    AfterIsInStep(steps);
  }

  /** Bookings, their payments and queue rows are never taken back, and a paid booking
      has exactly one queue row and shares its payment with no other. */
  lemma PaidBookingsQueuedOnce(first: seq<Step>, later: seq<Step>)
    ensures var m := After(first);
            var n := After(first + later);
            && m.queueRows <= n.queueRows
            && (forall d :: d in n.queueRows <==> d in n.deals && n.deals[d].attempt.Some?)
            && (forall i, j | 0 <= i < j < |n.queueRows| :: n.queueRows[i] != n.queueRows[j])
            && (forall d, e | d in n.deals && e in n.deals && n.deals[d].attempt.Some?
                  && n.deals[d].attempt == n.deals[e].attempt :: d == e)
            && (forall d | d in m.deals ::
                  d in n.deals && (m.deals[d].progress != Live ==> n.deals[d].progress == m.deals[d].progress))
  {
    AfterIsInStep(first);
    AfterIsInStep(first + later);
    RunSplits(EmptyMarket(), first, later);
    RunKeeps(After(first), later);
  }

  // -------------------------------------------------- the fate of a capture

  ghost predicate SparingRun(m: Market, steps: seq<Step>)
    decreases |steps|
  {
    steps == [] || (SparesDecided(m, steps[0]) && SparingRun(Do(m, steps[0]), steps[1..]))
  }

  ghost predicate FateAllAlong(m: Market, steps: seq<Step>)
    decreases |steps|
  {
    SingleFate(m) && (steps == [] || FateAllAlong(Do(m, steps[0]), steps[1..]))
  }

  lemma {:induction false} FateExactly(m: Market, steps: seq<Step>)
    requires SingleFate(m)
    ensures FateAllAlong(m, steps) <==> SparingRun(m, steps)
    ensures SparingRun(m, steps) ==> SingleFate(Run(m, steps))
    decreases |steps|
  {
    if steps != [] {
      StepKeepsFate(m, steps[0]);
      if SingleFate(Do(m, steps[0])) {
        FateExactly(Do(m, steps[0]), steps[1..]);
      }
    }
  }

  /** A capture has a single fate in every state of a run if and only if the provider-error
      write never hits an attempt that has succeeded or is being refunded. */
  lemma SingleFateExactlyWhenSpared(steps: seq<Step>)
    ensures FateAllAlong(EmptyMarket(), steps) <==> SparingRun(EmptyMarket(), steps)
  {
    FateExactly(EmptyMarket(), steps);
  }

  /** Then money is never both booked and sent back. */
  lemma NeverBookedAndRefunded(steps: seq<Step>, a: Id)
    requires SparingRun(EmptyMarket(), steps) && a in After(steps).attempts
    ensures var m := After(steps);
            && (Owned(m.deals, a) <==> m.attempts[a].status == Succeeded)
            && (a in m.refunding || AttemptKey(a) in m.gateway
                  || m.attempts[a].status in {RefundRequired, AttemptRefunded} ==>
                  !Owned(m.deals, a))
            && (m.attempts[a].status == AttemptRefunded ==> AttemptKey(a) in m.gateway)
  {
    FateExactly(EmptyMarket(), steps);
  }

  /** Finalizing a capture whose fate is decided changes nothing, however late or often. */
  lemma DecidedCaptureStays(steps: seq<Step>, a: Id, now: nat, matches: bool, fit: bool, withId: bool, deal: Id)
    requires SparingRun(EmptyMarket(), steps) && a in After(steps).attempts
    requires After(steps).attempts[a].status in {Succeeded, RefundRequired, AttemptRefunded}
    ensures Do(After(steps), Finalize(a, now, matches, fit, withId, deal)) == After(steps)
  {
    FateExactly(EmptyMarket(), steps);
    var m := After(steps);
    if m.attempts[a].status == Succeeded {
      var d :| d in m.deals && m.deals[d].attempt == Some(a);
      assert DealTaken(m.deals, None, Some(a));
    }
  }

  /** A repeated notice about a capture, with its payment id, and then one pass of its refund. */
  function Recovered(m: Market, a: Id, now: nat, fit: bool, deal: Id, mint: Id): Market {
    Do(Do(Do(Do(m, Finalize(a, now, true, fit, true, deal)), RefundBegin(a)), RefundSend(a, mint)), RefundEnd(a))
  }

  /** The money bought one booking, or went back. */
  ghost predicate Settled(m: Market, a: Id) {
    && a in m.attempts
    && if Owned(m.deals, a) then m.attempts[a].status == Succeeded && AttemptKey(a) !in m.gateway
       else m.attempts[a].status == AttemptRefunded && AttemptKey(a) in m.gateway
  }

  /** The refund was ordered by a notice without a payment id, so there is nothing to refund against. */
  predicate Untraceable(a: Attempt) { a.status == RefundRequired && !a.captured }

  /** A held offer has no booking yet. */
  lemma HeldIsFree(m: Market, a: Id)
    requires Lockstep(m) && SingleFate(m) && a in m.attempts && m.attempts[a].status != Succeeded
    requires m.attempts[a].target.ForOffer? ==> HoldValid(m, m.attempts[a].target.offer, m.attempts[a].seeker)
    ensures !DealTaken(m.deals, if m.attempts[a].target.ForOffer? then Some(m.attempts[a].target.offer)
              else None, Some(a))
  {
  }

  lemma NoticeDecides(m: Market, a: Id, now: nat, fit: bool, deal: Id)
    requires Lockstep(m) && SingleFate(m) && a in m.attempts && m.attempts[a].intent && deal !in m.deals
    ensures var n := Do(m, Finalize(a, now, true, fit, true, deal));
            && SingleFate(n) && a in n.attempts && n.attempts[a].Decided()
            && (m.attempts[a].Decided() ==> n == m)
            && (!m.attempts[a].Decided() ==> n.attempts[a].captured)
  {
    StepKeepsFate(m, Finalize(a, now, true, fit, true, deal));
    if m.attempts[a].status == Succeeded {
      var d :| d in m.deals && m.deals[d].attempt == Some(a);
      assert DealTaken(m.deals, None, Some(a));
    } else if !m.attempts[a].Decided()
        && (m.attempts[a].target.ForOffer? ==> HoldValid(m, m.attempts[a].target.offer, m.attempts[a].seeker)) {
      HeldIsFree(m, a);
    }
  }

  lemma RefundPass(n: Market, a: Id, mint: Id)
    requires SingleFate(n) && a in n.attempts && n.attempts[a].Decided()
    ensures Settled(Do(Do(Do(n, RefundBegin(a)), RefundSend(a, mint)), RefundEnd(a)), a) <==>
              !Untraceable(n.attempts[a])
  {
    if n.attempts[a].status == Succeeded {
      assert a !in n.refunding && Owned(n.deals, a);
      assert Do(Do(Do(n, RefundBegin(a)), RefundSend(a, mint)), RefundEnd(a)) == n;
    } else {
      assert !Owned(n.deals, a);
    }
  }

  /** Captured money is never forgotten: from every state a sparing run reaches, one undisturbed repeated
      notice and one refund pass leave the attempt succeeded with its booking, or refunded with the money
      sent back, exactly unless its refund had been ordered by a notice without a payment id. */
  lemma CaptureRecovered(steps: seq<Step>, a: Id, now: nat, fit: bool, deal: Id, mint: Id)
    requires SparingRun(EmptyMarket(), steps) && a in After(steps).attempts && After(steps).attempts[a].intent
    requires deal !in After(steps).deals
    ensures Settled(Recovered(After(steps), a, now, fit, deal, mint), a) <==> !Untraceable(After(steps).attempts[a])
  {
    FateExactly(EmptyMarket(), steps);
    AfterIsInStep(steps);
    NoticeDecides(After(steps), a, now, fit, deal);
    RefundPass(Do(After(steps), Finalize(a, now, true, fit, true, deal)), a, mint);
  }

  // ----------------------------------------------------- the failing family

  function ErrorAfterSuccess(): seq<Step> {
    [Start(0, 1, ForService(5), 0, 10, true), Save(0), Finalize(0, 1, true, true, true, 0), Error(0),
     Finalize(0, 2, true, true, true, 1), RefundBegin(0), RefundSend(0, 7)]
  }

  function PaidService(status: AttemptStatus): Market {
    Market(map[], map[], map[0 := Attempt(1, ForService(5), status, 10, true, true)],
           map[0 := Deal(1, None, Some(5), Some(0), Live)], [0], {}, {}, map[])
  }

  lemma BookedFirst()
    ensures var s := ErrorAfterSuccess(); Do(Do(Do(EmptyMarket(), s[0]), s[1]), s[2]) == PaidService(Succeeded)
  {
    var s := ErrorAfterSuccess();
    var started := Do(EmptyMarket(), s[0]);
    assert started == EmptyMarket().(attempts := map[0 := Attempt(1, ForService(5), AttemptPending, 10, false, false)]);
    var saved := Do(started, s[1]);
    assert saved == EmptyMarket().(attempts := map[0 := Attempt(1, ForService(5), AttemptPending, 10, true, false)]);
    assert Do(saved, s[2]) == PaidService(Succeeded);
  }

  lemma RefundedNext()
    ensures var s := ErrorAfterSuccess(); Do(Do(PaidService(Succeeded), s[3]), s[4]) == PaidService(RefundRequired)
  {
    var s := ErrorAfterSuccess();
    var failed := Do(PaidService(Succeeded), s[3]);
    assert failed == PaidService(AttemptFailed);
    assert failed.deals[0].service == Some(5) && LiveDealFor(failed.deals, 1, ForService(5));
    assert Do(failed, s[4]) == PaidService(RefundRequired);
  }

  /** Without the premise it happens: a late provider error on a succeeded attempt makes
      a repeated notice refund money whose booking is live. */
  lemma BookedAndRefundedHappens()
    ensures var m := After(ErrorAfterSuccess());
            Owned(m.deals, 0) && AttemptKey(0) in m.gateway && 0 in m.deals && m.deals[0].progress == Live
  {
    ErrorRunEnds(ErrorAfterSuccess());
    SentBackWhileLive();
  }

  lemma ErrorRunEnds(s: seq<Step>)
    requires s == ErrorAfterSuccess()
    ensures Run(EmptyMarket(), s) == Do(Do(PaidService(RefundRequired), RefundBegin(0)), RefundSend(0, 7))
  {
    BookedFirst();
    RefundedNext();
    RunSeven(EmptyMarket(), s);
  }

  lemma SentBackWhileLive()
    ensures var m := Do(Do(PaidService(RefundRequired), RefundBegin(0)), RefundSend(0, 7));
            Owned(m.deals, 0) && AttemptKey(0) in m.gateway && 0 in m.deals && m.deals[0].progress == Live
  {
    var m := Do(Do(PaidService(RefundRequired), RefundBegin(0)), RefundSend(0, 7));
    assert m.deals[0].attempt == Some(0);
  }

  function LateWithoutId(): seq<Step> {
    [Start(0, 1, ForService(5), 0, 10, true), Save(0), Finalize(0, 10, true, true, false, 0)]
  }

  /** A first notice that comes too late and without a payment id leaves a debt no later notice can pay. */
  lemma UntraceableHappens()
    ensures SparingRun(EmptyMarket(), LateWithoutId())
    ensures 0 in After(LateWithoutId()).attempts && Untraceable(After(LateWithoutId()).attempts[0])
  {
    var s := LateWithoutId();
    var started := Do(EmptyMarket(), s[0]);
    assert started == EmptyMarket().(attempts := map[0 := Attempt(1, ForService(5), AttemptPending, 10, false, false)]);
    var saved := Do(started, s[1]);
    assert saved == EmptyMarket().(attempts := map[0 := Attempt(1, ForService(5), AttemptPending, 10, true, false)]);
    var late := Do(saved, s[2]);
    assert late.attempts == map[0 := Attempt(1, ForService(5), RefundRequired, 10, true, false)];
    RunThree(EmptyMarket(), s);
    SparedThree(EmptyMarket(), s);
  }

  lemma SparedThree(m: Market, s: seq<Step>)
    requires |s| == 3 && !s[0].Error? && !s[1].Error? && !s[2].Error?
    ensures SparingRun(m, s)
  {
    var m1 := Do(m, s[0]);
    var m2 := Do(m1, s[1]);
    assert SparingRun(Do(m2, s[2]), s[3..]);
    assert s[2..][1..] == s[3..] && SparingRun(m2, s[2..]);
    assert s[1..][1..] == s[2..] && SparingRun(m1, s[1..]);
  }

  lemma RunSeven(m: Market, s: seq<Step>)
    requires |s| == 7
    ensures Run(m, s) == Do(Do(Do(Do(Do(Do(Do(m, s[0]), s[1]), s[2]), s[3]), s[4]), s[5]), s[6])
  {
    RunThree(m, s[..3]);
    RunThree(Do(Do(Do(m, s[0]), s[1]), s[2]), s[3..6]);
    RunSplits(m, s[..3], s[3..]);
    RunSplits(Do(Do(Do(m, s[0]), s[1]), s[2]), s[3..6], s[6..]);
    assert s[..3] + s[3..] == s && s[3..6] + s[6..] == s[3..];
    assert s[6..][1..] == [];
  }

  lemma RunThree(m: Market, s: seq<Step>)
    requires |s| == 3
    ensures Run(m, s) == Do(Do(Do(m, s[0]), s[1]), s[2])
  {
    assert Run(Do(m, s[0]), s[1..]) == Run(Do(Do(m, s[0]), s[1]), s[2..]);
    assert Run(Do(Do(m, s[0]), s[1]), s[2..]) == Run(Do(Do(Do(m, s[0]), s[1]), s[2]), s[3..]);
  }
}
