/** How often the gateway is asked to send one captured payment back, and under which keys. */
module RefundKeys {
  import opened BookingRows
  import opened MarketRows
  import opened MarketSteps
  import opened MarketInvariant
  import opened CaptureFate
  import opened MarketRuns

  // ------------------------------------------------- what every run keeps

  /** Every refund at the gateway was begun, and names the payment its key belongs to. */
  ghost predicate SlipsFit(m: Market) {
    && (forall a | AttemptKey(a) in m.gateway :: a in m.refunding && m.gateway[AttemptKey(a)].payment == a)
    && (forall d | BookingKey(d) in m.gateway ::
          d in m.returning && d in m.deals && m.deals[d].attempt == Some(m.gateway[BookingKey(d)].payment))
  }

  ghost predicate BegunFit(m: Market) {
    && (forall a | a in m.refunding :: a in m.attempts)
    && (forall d | d in m.returning :: d in m.deals && m.deals[d].attempt.Some?)
    && (forall d | d in m.deals && m.deals[d].attempt.Some? :: m.deals[d].attempt.value in m.attempts)
    && (forall a | a in m.attempts && m.attempts[a].status == Succeeded :: Owned(m.deals, a))
  }

  ghost predicate Traced(m: Market) { SlipsFit(m) && BegunFit(m) }

  /** Attempts, bookings and refund records may only grow, and only bookings appear with `Succeeded`. */
  ghost predicate TraceGrows(m: Market, d: Market) {
    && d.refunding == m.refunding && d.returning == m.returning && d.gateway == m.gateway
    && m.attempts.Keys <= d.attempts.Keys
    && (forall e | e in m.deals :: e in d.deals && d.deals[e].attempt == m.deals[e].attempt)
    && (forall e | e in d.deals && e !in m.deals && d.deals[e].attempt.Some? :: d.deals[e].attempt.value in d.attempts)
    && (forall a | a in d.attempts && d.attempts[a].status == Succeeded ::
          (a in m.attempts && m.attempts[a].status == Succeeded) || Owned(d.deals, a))
  }

  lemma GrownStaysTraced(m: Market, d: Market)
    requires Traced(m) && TraceGrows(m, d)
    ensures Traced(d)
  {
    forall a: Id | Owned(m.deals, a) ensures Owned(d.deals, a) {
      var e :| e in m.deals && m.deals[e].attempt == Some(a);
      assert d.deals[e].attempt == Some(a);
    }
  }

  // ------------------------------------------------------ the steps' traces

  lemma OfferStepTraces(m: Market, s: Step)
    requires s.Post? || s.Pause? || s.Reopen? || s.Delete? || s.Remove? || s.Revive? || s.Decline?
             || s.Submit? || s.Reject?
    ensures TraceGrows(m, Do(m, s)) && Do(m, s).attempts == m.attempts && Do(m, s).deals == m.deals
  {
  }

  lemma CashStepTraces(m: Market, s: Step)
    requires s.TakeCash? || s.BookCash?
    ensures TraceGrows(m, Do(m, s)) && Do(m, s).attempts == m.attempts
    ensures forall d | d in Do(m, s).deals && d !in m.deals :: Do(m, s).deals[d].attempt.None?
    ensures forall d | d in m.deals :: Do(m, s).deals[d] == m.deals[d]
  {
  }

  lemma EndingStepTraces(m: Market, s: Step)
    requires s.Complete? || s.Cancel? || s.TurnDown?
    ensures TraceGrows(m, Do(m, s)) && Do(m, s).attempts == m.attempts && Do(m, s).deals.Keys == m.deals.Keys
    ensures forall d | d in m.deals :: Do(m, s).deals[d].progress == Live ==> m.deals[d].progress == Live
  {
    if Do(m, s) != m {
      EndingShape(m, s);
      EndedTraces(m, Do(m, s), s.deal);
    }
  }

  ghost predicate Ended(m: Market, d: Market, deal: Id) {
    && deal in m.deals && deal in d.deals && d.deals == m.deals[deal := d.deals[deal]]
    && d.deals[deal].attempt == m.deals[deal].attempt && d.deals[deal].progress != Live
    && d == m.(requests := d.requests, deals := d.deals)
  }

  lemma EndingShape(m: Market, s: Step)
    requires (s.Complete? || s.Cancel? || s.TurnDown?) && Do(m, s) != m
    ensures Ended(m, Do(m, s), s.deal)
  {
  }

  lemma EndedTraces(m: Market, d: Market, deal: Id)
    requires Ended(m, d, deal)
    ensures TraceGrows(m, d) && d.deals.Keys == m.deals.Keys
    ensures forall e | e in m.deals :: d.deals[e].progress == Live ==> m.deals[e].progress == Live
  {
  }

  /** Attempts are rewritten, added, expired or failed; none becomes due for a refund or succeeds. */
  ghost predicate AttemptsCalm(a: map<Id, Attempt>, b: map<Id, Attempt>) {
    && a.Keys <= b.Keys
    && forall i | i in b && (b[i].status == Succeeded || b[i].status == RefundRequired) ::
         i in a && a[i].status == b[i].status && a[i].captured == b[i].captured
  }

  lemma HoldLeavesTrace(m: Market, target: Target)
    ensures var d := ReleaseHold(m, target); d == m.(requests := d.requests, offers := d.offers)
  {
  }

  lemma StartTraces(m: Market, s: Step)
    requires s.Start?
    ensures TraceGrows(m, Do(m, s)) && Do(m, s).deals == m.deals && AttemptsCalm(m.attempts, Do(m, s).attempts)
  {
    var swept := ExpireFor(m, s.seeker, s.target, s.now);
    SweepTraces(m, s.seeker, s.target, s.now);
    var d := Do(m, s);
    assert d == m || d == swept || AddsPending(swept, d, s.id);
  }

  ghost predicate AddsPending(m: Market, d: Market, id: Id) {
    && id in d.attempts && d.attempts[id].status == AttemptPending
    && d == m.(requests := d.requests, offers := d.offers, attempts := m.attempts[id := d.attempts[id]])
  }

  lemma SweepTraces(m: Market, seeker: Id, target: Target, now: nat)
    ensures var d := ExpireFor(m, seeker, target, now);
            && d == m.(requests := d.requests, offers := d.offers, attempts := d.attempts)
            && d.attempts.Keys == m.attempts.Keys && AttemptsCalm(m.attempts, d.attempts)
  {
    var expired := m.(attempts := map a | a in m.attempts ::
      if Stale(m.attempts[a], seeker, target, now) then m.attempts[a].(status := Expired) else m.attempts[a]);
    HoldLeavesTrace(expired, target);
  }

  lemma AttemptStepTraces(m: Market, s: Step)
    requires s.Save? || s.Error? || s.Fail? || s.Expire?
    ensures TraceGrows(m, Do(m, s)) && Do(m, s).deals == m.deals && AttemptsCalm(m.attempts, Do(m, s).attempts)
  {
    if Do(m, s) != m {
      RewrittenShape(m, s);
    }
  }

  /** One attempt is rewritten without becoming due for a refund or succeeding. */
  ghost predicate Rewritten(m: Market, d: Market, id: Id) {
    && id in m.attempts && id in d.attempts
    && d == m.(requests := d.requests, offers := d.offers, attempts := m.attempts[id := d.attempts[id]])
    && (d.attempts[id].status in {AttemptFailed, Expired} || d.attempts[id] == m.attempts[id].(intent := true))
  }

  lemma RewrittenShape(m: Market, s: Step)
    requires (s.Save? || s.Error? || s.Fail? || s.Expire?) && Do(m, s) != m
    ensures Rewritten(m, Do(m, s), s.id)
  {
    HoldLeavesTrace(SetAttempt(m, s.id, AttemptFailed), m.attempts[s.id].target);
    HoldLeavesTrace(SetAttempt(m, s.id, Expired), m.attempts[s.id].target);
  }

  /** A notice about an undecided attempt orders its refund, books it, or is refused. */
  ghost predicate Ordered(m: Market, d: Market, id: Id, withId: bool) {
    && id in m.attempts && d == m.(requests := d.requests, offers := d.offers, attempts := d.attempts)
    && d.attempts == m.attempts[id := m.attempts[id].(status := RefundRequired, captured := withId)]
  }

  ghost predicate Booked(m: Market, d: Market, id: Id, deal: Id) {
    && id in m.attempts && id in d.attempts && d.attempts == m.attempts[id := d.attempts[id]]
    && d.attempts[id].status == Succeeded
    && deal !in m.deals && deal in d.deals && d.deals == m.deals[deal := d.deals[deal]]
    && d.deals[deal].attempt == Some(id) && d.deals[deal].progress == Live
    && d.refunding == m.refunding && d.returning == m.returning && d.gateway == m.gateway
  }

  /** The tests after which a notice orders a refund. */
  predicate OrdersRefund(m: Market, id: Id, now: nat, fit: bool)
    requires id in m.attempts
  {
    var a := m.attempts[id];
    || a.expires <= now || !fit || LiveDealFor(m.deals, a.seeker, a.target)
    || (a.target.ForOffer? && (!HoldValid(m, a.target.offer, a.seeker) || CompetingSelection(m.offers, a.target.offer)))
  }

  predicate RoomToBook(m: Market, id: Id, deal: Id)
    requires id in m.attempts
  {
    var target := m.attempts[id].target;
    deal !in m.deals && !DealTaken(m.deals, if target.ForOffer? then Some(target.offer) else None, Some(id))
  }

  lemma OwnedIsTaken(deals: map<Id, Deal>, a: Id)
    ensures Owned(deals, a) ==> DealTaken(deals, None, Some(a))
  {
  }

  lemma NoticeIsUndecided(m: Market, s: Step)
    requires s.Finalize? && BegunFit(m) && Do(m, s) != m
    ensures s.id in m.attempts && m.attempts[s.id].intent && !m.attempts[s.id].Decided() && s.matches
  {
    OwnedIsTaken(m.deals, s.id);
  }

  lemma NoticeShape(m: Market, s: Step)
    requires s.Finalize? && Do(m, s) != m && s.id in m.attempts && !m.attempts[s.id].Decided()
    ensures if OrdersRefund(m, s.id, s.now, s.fit) then Ordered(m, Do(m, s), s.id, s.withId)
            else RoomToBook(m, s.id, s.deal) && Booked(m, Do(m, s), s.id, s.deal)
  {
    if OrdersRefund(m, s.id, s.now, s.fit) { OrderedShape(m, s); } else { BookedShape(m, s); }
  }

  lemma OrderedShape(m: Market, s: Step)
    requires s.Finalize? && Do(m, s) != m && s.id in m.attempts && !m.attempts[s.id].Decided()
    requires OrdersRefund(m, s.id, s.now, s.fit)
    ensures Ordered(m, Do(m, s), s.id, s.withId)
  {
    HoldLeavesTrace(Capture(m, s.id, RefundRequired, s.withId), m.attempts[s.id].target);
  }

  lemma BookedShape(m: Market, s: Step)
    requires s.Finalize? && Do(m, s) != m && s.id in m.attempts && !m.attempts[s.id].Decided()
    requires !OrdersRefund(m, s.id, s.now, s.fit)
    ensures RoomToBook(m, s.id, s.deal) && Booked(m, Do(m, s), s.id, s.deal)
  {
    assert Do(m, s) == CreateDeal(m, s.id, s.withId, s.deal).value;
  }

  lemma NoticeStays(m: Market, s: Step)
    requires s.Finalize? && BegunFit(m) && Do(m, s) == m && s.id in m.attempts && m.attempts[s.id].intent && s.matches
    ensures m.attempts[s.id].Decided() || (!OrdersRefund(m, s.id, s.now, s.fit) && !RoomToBook(m, s.id, s.deal))
  {
  }

  lemma NoticeTraces(m: Market, s: Step)
    requires s.Finalize? && BegunFit(m)
    ensures TraceGrows(m, Do(m, s))
  {
    if Do(m, s) != m {
      NoticeIsUndecided(m, s);
      NoticeShape(m, s);
      if Booked(m, Do(m, s), s.id, s.deal) { assert Do(m, s).deals[s.deal].attempt == Some(s.id); }
    }
  }

  lemma RefundStepTraces(m: Market, s: Step)
    requires Traced(m) && (s.RefundBegin? || s.RefundSend? || s.RefundEnd? || s.ReturnBegin? || s.ReturnSend?)
    ensures Traced(Do(m, s))
  {
  }

  lemma StepStaysTraced(m: Market, s: Step)
    requires Traced(m)
    ensures Traced(Do(m, s))
  {
    if s.RefundBegin? || s.RefundSend? || s.RefundEnd? || s.ReturnBegin? || s.ReturnSend? {
      RefundStepTraces(m, s);
    } else {
      if s.TakeCash? || s.BookCash? { CashStepTraces(m, s); }
      else if s.Complete? || s.Cancel? || s.TurnDown? { EndingStepTraces(m, s); }
      else if s.Start? { StartTraces(m, s); }
      else if s.Save? || s.Error? || s.Fail? || s.Expire? { AttemptStepTraces(m, s); }
      else if s.Finalize? { NoticeTraces(m, s); }
      else { OfferStepTraces(m, s); }
      GrownStaysTraced(m, Do(m, s));
    }
  }

  lemma {:induction false} RunStaysTraced(m: Market, steps: seq<Step>)
    requires Traced(m)
    ensures Traced(Run(m, steps))
    decreases |steps|
  {
    if steps != [] {
      StepStaysTraced(m, steps[0]);
      RunStaysTraced(Do(m, steps[0]), steps[1..]);
    }
  }

  // ------------------------------------------------------------ owed twice

  /** The attempt's refund has begun, or may begin. */
  predicate AttemptOwed(m: Market, a: Id) {
    a in m.refunding || (a in m.attempts && m.attempts[a].status == RefundRequired && m.attempts[a].captured)
  }

  /** The booking's refund has begun, or may begin. */
  predicate BookingOwed(m: Market, d: Id) { d in m.returning || (d in m.deals && m.deals[d].progress == Live) }

  ghost predicate DoublyOwed(m: Market, a: Id, d: Id) {
    d in m.deals && m.deals[d].attempt == Some(a) && AttemptOwed(m, a) && BookingOwed(m, d)
  }

  /** One undisturbed refund pass for the attempt and one for its booking, up to the gateway's answers. */
  function BothPasses(m: Market, a: Id, d: Id, x: Id, y: Id): Market {
    Do(Do(Do(Do(m, RefundBegin(a)), RefundSend(a, x)), ReturnBegin(d)), ReturnSend(d, y))
  }

  ghost predicate SentTwice(m: Market, a: Id) {
    exists j, k :: j in m.gateway && k in m.gateway && j != k && m.gateway[j].payment == a && m.gateway[k].payment == a
  }

  lemma AttemptPass(m: Market, a: Id, x: Id)
    requires Traced(m)
    ensures var n := Do(Do(m, RefundBegin(a)), RefundSend(a, x));
            && (AttemptKey(a) in n.gateway <==> AttemptOwed(m, a))
            && n.deals == m.deals && n.returning == m.returning
            && (forall d :: BookingKey(d) in n.gateway <==> BookingKey(d) in m.gateway)
  {
    var begun := m.(refunding := if AttemptOwed(m, a) then m.refunding + {a} else m.refunding);
    BegunAttempt(m, a);
    assert Do(begun, RefundSend(a, x))
      == if a in begun.refunding then begun.(gateway := Requested(m.gateway, AttemptKey(a), Slip(x, a))) else begun;
  }

  lemma BegunAttempt(m: Market, a: Id)
    ensures Do(m, RefundBegin(a)) == m.(refunding := if AttemptOwed(m, a) then m.refunding + {a} else m.refunding)
  {
    assert a in m.refunding ==> m.refunding + {a} == m.refunding;
  }

  lemma BookingPass(m: Market, d: Id, y: Id)
    requires Traced(m) && d in m.deals && m.deals[d].attempt.Some?
    ensures var n := Do(Do(m, ReturnBegin(d)), ReturnSend(d, y));
            && (BookingKey(d) in n.gateway <==> BookingOwed(m, d))
            && (forall a :: AttemptKey(a) in n.gateway <==> AttemptKey(a) in m.gateway)
  {
  }

  /** What being owed twice means: the two passes send the payment back under both keys. */
  lemma BothPassesExactly(m: Market, a: Id, d: Id, x: Id, y: Id)
    requires Traced(m) && d in m.deals && m.deals[d].attempt == Some(a)
    ensures var n := BothPasses(m, a, d, x, y);
            AttemptKey(a) in n.gateway && BookingKey(d) in n.gateway <==> DoublyOwed(m, a, d)
  {
    AttemptPass(m, a, x);
    var n := Do(Do(m, RefundBegin(a)), RefundSend(a, x));
    StepStaysTraced(m, RefundBegin(a));
    StepStaysTraced(Do(m, RefundBegin(a)), RefundSend(a, x));
    BookingPass(n, d, y);
  }

  /** Nobody sends a payment back twice that was not owed twice. */
  lemma SentTwiceWasOwed(m: Market, a: Id) returns (d: Id)
    requires Traced(m) && OneDeal(m.deals) && SentTwice(m, a)
    ensures DoublyOwed(m, a, d)
  {
    var j, k :| j in m.gateway && k in m.gateway && j != k && m.gateway[j].payment == a && m.gateway[k].payment == a;
    d := if j.BookingKey? then j.deal else k.deal;
  }

  // -------------------------------------------------------- what turns it round

  /** A notice about an attempt whose status was overwritten: it orders the refund of a payment whose
      booking holds or returns the money, or books a payment whose refund has begun. */
  predicate TurnsAround(m: Market, s: Step) {
    && s.Finalize? && s.id in m.attempts && m.attempts[s.id].intent && !m.attempts[s.id].Decided() && s.matches
    && if OrdersRefund(m, s.id, s.now, s.fit)
       then s.withId && exists d | d in m.deals :: m.deals[d].attempt == Some(s.id) && BookingOwed(m, d)
       else s.id in m.refunding && RoomToBook(m, s.id, s.deal)
  }

  ghost predicate OwedShrinks(m: Market, n: Market) { forall a, d | DoublyOwed(n, a, d) :: DoublyOwed(m, a, d) }

  lemma CalmShrinks(m: Market, n: Market)
    requires AttemptsCalm(m.attempts, n.attempts) && n.refunding == m.refunding && n.returning == m.returning
    requires forall d | d in n.deals && n.deals[d].attempt.Some? ::
               d in m.deals && m.deals[d].attempt == n.deals[d].attempt
                   && (n.deals[d].progress == Live ==> m.deals[d].progress == Live)
    ensures OwedShrinks(m, n)
  {
  }

  lemma NoticeShrinks(m: Market, s: Step)
    requires Traced(m) && s.Finalize?
    ensures !TurnsAround(m, s) ==> OwedShrinks(m, Do(m, s))
    ensures TurnsAround(m, s) ==> exists d :: DoublyOwed(Do(m, s), s.id, d)
  {
    var n := Do(m, s);
    if n == m {
      if TurnsAround(m, s) {
        NoticeStays(m, s);
      }
    } else {
      NoticeIsUndecided(m, s);
      NoticeShape(m, s);
      if OrdersRefund(m, s.id, s.now, s.fit) {
        OrderedShrinks(m, n, s.id, s.withId);
        if TurnsAround(m, s) {
          var d :| d in m.deals && m.deals[d].attempt == Some(s.id) && BookingOwed(m, d);
          assert DoublyOwed(n, s.id, d);
        }
      } else {
        BookedShrinks(m, n, s.id, s.deal);
      }
    }
  }

  lemma OrderedShrinks(m: Market, n: Market, id: Id, withId: bool)
    requires Ordered(m, n, id, withId)
    ensures !(withId && exists d | d in m.deals :: m.deals[d].attempt == Some(id) && BookingOwed(m, d)) ==>
              OwedShrinks(m, n)
  {
  }

  lemma BookedShrinks(m: Market, n: Market, id: Id, deal: Id)
    requires Traced(m) && Booked(m, n, id, deal)
    ensures if id in m.refunding then DoublyOwed(n, id, deal) else OwedShrinks(m, n)
  {
  }

  lemma RefundShrinks(m: Market, s: Step)
    requires Traced(m) && (s.RefundBegin? || s.RefundSend? || s.RefundEnd? || s.ReturnBegin? || s.ReturnSend?)
    ensures OwedShrinks(m, Do(m, s))
  {
  }

  /** A payment comes to be owed twice only by a notice that turns it round. */
  lemma StepShrinks(m: Market, s: Step)
    requires Traced(m)
    ensures !TurnsAround(m, s) ==> OwedShrinks(m, Do(m, s))
    ensures TurnsAround(m, s) ==> exists d :: DoublyOwed(Do(m, s), s.id, d)
  {
    if s.Finalize? {
      NoticeShrinks(m, s);
    } else if s.RefundBegin? || s.RefundSend? || s.RefundEnd? || s.ReturnBegin? || s.ReturnSend? {
      RefundShrinks(m, s);
    } else {
      if s.TakeCash? || s.BookCash? { CashStepTraces(m, s); }
      else if s.Complete? || s.Cancel? || s.TurnDown? { EndingStepTraces(m, s); }
      else if s.Start? { StartTraces(m, s); }
      else if s.Save? || s.Error? || s.Fail? || s.Expire? { AttemptStepTraces(m, s); }
      else { OfferStepTraces(m, s); }
      CalmShrinks(m, Do(m, s));
    }
  }

  // ------------------------------------------------------------ main results

  ghost predicate NoneOwedTwice(m: Market) { forall a, d :: !DoublyOwed(m, a, d) }

  ghost predicate NeverTurns(m: Market, steps: seq<Step>)
    decreases |steps|
  {
    steps == [] || (!TurnsAround(m, steps[0]) && NeverTurns(Do(m, steps[0]), steps[1..]))
  }

  ghost predicate OwedOnceAllAlong(m: Market, steps: seq<Step>)
    decreases |steps|
  {
    NoneOwedTwice(m) && (steps == [] || OwedOnceAllAlong(Do(m, steps[0]), steps[1..]))
  }

  lemma {:induction false} OwedOnceExactly(m: Market, steps: seq<Step>)
    requires Traced(m) && NoneOwedTwice(m)
    ensures OwedOnceAllAlong(m, steps) <==> NeverTurns(m, steps)
    ensures NeverTurns(m, steps) ==> NoneOwedTwice(Run(m, steps))
    decreases |steps|
  {
    if steps != [] {
      StepShrinks(m, steps[0]);
      StepStaysTraced(m, steps[0]);
      if !TurnsAround(m, steps[0]) {
        OwedOnceExactly(Do(m, steps[0]), steps[1..]);
      } else {
        var d :| DoublyOwed(Do(m, steps[0]), steps[0].id, d);
      }
    }
  }

  /** In every state of a run the refund passes of an attempt and of its booking cannot both send the
      payment back, if and only if no notice of the run turns a decided payment round. */
  lemma RefundedOnceExactlyUnlessTurned(steps: seq<Step>)
    ensures OwedOnceAllAlong(EmptyMarket(), steps) <==> NeverTurns(EmptyMarket(), steps)
  {
    OwedOnceExactly(EmptyMarket(), steps);
  }

  lemma {:induction false} StillNotOwed(m: Market, steps: seq<Step>, a: Id)
    requires Traced(m) && NeverTurns(m, steps) && forall d :: !DoublyOwed(m, a, d)
    ensures forall d :: !DoublyOwed(Run(m, steps), a, d)
    decreases |steps|
  {
    if steps != [] {
      StepShrinks(m, steps[0]);
      StepStaysTraced(m, steps[0]);
      StillNotOwed(Do(m, steps[0]), steps[1..], a);
    }
  }

  /** From any state of any run, some continuation in which no notice turns a payment round sends the
      payment of an attempt back under two keys, if and only if it is owed twice already. */
  lemma SecondRefundAheadExactly(steps: seq<Step>, a: Id)
    ensures (exists later :: NeverTurns(After(steps), later) && SentTwice(After(steps + later), a))
            <==> exists d :: DoublyOwed(After(steps), a, d)
  {
    var m := After(steps);
    RunStaysTraced(EmptyMarket(), steps);
    if later: seq<Step> :| NeverTurns(m, later) && SentTwice(After(steps + later), a) {
      RunSplits(EmptyMarket(), steps, later);
      RunStaysTraced(m, later);
      AfterIsInStep(steps + later);
      var d := SentTwiceWasOwed(Run(m, later), a);
      if forall e :: !DoublyOwed(m, a, e) { StillNotOwed(m, later, a); }
    }
    if d :| DoublyOwed(m, a, d) {
      var later := BothPassesSend(m, a, d);
      RunSplits(EmptyMarket(), steps, later);
    }
  }

  lemma BothPassesSend(m: Market, a: Id, d: Id) returns (later: seq<Step>)
    requires Traced(m) && DoublyOwed(m, a, d)
    ensures NeverTurns(m, later) && SentTwice(Run(m, later), a)
  {
    later := [RefundBegin(a), RefundSend(a, 0), ReturnBegin(d), ReturnSend(d, 0)];
    BothPassesExactly(m, a, d, 0, 0);
    FourCalmSteps(m, later);
    RunStaysTraced(m, later);
    PassesKeepDeals(m, a, d, 0, 0);
    BothKeysAreTwo(Run(m, later), a, d);
  }

  lemma PassesKeepDeals(m: Market, a: Id, d: Id, x: Id, y: Id)
    requires Traced(m)
    ensures BothPasses(m, a, d, x, y).deals == m.deals
  {
    AttemptPass(m, a, x);
  }

  lemma BothKeysAreTwo(n: Market, a: Id, d: Id)
    requires Traced(n) && AttemptKey(a) in n.gateway && BookingKey(d) in n.gateway
    requires d in n.deals && n.deals[d].attempt == Some(a)
    ensures SentTwice(n, a)
  {
    var j, k := AttemptKey(a), BookingKey(d);
    assert j in n.gateway && k in n.gateway && j != k && n.gateway[j].payment == a && n.gateway[k].payment == a;
  }

  lemma FourCalmSteps(m: Market, s: seq<Step>)
    requires |s| == 4 && forall k | 0 <= k < 4 :: !s[k].Finalize?
    ensures Run(m, s) == Do(Do(Do(Do(m, s[0]), s[1]), s[2]), s[3]) && NeverTurns(m, s)
  {
    var m1 := Do(m, s[0]);
    var m2 := Do(m1, s[1]);
    var m3 := Do(m2, s[2]);
    assert s[3..][1..] == [] && Run(m3, s[3..]) == Do(m3, s[3]) && NeverTurns(m3, s[3..]);
    assert s[2..][1..] == s[3..] && Run(m2, s[2..]) == Run(m3, s[3..]) && NeverTurns(m2, s[2..]);
    assert s[1..][1..] == s[2..] && Run(m1, s[1..]) == Run(m2, s[2..]) && NeverTurns(m1, s[1..]);
  }

  /** A single fate leaves nothing owed twice. */
  lemma FateOwesOnce(m: Market)
    requires SingleFate(m)
    ensures NoneOwedTwice(m)
  {
  }

  lemma {:induction false} SparingNeverTurns(m: Market, steps: seq<Step>)
    requires Traced(m) && SingleFate(m) && SparingRun(m, steps)
    ensures NeverTurns(m, steps)
    decreases |steps|
  {
    if steps != [] {
      var n := Do(m, steps[0]);
      StepKeepsFate(m, steps[0]);
      StepStaysTraced(m, steps[0]);
      StepShrinks(m, steps[0]);
      FateOwesOnce(n);
      SparingNeverTurns(n, steps[1..]);
    }
  }

  /** Over a whole run in which the provider-error write spares decided attempts, each captured payment is
      sent back under at most one key, and by the one refund first accepted for it. */
  lemma OneRefundPerPayment(first: seq<Step>, later: seq<Step>, j: RefundKey, k: RefundKey)
    requires SparingRun(EmptyMarket(), first + later)
    requires j in After(first).gateway && k in After(first + later).gateway
    requires After(first).gateway[j].payment == After(first + later).gateway[k].payment
    ensures j == k && After(first).gateway[j] == After(first + later).gateway[k]
  {
    var n := After(first + later);
    RunSplits(EmptyMarket(), first, later);
    AfterIsInStep(first);
    RunKeeps(After(first), later);
    AfterIsInStep(first + later);
    RunStaysTraced(EmptyMarket(), first + later);
    FateExactly(EmptyMarket(), first + later);
    FateOwesOnce(n);
    if j != k {
      assert SentTwice(n, n.gateway[k].payment);
      var d := SentTwiceWasOwed(n, n.gateway[k].payment);
    }
  }

  // ------------------------------------------------------------ a failing run

  /** The booked and refunded payment, refunded once more with its booking. */
  function RefundedTwice(): seq<Step> { ErrorAfterSuccess() + [ReturnBegin(0), ReturnSend(0, 8)] }

  /** A late provider error and a repeated notice send the money back under the attempt's key, and the
      booking's own refund sends it back again under the booking's key. */
  lemma SentBackTwiceHappens()
    ensures var m := After(RefundedTwice());
            && AttemptKey(0) in m.gateway && BookingKey(0) in m.gateway
            && m.gateway[AttemptKey(0)] == Slip(7, 0) && m.gateway[BookingKey(0)] == Slip(8, 0)
  {
    ErrorRunEnds(ErrorAfterSuccess());
    var m := After(ErrorAfterSuccess());
    RunSplits(EmptyMarket(), ErrorAfterSuccess(), [ReturnBegin(0), ReturnSend(0, 8)]);
    SentOnceWhileLive(m);
    var s := [ReturnBegin(0), ReturnSend(0, 8)];
    assert s[1..] == [ReturnSend(0, 8)] && s[1..][1..] == [];
    assert Run(m, s) == Run(Do(m, ReturnBegin(0)), [ReturnSend(0, 8)]);
    assert Run(Do(m, ReturnBegin(0)), [ReturnSend(0, 8)]) == Do(Do(m, ReturnBegin(0)), ReturnSend(0, 8));
  }

  lemma SentOnceWhileLive(m: Market)
    requires m == Do(Do(PaidService(RefundRequired), RefundBegin(0)), RefundSend(0, 7))
    ensures var n := Do(Do(m, ReturnBegin(0)), ReturnSend(0, 8));
            n.gateway == map[AttemptKey(0) := Slip(7, 0), BookingKey(0) := Slip(8, 0)]
  {
  }
}
