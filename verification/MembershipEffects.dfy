/** What each membership, payment and listing operation requires and changes, told on the provider's rows alone. */
module MembershipEffects {
  import opened BookingRows
  import opened MembershipPolicy
  import opened MembershipSteps
  import opened MembershipRuns
  import opened MembershipPeriods

  // ------------------------------------------------------------ entitlement

  predicate Covers(start: Option<int>, end: Option<int>, now: int) {
    start.Some? && end.Some? && start.value <= now && now < end.value
  }

  /** The free trial, or a paid period that has not lapsed, covers the moment. */
  predicate Entitled(m: Membership, now: int) {
    match m.plan
    case Free => Covers(m.freeStarts, m.freeExpires, now)
    case Basic => m.status in {Active, CancelledAtEnd} && Covers(m.starts, m.expires, now)
    case Pro => m.status in {Active, CancelledAtEnd} && Covers(m.starts, m.expires, now)
  }

  /** The first business starts thirty free days. */
  function Enrolled(m: Membership, now: int): Membership {
    if m.freeStarts.Some? then m
    else Membership(m.plan, m.status, m.starts, m.expires, Some(now), Some(now + 2592000000), now)
  }

  lemma MemberSteps(p: Provider, elapsed: nat)
    ensures Do(p, Tick(elapsed)) == p.(clock := p.clock + elapsed)
    ensures Do(p, Trial) == p.(m := Enrolled(p.m, p.clock))
    ensures Do(p, Quit) == if p.m.plan != Free && Entitled(p.m, p.clock)
                           then p.(m := p.m.(status := CancelledAtEnd, updated := p.clock)) else p
    ensures var end := if p.m.plan == Free then p.m.freeExpires else p.m.expires;
            Do(p, Upkeep) == if end.Some? && end.value <= p.clock then p.(m := p.m.(status := Lapsed)) else p
  {
  }

  // ----------------------------------------------------------------- quotes

  function FullPrice(plan: Plan): nat { match plan case Free => 0 case Basic => 9900 case Pro => 19900 }

  /** The amount is the unused share of the difference of 10000, rounded half up. */
  predicate HalfUp(amount: int, remaining: int, duration: int) {
    2 * amount * duration <= 20000 * remaining + duration && 20000 * remaining + duration < 2 * (amount + 1) * duration
  }

  /** The full price without a period to keep; the rest of the period's share for Basic to Pro, refused below 100; and
      nothing for the plan one has or a step down while it lasts. */
  lemma QuoteEffect(m: Membership, target: Plan, now: int)
    ensures var q := Quoted(m, target, now);
            if !Entitled(m, now)
            then q == Some(Quote(target, FullPrice(target),
                                 if m.plan == target then Renewal
                                 else if m.plan == Pro && target == Basic then Downgrade else NewPlan, None, m.updated))
            else if m.plan == target || (m.plan == Pro && target == Basic) then q.None?
            else if m.plan == Basic && target == Pro
            then var remaining, duration := m.expires.value - now, m.expires.value - m.starts.value;
                 exists amount: nat :: HalfUp(amount, remaining, duration)
                   && q == if amount < 100 then None else Some(Quote(Pro, amount, Upgrade, m.expires, m.updated))
            else q == Some(Quote(target, FullPrice(target), NewPlan, None, m.updated))
  {
    if Entitled(m, now) && m.plan == Basic && target == Pro {
      var amount := UpgradeQuote(m, now);
    }
  }

  lemma UpgradeQuote(m: Membership, now: int) returns (amount: nat)
    requires m.plan == Basic && Entitled(m, now)
    ensures HalfUp(amount, m.expires.value - now, m.expires.value - m.starts.value)
    ensures Quoted(m, Pro, now)
              == if amount < 100 then None else Some(Quote(Pro, amount, Upgrade, m.expires, m.updated))
  {
    amount := UpgradePrice(m.expires.value - now, m.expires.value - m.starts.value);
    ShareIsHalfUp(m.expires.value - now, m.expires.value - m.starts.value);
  }

  lemma ShareIsHalfUp(remaining: int, duration: int)
    requires duration > 0 && 0 <= remaining <= duration
    ensures UpgradePrice(remaining, duration) >= 0 && HalfUp(UpgradePrice(remaining, duration), remaining, duration)
  {
    UpgradePriceIsTheShare(remaining, duration);
    var r := UpgradePrice(remaining, duration);
    var x := 2 * 10000 * remaining + duration;
    assert x == r * (2 * duration) + x % (2 * duration);
    assert r * (2 * duration) == 2 * r * duration;
    assert 2 * (r + 1) * duration == 2 * r * duration + 2 * duration;
  }

  lemma QuoteIssued(p: Provider, plan: Plan)
    ensures Do(p, AskQuote(plan))
              == if plan != Free && p.m.freeStarts.Some? && Quoted(p.m, plan, p.clock).Some?
                 then p.(quotes := p.quotes + {(Quoted(p.m, plan, p.clock).value, p.clock + 900000)}) else p
  {
  }

  // --------------------------------------------------------------- checkout

  predicate PendingAt(p: Provider, i: Id) { i in p.payments && p.payments[i].status == PayPending }

  /** A signed quote was handed out for this plan, is in time and still describes the membership. */
  predicate StillSigned(p: Provider, plan: Plan, signed: (Quote, int)) {
    && signed in p.quotes && signed.0.plan == plan && p.clock < signed.1 && signed.0.updated == p.m.updated
  }

  /** A plan can be bought: by a provider who has done business, for a quote, the one handed in if any. */
  predicate MayBuy(p: Provider, id: Id, plan: Plan, signed: Option<(Quote, int)>) {
    && plan != Free && id !in p.payments && p.m.freeStarts.Some? && Quoted(p.m, plan, p.clock).Some?
    && (signed.Some? ==> StillSigned(p, plan, signed.value))
  }

  /** What a new payment records: the signed quote's terms, or today's. */
  ghost predicate FreshPayment(p: Provider, pay: Payment, plan: Plan, signed: Option<(Quote, int)>)
    requires Quoted(p.m, plan, p.clock).Some?
  {
    var today := Quoted(p.m, plan, p.clock).value;
    var terms := if signed.Some? then signed.value.0 else today;
    && pay.plan == plan && pay.amount == terms.amount && pay.action == terms.action && pay.quotedUpdated == p.m.updated
    && pay.quotedExpires == (if terms.period.Some? then terms.period else today.period)
    && pay.status == PayPending && pay.period.None? && pay.deadline == p.clock + 900000
    && pay.claimed == Some(p.clock) && !pay.link
  }

  /** A pending payment for another plan is in the way; one with a live link is handed out again; one that somebody
      began to prepare within the last minute is left to them; any other is taken up; and only without one a new one
      is made. */
  lemma CheckoutEffect(p: Provider, id: Id, plan: Plan, signed: Option<(Quote, int)>)
    ensures var r := Checkout(p, id, plan, signed);
            if !MayBuy(p, id, plan, signed) || (exists i :: PendingAt(p, i) && p.payments[i].plan != plan) then r.None?
            else if exists i :: PendingAt(p, i) && p.payments[i].link && p.clock < p.payments[i].deadline
            then r == Some(p)
            else if exists i :: PendingAt(p, i) && p.payments[i].claimed.Some?
                                && p.clock < p.payments[i].claimed.value + 60000
            then r.None?
            else if exists i :: PendingAt(p, i)
            then && r.Some? && r.value == p.(payments := r.value.payments)
                 && r.value.payments.Keys == p.payments.Keys
                 && forall i | i in p.payments ::
                      r.value.payments[i] == if PendingAt(p, i) then p.payments[i].(claimed := Some(p.clock))
                                             else p.payments[i]
            else && r.Some? && id in r.value.payments && FreshPayment(p, r.value.payments[id], plan, signed)
                 && r.value == p.(payments := p.payments[id := r.value.payments[id]])
  {
    PendingMeans(p, plan);
  }

  lemma PendingMeans(p: Provider, plan: Plan)
    ensures SomePending(p.payments) <==> exists i :: PendingAt(p, i)
    ensures (exists i | i in p.payments :: p.payments[i].status == PayPending && p.payments[i].plan != plan)
            <==> exists i :: PendingAt(p, i) && p.payments[i].plan != plan
    ensures (exists i | i in p.payments :: p.payments[i].Ready(p.clock))
            <==> exists i :: PendingAt(p, i) && p.payments[i].link && p.clock < p.payments[i].deadline
    ensures (exists i | i in p.payments :: p.payments[i].BeingPrepared(p.clock))
            <==> exists i :: PendingAt(p, i) && p.payments[i].claimed.Some?
                             && p.clock < p.payments[i].claimed.value + 60000
  {
    assert forall i :: PendingAt(p, i) <==> i in p.payments && p.payments[i].status == PayPending;
    forall i | i in p.payments
      ensures p.payments[i].Ready(p.clock) <==>
                PendingAt(p, i) && p.payments[i].link && p.clock < p.payments[i].deadline
      ensures p.payments[i].BeingPrepared(p.clock) <==>
                PendingAt(p, i) && p.payments[i].claimed.Some? && p.clock < p.payments[i].claimed.value + 60000
    {
    }
  }

  lemma PaymentSteps(p: Provider, id: Id, link: bool, status: PayStatus, settled: bool)
    ensures Do(p, Prepare(id, link))
              == if PendingAt(p, id)
                 then p.(payments :=
                     p.payments[id := p.payments[id].(claimed := None, link := p.payments[id].link || link)])
                 else p
    ensures Do(p, Close(id, status))
              == if PendingAt(p, id) && status in {PayFailed, PayExpired, PayCancelled}
                 then p.(payments := p.payments[id := p.payments[id].(status := status)]) else p
    ensures Do(p, Step.Refund(id, settled))
              == if id in p.payments && p.payments[id].status == PayRefundRequired && settled
                 then p.(payments := p.payments[id := p.payments[id].(status := PayRefunded)]) else p
  {
  }

  // ------------------------------------------------------------ the capture

  /** The payment was not cancelled, its provider is in order, the membership is the one it was quoted for, and it
      either upgrades that Basic period or finds no paid period running. */
  predicate TakesEffect(p: Provider, pay: Payment, accountOk: bool) {
    && pay.status in {PayPending, PayFailed, PayExpired} && accountOk && pay.quotedUpdated == p.m.updated
    && if pay.action == Upgrade
       then Entitled(p.m, p.clock) && p.m.plan == Basic && pay.plan == Pro && pay.quotedExpires == p.m.expires
       else p.m.plan == Free || !Entitled(p.m, p.clock)
  }

  /** The plan and its period are in force, and a Basic plan keeps the first three of the listings in order. */
  ghost predicate InForce(p: Provider, q: Provider, id: Id, start: int, end: int, order: seq<Id>)
    requires id in p.payments
  {
    var pay := p.payments[id];
    && q.m == Membership(pay.plan, Active, Some(start), Some(end), p.m.freeStarts, p.m.freeExpires, p.clock)
    && q.payments == p.payments[id := pay.(status := PaySucceeded, period := Some((start, end)), claimed := None)]
    && q.listings.Keys == p.listings.Keys
    && (forall i | i in p.listings ::
          q.listings[i] == if pay.plan == Basic && (exists k :: 3 <= k < |order| && order[k] == i)
                           then p.listings[i].(status := Hidden, available := false) else p.listings[i])
    && q.applied == p.applied + [id]
    && q.starters == (if pay.action == Upgrade then p.starters else p.starters + [id])
    && q.quotes == p.quotes && q.clock == p.clock
  }

  /** An upgrade takes over the running period; any other payment starts a calendar month now. */
  lemma CaptureEffect(p: Provider, id: Id, accountOk: bool, order: seq<Id>)
    ensures var r := FinalizePayment(p, id, accountOk, order);
            if id !in p.payments then r.None?
            else if p.payments[id].status in {PaySucceeded, PayRefunded, PayRefundRequired} then r == Some(p)
            else if !TakesEffect(p, p.payments[id], accountOk)
            then r == Some(p.(payments := p.payments[id := p.payments[id].(status := PayRefundRequired)]))
            else && r.Some? && r.value.m.starts.Some? && r.value.m.expires.Some?
                 && InForce(p, r.value, id, r.value.m.starts.value, r.value.m.expires.value, order)
                 && (if p.payments[id].action == Upgrade then r.value.m.starts == p.m.starts
                       && r.value.m.expires == p.m.expires
                     else r.value.m.starts.value == p.clock && CalendarMonth(p.clock, r.value.m.expires.value))
  {
    if id in p.payments && p.payments[id].status !in {PaySucceeded, PayRefunded, PayRefundRequired} {
      var pay := p.payments[id];
      assert TakesEffect(p, pay, accountOk) <==> Applicable(p, pay, accountOk);
      MonthIsCalendarMonth(p.clock);
      if TakesEffect(p, pay, accountOk) {
        AppliedInForce(p, id, if pay.action == Upgrade then (p.m.starts.value, p.m.expires.value)
                              else (p.clock, EndOfMonth(p.clock)), order);
      }
    }
  }

  lemma AppliedInForce(p: Provider, id: Id, period: (int, int), order: seq<Id>)
    requires id in p.payments
    ensures InForce(p, ApplyPayment(p, id, period, order), id, period.0, period.1, order)
  {
    if |order| > 3 {
      forall i ensures i in order[3..] <==> exists k :: 3 <= k < |order| && order[k] == i {
        if i in order[3..] {
          var k :| 0 <= k < |order[3..]| && order[3..][k] == i;
          assert order[k + 3] == i;
        }
        if k :| 3 <= k < |order| && order[k] == i { assert order[3..][k - 3] == i; }
      }
    }
  }

  // --------------------------------------------------------------- listings

  function ShownIds(listings: map<Id, Listing>): set<Id> { set i | i in listings && listings[i].status == Shown }

  /** One listing may be shown on the free plan, three on Basic, any number on Pro, while the plan lasts. */
  predicate HasRoom(m: Membership, now: int, shown: nat) {
    Entitled(m, now) && (m.plan == Free ==> shown < 1) && (m.plan == Basic ==> shown < 3)
  }

  /** On show from now on, unless it was published before. */
  function OnShow(l: Listing, now: int): Listing {
    Listing(Shown, true, if l.published.Some? then l.published else Some(now), l.removed)
  }

  lemma CreateEffect(p: Provider, id: Id)
    ensures var m := Enrolled(p.m, p.clock);
            Do(p, Create(id))
              == if id !in p.listings && HasRoom(m, p.clock, |ShownIds(p.listings)|)
                 then p.(m := m, listings := p.listings[id := Listing(Shown, true, Some(p.clock), false)]) else p
  {
    assert ShownIds(p.listings) == ActiveIds(p.listings);
  }

  /** An edit leaves a hidden listing hidden; one that was rejected or in review goes on show when there is room. */
  lemma EditEffect(p: Provider, id: Id, changed: bool)
    ensures var m := Enrolled(p.m, p.clock);
            Do(p, Edit(id, changed))
              == if id !in p.listings then p
                 else var l := p.listings[id];
                      match l.status
                      case Hidden => if changed then p.(listings := p.listings[id := l.(available := false)]) else p
                      case Shown => if changed then p.(listings := p.listings[id := OnShow(l, p.clock)]) else p
                      case InReview =>
                        if HasRoom(m, p.clock, |ShownIds(p.listings)|)
                        then p.(m := m, listings := p.listings[id := OnShow(l, p.clock)]) else p
                      case RejectedListing =>
                        if HasRoom(m, p.clock, |ShownIds(p.listings)|)
                        then p.(m := m, listings := p.listings[id := OnShow(l, p.clock)]) else p
                      case _ => p
  {
    assert ShownIds(p.listings) == ActiveIds(p.listings);
  }

  /** A listing on show is paused; any other is resumed when there is room besides it. */
  lemma ToggleEffect(p: Provider, id: Id)
    ensures var m := Enrolled(p.m, p.clock);
            Do(p, Toggle(id))
              == if id !in p.listings || p.listings[id].status !in {Shown, Hidden} then p
                 else if p.listings[id].status == Shown && p.listings[id].available
                 then p.(listings := p.listings[id := p.listings[id].(status := Hidden, available := false)])
                 else if HasRoom(m, p.clock, |ShownIds(p.listings) - {id}|)
                 then p.(m := m, listings := p.listings[id := OnShow(p.listings[id], p.clock)]) else p
  {
    assert ShownIds(p.listings) == ActiveIds(p.listings);
    RoomOnceEnrolled(p, |ShownIds(p.listings) - {id}|);
  }

  lemma RoomOnceEnrolled(p: Provider, shown: nat)
    ensures StartTrial(p) == p.(m := Enrolled(p.m, p.clock))
    ensures RoomFor(StartTrial(p), shown) <==> HasRoom(Enrolled(p.m, p.clock), p.clock, shown)
  {
  }

  /** Only a listing an administrator removed is restored, and only with room. */
  lemma RemovalEffects(p: Provider, id: Id)
    ensures Do(p, Delete(id))
              == if id in p.listings
                 then p.(listings := p.listings[id := p.listings[id].(status := Deleted, available := false)]) else p
    ensures Do(p, Remove(id))
              == if id in p.listings && p.listings[id].status in {Shown, Hidden}
                 then p.(listings :=
                     p.listings[id := p.listings[id].(status := Suspended, available := false, removed := true)])
                 else p
    ensures Do(p, Restore(id))
              == if id in p.listings && p.listings[id].status == Suspended && p.listings[id].removed
                    && HasRoom(p.m, p.clock, |ShownIds(p.listings)|)
                 then p.(listings := p.listings[id := OnShow(p.listings[id], p.clock).(removed := false)]) else p
  {
    assert ShownIds(p.listings) == ActiveIds(p.listings);
  }
}
