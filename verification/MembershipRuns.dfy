/** What holds of a provider's membership over every run. */
module MembershipRuns {
  import opened BookingRows
  import opened MembershipPolicy
  import opened MembershipSteps

  ghost predicate OnePending(payments: map<Id, Payment>) {
    forall i, j | i in payments && j in payments && payments[i].status == PayPending
        && payments[j].status == PayPending :: i == j
  }

  ghost predicate PaidPlans(payments: map<Id, Payment>) { forall i | i in payments :: payments[i].plan != Free }

  ghost predicate Distinct(s: seq<Id>) { forall i, j | 0 <= i < j < |s| :: s[i] != s[j] }

  /** Exactly the succeeded payments have been applied, each once. */
  ghost predicate AppliedFit(payments: map<Id, Payment>, applied: seq<Id>) {
    && Distinct(applied)
    && (forall i | i in applied :: i in payments && payments[i].status == PaySucceeded)
    && (forall i | i in payments && payments[i].status == PaySucceeded :: i in applied)
  }

  /** The payments that started a period, in order, one period after the other. */
  ghost predicate StartersFit(payments: map<Id, Payment>, starters: seq<Id>, clock: int) {
    && Distinct(starters)
    && (forall i | i in starters ::
          && i in payments && payments[i].status == PaySucceeded && payments[i].action != Upgrade
              && payments[i].period.Some?
          && payments[i].period.value.0 < payments[i].period.value.1 && payments[i].period.value.0 <= clock)
    && (forall i | i in payments && payments[i].status == PaySucceeded && payments[i].action != Upgrade ::
          i in starters)
    && (forall k, l | 0 <= k < l < |starters| ::
          payments[starters[k]].period.value.1 <= payments[starters[l]].period.value.0)
  }

  /** The membership is the last period started, and lapses only after it. */
  ghost predicate MemberFits(m: Membership, payments: map<Id, Payment>, starters: seq<Id>, clock: int) {
    && (m.plan == Free <==> starters == [])
    && (m.plan != Free ==>
          var last := starters[|starters| - 1];
          && m.starts.Some? && m.expires.Some?
          && last in payments && payments[last].period == Some((m.starts.value, m.expires.value))
          && (m.status == Lapsed ==> m.expires.value <= clock))
  }

  ghost predicate CapKept(m: Membership, listings: map<Id, Listing>) {
    Limit(m.plan).Some? ==> |ActiveIds(listings)| <= Limit(m.plan).value
  }

  ghost predicate Good(p: Provider) {
    && OnePending(p.payments) && PaidPlans(p.payments) && AppliedFit(p.payments, p.applied)
    && StartersFit(p.payments, p.starters, p.clock) && MemberFits(p.m, p.payments, p.starters, p.clock)
    && CapKept(p.m, p.listings)
  }

  /** An applied payment stays as it is, a refund that is due is only ever paid out. */
  ghost predicate Onward(a: Provider, b: Provider) {
    && a.clock <= b.clock && a.applied <= b.applied && a.starters <= b.starters
    && (forall i | i in a.payments :: i in b.payments
          && (a.payments[i].status == PaySucceeded ==> b.payments[i] == a.payments[i])
          && (a.payments[i].status == PayRefunded ==> b.payments[i].status == PayRefunded)
          && (a.payments[i].status == PayRefundRequired ==> b.payments[i].status in {PayRefundRequired, PayRefunded}))
  }

  ghost predicate Keeps(p: Provider, r: Option<Provider>) {
    Good(p) && r.Some? ==> Good(r.value) && Onward(p, r.value)
  }

  // ---------------------------------------------------------------- payments

  lemma OnwardReflexive(p: Provider)
    ensures Onward(p, p)
  {
  }

  /** A payment that is not applied may change among the unapplied states. */
  lemma UnappliedKeeps(p: Provider, id: Id, pay: Payment)
    requires Good(p) && pay.plan != Free && pay.status != PaySucceeded
               && (id in p.payments ==> p.payments[id].status != PaySucceeded)
    requires pay.status == PayPending ==>
               !SomePending(p.payments) || (id in p.payments && p.payments[id].status == PayPending)
    requires id in p.payments && p.payments[id].status == PayRefunded ==> pay.status == PayRefunded
    requires id in p.payments && p.payments[id].status == PayRefundRequired ==>
               pay.status in {PayRefundRequired, PayRefunded}
    ensures var q := p.(payments := p.payments[id := pay]); Good(q) && Onward(p, q)
  {
  }

  lemma CheckoutKeeps(p: Provider, id: Id, plan: Plan, signed: Option<(Quote, int)>)
    requires Good(p)
    ensures Keeps(p, Checkout(p, id, plan, signed))
  {
    OnwardReflexive(p);
    var r := Checkout(p, id, plan, signed);
    if r.Some? && r.value != p {
      if SomePending(p.payments) {
        TakenUpKeeps(p);
      } else {
        UnappliedKeeps(p, id, r.value.payments[id]);
      }
    }
  }

  lemma RecordKeeps(p: Provider, s: Step)
    requires Good(p) && (s.Prepare? || s.Close? || s.Refund?)
    ensures Keeps(p, Attempted(p, s))
  {
    OnwardReflexive(p);
    if Attempted(p, s).Some? && Attempted(p, s).value != p {
      UnappliedKeeps(p, s.id, Attempted(p, s).value.payments[s.id]);
    }
  }

  lemma PaymentStepKeeps(p: Provider, s: Step)
    requires Good(p) && (s.AskQuote? || s.Buy? || s.Prepare? || s.Close? || s.Refund?)
    ensures Keeps(p, Attempted(p, s))
  {
    OnwardReflexive(p);
    match s {
      case AskQuote(plan) =>
      case Buy(id, plan, signed) => CheckoutKeeps(p, id, plan, signed);
      case _ => RecordKeeps(p, s);
    }
  }

  lemma TakenUpKeeps(p: Provider)
    requires Good(p)
    ensures var q := p.(payments := TakenUp(p.payments, p.clock)); Good(q) && Onward(p, q)
  {
  }

  lemma StartTrialKeeps(p: Provider)
    requires Good(p)
    ensures Good(StartTrial(p)) && Onward(p, StartTrial(p)) && StartTrial(p).listings == p.listings
              && StartTrial(p).m.plan == p.m.plan
  {
  }

  lemma MemberStepKeeps(p: Provider, s: Step)
    requires Good(p) && (s.Tick? || s.Trial? || s.Quit? || s.Upkeep?)
    ensures Keeps(p, Attempted(p, s))
  {
    OnwardReflexive(p);
    StartTrialKeeps(p);
  }

  // ------------------------------------------------------------ the capture

  /** A new period starts after the last one has ended. */
  lemma LastPeriodOver(p: Provider)
    requires Good(p) && p.m.plan != Free && !Access(p.m, p.clock)
    ensures p.m.expires.Some? && p.m.expires.value <= p.clock
  {
    var last := p.starters[|p.starters| - 1];
    assert last in p.starters;
  }

  /** What the period bookkeeping looks like after a payment is applied. */
  lemma NewPeriodFits(p: Provider, id: Id, period: (int, int))
    requires Good(p) && id in p.payments && p.payments[id].status != PaySucceeded && p.payments[id].action != Upgrade
    requires p.m.plan != Free ==> !Access(p.m, p.clock)
    requires period.0 == p.clock && period.0 < period.1
    ensures StartersFit(p.payments[id :=
              p.payments[id].(status := PaySucceeded, period := Some(period), claimed := None)], p.starters + [id],
              p.clock)
  {
    var payments := p.payments[id := p.payments[id].(status := PaySucceeded, period := Some(period), claimed := None)];
    var starters := p.starters + [id];
    assert id !in p.starters;
    forall k, l | 0 <= k < l < |starters|
      ensures payments[starters[k]].period.value.1 <= payments[starters[l]].period.value.0
    {
      assert starters[k] in p.starters;
      if l < |p.starters| {
        assert starters[l] in p.starters;
      } else {
        LastPeriodOver(p);
        var last := p.starters[|p.starters| - 1];
        assert last in p.starters;
        assert k < |p.starters| - 1 ==> payments[starters[k]].period.value.1 <= payments[last].period.value.0;
      }
    }
  }

  lemma AppliedOneMore(payments: map<Id, Payment>, applied: seq<Id>, id: Id, pay: Payment)
    requires AppliedFit(payments, applied) && id in payments && payments[id].status != PaySucceeded
               && pay.status == PaySucceeded
    ensures AppliedFit(payments[id := pay], applied + [id])
  {
  }

  /** Only the three oldest stay; fewer than three all stay. */
  lemma PausedFit(listings: map<Id, Listing>, order: seq<Id>)
    requires OldestFirst(listings, order)
    ensures var after := if |order| > 3 then Pause(listings, order[3..]) else listings;
            && ActiveIds(after) == Elements(if |order| > 3 then order[..3] else order)
            && |ActiveIds(after)| <= 3
  {
    var kept := if |order| > 3 then order[..3] else order;
    var after := if |order| > 3 then Pause(listings, order[3..]) else listings;
    OrderDistinct(listings, order);
    if |order| > 3 {
      assert order == order[..3] + order[3..];
      forall i | i in listings ensures i in ActiveIds(after) <==> i in kept {
        if i in kept { assert i in order && i !in order[3..]; }
        if i in ActiveIds(after) { assert i in ActiveIds(listings) && i in order; }
      }
    }
    SetOfSeq(kept);
    assert ActiveIds(after) == Elements(kept);
  }

  lemma OrderDistinct(listings: map<Id, Listing>, order: seq<Id>)
    requires OldestFirst(listings, order)
    ensures Distinct(order)
  {
    forall k, l | 0 <= k < l < |order| ensures order[k] != order[l] {
      assert Older(listings, order[k], order[l]);
    }
  }

  function Elements(s: seq<Id>): set<Id> { set i | i in s }

  lemma {:induction false} SetOfSeq(s: seq<Id>)
    ensures |Elements(s)| <= |s|
    decreases |s|
  {
    if s != [] {
      SetOfSeq(s[1..]);
      assert s == [s[0]] + s[1..];
      assert Elements(s) == {s[0]} + Elements(s[1..]);
    }
  }

  /** The listings a plan leaves on show. */
  lemma ListingsFit(p: Provider, plan: Plan, order: seq<Id>)
    requires Good(p) && plan != Free && OldestFirst(p.listings, order)
    ensures CapKept(p.m.(plan := plan), if plan == Basic
              && |order| > 3 then Pause(p.listings, order[3..]) else p.listings)
  {
    if plan == Basic {
      PausedFit(p.listings, order);
    }
  }

  function Applied(p: Provider, id: Id, period: (int, int)): map<Id, Payment>
    requires id in p.payments
  {
    p.payments[id := p.payments[id].(status := PaySucceeded, period := Some(period), claimed := None)]
  }

  lemma AppliedKeepsOthers(p: Provider, id: Id, period: (int, int))
    requires Good(p) && id in p.payments && p.payments[id].status !in {PaySucceeded, PayRefunded, PayRefundRequired}
    ensures OnePending(Applied(p, id, period)) && PaidPlans(Applied(p, id, period))
              && AppliedFit(Applied(p, id, period), p.applied + [id])
  {
    AppliedOneMore(p.payments, p.applied, id, Applied(p, id, period)[id]);
  }

  /** The payment can take effect now, over the given period. */
  ghost predicate Due(p: Provider, id: Id, period: (int, int)) {
    && id in p.payments && p.payments[id].status !in {PaySucceeded, PayRefunded, PayRefundRequired}
    && (if p.payments[id].action == Upgrade
        then p.payments[id].plan == Pro && p.m.plan == Basic && p.m.starts == Some(period.0)
            && p.m.expires == Some(period.1)
        else (p.m.plan != Free ==> !Access(p.m, p.clock)) && period.0 == p.clock && period.0 < period.1)
  }

  lemma PeriodFits(p: Provider, id: Id, period: (int, int))
    requires Good(p) && Due(p, id, period)
    ensures var q := ApplyPayment(p, id, period, []);
            StartersFit(q.payments, q.starters, q.clock) && MemberFits(q.m, q.payments, q.starters, q.clock)
  {
    if p.payments[id].action == Upgrade {
      UpgradeFits(p, id, period);
    } else {
      NewPeriodFits(p, id, period);
    }
  }

  lemma AppliedRows(p: Provider, id: Id, period: (int, int), order: seq<Id>)
    requires id in p.payments
    ensures var q := ApplyPayment(p, id, period, order);
            && q.payments == Applied(p, id, period) && q.applied == p.applied + [id] && q.quotes == p.quotes
            && q.m.plan == p.payments[id].plan && q.m.starts == Some(period.0) && q.m.expires == Some(period.1)
            && q.clock == p.clock
            && q.starters == (if p.payments[id].action == Upgrade then p.starters else p.starters + [id])
            && q.listings == (if p.payments[id].plan == Basic && |order| > 3 then Pause(p.listings, order[3..])
                              else p.listings)
  {
  }

  lemma ApplyOnward(p: Provider, id: Id, period: (int, int), order: seq<Id>)
    requires id in p.payments && p.payments[id].status !in {PaySucceeded, PayRefunded, PayRefundRequired}
    ensures Onward(p, ApplyPayment(p, id, period, order))
  {
  }

  lemma ApplyKeeps(p: Provider, id: Id, period: (int, int), order: seq<Id>)
    requires Good(p) && Due(p, id, period) && OldestFirst(p.listings, order)
    ensures var q := ApplyPayment(p, id, period, order); Good(q) && Onward(p, q)
  {
    ApplyOnward(p, id, period, order);
    ApplyStaysGood(p, id, period, order);
  }

  lemma ApplyStaysGood(p: Provider, id: Id, period: (int, int), order: seq<Id>)
    requires Good(p) && Due(p, id, period) && OldestFirst(p.listings, order)
    ensures Good(ApplyPayment(p, id, period, order))
  {
    PeriodFits(p, id, period);
    ListingsFit(p, p.payments[id].plan, order);
    AppliedKeepsOthers(p, id, period);
    AppliedRows(p, id, period, order);
    AppliedRows(p, id, period, []);
  }

  lemma CaptureKeeps(p: Provider, id: Id, accountOk: bool, order: seq<Id>)
    requires Good(p) && OldestFirst(p.listings, order)
    ensures Keeps(p, FinalizePayment(p, id, accountOk, order))
  {
    OnwardReflexive(p);
    if id in p.payments && p.payments[id].status !in {PaySucceeded, PayRefunded, PayRefundRequired} {
      var pay := p.payments[id];
      if Applicable(p, pay, accountOk) {
        ApplyKeeps(p, id, if pay.action == Upgrade then (p.m.starts.value, pay.quotedExpires.value)
            else (p.clock, EndOfMonth(p.clock)), order);
      } else {
        UnappliedKeeps(p, id, pay.(status := PayRefundRequired));
      }
    }
  }

  /** An upgrade keeps the period it was quoted for. */
  lemma UpgradeFits(p: Provider, id: Id, period: (int, int))
    requires Good(p) && Due(p, id, period) && p.payments[id].action == Upgrade
    ensures var q := ApplyPayment(p, id, period, []);
            StartersFit(q.payments, q.starters, q.clock) && MemberFits(q.m, q.payments, q.starters, q.clock)
  {
  }

  // ---------------------------------------------------------------- listings

  /** A listing that is not newly shown never adds to the count. */
  lemma QuietPutKeeps(p: Provider, id: Id, l: Listing)
    requires Good(p) && (l.status == Shown ==> id in ActiveIds(p.listings))
    ensures Good(Put(p, id, l)) && Onward(p, Put(p, id, l))
  {
    assert ActiveIds(p.listings[id := l]) <= ActiveIds(p.listings);
    SubsetSize(ActiveIds(p.listings[id := l]), ActiveIds(p.listings));
  }

  /** A listing shown where there is room keeps the cap. */
  lemma ShownPutKeeps(p: Provider, id: Id, l: Listing, occupied: set<Id>)
    requires Good(p) && occupied == ActiveIds(p.listings) - {id} && RoomFor(p, |occupied|)
    ensures Good(Put(p, id, l)) && Onward(p, Put(p, id, l))
  {
    assert ActiveIds(p.listings[id := l]) <= occupied + {id};
    SubsetSize(ActiveIds(p.listings[id := l]), occupied + {id});
  }

  lemma NotShownYet(listings: map<Id, Listing>, id: Id)
    requires id !in listings || listings[id].status != Shown
    ensures ActiveIds(listings) - {id} == ActiveIds(listings)
  {
  }

  lemma ListingStepKeeps(p: Provider, s: Step)
    requires Good(p) && (s.Create? || s.Edit? || s.Toggle? || s.Delete? || s.Remove? || s.Restore?)
    ensures Keeps(p, Attempted(p, s))
  {
    OnwardReflexive(p);
    var r := Attempted(p, s);
    if r.Some? && r.value != p {
      if r.value.listings[s.id].status == Shown && !(s.Edit? && p.listings[s.id].status == Shown) {
        ShowingKeeps(p, s);
      } else {
        QuietListing(p, s);
        QuietPutKeeps(p, s.id, r.value.listings[s.id]);
      }
    }
  }

  /** A step that does not newly show its listing only rewrites it. */
  lemma QuietListing(p: Provider, s: Step)
    requires s.Create? || s.Edit? || s.Toggle? || s.Delete? || s.Remove? || s.Restore?
    requires Attempted(p, s).Some? && Attempted(p, s).value != p && s.id in Attempted(p, s).value.listings
    requires Attempted(p, s).value.listings[s.id].status != Shown
             || (s.Edit? && s.id in p.listings && p.listings[s.id].status == Shown)
    ensures Attempted(p, s).value == Put(p, s.id, Attempted(p, s).value.listings[s.id])
    ensures Attempted(p, s).value.listings[s.id].status == Shown ==> s.id in ActiveIds(p.listings)
  {
  }

  lemma ShowingKeeps(p: Provider, s: Step)
    requires Good(p) && (s.Create? || s.Edit? || s.Toggle? || s.Restore?) && Attempted(p, s).Some?
               && s.id in Attempted(p, s).value.listings
    requires s.Edit? ==> s.id in p.listings && p.listings[s.id].status != Shown && Attempted(p, s).value != p
    requires Attempted(p, s).value.listings[s.id].status == Shown
    ensures Good(Attempted(p, s).value) && Onward(p, Attempted(p, s).value)
  {
    var l := Attempted(p, s).value.listings[s.id];
    if s.Restore? {
      NotShownYet(p.listings, s.id);
      ShownPutKeeps(p, s.id, l, ActiveIds(p.listings));
    } else {
      RoomWasFound(p, s);
      TrialThenShow(p, s.id, l);
    }
  }

  /** What the creating, editing and resuming services checked before showing a listing. */
  lemma RoomWasFound(p: Provider, s: Step)
    requires (s.Create? || s.Edit? || s.Toggle?) && Attempted(p, s).Some? && s.id in Attempted(p, s).value.listings
    requires s.Edit? ==> s.id in p.listings && p.listings[s.id].status != Shown && Attempted(p, s).value != p
    requires Attempted(p, s).value.listings[s.id].status == Shown
    ensures RoomFor(StartTrial(p), |ActiveIds(p.listings) - {s.id}|)
    ensures Attempted(p, s).value == Put(StartTrial(p), s.id, Attempted(p, s).value.listings[s.id])
  {
    if !s.Toggle? { NotShownYet(p.listings, s.id); }
  }

  lemma TrialThenShow(p: Provider, id: Id, l: Listing)
    requires Good(p) && RoomFor(StartTrial(p), |ActiveIds(p.listings) - {id}|)
    ensures var q := Put(StartTrial(p), id, l); Good(q) && Onward(p, q)
  {
    StartTrialKeeps(p);
    ShownPutKeeps(StartTrial(p), id, l, ActiveIds(p.listings) - {id});
    OnwardThrough(p, StartTrial(p), Put(StartTrial(p), id, l));
  }

  // -------------------------------------------------------------------- runs

  /** The query behind a capture lists the active services, oldest first. */
  ghost predicate Legal(p: Provider, s: Step) { s.Capture? ==> OldestFirst(p.listings, s.order) }

  /** A step that throws leaves the rows as they were. */
  ghost function Do(p: Provider, s: Step): Provider {
    if Legal(p, s) && Attempted(p, s).Some? then Attempted(p, s).value else p
  }

  ghost function Run(p: Provider, steps: seq<Step>): Provider
    decreases |steps|
  {
    if steps == [] then p else Run(Do(p, steps[0]), steps[1..])
  }

  lemma AttemptKeeps(p: Provider, s: Step)
    requires Good(p) && Legal(p, s)
    ensures Keeps(p, Attempted(p, s))
  {
    if s.Tick? || s.Trial? || s.Quit? || s.Upkeep? {
      MemberStepKeeps(p, s);
    } else if s.AskQuote? || s.Buy? || s.Prepare? || s.Close? || s.Refund? {
      PaymentStepKeeps(p, s);
    } else if s.Capture? {
      CaptureKeeps(p, s.id, s.accountOk, s.order);
    } else {
      ListingStepKeeps(p, s);
    }
  }

  lemma OnwardThrough(a: Provider, b: Provider, c: Provider)
    requires Onward(a, b) && Onward(b, c)
    ensures Onward(a, c)
  {
  }

  lemma StepKeeps(p: Provider, s: Step)
    requires Good(p)
    ensures Good(Do(p, s)) && Onward(p, Do(p, s))
  {
    OnwardReflexive(p);
    if Legal(p, s) {
      AttemptKeeps(p, s);
    }
  }

  lemma {:induction false} RunKeeps(p: Provider, steps: seq<Step>)
    requires Good(p)
    ensures Good(Run(p, steps)) && Onward(p, Run(p, steps))
    decreases |steps|
  {
    OnwardReflexive(p);
    if steps != [] {
      StepKeeps(p, steps[0]);
      RunKeeps(Do(p, steps[0]), steps[1..]);
      OnwardThrough(p, Do(p, steps[0]), Run(p, steps));
    }
  }

  lemma {:induction false} RunSplits(p: Provider, first: seq<Step>, later: seq<Step>)
    ensures Run(p, first + later) == Run(Run(p, first), later)
    decreases |first|
  {
    if first == [] {
      assert first + later == later;
    } else {
      assert (first + later)[1..] == first[1..] + later;
      RunSplits(Do(p, first[0]), first[1..], later);
    }
  }

  /** A provider who has just signed up. */
  function NewProvider(now: int): Provider {
    Provider(Membership(Free, Active, None, None, None, None, now), map[], {}, map[], [], [], now)
  }

  ghost function After(now: int, steps: seq<Step>): Provider { Run(NewProvider(now), steps) }

  lemma AfterIsGood(now: int, steps: seq<Step>)
    ensures Good(After(now, steps))
  {
    assert ActiveIds(NewProvider(now).listings) == {};
    RunKeeps(NewProvider(now), steps);
  }

  /** The order a capture needs always exists. */
  lemma {:induction false} OrderExists(listings: map<Id, Listing>, ids: set<Id>) returns (order: seq<Id>)
    requires forall i | i in ids :: i in listings
    ensures Elements(order) == ids && forall k, l | 0 <= k < l < |order| :: Older(listings, order[k], order[l])
    decreases ids
  {
    if ids == {} {
      order := [];
    } else {
      var i := Oldest(listings, ids);
      var rest := OrderExists(listings, ids - {i});
      order := [i] + rest;
      assert Elements(order) == {i} + Elements(rest);
      forall k, l | 0 <= k < l < |order| ensures Older(listings, order[k], order[l]) {
        if k == 0 { assert order[l] in Elements(rest); }
      }
    }
  }

  lemma OlderThrough(listings: map<Id, Listing>, i: Id, j: Id, k: Id)
    requires i in listings && j in listings && k in listings && Older(listings, i, j) && Older(listings, j, k)
    ensures Older(listings, i, k)
  {
  }

  lemma {:induction false} Oldest(listings: map<Id, Listing>, ids: set<Id>) returns (i: Id)
    requires ids != {} && forall j | j in ids :: j in listings
    ensures i in ids && forall j | j in ids && j != i :: Older(listings, i, j)
    decreases ids
  {
    var x :| x in ids;
    i := x;
    if ids != {x} {
      var y := Oldest(listings, ids - {x});
      i := if Older(listings, x, y) then x else y;
      forall j | j in ids && j != i ensures Older(listings, i, j) {
        if i == x && j != y { OlderThrough(listings, x, y, j); }
      }
    }
  }

  // ---------------------------------------------------------- main results

  /** A provider never has two pending payments. */
  lemma NeverTwoPending(now: int, steps: seq<Step>, i: Id, j: Id)
    requires i in After(now, steps).payments && j in After(now, steps).payments
    requires After(now, steps).payments[i].status == PayPending && After(now, steps).payments[j].status == PayPending
    ensures i == j
  {
    AfterIsGood(now, steps);
  }

  /** A payment is applied at most once, stays applied, and is never refunded as well;
      one owed back or refunded is never applied. */
  lemma AppliedOnceOrRefunded(now: int, first: seq<Step>, later: seq<Step>, i: Id)
    requires i in After(now, first).payments
    ensures var a, b := After(now, first), After(now, first + later);
            && Distinct(b.applied) && a.applied <= b.applied
            && i in b.payments && (i in b.applied <==> b.payments[i].status == PaySucceeded)
            && (a.payments[i].status == PaySucceeded ==> b.payments[i] == a.payments[i])
            && (a.payments[i].status in {PayRefundRequired, PayRefunded} ==> i !in b.applied)
  {
    AfterIsGood(now, first);
    RunSplits(NewProvider(now), first, later);
    RunKeeps(After(now, first), later);
  }

  /** One undisturbed notice that a payment was captured, and one refund pass. */
  ghost function Reconciled(p: Provider, i: Id, accountOk: bool, order: seq<Id>, settled: bool): Provider {
    Do(Do(p, Capture(i, accountOk, order)), Step.Refund(i, settled))
  }

  /** The notice leaves the payment applied: it was before, or it can be now. */
  predicate Applies(p: Provider, i: Id, accountOk: bool)
    requires i in p.payments
  {
    || p.payments[i].status == PaySucceeded
    || (p.payments[i].status !in {PayRefundRequired, PayRefunded} && Applicable(p, p.payments[i], accountOk))
  }

  lemma NoticeDecides(p: Provider, i: Id, accountOk: bool, order: seq<Id>)
    requires i in p.payments && OldestFirst(p.listings, order)
    ensures var q := Do(p, Capture(i, accountOk, order));
            && i in q.payments
            && (q.payments[i].status == PaySucceeded <==> Applies(p, i, accountOk))
            && (q.payments[i].status == PayRefunded <==> p.payments[i].status == PayRefunded)
            && q.payments[i].status in {PaySucceeded, PayRefundRequired, PayRefunded}
  {
  }

  /** Captured membership money is never forgotten: from every reachable state one undisturbed notice and one
      refund pass leave the payment applied exactly once when it can be applied, and otherwise REFUNDED as
      soon as the gateway reports the refund as final; until then it stays REFUND_REQUIRED. */
  lemma PaymentRecovered(now: int, steps: seq<Step>, i: Id, accountOk: bool, order: seq<Id>, settled: bool)
    requires var p := After(now, steps); i in p.payments && OldestFirst(p.listings, order)
    ensures var p := After(now, steps);
            var q := Reconciled(p, i, accountOk, order, settled);
            && i in q.payments && Distinct(q.applied)
            && (i in q.applied <==> Applies(p, i, accountOk))
            && (q.payments[i].status == PayRefunded <==>
                  !Applies(p, i, accountOk) && (settled || p.payments[i].status == PayRefunded))
            && (q.payments[i].status == PayRefundRequired <==>
                  !Applies(p, i, accountOk) && !settled && p.payments[i].status != PayRefunded)
  {
    var p := After(now, steps);
    AfterIsGood(now, steps);
    var q := Do(p, Capture(i, accountOk, order));
    NoticeDecides(p, i, accountOk, order);
    StepKeeps(p, Capture(i, accountOk, order));
    RefundPass(q, i, settled);
  }

  lemma RefundPass(q: Provider, i: Id, settled: bool)
    requires AppliedFit(q.payments, q.applied) && i in q.payments
    ensures var r := Do(q, Step.Refund(i, settled));
            && i in r.payments && r.applied == q.applied && Distinct(r.applied)
            && (i in r.applied <==> q.payments[i].status == PaySucceeded)
            && r.payments[i].status == if q.payments[i].status == PayRefundRequired && settled then PayRefunded
                                       else q.payments[i].status
  {
  }

  /** Periods started by different payments never overlap, whatever expired, was cancelled
      or arrived late; and the current membership is the last of them. */
  lemma PaidPeriodsNeverOverlap(now: int, steps: seq<Step>, i: Id, j: Id)
    requires var pays := After(now, steps).payments;
             && i in pays && j in pays && i != j && pays[i].status == PaySucceeded && pays[j].status == PaySucceeded
             && pays[i].action != Upgrade && pays[j].action != Upgrade
    ensures var pays := After(now, steps).payments;
            && pays[i].period.Some? && pays[j].period.Some?
            && (pays[i].period.value.1 <= pays[j].period.value.0 || pays[j].period.value.1 <= pays[i].period.value.0)
            && pays[i].period.value.0 < pays[i].period.value.1
  {
    AfterIsGood(now, steps);
    var p := After(now, steps);
    assert i in p.starters && j in p.starters;
    var k :| 0 <= k < |p.starters| && p.starters[k] == i;
    var l :| 0 <= l < |p.starters| && p.starters[l] == j;
  }

  /** Never more than one listing is on show on the free plan, nor more than three on Basic. */
  lemma ListingCapKept(now: int, steps: seq<Step>)
    ensures var p := After(now, steps);
            var shown := set i | i in p.listings && p.listings[i].status == Shown;
            (p.m.plan == Free ==> |shown| <= 1) && (p.m.plan == Basic ==> |shown| <= 3)
  {
    AfterIsGood(now, steps);
    assert (set i | i in After(now, steps).listings && After(now, steps).listings[i].status == Shown)
        == ActiveIds(After(now, steps).listings);
  }

  /** A move to Basic keeps exactly the three oldest published listings on show, and
      leaves every other listing as it was. */
  lemma BasicKeepsTheOldest(p: Provider, id: Id, period: (int, int), order: seq<Id>)
    requires id in p.payments && p.payments[id].plan == Basic && OldestFirst(p.listings, order)
    ensures var q := ApplyPayment(p, id, period, order);
            && ActiveIds(q.listings) == Elements(if |order| > 3 then order[..3] else order)
            && (forall i, j | i in ActiveIds(q.listings) && j in ActiveIds(p.listings) && j !in ActiveIds(q.listings) ::
                  i in p.listings && j in p.listings
                  && var x, y := p.listings[i].published, p.listings[j].published;
                     (x.Some? && (y.None? || x.value < y.value)) || (x == y && i < j))
            && q.listings.Keys == p.listings.Keys
            && (forall i | i in p.listings && (i in ActiveIds(q.listings) || i !in ActiveIds(p.listings)) ::
                  q.listings[i] == p.listings[i])
  {
    PausedFit(p.listings, order);
    OrderDistinct(p.listings, order);
    var q := ApplyPayment(p, id, period, order);
    if |order| > 3 {
      assert order == order[..3] + order[3..];
      forall i, j | i in ActiveIds(q.listings) && j in ActiveIds(p.listings) && j !in ActiveIds(q.listings)
        ensures i in p.listings && j in p.listings && Older(p.listings, i, j)
      {
        assert i in order[..3] && j in order[3..];
        var k :| 0 <= k < 3 && order[k] == i;
        var l :| 3 <= l < |order| && order[l] == j;
      }
      assert forall i | i in order[3..] :: i in order && i in ActiveIds(p.listings) && i !in ActiveIds(q.listings);
    }
  }
}
