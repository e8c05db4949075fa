/** What one paid period costs, over every run. */
module MembershipTotals {
  import opened BookingRows
  import opened MembershipPolicy
  import opened MembershipSteps
  import opened MembershipRuns

  /** A full price, or an upgrade of at most the difference between the paid plans. */
  predicate FairPrice(plan: Plan, amount: nat, action: Action) {
    if action == Upgrade then plan == Pro && Price(Basic) + amount <= Price(Pro) else amount == Price(plan)
  }

  ghost predicate FairQuotes(quotes: set<(Quote, int)>) {
    forall q | q in quotes :: FairPrice(q.0.plan, q.0.amount, q.0.action)
  }

  ghost predicate FairPayments(payments: map<Id, Payment>) {
    forall i | i in payments :: FairPrice(payments[i].plan, payments[i].amount, payments[i].action)
  }

  /** What the applied payments of one period charged together. */
  function Charged(payments: map<Id, Payment>, applied: seq<Id>, period: (int, int)): nat
    decreases |applied|
  {
    if applied == [] then 0
    else
      var i := applied[|applied| - 1];
      Charged(payments, applied[..|applied| - 1], period)
      + (if i in payments && payments[i].period == Some(period) then payments[i].amount else 0)
  }

  ghost predicate InUse(payments: map<Id, Payment>, starters: seq<Id>, period: Option<(int, int)>) {
    exists k :: 0 <= k < |starters| && starters[k] in payments && payments[starters[k]].period == period
  }

  /** Every applied payment paid for a period some payment started. */
  ghost predicate PeriodsStarted(p: Provider) {
    forall i | i in p.applied ::
        i in p.payments && p.payments[i].period.Some? && InUse(p.payments, p.starters, p.payments[i].period)
  }

  ghost predicate WithinProPrice(p: Provider) {
    && (forall period: (int, int) :: Charged(p.payments, p.applied, period) <= Price(Pro))
    && (p.m.plan == Basic ==>
          p.m.starts.Some? && p.m.expires.Some?
          && Charged(p.payments, p.applied, (p.m.starts.value, p.m.expires.value)) <= Price(Basic))
  }

  ghost predicate Fair(p: Provider) {
    FairQuotes(p.quotes) && FairPayments(p.payments) && PeriodsStarted(p) && WithinProPrice(p)
  }

  // ------------------------------------------------------------------ prices

  /** Every quote is fair, whenever it is asked for. */
  lemma QuotesAreFair(m: Membership, plan: Plan, now: int)
    requires Quoted(m, plan, now).Some?
    ensures var q := Quoted(m, plan, now).value; q.plan == plan && FairPrice(q.plan, q.amount, q.action)
  {
    if Quoted(m, plan, now).value.action == Upgrade {
      UpgradeNeverCostsMore(m, now);
    }
  }

  // ------------------------------------------------------------- the charges

  lemma {:induction false} ChargedSame(a: map<Id, Payment>, b: map<Id, Payment>, applied: seq<Id>, period: (int, int))
    requires forall i | i in applied :: i in a && i in b && a[i].period == b[i].period && a[i].amount == b[i].amount
    ensures Charged(a, applied, period) == Charged(b, applied, period)
    decreases |applied|
  {
    if applied != [] {
      ChargedSame(a, b, applied[..|applied| - 1], period);
    }
  }

  lemma ChargedOneMore(payments: map<Id, Payment>, applied: seq<Id>, id: Id, period: (int, int))
    ensures Charged(payments, applied + [id], period)
              == Charged(payments, applied, period)
                  + (if id in payments && payments[id].period == Some(period) then payments[id].amount else 0)
  {
    assert (applied + [id])[..|applied|] == applied;
  }

  lemma {:induction false} NothingCharged(payments: map<Id, Payment>, applied: seq<Id>, period: (int, int))
    requires forall i | i in applied :: i in payments && payments[i].period != Some(period)
    ensures Charged(payments, applied, period) == 0
    decreases |applied|
  {
    if applied != [] {
      NothingCharged(payments, applied[..|applied| - 1], period);
    }
  }

  // --------------------------------------------------------------- the steps

  /** Rows that change no applied payment and no plan period. */
  lemma QuietStaysFair(p: Provider, q: Provider)
    requires Good(p) && Fair(p) && Onward(p, q) && SamePeriods(p, q)
    requires FairQuotes(q.quotes) && FairPayments(q.payments)
    ensures Fair(q)
  {
    forall i | i in p.applied ensures i in q.payments && q.payments[i] == p.payments[i] {}
    forall period: (int, int) ensures Charged(q.payments, q.applied, period) == Charged(p.payments, p.applied, period) {
      ChargedSame(q.payments, p.payments, p.applied, period);
    }
    forall i | i in q.applied
      ensures i in q.payments && q.payments[i].period.Some? && InUse(q.payments, q.starters, q.payments[i].period)
    {
      var k :| 0 <= k < |p.starters| && p.starters[k] in p.payments
          && p.payments[p.starters[k]].period == p.payments[i].period;
      assert p.starters[k] in p.starters;
      assert q.payments[q.starters[k]].period == q.payments[i].period;
    }
  }

  /** The applied payments and the plan's period are left alone. */
  ghost predicate SamePeriods(p: Provider, q: Provider) {
    && q.applied == p.applied && q.starters == p.starters
    && q.m.plan == p.m.plan && q.m.starts == p.m.starts && q.m.expires == p.m.expires
  }

  lemma NewPaymentIsFair(q: Quote, signed: Option<Quote>, now: int)
    requires FairPrice(q.plan, q.amount, q.action)
    requires signed.Some? ==> signed.value.plan == q.plan && FairPrice(q.plan, signed.value.amount, signed.value.action)
    ensures var pay := NewPayment(q, signed, now); FairPrice(pay.plan, pay.amount, pay.action)
  {
  }

  lemma BoughtIsFair(p: Provider, id: Id, plan: Plan, signed: Option<(Quote, int)>)
    requires FairQuotes(p.quotes) && FairPayments(p.payments) && Checkout(p, id, plan, signed).Some?
    ensures var q := Checkout(p, id, plan, signed).value;
              FairPayments(q.payments) && q.quotes == p.quotes && SamePeriods(p, q)
  {
    QuotesAreFair(p.m, plan, p.clock);
    NewPaymentIsFair(Quoted(p.m, plan, p.clock).value, if signed.Some? then Some(signed.value.0) else None, p.clock);
  }

  lemma QuotedIsFair(p: Provider, plan: Plan)
    requires FairQuotes(p.quotes) && IssueQuote(p, plan).Some?
    ensures var q := IssueQuote(p, plan).value; FairQuotes(q.quotes) && q.payments == p.payments && SamePeriods(p, q)
  {
    QuotesAreFair(p.m, plan, p.clock);
  }

  lemma EndedIsFair(p: Provider, s: Step)
    requires FairPayments(p.payments) && (s.Prepare? || s.Close? || s.Refund?) && Attempted(p, s).Some?
    ensures var q := Attempted(p, s).value; FairPayments(q.payments) && q.quotes == p.quotes && SamePeriods(p, q)
  {
  }

  lemma PaymentStepStaysFair(p: Provider, s: Step)
    requires Good(p) && Fair(p) && (s.AskQuote? || s.Buy? || s.Prepare? || s.Close? || s.Refund?)
               && Attempted(p, s).Some?
    ensures Fair(Attempted(p, s).value)
  {
    PaymentStepKeeps(p, s);
    match s {
      case AskQuote(plan) => QuotedIsFair(p, plan);
      case Buy(id, plan, signed) => BoughtIsFair(p, id, plan, signed);
      case _ => EndedIsFair(p, s);
    }
    QuietStaysFair(p, Attempted(p, s).value);
  }

  lemma MemberStepIsQuiet(p: Provider, s: Step)
    requires Attempted(p, s).Some? && (s.Tick? || s.Trial? || s.Quit? || s.Upkeep?)
    ensures var q := Attempted(p, s).value; q.payments == p.payments && q.quotes == p.quotes && SamePeriods(p, q)
  {
  }

  lemma ListingStepIsQuiet(p: Provider, s: Step)
    requires Attempted(p, s).Some? && (s.Create? || s.Edit? || s.Toggle? || s.Delete? || s.Remove? || s.Restore?)
    ensures var q := Attempted(p, s).value; q.payments == p.payments && q.quotes == p.quotes && SamePeriods(p, q)
  {
    var q := Attempted(p, s).value;
    assert q == p || q == p.(listings := q.listings) || q == StartTrial(p).(listings := q.listings);
  }

  lemma OtherStepStaysFair(p: Provider, s: Step)
    requires Good(p) && Fair(p) && Attempted(p, s).Some? && Legal(p, s)
    requires !(s.AskQuote? || s.Buy? || s.Prepare? || s.Close? || s.Refund? || s.Capture?)
    ensures Fair(Attempted(p, s).value)
  {
    AttemptKeeps(p, s);
    if s.Tick? || s.Trial? || s.Quit? || s.Upkeep? { MemberStepIsQuiet(p, s); } else { ListingStepIsQuiet(p, s); }
    QuietStaysFair(p, Attempted(p, s).value);
  }

  /** No applied payment has a period that starts only now. */
  lemma FreshPeriod(p: Provider, id: Id, period: (int, int))
    requires Good(p) && Fair(p) && Due(p, id, period) && p.payments[id].action != Upgrade
    ensures forall i | i in p.applied :: p.payments[i].period != Some(period)
  {
    forall i | i in p.applied ensures p.payments[i].period != Some(period) {
      var k :| 0 <= k < |p.starters| && p.starters[k] in p.payments
          && p.payments[p.starters[k]].period == p.payments[i].period;
      assert p.starters[k] in p.starters;
      if p.payments[p.starters[k]].period == Some(period) {
        LastPeriodOver(p);
      }
    }
  }

  /** What is charged once a payment is applied. */
  lemma AppliedCharges(p: Provider, id: Id, period: (int, int), other: (int, int))
    requires Good(p) && Due(p, id, period)
    ensures Charged(Applied(p, id, period), p.applied + [id], other)
              == Charged(p.payments, p.applied, other) + (if other == period then p.payments[id].amount else 0)
  {
    ChargedOneMore(Applied(p, id, period), p.applied, id, other);
    ChargedSame(Applied(p, id, period), p.payments, p.applied, other);
  }

  lemma ChargesBounded(p: Provider, id: Id, period: (int, int), other: (int, int))
    requires Good(p) && Fair(p) && Due(p, id, period)
    ensures Charged(Applied(p, id, period), p.applied + [id], other) <= Price(Pro)
    ensures other == period && p.payments[id].plan == Basic ==>
              Charged(Applied(p, id, period), p.applied + [id], other) <= Price(Basic)
  {
    AppliedCharges(p, id, period, other);
    if other == period && p.payments[id].action != Upgrade {
      FreshPeriod(p, id, period);
      NothingCharged(p.payments, p.applied, period);
    }
  }

  lemma AppliedWithinPrice(p: Provider, id: Id, period: (int, int), order: seq<Id>)
    requires Good(p) && Fair(p) && Due(p, id, period)
    ensures WithinProPrice(ApplyPayment(p, id, period, order))
  {
    forall other: (int, int) ensures Charged(Applied(p, id, period), p.applied + [id], other) <= Price(Pro) {
      ChargesBounded(p, id, period, other);
    }
    ChargesBounded(p, id, period, period);
    AppliedRows(p, id, period, order);
  }

  /** The period of an earlier payment is still in use. */
  lemma StillInUse(p: Provider, id: Id, period: (int, int), i: Id, starters: seq<Id>)
    requires Good(p) && PeriodsStarted(p) && Due(p, id, period) && i in p.applied && p.starters <= starters
    ensures i in Applied(p, id, period) && Applied(p, id, period)[i] == p.payments[i] && p.payments[i].period.Some?
    ensures InUse(Applied(p, id, period), starters, p.payments[i].period)
  {
    var k :| 0 <= k < |p.starters| && p.starters[k] in p.payments
        && p.payments[p.starters[k]].period == p.payments[i].period;
    assert p.starters[k] in p.starters && starters[k] == p.starters[k];
  }

  lemma NowInUse(p: Provider, id: Id, period: (int, int), starters: seq<Id>)
    requires Good(p) && Due(p, id, period)
    requires starters == if p.payments[id].action == Upgrade then p.starters else p.starters + [id]
    ensures InUse(Applied(p, id, period), starters, Some(period))
  {
    var k := |starters| - 1;
    if p.payments[id].action == Upgrade {
      assert p.starters[k] in p.starters;
    } else {
      assert starters[k] == id;
    }
  }

  lemma AppliedPeriodsStarted(p: Provider, id: Id, period: (int, int), order: seq<Id>)
    requires Good(p) && PeriodsStarted(p) && Due(p, id, period)
    ensures PeriodsStarted(ApplyPayment(p, id, period, order))
  {
    var q := ApplyPayment(p, id, period, order);
    AppliedRows(p, id, period, order);
    NowInUse(p, id, period, q.starters);
    forall i | i in p.applied ensures i in q.payments && q.payments[i].period.Some?
        && InUse(q.payments, q.starters, q.payments[i].period) {
      StillInUse(p, id, period, i, q.starters);
    }
  }

  lemma AppliedStaysFair(p: Provider, id: Id, period: (int, int), order: seq<Id>)
    requires Good(p) && Fair(p) && Due(p, id, period)
    ensures Fair(ApplyPayment(p, id, period, order))
  {
    AppliedWithinPrice(p, id, period, order);
    AppliedPeriodsStarted(p, id, period, order);
    AppliedRows(p, id, period, order);
  }

  lemma CaptureStaysFair(p: Provider, id: Id, accountOk: bool, order: seq<Id>)
    requires Good(p) && Fair(p) && OldestFirst(p.listings, order) && FinalizePayment(p, id, accountOk, order).Some?
    ensures Fair(FinalizePayment(p, id, accountOk, order).value)
  {
    var pay := p.payments[id];
    if pay.status !in {PaySucceeded, PayRefunded, PayRefundRequired} {
      if Applicable(p, pay, accountOk) {
        AppliedStaysFair(p, id, if pay.action == Upgrade then (p.m.starts.value, pay.quotedExpires.value)
            else (p.clock, EndOfMonth(p.clock)), order);
      } else {
        UnappliedKeeps(p, id, pay.(status := PayRefundRequired));
        QuietStaysFair(p, SetPayment(p, id, PayRefundRequired));
      }
    }
  }

  lemma StepStaysFair(p: Provider, s: Step)
    requires Good(p) && Fair(p)
    ensures Fair(Do(p, s))
  {
    if Legal(p, s) && Attempted(p, s).Some? {
      if s.Capture? {
        CaptureStaysFair(p, s.id, s.accountOk, s.order);
      } else if s.AskQuote? || s.Buy? || s.Prepare? || s.Close? || s.Refund? {
        PaymentStepStaysFair(p, s);
      } else {
        OtherStepStaysFair(p, s);
      }
    }
  }

  lemma {:induction false} RunStaysFair(p: Provider, steps: seq<Step>)
    requires Good(p) && Fair(p)
    ensures Fair(Run(p, steps))
    decreases |steps|
  {
    if steps != [] {
      StepStaysFair(p, steps[0]);
      StepKeeps(p, steps[0]);
      RunStaysFair(Do(p, steps[0]), steps[1..]);
    }
  }

  /** Over every run the payments applied to one paid period never total more than a Pro month,
      whichever signed quotes they were charged from; a Basic period costs no more than a Basic month. */
  lemma PeriodNeverCostsMoreThanPro(now: int, steps: seq<Step>, period: (int, int))
    ensures var p := After(now, steps);
            && Charged(p.payments, p.applied, period) <= 19900
            && (p.m.plan == Basic && p.m.starts == Some(period.0) && p.m.expires == Some(period.1)
                ==> Charged(p.payments, p.applied, period) <= 9900)
  {
    assert ActiveIds(NewProvider(now).listings) == {};
    RunStaysFair(NewProvider(now), steps);
  }
}
