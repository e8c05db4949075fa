/** The period every applied payment bought, over every run: a Philippine calendar month, or for an upgrade the month
    of the Basic payment it upgrades. */
module MembershipPeriods {
  import opened BookingRows
  import opened MonthTable
  import opened Calendar
  import opened MembershipPolicy
  import opened MembershipSteps
  import opened MembershipRuns
  import opened MembershipTotals

  /** The days of a month, counted from year 0 (12 * year + month). */
  function Days(k: int): int {
    match k % 12
    case 1 => if (k / 12) % 4 == 0 && ((k / 12) % 100 != 0 || (k / 12) % 400 == 0) then 29 else 28
    case 3 => 30
    case 5 => 30
    case 8 => 30
    case 10 => 30
    case _ => 31
  }

  /** FirstDay counts days from 1 January 1970, and every month has its Gregorian length. */
  lemma DayNumbers(k: int)
    ensures FirstDay(12 * 1970) == 0 && FirstDay(k + 1) - FirstDay(k) == Days(k)
  {
    GregorianLength(k);
  }

  /** In Manila, eight hours ahead, the instant falls on this date of the month, this far into the day. */
  predicate OnDate(first: int -> int, t: int, month: int, date: int, within: int) {
    && t + 28800000 == 86400000 * (first(month) + date - 1) + within
    && 0 <= within < 86400000 && 1 <= date <= first(month + 1) - first(month)
  }

  /** No instant falls on two dates. */
  lemma OneDate(first: int -> int, t: int, k: int, d: int, w: int, k': int, d': int, w': int)
    requires Table(first) && OnDate(first, t, k, d, w) && OnDate(first, t, k', d', w')
    ensures k == k' && d == d' && w == w'
  {
    OneMonth(first, first(k) + d - 1, k);
    OneMonth(first, first(k') + d' - 1, k');
  }

  /** From one instant to the same time of day in the next month, on the same date or that month's last. */
  ghost predicate NextMonth(first: int -> int, start: int, end: int) {
    exists k, d, w :: OnDate(first, start, k, d, w)
      && OnDate(first, end, k + 1, if d <= first(k + 2) - first(k + 1) then d else first(k + 2) - first(k + 1), w)
  }

  ghost predicate CalendarMonth(start: int, end: int) { NextMonth(FirstDay, start, end) }

  /** Where an instant falls, on any table of months. */
  lemma FallsOn(first: int -> int, t: int)
    requires Table(first)
    ensures var local := FromTime(t + MANILA_OFFSET);
            OnDate(first, t, MonthOf(first, local.day), DateOf(first, local.day), local.within)
  {
    TimeRoundTrip(t + MANILA_OFFSET, FromTime(t + MANILA_OFFSET));
  }

  lemma MonthFromFallsOn(first: int -> int, t: int)
    requires Table(first)
    ensures NextMonth(first, t, MonthFrom(first, t))
  {
    var end := MonthFrom(first, t);
    var local := FromTime(t + MANILA_OFFSET);
    FallsOn(first, t);
    FallsOn(first, end);
    MonthFromBounds(first, t);
    MonthEndBounds(first, local.day);
    assert OnDate(first, end, MonthOf(first, local.day) + 1, DateOf(first, MonthEnd(first, local.day)), local.within);
  }

  lemma MonthIsCalendarMonth(t: int)
    ensures CalendarMonth(t, EndOfMonth(t))
  {
    GregorianTable();
    MonthFromFallsOn(FirstDay, t);
  }

  // ----------------------------------------------------------- the invariant

  /** An applied payment's period: a calendar month of its own, or that of a Basic payment. */
  ghost predicate PeriodBought(p: Provider, i: Id)
    requires i in p.payments
  {
    var pay := p.payments[i];
    && pay.period.Some?
    && (pay.action != Upgrade ==> CalendarMonth(pay.period.value.0, pay.period.value.1))
    && (pay.action == Upgrade ==> pay.plan == Pro && BasicPeriod(p, pay.period))
  }

  ghost predicate BasicPeriod(p: Provider, period: Option<(int, int)>) {
    exists j | j in p.payments ::
      && p.payments[j].status == PaySucceeded && p.payments[j].action != Upgrade && p.payments[j].plan == Basic
      && p.payments[j].period == period
  }

  ghost predicate Dated(p: Provider) {
    && (forall i | i in p.payments && p.payments[i].status == PaySucceeded :: PeriodBought(p, i))
    && (p.m.plan == Basic ==>
          p.m.starts.Some? && p.m.expires.Some? && BasicPeriod(p, Some((p.m.starts.value, p.m.expires.value))))
  }

  lemma BasicPeriodStays(p: Provider, q: Provider, period: Option<(int, int)>)
    requires Onward(p, q) && BasicPeriod(p, period)
    ensures BasicPeriod(q, period)
  {
    var j :| j in p.payments && p.payments[j].status == PaySucceeded && p.payments[j].action != Upgrade
             && p.payments[j].plan == Basic && p.payments[j].period == period;
    assert q.payments[j] == p.payments[j];
  }

  lemma BoughtStays(p: Provider, q: Provider, i: Id)
    requires Onward(p, q) && i in p.payments && p.payments[i].status == PaySucceeded && PeriodBought(p, i)
    ensures i in q.payments && PeriodBought(q, i)
  {
    if p.payments[i].action == Upgrade { BasicPeriodStays(p, q, p.payments[i].period); }
  }

  /** Rows that apply no payment and leave the plan's period alone. */
  lemma QuietStaysDated(p: Provider, q: Provider)
    requires Good(p) && Dated(p) && Good(q) && Onward(p, q) && SamePeriods(p, q)
    ensures Dated(q)
  {
    forall i | i in q.payments && q.payments[i].status == PaySucceeded ensures PeriodBought(q, i) {
      assert i in p.applied;
      BoughtStays(p, q, i);
    }
    if p.m.plan == Basic { BasicPeriodStays(p, q, Some((p.m.starts.value, p.m.expires.value))); }
  }

  lemma AppliedStaysDated(p: Provider, id: Id, period: (int, int), order: seq<Id>)
    requires Good(p) && Dated(p) && Due(p, id, period)
    requires p.payments[id].action != Upgrade ==> CalendarMonth(period.0, period.1)
    ensures Dated(ApplyPayment(p, id, period, order))
  {
    var q := ApplyPayment(p, id, period, order);
    AppliedRows(p, id, period, order);
    ApplyOnward(p, id, period, order);
    if p.payments[id].action == Upgrade { BasicPeriodStays(p, q, Some(period)); }
    assert q.payments[id].period == Some(period) && q.payments[id].status == PaySucceeded;
    forall i | i in q.payments && q.payments[i].status == PaySucceeded ensures PeriodBought(q, i) {
      if i != id { BoughtStays(p, q, i); }
    }
  }

  lemma CaptureStaysDated(p: Provider, id: Id, accountOk: bool, order: seq<Id>)
    requires Good(p) && Dated(p) && OldestFirst(p.listings, order) && FinalizePayment(p, id, accountOk, order).Some?
    ensures Dated(FinalizePayment(p, id, accountOk, order).value)
  {
    var pay := p.payments[id];
    if pay.status !in {PaySucceeded, PayRefunded, PayRefundRequired} {
      if Applicable(p, pay, accountOk) {
        MonthIsCalendarMonth(p.clock);
        AppliedStaysDated(p, id, if pay.action == Upgrade then (p.m.starts.value, pay.quotedExpires.value)
            else (p.clock, EndOfMonth(p.clock)), order);
      } else {
        UnappliedKeeps(p, id, pay.(status := PayRefundRequired));
        QuietStaysDated(p, SetPayment(p, id, PayRefundRequired));
      }
    }
  }

  lemma StepIsQuiet(p: Provider, s: Step)
    requires Attempted(p, s).Some? && !s.Capture?
    ensures SamePeriods(p, Attempted(p, s).value)
  {
    if s.Tick? || s.Trial? || s.Quit? || s.Upkeep? { MemberStepIsQuiet(p, s); }
    else if !(s.AskQuote? || s.Buy? || s.Prepare? || s.Close? || s.Refund?) { ListingStepIsQuiet(p, s); }
  }

  lemma StepStaysDated(p: Provider, s: Step)
    requires Good(p) && Dated(p)
    ensures Dated(Do(p, s))
  {
    if Legal(p, s) && Attempted(p, s).Some? {
      if s.Capture? {
        CaptureStaysDated(p, s.id, s.accountOk, s.order);
      } else {
        StepIsQuiet(p, s);
        AttemptKeeps(p, s);
        QuietStaysDated(p, Attempted(p, s).value);
      }
    }
  }

  lemma {:induction false} RunStaysDated(p: Provider, steps: seq<Step>)
    requires Good(p) && Dated(p)
    ensures Dated(Run(p, steps))
    decreases |steps|
  {
    if steps != [] {
      StepStaysDated(p, steps[0]);
      StepKeeps(p, steps[0]);
      RunStaysDated(Do(p, steps[0]), steps[1..]);
    }
  }

  // -------------------------------------------------------------- main result

  /** Over every run an applied payment bought exactly one Philippine calendar month: the next month on the same date,
      or its last, at the same time of day. An upgrade bought no time: it is to Pro,
          over the month of a Basic payment. */
  lemma PeriodsAreCalendarMonths(now: int, steps: seq<Step>, i: Id)
    requires i in After(now, steps).payments && After(now, steps).payments[i].status == PaySucceeded
    ensures var p := After(now, steps);
            var pay := p.payments[i];
            && pay.period.Some?
            && (pay.action != Upgrade ==> CalendarMonth(pay.period.value.0, pay.period.value.1))
            && (pay.action == Upgrade ==>
                  && pay.plan == Pro
                  && exists j | j in p.payments ::
                       && p.payments[j].status == PaySucceeded && p.payments[j].action != Upgrade
                       && p.payments[j].plan == Basic && p.payments[j].period == pay.period
                       && CalendarMonth(pay.period.value.0, pay.period.value.1))
  {
    assert ActiveIds(NewProvider(now).listings) == {};
    RunStaysDated(NewProvider(now), steps);
    var p := After(now, steps);
    assert PeriodBought(p, i);
    if p.payments[i].action == Upgrade {
      var j :| j in p.payments && p.payments[j].status == PaySucceeded && p.payments[j].action != Upgrade
               && p.payments[j].plan == Basic && p.payments[j].period == p.payments[i].period;
      assert PeriodBought(p, j);
    }
  }
}
