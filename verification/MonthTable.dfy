/** Date arithmetic over a table of months: `first(k)` is the day number on which
    month `k` begins. Only the lengths of months matter here, not how they come about. */
module MonthTable {

  const DAY_MS: int := 86400000
  /** Philippine time is eight hours ahead of UTC. */
  const MANILA_OFFSET: int := 8 * 3600000

  /** Month `k` has 28 to 31 days. */
  ghost predicate Month(first: int -> int, k: int) { 28 <= first(k + 1) - first(k) <= 31 }

  ghost predicate Table(first: int -> int) { forall k :: Month(first, k) }

  lemma {:induction false} MonthsInOrder(first: int -> int, k: int, l: int)
    requires Table(first) && k <= l
    ensures first(k) <= first(l)
    decreases l - k
  {
    if k < l {
      assert Month(first, k);
      MonthsInOrder(first, k + 1, l);
    }
  }

  function SearchUp(first: int -> int, day: int, k: int): (r: int)
    requires Table(first) && first(k) <= day
    ensures first(r) <= day < first(r + 1)
    decreases day - first(k)
  {
    assert Month(first, k);
    if day < first(k + 1) then k else SearchUp(first, day, k + 1)
  }

  function SearchDown(first: int -> int, day: int, k: int): (r: int)
    requires Table(first) && day < first(k)
    ensures first(r) <= day < first(r + 1)
    decreases first(k) - day
  {
    assert Month(first, k - 1);
    if first(k - 1) <= day then k - 1 else SearchDown(first, day, k - 1)
  }

  /** The month that holds a day. */
  function MonthOf(first: int -> int, day: int): (k: int)
    requires Table(first)
    ensures first(k) <= day < first(k + 1)
  {
    if first(0) <= day then SearchUp(first, day, 0) else SearchDown(first, day, 0)
  }

  lemma OneMonth(first: int -> int, day: int, k: int)
    requires Table(first) && first(k) <= day < first(k + 1)
    ensures MonthOf(first, day) == k
  {
    var r := MonthOf(first, day);
    if r < k { MonthsInOrder(first, r + 1, k); } else if k < r { MonthsInOrder(first, k + 1, r); }
  }

  /** A date as its day number and the time within the day. */
  datatype Date = Date(day: int, within: int)

  function FromTime(t: int): (d: Date)
    ensures 0 <= d.within < DAY_MS
  {
    Date(t / DAY_MS, t % DAY_MS)
  }

  function ToTime(d: Date): int { d.day * DAY_MS + d.within }

  lemma TimeRoundTrip(t: int, d: Date)
    ensures ToTime(FromTime(t)) == t
    ensures 0 <= d.within < DAY_MS ==> FromTime(ToTime(d)) == d
  {
  }

  function DateOf(first: int -> int, day: int): int
    requires Table(first)
  {
    day - first(MonthOf(first, day)) + 1
  }

  function SetDate(first: int -> int, d: Date, date: int): Date
    requires Table(first)
  {
    d.(day := first(MonthOf(first, d.day)) + date - 1)
  }

  /** Move to month `month` of the same year; a month past December runs into the next year. */
  function SetMonth(first: int -> int, d: Date, month: int): Date
    requires Table(first)
  {
    d.(day := first(MonthOf(first, d.day) / 12 * 12 + month) + DateOf(first, d.day) - 1)
  }

  /** The day on which a calendar month that starts on `day` ends. */
  function MonthEnd(first: int -> int, day: int): int
    requires Table(first)
  {
    var k := MonthOf(first, day);
    var date := DateOf(first, day);
    var length := first(k + 2) - first(k + 1);
    first(k + 1) + (if date <= length then date else length) - 1
  }

  /** Where a month starting at instant `t` ends: the same local time on MonthEnd's day. */
  function MonthFrom(first: int -> int, t: int): int
    requires Table(first)
  {
    var local := FromTime(t + MANILA_OFFSET);
    ToTime(local.(day := MonthEnd(first, local.day))) - MANILA_OFFSET
  }

  /** Day 0 of a month is the last day of the month before. */
  lemma LastDate(first: int -> int, k: int)
    requires Table(first)
    ensures DateOf(first, first(k + 1) - 1) == first(k + 1) - first(k)
  {
    assert Month(first, k);
    OneMonth(first, first(k + 1) - 1, k);
  }

  lemma NextOf(k: int)
    ensures k / 12 * 12 + (k % 12 + 1) == k + 1
  {
  }

  /** Moving the first of month `k` to the next month of its year. */
  lemma SetNextMonth(first: int -> int, k: int, within: int)
    requires Table(first)
    ensures MonthOf(first, first(k)) == k
    ensures SetMonth(first, Date(first(k), within), k % 12 + 1) == Date(first(k + 1), within)
  {
    assert Month(first, k);
    OneMonth(first, first(k), k);
    NextOf(k);
  }

  /** setUTCDate(1), then setUTCMonth one further. */
  method ToNextMonth(first: int -> int, d: Date) returns (end: Date)
    requires Table(first)
    ensures end == Date(first(MonthOf(first, d.day) + 1), d.within)
  {
    SetNextMonth(first, MonthOf(first, d.day), d.within);
    end := SetDate(first, d, 1);
    end := SetMonth(first, end, MonthOf(first, end.day) % 12 + 1);
  }

  /** Day 0 of the month after the one that begins on `end.day`. */
  method LastOfMonth(first: int -> int, end: Date) returns (last: int)
    requires Table(first) && end.day == first(MonthOf(first, end.day))
    ensures var k := MonthOf(first, end.day); last == first(k + 1) - first(k)
  {
    var k := MonthOf(first, end.day);
    SetNextMonth(first, k, end.within);
    LastDate(first, k);
    last := DateOf(first, SetMonth(first, end, k % 12 + 1).day - 1);
  }

  /** The date's month is set to the next one, and its day clamped to that month. */
  method AddMonth(first: int -> int, d: Date) returns (end: Date)
    requires Table(first)
    ensures end == d.(day := MonthEnd(first, d.day))
  {
    var day := DateOf(first, d.day);
    end := ToNextMonth(first, d);
    OneMonthBegins(first, MonthOf(first, d.day) + 1);
    var last := LastOfMonth(first, end);
    end := SetDate(first, end, if day < last then day else last);
  }

  lemma OneMonthBegins(first: int -> int, k: int)
    requires Table(first)
    ensures MonthOf(first, first(k)) == k
  {
    assert Month(first, k);
    OneMonth(first, first(k), k);
  }

  /** oneCalendarMonthFrom: the date is shifted to local time, moved and shifted back. */
  method OneCalendarMonthFrom(first: int -> int, start: int) returns (result: int)
    requires Table(first)
    ensures result == MonthFrom(first, start)
  {
    var end := AddMonth(first, FromTime(start + MANILA_OFFSET));
    result := ToTime(end) - MANILA_OFFSET;
  }

  /** A month that starts on `day` ends 28 to 31 days later, in the next month, on the same date or that
      month's last. */
  lemma MonthEndBounds(first: int -> int, day: int)
    requires Table(first)
    ensures 28 <= MonthEnd(first, day) - day <= 31
    ensures var k := MonthOf(first, day);
            && MonthOf(first, MonthEnd(first, day)) == k + 1
            && DateOf(first, MonthEnd(first, day)) ==
                 if DateOf(first, day) <= first(k + 2) - first(k + 1) then DateOf(first, day)
                     else first(k + 2) - first(k + 1)
  {
    var k := MonthOf(first, day);
    assert Month(first, k) && Month(first, k + 1);
    OneMonth(first, MonthEnd(first, day), k + 1);
  }

  /** The same at the clock: 28 to 31 days later at the same local time. */
  lemma MonthFromBounds(first: int -> int, t: int)
    requires Table(first)
    ensures 28 * DAY_MS <= MonthFrom(first, t) - t <= 31 * DAY_MS
    ensures var local := FromTime(t + MANILA_OFFSET);
            FromTime(MonthFrom(first, t) + MANILA_OFFSET) == local.(day := MonthEnd(first, local.day))
  {
    var local := FromTime(t + MANILA_OFFSET);
    MonthEndBounds(first, local.day);
    TimeRoundTrip(t + MANILA_OFFSET, local.(day := MonthEnd(first, local.day)));
  }

  /** A later start day never ends on an earlier day. */
  lemma MonthEndMonotone(first: int -> int, a: int, b: int)
    requires Table(first) && a <= b
    ensures MonthEnd(first, a) <= MonthEnd(first, b)
  {
    var k, l := MonthOf(first, a), MonthOf(first, b);
    assert Month(first, k + 1) && Month(first, l + 1);
    if k < l {
      MonthsInOrder(first, k + 2, l + 1);
    } else if l < k {
      MonthsInOrder(first, l + 1, k);
    }
  }
}
