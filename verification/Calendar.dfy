/** The Gregorian months of section 21.4.1 of ECMA-262, counted from year 0
    (12 * year + month), as a month table. */
module Calendar {
  import opened MonthTable

  predicate Leap(y: int) { y % 4 == 0 && (y % 100 != 0 || y % 400 == 0) }

  function DayFromYear(y: int): int {
    365 * (y - 1970) + (y - 1969) / 4 - (y - 1901) / 100 + (y - 1601) / 400
  }

  /** Days before month `m` of a year. */
  function DaysBefore(m: int, leap: bool): int
    requires 0 <= m < 12
  {
    (if m < 6 then (if m < 3 then (if m == 0 then 0 else if m == 1 then 31 else 59) else if m == 3 then 90
        else if m == 4 then 120 else 151)
     else if m < 9 then (if m == 6 then 181 else if m == 7 then 212 else 243) else if m == 9 then 273 else if m == 10
         then 304 else 334)
    + (if leap && m >= 2 then 1 else 0)
  }

  function LengthOf(m: int, leap: bool): (n: int)
    requires 0 <= m < 12
    ensures 28 <= n <= 31
  {
    if m == 1 then (if leap then 29 else 28) else if m == 3 || m == 5 || m == 8 || m == 10 then 30 else 31
  }

  function FirstDay(k: int): int { DayFromYear(k / 12) + DaysBefore(k % 12, Leap(k / 12)) }

  lemma YearLength(y: int)
    ensures DayFromYear(y + 1) - DayFromYear(y) == if Leap(y) then 366 else 365
  {
    Fourths(y);
    Hundredths(y);
    FourHundredths(y);
    Multiples(y);
  }

  lemma Multiples(y: int)
    ensures (y % 100 == 0 ==> y % 4 == 0) && (y % 400 == 0 ==> y % 100 == 0)
  {
    assert y == 4 * (25 * (y / 100)) + y % 100;
    assert y == 100 * (4 * (y / 400)) + y % 400;
  }

  /** A quotient goes up by one exactly at the multiples of its divisor. */
  lemma Fourths(y: int)
    ensures (y + 1 - 1969) / 4 - (y - 1969) / 4 == if y % 4 == 0 then 1 else 0
  {
    var q, r := y / 4, y % 4;
    assert (y - 1968) / 4 == q - 492;
    assert r == 0 ==> (y - 1969) / 4 == q - 493;
  }

  lemma Hundredths(y: int)
    ensures (y + 1 - 1901) / 100 - (y - 1901) / 100 == if y % 100 == 0 then 1 else 0
  {
    var q, r := y / 100, y % 100;
    assert (y - 1900) / 100 == q - 19;
    assert r == 0 ==> (y - 1901) / 100 == q - 20;
  }

  lemma FourHundredths(y: int)
    ensures (y + 1 - 1601) / 400 - (y - 1601) / 400 == if y % 400 == 0 then 1 else 0
  {
    var q, r := y / 400, y % 400;
    assert (y - 1600) / 400 == q - 4;
    assert r == 0 ==> (y - 1601) / 400 == q - 5;
  }

  /** Months follow one another without gap, each of its Gregorian length. */
  lemma GregorianLength(k: int)
    ensures FirstDay(k + 1) - FirstDay(k) == LengthOf(k % 12, Leap(k / 12))
  {
    if k % 12 == 11 {
      assert (k + 1) / 12 == k / 12 + 1 && (k + 1) % 12 == 0;
      YearLength(k / 12);
    } else {
      assert (k + 1) / 12 == k / 12 && (k + 1) % 12 == k % 12 + 1;
    }
  }

  lemma GregorianTable()
    ensures Table(FirstDay)
  {
    forall k ensures Month(FirstDay, k) { GregorianLength(k); }
  }

  lemma GregorianMonth(first: int -> int, k: int)
    requires first == FirstDay
    ensures Table(first) && first(k + 1) - first(k) == LengthOf(k % 12, Leap(k / 12))
  {
    GregorianTable();
    GregorianLength(k);
  }

  /** One Philippine calendar month from any instant: 28 to 31 days, ending in the next
      Gregorian month at the same local time, on the same date or that month's last. */
  lemma PhilippineMonth(first: int -> int, t: int)
    requires first == FirstDay
    ensures Table(first)
    ensures 28 * DAY_MS <= MonthFrom(first, t) - t <= 31 * DAY_MS
    ensures var start := FromTime(t + MANILA_OFFSET);
            var end := FromTime(MonthFrom(first, t) + MANILA_OFFSET);
            var k := MonthOf(first, start.day) + 1;
            var length := LengthOf(k % 12, Leap(k / 12));
            && end.within == start.within && MonthOf(first, end.day) == k
            && DateOf(first, end.day) == if DateOf(first, start.day) <= length then DateOf(first, start.day) else length
  {
    GregorianMonth(first, 0);
    var k := MonthOf(first, FromTime(t + MANILA_OFFSET).day) + 1;
    GregorianMonth(first, k);
    LocalMonth(first, t, k, LengthOf(k % 12, Leap(k / 12)));
  }

  /** The same on any table of months, for the length it gives the next month. */
  lemma LocalMonth(first: int -> int, t: int, k: int, length: int)
    requires Table(first) && k == MonthOf(first, FromTime(t + MANILA_OFFSET).day) + 1
    requires length == first(k + 1) - first(k)
    ensures 28 * DAY_MS <= MonthFrom(first, t) - t <= 31 * DAY_MS
    ensures var start := FromTime(t + MANILA_OFFSET);
            var end := FromTime(MonthFrom(first, t) + MANILA_OFFSET);
            && end.within == start.within && MonthOf(first, end.day) == k
            && DateOf(first, end.day) == if DateOf(first, start.day) <= length then DateOf(first, start.day) else length
  {
    MonthFromBounds(first, t);
    MonthEndBounds(first, FromTime(t + MANILA_OFFSET).day);
  }
}
