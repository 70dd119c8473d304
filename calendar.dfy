/**
 * Proleptic Gregorian calendar dates, with the three date offsets the pipeline
 * uses: the month-end label of a monthly grouping, adding one day, and rolling
 * forward by one month-end offset.
 */
module Calendar {

  datatype Ymd = Ymd(year: int, month: int, day: int)

  predicate IsLeapYear(y: int)
  {
    (y % 4 == 0 && y % 100 != 0) || y % 400 == 0
  }

  function DaysInMonth(y: int, m: int): (n: int)
    requires 1 <= m <= 12
    ensures 28 <= n <= 31
    ensures m == 2 ==> (n == 29 <==> IsLeapYear(y))
  {
    if m == 2 then (if IsLeapYear(y) then 29 else 28)
    else if m == 4 || m == 6 || m == 9 || m == 11 then 30
    else 31
  }

  predicate ValidYmd(d: Ymd)
  {
    1 <= d.month <= 12 && 1 <= d.day <= DaysInMonth(d.year, d.month)
  }

  /** A calendar date; every value of this type is a real Gregorian date. */
  type Date = d: Ymd | ValidYmd(d) witness Ymd(2021, 1, 1)

  /** The date read as the decimal number YYYYMMDD. */
  function DateKey(d: Ymd): int
  {
    d.year * 10000 + d.month * 100 + d.day
  }

  /** Chronological order. */
  predicate Before(a: Date, b: Date)
  {
    DateKey(a) < DateKey(b)
  }

  predicate AtOrBefore(a: Date, b: Date)
  {
    DateKey(a) <= DateKey(b)
  }

  /** The YYYYMMDD order is the order of years, then months, then days. */
  lemma BeforeIsChronological(a: Date, b: Date)
    ensures Before(a, b) <==>
              a.year < b.year
              || (a.year == b.year && a.month < b.month)
              || (a.year == b.year && a.month == b.month && a.day < b.day)
  {
  }

  /** Distinct dates have distinct keys, so `Before` is a strict total order. */
  lemma KeyInjective(a: Date, b: Date)
    requires DateKey(a) == DateKey(b)
    ensures a == b
  {
    BeforeIsChronological(a, b);
    BeforeIsChronological(b, a);
  }

  predicate IsMonthEnd(d: Date)
  {
    d.day == DaysInMonth(d.year, d.month)
  }

  /** The last day of d's month: the label a month-end grouping gives to d. */
  function MonthEndOf(d: Date): (e: Date)
    ensures e.year == d.year && e.month == d.month && IsMonthEnd(e)
    ensures AtOrBefore(d, e)
  {
    Ymd(d.year, d.month, DaysInMonth(d.year, d.month))
  }

  /** The first day of the month after d's month; December rolls to January. */
  function FirstOfNextMonth(d: Date): (f: Date)
    ensures f.day == 1
    ensures d.month < 12 ==> f.year == d.year && f.month == d.month + 1
    ensures d.month == 12 ==> f.year == d.year + 1 && f.month == 1
  {
    if d.month < 12 then Ymd(d.year, d.month + 1, 1) else Ymd(d.year + 1, 1, 1)
  }

  /** Adding a one-day offset. */
  function NextDay(d: Date): (n: Date)
    ensures Before(d, n)
    ensures IsMonthEnd(d) <==> n.day == 1
    ensures n.year == d.year || (n.year == d.year + 1 && n.month == 1 && n.day == 1)
  {
    if d.day < DaysInMonth(d.year, d.month) then Ymd(d.year, d.month, d.day + 1)
    else FirstOfNextMonth(d)
  }

  /** No date lies strictly between d and the day after it. */
  lemma {:induction false} NextDayIsSuccessor(d: Date, x: Date)
    requires Before(d, x)
    ensures AtOrBefore(NextDay(d), x)
  {
    BeforeIsChronological(d, x);
    BeforeIsChronological(NextDay(d), x);
  }

  /** Adding a day preserves the order of dates (hence it is injective). */
  lemma NextDayMonotone(a: Date, b: Date)
    requires Before(a, b)
    ensures Before(NextDay(a), NextDay(b))
  {
    NextDayIsSuccessor(a, b);
  }

  lemma NextDayInjective(a: Date, b: Date)
    requires NextDay(a) == NextDay(b)
    ensures a == b
  {
    if Before(a, b) {
      NextDayMonotone(a, b);
    } else if Before(b, a) {
      NextDayMonotone(b, a);
    } else {
      KeyInjective(a, b);
    }
  }

  /** A month-end label moved forward by one day is the 1st of the following month. */
  lemma MonthEndPlusOneDay(d: Date)
    ensures NextDay(MonthEndOf(d)) == FirstOfNextMonth(d)
  {
  }

  /**
   * Rolling forward by one month-end offset: to the end of d's month, or to the
   * end of the next month when d already is a month end.
   */
  function RollMonthEnd(d: Date): (e: Date)
    ensures IsMonthEnd(e) && Before(d, e)
  {
    if IsMonthEnd(d) then MonthEndOf(NextDay(d)) else MonthEndOf(d)
  }

  /**
   * For a holding-start date on the 1st of a month, the window from it to its
   * rolled month end holds exactly the dates of that calendar month.
   */
  lemma {:induction false} WindowIsMonth(start: Date, x: Date)
    requires start.day == 1
    ensures RollMonthEnd(start) == MonthEndOf(start)
    ensures (AtOrBefore(start, x) && AtOrBefore(x, RollMonthEnd(start)))
            <==> (x.year == start.year && x.month == start.month)
  {
    BeforeIsChronological(start, x);
    BeforeIsChronological(x, RollMonthEnd(start));
  }

  /** The window of a 1st-of-month start ends before any later 1st of a month. */
  lemma {:induction false} WindowsDisjoint(s1: Date, s2: Date)
    requires s1.day == 1 && s2.day == 1 && Before(s1, s2)
    ensures Before(RollMonthEnd(s1), s2)
  {
    BeforeIsChronological(s1, s2);
    BeforeIsChronological(RollMonthEnd(s1), s2);
  }
}
