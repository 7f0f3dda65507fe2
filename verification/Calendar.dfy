/**
 * Month arithmetic on UTC timestamps: `timestamp + interval 'n months'` keeps the time of day and
 * the day of the month, clipping the day to the length of the month it lands in.
 */
module Calendar {
  import opened Prelude

  const DAY: Time := 24 * 60 * MINUTE

  predicate Leap(year: int) {
    year % 4 == 0 && (year % 100 != 0 || year % 400 == 0)
  }

  /** Length of the month `m` months after January 1970 (before it, if negative). */
  function DaysIn(m: int): (n: int)
    ensures 28 <= n <= 31
  {
    var month := m % 12;
    if month == 1 then (if Leap(1970 + m / 12) then 29 else 28)
    else if month in {3, 5, 8, 10} then 30
    else 31
  }

  /** Day number (0 is 1 January 1970) of the first day of month `m`. */
  function MonthStart(m: int): int
    decreases if m < 0 then -m else m
  {
    if m == 0 then 0
    else if m > 0 then MonthStart(m - 1) + DaysIn(m - 1)
    else MonthStart(m + 1) - DaysIn(m)
  }

  lemma MonthStartNext(m: int)
    ensures MonthStart(m + 1) == MonthStart(m) + DaysIn(m)
  {
  }

  lemma {:induction false} MonthStartGrows(a: int, b: int)
    requires a <= b
    ensures MonthStart(a) + 28 * (b - a) <= MonthStart(b)
    decreases b - a
  {
    if a < b {
      MonthStartGrows(a, b - 1);
      MonthStartNext(b - 1);
    }
  }

  function LeapDaysBefore(year: int): int {
    (year - 1) / 4 - (year - 1) / 100 + (year - 1) / 400
  }

  lemma LeapDaysStep(year: int)
    ensures LeapDaysBefore(year + 1) == LeapDaysBefore(year) + if Leap(year) then 1 else 0
  {
    DivisionStep(year, 4);
    DivisionStep(year, 100);
    DivisionStep(year, 400);
    LeapRule(year);
  }

  lemma LeapRule(year: int)
    ensures year % 400 == 0 ==> year % 100 == 0
    ensures year % 100 == 0 ==> year % 4 == 0
  {
  }

  lemma DivisionStep(n: int, d: int)
    requires d in {4, 100, 400}
    ensures n / d == (n - 1) / d + if n % d == 0 then 1 else 0
  {
  }

  lemma MonthLength(y: int, k: int)
    requires 0 <= k < 12
    ensures MonthStart(12 * y + k + 1) == MonthStart(12 * y + k)
      + if k == 1 then (if Leap(1970 + y) then 29 else 28) else if k in {3, 5, 8, 10} then 30 else 31
  {
    var m := 12 * y + k;
    MonthStartNext(m);
    assert m / 12 == y && m % 12 == k;
  }

  lemma YearLength(y: int)
    ensures MonthStart(12 * (y + 1)) == MonthStart(12 * y) + 365 + if Leap(1970 + y) then 1 else 0
  {
    MonthLength(y, 0); MonthLength(y, 1); MonthLength(y, 2); MonthLength(y, 3);
    MonthLength(y, 4); MonthLength(y, 5); MonthLength(y, 6); MonthLength(y, 7);
    MonthLength(y, 8); MonthLength(y, 9); MonthLength(y, 10); MonthLength(y, 11);
  }

  /** The month-by-month count agrees with the closed Gregorian formula for every year. */
  lemma {:induction false} CalendarIsGregorian(y: int)
    ensures MonthStart(12 * y) == 365 * y + LeapDaysBefore(1970 + y) - LeapDaysBefore(1970)
    decreases if y < 0 then -y else y
  {
    if y > 0 {
      CalendarIsGregorian(y - 1);
      YearLength(y - 1);
      LeapDaysStep(1970 + y - 1);
    } else if y < 0 {
      CalendarIsGregorian(y + 1);
      YearLength(y);
      LeapDaysStep(1970 + y);
    }
  }

  // ---------------------------------------------------------------- month of a day

  function MonthUp(day: int, m: int): (r: int)
    requires MonthStart(m) <= day
    ensures MonthStart(r) <= day < MonthStart(r + 1)
    decreases day - MonthStart(m)
  {
    MonthStartNext(m);
    if day < MonthStart(m + 1) then m else MonthUp(day, m + 1)
  }

  function MonthDown(day: int, m: int): (r: int)
    requires day < MonthStart(m + 1)
    ensures MonthStart(r) <= day < MonthStart(r + 1)
    decreases MonthStart(m + 1) - day
  {
    MonthStartNext(m);
    if MonthStart(m) <= day then m else MonthDown(day, m - 1)
  }

  /** The month a day lies in. */
  function MonthOf(day: int): (m: int)
    ensures MonthStart(m) <= day < MonthStart(m + 1)
  {
    if day >= 0 then MonthUp(day, 0) else MonthDown(day, -1)
  }

  lemma MonthIsUnique(day: int, m: int)
    requires MonthStart(m) <= day < MonthStart(m + 1)
    ensures MonthOf(day) == m
  {
    var k := MonthOf(day);
    if k < m { MonthStartGrows(k + 1, m); } else if m < k { MonthStartGrows(m + 1, k); }
  }

  // ---------------------------------------------------------------- adding months

  function DayOf(t: Time): int { t / DAY }

  function TimeOfDay(t: Time): int { t % DAY }

  /** The day n months after `day`, clipped to the end of its month. */
  function AddMonthsToDay(day: int, n: int): int {
    var m := MonthOf(day);
    var into := day - MonthStart(m);
    MonthStart(m + n) + if into < DaysIn(m + n) then into else DaysIn(m + n) - 1
  }

  function AddMonths(t: Time, n: int): Time {
    AddMonthsToDay(DayOf(t), n) * DAY + TimeOfDay(t)
  }

  lemma AddMonthsLandsInMonth(day: int, n: int)
    ensures MonthOf(AddMonthsToDay(day, n)) == MonthOf(day) + n
  {
    var m := MonthOf(day) + n;
    MonthStartNext(m);
    MonthIsUnique(AddMonthsToDay(day, n), m);
  }

  lemma SplitTime(t: Time, day: int, rest: int)
    requires t == day * DAY + rest && 0 <= rest < DAY
    ensures DayOf(t) == day && TimeOfDay(t) == rest
  {
  }

  lemma AddMonthsSplit(t: Time, n: int)
    ensures DayOf(AddMonths(t, n)) == AddMonthsToDay(DayOf(t), n)
    ensures TimeOfDay(AddMonths(t, n)) == TimeOfDay(t)
  {
    SplitTime(AddMonths(t, n), AddMonthsToDay(DayOf(t), n), TimeOfDay(t));
  }

  // ---------------------------------------------------------------- what adding months means

  /** Position of a day in its month, counted from 0. */
  function DayOfMonth(day: int): int { day - MonthStart(MonthOf(day)) }

  /** Month m has a day at this position. */
  predicate HasDay(m: int, position: int) { MonthStart(m) + position < MonthStart(m + 1) }

  /**
   * `u` is `t` n months later: the month n later, the same time of day, and the same day of the
   * month if that month has it, otherwise its last day.
   */
  predicate MonthsLater(t: Time, u: Time, n: int) {
    && MonthOf(DayOf(u)) == MonthOf(DayOf(t)) + n && TimeOfDay(u) == TimeOfDay(t)
    && if HasDay(MonthOf(DayOf(t)) + n, DayOfMonth(DayOf(t))) then DayOfMonth(DayOf(u)) == DayOfMonth(DayOf(t))
       else DayOf(u) + 1 == MonthStart(MonthOf(DayOf(u)) + 1)
  }

  /** A day of the month is kept exactly when the target month has it; otherwise its last day is taken. */
  lemma AddMonthsKeepsDay(day: int, n: int)
    ensures var r := AddMonthsToDay(day, n);
            && MonthOf(r) == MonthOf(day) + n
            && (if HasDay(MonthOf(day) + n, DayOfMonth(day)) then DayOfMonth(r) == DayOfMonth(day)
                else r + 1 == MonthStart(MonthOf(r) + 1))
  {
    AddMonthsLandsInMonth(day, n);
    MonthStartNext(MonthOf(day) + n);
  }

  /** Adding months is exactly that, and nothing else satisfies it. */
  lemma AddMonthsIff(t: Time, u: Time, n: int)
    ensures u == AddMonths(t, n) <==> MonthsLater(t, u, n)
  {
    AddMonthsSplit(t, n);
    AddMonthsKeepsDay(DayOf(t), n);
    if MonthsLater(t, u, n) {
      assert DayOf(u) == AddMonthsToDay(DayOf(t), n);
      TimeJoins(u, AddMonths(t, n));
    }
  }

  lemma TimeJoins(t: Time, u: Time)
    requires DayOf(t) == DayOf(u) && TimeOfDay(t) == TimeOfDay(u)
    ensures t == u
  {
  }

  /** Adding n months and taking them off again returns the same moment when nothing was clipped. */
  lemma AddMonthsRoundTrip(t: Time, n: int)
    requires HasDay(MonthOf(DayOf(t)) + n, DayOfMonth(DayOf(t)))
    ensures AddMonths(AddMonths(t, n), -n) == t
  {
    var u := AddMonths(t, n);
    AddMonthsIff(t, u, n);
    assert MonthsLater(u, t, -n);
    AddMonthsIff(u, t, -n);
  }

  lemma OrderSplit(t: Time, u: Time)
    ensures t < u <==> DayOf(t) < DayOf(u) || (DayOf(t) == DayOf(u) && TimeOfDay(t) < TimeOfDay(u))
  {
  }

  /** Adding months always moves forward in time. */
  lemma AddMonthsIncreases(t: Time, n: nat)
    requires n > 0
    ensures t < AddMonths(t, n)
  {
    var m := MonthOf(DayOf(t));
    MonthStartGrows(m + 1, m + n);
    AddMonthsSplit(t, n);
    OrderSplit(t, AddMonths(t, n));
  }

  /** At the granularity of days, adding months keeps the order. */
  lemma AddMonthsToDayMonotone(a: int, b: int, n: int)
    requires a <= b
    ensures AddMonthsToDay(a, n) <= AddMonthsToDay(b, n)
  {
    var i, j := MonthOf(a), MonthOf(b);
    if j < i { MonthStartGrows(j + 1, i); }
    if i < j {
      MonthStartNext(i + n);
      MonthStartGrows(i + n + 1, j + n);
    }
  }

  /** Two days of one month that are both past the end of the month they are moved to. */
  predicate ClippedTogether(a: int, b: int, n: int) {
    && MonthOf(a) == MonthOf(b)
    && a - MonthStart(MonthOf(a)) >= DaysIn(MonthOf(a) + n) - 1
    && b - MonthStart(MonthOf(b)) >= DaysIn(MonthOf(b) + n) - 1
  }

  lemma ClippedTogetherIff(a: int, b: int, n: int)
    requires a < b
    ensures AddMonthsToDay(a, n) == AddMonthsToDay(b, n) <==> ClippedTogether(a, b, n)
  {
    AddMonthsLandsInMonth(a, n);
    AddMonthsLandsInMonth(b, n);
  }

  /**
   * Exactly when timestamp order survives: it is lost precisely when both days are clipped to
   * the same last day of a month and the earlier timestamp has the later time of day.
   */
  lemma AddMonthsMonotoneIff(t: Time, u: Time, n: int)
    requires t < u
    ensures AddMonths(u, n) < AddMonths(t, n) <==>
      ClippedTogether(DayOf(t), DayOf(u), n) && TimeOfDay(u) < TimeOfDay(t)
  {
    OrderSplit(t, u);
    OrderSplit(AddMonths(u, n), AddMonths(t, n));
    AddMonthsSplit(t, n);
    AddMonthsSplit(u, n);
    if DayOf(t) < DayOf(u) {
      AddMonthsToDayMonotone(DayOf(t), DayOf(u), n);
      ClippedTogetherIff(DayOf(t), DayOf(u), n);
    }
  }

  /** 30 January 1970 23:00 and 31 January 01:00 swap order when a month is added. */
  lemma AddMonthsNotMonotone()
    ensures var t, u := 29 * DAY + 23 * 60 * MINUTE, 30 * DAY + 60 * MINUTE;
            t < u && AddMonths(u, 1) < AddMonths(t, 1)
  {
    var t, u := 29 * DAY + 23 * 60 * MINUTE, 30 * DAY + 60 * MINUTE;
    SplitTime(t, 29, 23 * 60 * MINUTE);
    SplitTime(u, 30, 60 * MINUTE);
    MonthStartNext(0);
    MonthIsUnique(29, 0);
    MonthIsUnique(30, 0);
    AddMonthsMonotoneIff(t, u, 1);
  }
}
