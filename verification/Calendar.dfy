/** Civil dates of the proleptic Gregorian calendar, and the day and week windows built from them. */
module Calendar {
  datatype Date = Date(year: int, month: int, day: int)

  predicate Leap(y: int) {
    y % 4 == 0 && (y % 100 != 0 || y % 400 == 0)
  }

  function DaysIn(y: int, m: int): (n: int)
    ensures 28 <= n <= 31
  {
    if m == 2 then if Leap(y) then 29 else 28
    else if m == 4 || m == 6 || m == 9 || m == 11 then 30
    else 31
  }

  predicate Valid(d: Date) {
    1 <= d.month <= 12 && 1 <= d.day <= DaysIn(d.year, d.month)
  }

  function NextDay(d: Date): (n: Date)
    requires Valid(d)
    ensures Valid(n)
  {
    if d.day < DaysIn(d.year, d.month) then Date(d.year, d.month, d.day + 1)
    else if d.month < 12 then Date(d.year, d.month + 1, 1)
    else Date(d.year + 1, 1, 1)
  }

  function PreviousDay(d: Date): (p: Date)
    requires Valid(d)
    ensures Valid(p)
  {
    if d.day > 1 then Date(d.year, d.month, d.day - 1)
    else if d.month > 1 then Date(d.year, d.month - 1, DaysIn(d.year, d.month - 1))
    else Date(d.year - 1, 12, 31)
  }

  /** The date `n` days later, or earlier when `n` is negative. */
  function AddDays(d: Date, n: int): (r: Date)
    requires Valid(d)
    ensures Valid(r)
    decreases if n < 0 then -n else n
  {
    if n == 0 then d else if n > 0 then AddDays(NextDay(d), n - 1) else AddDays(PreviousDay(d), n + 1)
  }

  // ---------------------------------------------------------------------------
  // Day numbers
  // ---------------------------------------------------------------------------

  function DaysInYear(y: int): int {
    if Leap(y) then 366 else 365
  }

  /** Counted year by year from year 1, in either direction. */
  function DaysBeforeYear(y: int): int
    decreases if y < 1 then 1 - y else y - 1
  {
    if y == 1 then 0
    else if y > 1 then DaysBeforeYear(y - 1) + DaysInYear(y - 1)
    else DaysBeforeYear(y + 1) - DaysInYear(y)
  }

  function DaysBeforeMonth(y: int, m: int): int
    requires 1 <= m <= 12
  {
    [0, 31, 59, 90, 120, 151, 181, 212, 243, 273, 304, 334][m - 1] + if m > 2 && Leap(y) then 1 else 0
  }

  /** Days since Monday, 1 January of year 1. */
  function Number(d: Date): int
    requires Valid(d)
  {
    DaysBeforeYear(d.year) + DaysBeforeMonth(d.year, d.month) + d.day - 1
  }

  lemma YearLength(y: int)
    ensures DaysBeforeYear(y + 1) == DaysBeforeYear(y) + DaysInYear(y)
  {
  }

  /** How often the multiples of `k` have been passed. */
  lemma Quotient(y: int, k: int)
    requires k == 4 || k == 100 || k == 400
    ensures y / k == (y - 1) / k + if y % k == 0 then 1 else 0
  {
  }

  lemma FourHundreds(y: int)
    requires y % 400 == 0
    ensures y % 100 == 0
  {
  }

  lemma Hundreds(y: int)
    requires y % 100 == 0
    ensures y % 4 == 0
  {
  }

  function ClosedForm(y: int): int {
    365 * (y - 1) + (y - 1) / 4 - (y - 1) / 100 + (y - 1) / 400
  }

  lemma ClosedFormStep(y: int)
    ensures ClosedForm(y + 1) == ClosedForm(y) + DaysInYear(y)
  {
    Quotient(y, 4);
    Quotient(y, 100);
    Quotient(y, 400);
    if y % 400 == 0 {
      FourHundreds(y);
    }
    if y % 100 == 0 {
      Hundreds(y);
    }
  }

  /** The count agrees with the usual formula. */
  lemma {:induction false} DaysBeforeYearClosedForm(y: int)
    ensures DaysBeforeYear(y) == ClosedForm(y)
    decreases if y < 1 then 1 - y else y - 1
  {
    if y > 1 {
      DaysBeforeYearClosedForm(y - 1);
      ClosedFormStep(y - 1);
    } else if y < 1 {
      DaysBeforeYearClosedForm(y + 1);
      ClosedFormStep(y);
    }
  }

  lemma MonthsClosedForm(y: int, m: int)
    requires 1 <= m <= 12
    ensures DaysBeforeMonth(y, m) == if m <= 2 then 31 * (m - 1) else 59 + (if Leap(y) then 1 else 0) + (153 * (m - 3) + 2) / 5
  {
  }

  /** The number of a day by the usual formula: leap years every fourth, except the hundreds, except the four hundreds,
      and months of 153 days to five from March on. */
  lemma NumberClosedForm(d: Date)
    requires Valid(d)
    ensures var y, m, leap := d.year, d.month, if d.year % 4 == 0 && (d.year % 100 != 0 || d.year % 400 == 0) then 1 else 0;
            Number(d) == 365 * (y - 1) + (y - 1) / 4 - (y - 1) / 100 + (y - 1) / 400 +
                         (if m <= 2 then 31 * (m - 1) else 59 + leap + (153 * (m - 3) + 2) / 5) + d.day - 1
  {
    DaysBeforeYearClosedForm(d.year);
    MonthsClosedForm(d.year, d.month);
  }

  lemma MonthLength(y: int, m: int)
    requires 1 <= m <= 12
    ensures DaysBeforeMonth(y, m) + DaysIn(y, m) == if m < 12 then DaysBeforeMonth(y, m + 1) else DaysInYear(y)
  {
  }

  /** Numbers count days one by one, across months, years and leap days. */
  lemma NextDayCounts(d: Date)
    requires Valid(d)
    ensures Number(NextDay(d)) == Number(d) + 1
  {
    MonthLength(d.year, d.month);
    YearLength(d.year);
  }

  lemma PreviousDayUndone(d: Date)
    requires Valid(d)
    ensures NextDay(PreviousDay(d)) == d
  {
  }

  lemma {:induction false} AddDaysCounts(d: Date, n: int)
    requires Valid(d)
    ensures Number(AddDays(d, n)) == Number(d) + n
    decreases if n < 0 then -n else n
  {
    if n > 0 {
      NextDayCounts(d);
      AddDaysCounts(NextDay(d), n - 1);
    } else if n < 0 {
      PreviousDayUndone(d);
      NextDayCounts(PreviousDay(d));
      AddDaysCounts(PreviousDay(d), n + 1);
    }
  }

  predicate Earlier(a: Date, b: Date) {
    a.year < b.year || (a.year == b.year && (a.month < b.month || (a.month == b.month && a.day < b.day)))
  }

  lemma {:induction false} YearsAscend(y: int, z: int)
    requires y < z
    ensures DaysBeforeYear(y) + DaysInYear(y) <= DaysBeforeYear(z)
    decreases z - y
  {
    YearLength(y);
    if y + 1 < z {
      YearsAscend(y + 1, z);
    }
  }

  lemma {:induction false} MonthsAscend(y: int, m: int, n: int)
    requires 1 <= m < n <= 12
    ensures DaysBeforeMonth(y, m) + DaysIn(y, m) <= DaysBeforeMonth(y, n)
    decreases n - m
  {
  }

  /** Numbers order dates as calendars do; so no two dates share one. */
  lemma NumberOrdersDates(a: Date, b: Date)
    requires Valid(a) && Valid(b)
    ensures Number(a) < Number(b) <==> Earlier(a, b)
    ensures Number(a) == Number(b) <==> a == b
  {
    NumberAscends(a, b);
    NumberAscends(b, a);
  }

  lemma NumberAscends(a: Date, b: Date)
    requires Valid(a) && Valid(b)
    ensures Earlier(a, b) ==> Number(a) < Number(b)
  {
    if a.year < b.year {
      YearsAscend(a.year, b.year);
      YearEnd(a);
    } else if a.year == b.year && a.month < b.month {
      MonthsAscend(a.year, a.month, b.month);
    }
  }

  lemma YearEnd(d: Date)
    requires Valid(d)
    ensures 0 <= Number(d) - DaysBeforeYear(d.year) < DaysInYear(d.year)
  {
  }

  /** Days add up. */
  lemma AddDaysTwice(d: Date, m: int, n: int)
    requires Valid(d)
    ensures AddDays(AddDays(d, m), n) == AddDays(d, m + n)
  {
    AddDaysCounts(d, m);
    AddDaysCounts(AddDays(d, m), n);
    AddDaysCounts(d, m + n);
    NumberOrdersDates(AddDays(AddDays(d, m), n), AddDays(d, m + n));
  }

  // ---------------------------------------------------------------------------
  // Windows
  // ---------------------------------------------------------------------------

  /** Sunday is 0. */
  function Weekday(d: Date): (w: int)
    requires Valid(d)
    ensures 0 <= w < 7
  {
    (Number(d) + 1) % 7
  }

  /** From midnight of `start` up to, and not including, midnight of `end`. */
  datatype Window = Window(start: Date, end: Date)

  predicate Covers(w: Window, d: Date)
    requires Valid(w.start) && Valid(w.end) && Valid(d)
  {
    !Earlier(d, w.start) && Earlier(d, w.end)
  }

  function DayWindow(d: Date): (w: Window)
    requires Valid(d)
    ensures Valid(w.start) && Valid(w.end)
  {
    Window(d, AddDays(d, 1))
  }

  function WeekWindow(today: Date, weekOffset: int): (w: Window)
    requires Valid(today)
    ensures Valid(w.start) && Valid(w.end)
  {
    var weekday := if Weekday(today) == 0 then 7 else Weekday(today);
    var daysSinceMonday := weekday - 1;
    var monday := AddDays(today, -daysSinceMonday + weekOffset * 7);
    Window(monday, AddDays(monday, 7))
  }

  lemma WeekArithmetic(n: int, weekOffset: int)
    ensures (if (n + 1) % 7 == 0 then 7 else (n + 1) % 7) - 1 == n % 7
    ensures n - n % 7 + weekOffset * 7 == (n / 7 + weekOffset) * 7
  {
  }

  /** The window's week, counted from the first Monday there is. */
  lemma WeekWindowNumbers(today: Date, weekOffset: int)
    requires Valid(today)
    ensures var w := WeekWindow(today, weekOffset);
            && Number(w.start) == (Number(today) / 7 + weekOffset) * 7
            && Number(w.end) == Number(w.start) + 7
  {
    var n := Number(today);
    WeekArithmetic(n, weekOffset);
    AddDaysCounts(today, -(n % 7) + weekOffset * 7);
    AddDaysCounts(WeekWindow(today, weekOffset).start, 7);
  }

  lemma CoversNumbers(w: Window, d: Date)
    requires Valid(w.start) && Valid(w.end) && Valid(d)
    ensures Covers(w, d) <==> Number(w.start) <= Number(d) < Number(w.end)
  {
    NumberOrdersDates(d, w.start);
    NumberOrdersDates(d, w.end);
  }

  /** This week starts on a Monday, contains today and spans seven days. */
  lemma ThisWeek(today: Date)
    requires Valid(today)
    ensures var w := WeekWindow(today, 0);
            && Weekday(w.start) == 1 && Weekday(w.end) == 1
            && Covers(w, today)
            && w.end == AddDays(w.start, 7)
  {
    var w := WeekWindow(today, 0);
    WeekWindowNumbers(today, 0);
    CoversNumbers(w, today);
  }

  lemma MondayNumber(d: Date, weeks: int)
    requires Valid(d) && Number(d) == weeks * 7
    ensures Weekday(d) == 1
  {
  }

  lemma NextWeekCovers(today: Date, later: Date)
    requires Valid(today) && Valid(later) && Number(later) == Number(today) + 7
    ensures Covers(WeekWindow(today, 1), later)
  {
    WeekWindowNumbers(today, 1);
    CoversNumbers(WeekWindow(today, 1), later);
  }

  lemma WeeksStartOnMonday(today: Date, weekOffset: int)
    requires Valid(today)
    ensures Weekday(WeekWindow(today, weekOffset).start) == 1
  {
    WeekWindowNumbers(today, weekOffset);
    MondayNumber(WeekWindow(today, weekOffset).start, Number(today) / 7 + weekOffset);
  }

  /** The next week starts on a Monday, spans seven days and contains the day a week from today. */
  lemma NextWeek(today: Date, week: int)
    requires Valid(today) && week == 7
    ensures var w := WeekWindow(today, 1);
            Weekday(w.start) == 1 && w.end == AddDays(w.start, 7) && Covers(w, AddDays(today, week))
  {
    WeeksStartOnMonday(today, 1);
    AddDaysCounts(today, week);
    NextWeekCovers(today, AddDays(today, week));
  }

  /** Every week starts where the one before ends. */
  lemma WeeksAdjoin(today: Date, weekOffset: int)
    requires Valid(today)
    ensures WeekWindow(today, weekOffset + 1).start == WeekWindow(today, weekOffset).end
  {
    WeekWindowNumbers(today, weekOffset);
    WeekWindowNumbers(today, weekOffset + 1);
    NumberOrdersDates(WeekWindow(today, weekOffset + 1).start, WeekWindow(today, weekOffset).end);
  }

  lemma WeekBounds(q: int, n: int)
    ensures q * 7 <= n < q * 7 + 7 <==> n / 7 == q
  {
  }

  lemma InWeekOf(a: Date, d: Date)
    requires Valid(a) && Valid(d)
    ensures Covers(WeekWindow(a, 0), d) <==> Number(d) / 7 == Number(a) / 7
  {
    WeekWindowNumbers(a, 0);
    CoversNumbers(WeekWindow(a, 0), d);
    WeekBounds(Number(a) / 7, Number(d));
  }

  lemma SameWeekSameWindow(a: Date, b: Date)
    requires Valid(a) && Valid(b)
    requires Number(a) / 7 == Number(b) / 7
    ensures WeekWindow(a, 0) == WeekWindow(b, 0)
  {
    WeekWindowNumbers(a, 0);
    WeekWindowNumbers(b, 0);
    NumberOrdersDates(WeekWindow(a, 0).start, WeekWindow(b, 0).start);
    NumberOrdersDates(WeekWindow(a, 0).end, WeekWindow(b, 0).end);
  }

  /** The weeks of two days are the same or have no day in common. */
  lemma WeeksEqualOrDisjoint(a: Date, b: Date, d: Date)
    requires Valid(a) && Valid(b) && Valid(d)
    requires Covers(WeekWindow(a, 0), d) && Covers(WeekWindow(b, 0), d)
    ensures WeekWindow(a, 0) == WeekWindow(b, 0)
  {
    InWeekOf(a, d);
    InWeekOf(b, d);
    SameWeekSameWindow(a, b);
  }

  /** A day is in the week of another exactly when the two have the same week. */
  lemma SameWeekIff(a: Date, b: Date)
    requires Valid(a) && Valid(b)
    ensures Covers(WeekWindow(a, 0), b) <==> WeekWindow(a, 0) == WeekWindow(b, 0)
  {
    ThisWeek(b);
    if Covers(WeekWindow(a, 0), b) {
      WeeksEqualOrDisjoint(a, b, b);
    }
  }

  /** Day windows tile: a day is covered by its own window and no other, and the next one starts at its end. */
  lemma DaysTile(d: Date, e: Date)
    requires Valid(d) && Valid(e)
    ensures Covers(DayWindow(d), e) <==> e == d
    ensures DayWindow(NextDay(d)).start == DayWindow(d).end
  {
  }
}
