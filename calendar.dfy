/** The proleptic Gregorian calendar that Python's datetime and pandas' Timestamp
    use: validity of a date, the next and previous day, the day number from which
    the weekday follows, and the ISO 8601 week number (section 4.1.4 of
    ISO 8601:2004: week 1 of a year is the week, Monday to Sunday, that holds the
    year's first Thursday). */
module Calendar {

  datatype Date = Date(year: int, month: int, day: int)

  predicate IsLeapYear(y: int) {
    y % 4 == 0 && (y % 100 != 0 || y % 400 == 0)
  }

  function DaysInYear(y: int): int {
    if IsLeapYear(y) then 366 else 365
  }

  function DaysInMonth(y: int, m: int): (n: int)
    requires 1 <= m <= 12
    ensures 28 <= n <= 31
    ensures n == 29 <==> m == 2 && IsLeapYear(y)
  {
    if m == 2 then (if IsLeapYear(y) then 29 else 28)
    else if m == 4 || m == 6 || m == 9 || m == 11 then 30
    else 31
  }

  /** The fields name a real day. Years are unbounded; PyDate adds Python's range. */
  predicate ValidDate(d: Date) {
    1 <= d.month <= 12 && 1 <= d.day <= DaysInMonth(d.year, d.month)
  }

  /** A value of Python's datetime.date: years 1 (MINYEAR) to 9999 (MAXYEAR). */
  predicate PyDate(d: Date) {
    ValidDate(d) && 1 <= d.year <= 9999
  }

  /** Chronological order, which on (year, month, day) is the lexicographic one. */
  predicate DateLt(a: Date, b: Date) {
    a.year < b.year
    || (a.year == b.year && (a.month < b.month || (a.month == b.month && a.day < b.day)))
  }

  predicate DateLe(a: Date, b: Date) {
    a == b || DateLt(a, b)
  }

  lemma DateLeTotal(a: Date, b: Date)
    ensures DateLe(a, b) || DateLe(b, a)
  {
  }

  /** Days of the year before the first of month m. */
  function DaysBeforeMonth(y: int, m: int): (n: int)
    requires 1 <= m <= 12
    ensures 0 <= n && n + DaysInMonth(y, m) <= DaysInYear(y)
  {
    [0, 31, 59, 90, 120, 151, 181, 212, 243, 273, 304, 334][m - 1]
    + (if m > 2 && IsLeapYear(y) then 1 else 0)
  }

  /** The ordinal of the day within its year, 1 for January 1. */
  function DayOfYear(d: Date): (n: int)
    requires 1 <= d.month <= 12
    ensures ValidDate(d) ==> 1 <= n <= DaysInYear(d.year)
  {
    DaysBeforeMonth(d.year, d.month) + d.day
  }

  /** Days in the years before year y, counted from year 1. */
  function DaysBeforeYear(y: int): int {
    365 * (y - 1) + (y - 1) / 4 - (y - 1) / 100 + (y - 1) / 400
  }

  /** Days from 0001-01-01 to d: Python's d.toordinal() - 1. */
  function DayNumber(d: Date): int
    requires 1 <= d.month <= 12
  {
    DaysBeforeYear(d.year) + DayOfYear(d) - 1
  }

  /** The day of the week, 0 for Monday to 6 for Sunday, as Python's weekday().
      0001-01-01 was a Monday. */
  function Weekday(d: Date): (w: int)
    requires 1 <= d.month <= 12
    ensures 0 <= w < 7
  {
    DayNumber(d) % 7
  }

  function NextDay(d: Date): (n: Date)
    requires ValidDate(d)
    ensures ValidDate(n) && DateLt(d, n)
  {
    if d.day < DaysInMonth(d.year, d.month) then Date(d.year, d.month, d.day + 1)
    else if d.month < 12 then Date(d.year, d.month + 1, 1)
    else Date(d.year + 1, 1, 1)
  }

  function PrevDay(d: Date): (p: Date)
    requires ValidDate(d)
    ensures ValidDate(p) && DateLt(p, d)
  {
    if d.day > 1 then Date(d.year, d.month, d.day - 1)
    else if d.month > 1 then Date(d.year, d.month - 1, DaysInMonth(d.year, d.month - 1))
    else Date(d.year - 1, 12, 31)
  }

  /** No valid date lies strictly between a day and the next one. */
  lemma NextDayIsSuccessor(d: Date, e: Date)
    requires ValidDate(d) && ValidDate(e) && DateLt(d, e)
    ensures DateLe(NextDay(d), e)
  {
  }

  lemma NextPrevInverse(d: Date)
    requires ValidDate(d)
    ensures PrevDay(NextDay(d)) == d && NextDay(PrevDay(d)) == d
  {
  }

  lemma DaysBeforeNextMonth(y: int, m: int)
    requires 1 <= m < 12
    ensures DaysBeforeMonth(y, m + 1) == DaysBeforeMonth(y, m) + DaysInMonth(y, m)
  {
  }

  /** floor(y / k) - floor((y - 1) / k) is 1 exactly when k divides y. */
  lemma FloorStep(y: int, k: int)
    requires k == 4 || k == 100 || k == 400
    ensures y / k - (y - 1) / k == (if y % k == 0 then 1 else 0)
  {
    var q, r := (y - 1) / k, (y - 1) % k;
    DivModUnique(y - 1, k, q, r);
    if r == k - 1 {
      DivModUnique(y, k, q + 1, 0);
    } else {
      DivModUnique(y, k, q, r + 1);
    }
  }

  /** Division by a positive literal divisor: the quotient and remainder are unique. */
  lemma DivModUnique(n: int, k: int, q: int, r: int)
    requires k == 4 || k == 100 || k == 400
    requires (n == k * q + r && 0 <= r < k) || (q == n / k && r == n % k)
    ensures n == k * q + r && 0 <= r < k && q == n / k && r == n % k
  {
    if k == 4 {
      assert n == 4 * (n / 4) + n % 4;
    } else if k == 100 {
      assert n == 100 * (n / 100) + n % 100;
    } else {
      assert n == 400 * (n / 400) + n % 400;
    }
  }

  /** Adding k days moves the weekday on by k, modulo 7. */
  lemma ModSevenAdd(n: int, k: int)
    ensures (n + k) % 7 == (n % 7 + k) % 7
  {
    var q := n / 7;
    assert n == 7 * q + n % 7;
    assert n + k == 7 * q + (n % 7 + k);
  }

  lemma DaysBeforeYearStep(y: int)
    ensures DaysBeforeYear(y + 1) == DaysBeforeYear(y) + DaysInYear(y)
  {
    FloorStep(y, 4);
    FloorStep(y, 100);
    FloorStep(y, 400);
    var a, b, c := y / 4 - (y - 1) / 4, y / 100 - (y - 1) / 100, y / 400 - (y - 1) / 400;
    assert DaysBeforeYear(y + 1) - DaysBeforeYear(y) == 365 + a - b + c;
    DivisorsOfCenturies(y);
  }

  lemma DivisorsOfCenturies(y: int)
    ensures y % 400 == 0 ==> y % 100 == 0
    ensures y % 100 == 0 ==> y % 4 == 0
  {
    if y % 400 == 0 {
      var q := y / 400;
      assert y == 100 * (4 * q);
    }
    if y % 100 == 0 {
      var q := y / 100;
      assert y == 4 * (25 * q);
    }
  }

  /** The day number counts days: the next day is one more. */
  lemma NextDayNumber(d: Date)
    requires ValidDate(d)
    ensures DayNumber(NextDay(d)) == DayNumber(d) + 1
  {
    if d.day == DaysInMonth(d.year, d.month) {
      if d.month == 12 {
        DaysBeforeYearStep(d.year);
      } else {
        DaysBeforeNextMonth(d.year, d.month);
      }
    }
  }

  lemma WeekdayNext(d: Date)
    requires ValidDate(d)
    ensures Weekday(NextDay(d)) == (Weekday(d) + 1) % 7
  {
    NextDayNumber(d);
    ModSevenAdd(DayNumber(d), 1);
  }

  lemma DaysBeforeYearMonotone(y1: int, y2: int)
    requires y1 < y2
    ensures DaysBeforeYear(y1) + DaysInYear(y1) <= DaysBeforeYear(y2)
    decreases y2 - y1
  {
    DaysBeforeYearStep(y1);
    if y1 + 1 < y2 {
      DaysBeforeYearMonotone(y1 + 1, y2);
    }
  }

  /** The day number respects chronological order, so it is one-to-one on valid dates. */
  lemma DayNumberStrictlyMonotone(a: Date, b: Date)
    requires ValidDate(a) && ValidDate(b) && DateLt(a, b)
    ensures DayNumber(a) < DayNumber(b)
  {
    if a.year < b.year {
      DaysBeforeYearMonotone(a.year, b.year);
    } else if a.month < b.month {
      DaysBeforeMonthMonotone(a.year, a.month, b.month);
    }
  }

  lemma DaysBeforeMonthMonotone(y: int, m1: int, m2: int)
    requires 1 <= m1 < m2 <= 12
    ensures DaysBeforeMonth(y, m1) + DaysInMonth(y, m1) <= DaysBeforeMonth(y, m2)
    decreases m2 - m1
  {
    DaysBeforeNextMonth(y, m1);
    if m1 + 1 < m2 {
      DaysBeforeMonthMonotone(y, m1 + 1, m2);
    }
  }

  lemma DayNumberInjective(a: Date, b: Date)
    requires ValidDate(a) && ValidDate(b) && DayNumber(a) == DayNumber(b)
    ensures a == b
  {
    if DateLt(a, b) {
      DayNumberStrictlyMonotone(a, b);
    } else if DateLt(b, a) {
      DayNumberStrictlyMonotone(b, a);
    }
  }

  /** The date k days after d (before d when k is negative), as d + timedelta(days=k). */
  function Shift(d: Date, k: int): (r: Date)
    requires ValidDate(d)
    ensures ValidDate(r) && DayNumber(r) == DayNumber(d) + k
    decreases if k < 0 then -k else k
  {
    if k == 0 then d
    else if k > 0 then NextDayNumber(d); Shift(NextDay(d), k - 1)
    else
      NextPrevInverse(d);
      NextDayNumber(PrevDay(d));
      Shift(PrevDay(d), k + 1)
  }

  /** The Thursday of the Monday-to-Sunday week that holds d. */
  function IsoThursday(d: Date): (t: Date)
    requires ValidDate(d)
    ensures ValidDate(t) && Weekday(t) == 3
    ensures DayNumber(t) - DayNumber(d) == 3 - Weekday(d)
  {
    ThursdayOfWeek(DayNumber(d));
    Shift(d, 3 - Weekday(d))
  }

  /** Moving n to the fourth day of its run of seven leaves remainder 3. */
  lemma ThursdayOfWeek(n: int)
    ensures (n + (3 - n % 7)) % 7 == 3
  {
    var q := n / 7;
    assert n + (3 - n % 7) == 7 * q + 3;
  }

  /** The ISO 8601 week number of d, as pandas' dt.isocalendar().week: the week's
      Thursday decides the year the week belongs to, and week n of that year
      holds its Thursdays numbered 7n-6 to 7n. */
  function IsoWeek(d: Date): (w: int)
    requires ValidDate(d)
    ensures 1 <= w <= 53
  {
    (DayOfYear(IsoThursday(d)) - 1) / 7 + 1
  }

  /** Monday to Sunday share their ISO week: from any day but Sunday, the next
      day has the same week number. */
  lemma IsoWeekWithinWeek(d: Date)
    requires ValidDate(d) && Weekday(d) < 6
    ensures IsoWeek(NextDay(d)) == IsoWeek(d)
  {
    var e := NextDay(d);
    WeekdayNext(d);
    NextDayNumber(d);
    assert Weekday(e) == Weekday(d) + 1;
    DayNumberInjective(IsoThursday(e), IsoThursday(d));
  }

  /** January 4 is always in week 1, which is therefore the week holding the
      year's first Thursday. */
  lemma {:induction false} IsoWeekOfJanuaryFourth(y: int)
    ensures IsoWeek(Date(y, 1, 4)) == 1
  {
    var d := Date(y, 1, 4);
    var t := IsoThursday(d);
    var k := 3 - Weekday(d);
    assert -3 <= k <= 3;
    var e := Date(y, 1, 4 + k);
    assert ValidDate(e);
    assert DayNumber(e) == DayNumber(d) + k;
    DayNumberInjective(t, e);
    assert DayOfYear(t) == 4 + k;
  }

  /** 2020-01-01 was a Wednesday and 2020-12-31 a Thursday. */
  lemma WeekdaysOf2020()
    ensures Weekday(Date(2020, 1, 1)) == 2 && Weekday(Date(2020, 12, 31)) == 3
  {
    assert DayNumber(Date(2020, 1, 1)) == 737424;
    assert DayNumber(Date(2020, 12, 31)) == 737789;
  }

  /** Example: 2020-01-01 lies in week 1. */
  lemma IsoWeekFirstDayOf2020()
    ensures IsoWeek(Date(2020, 1, 1)) == 1
  {
    WeekdaysOf2020();
    assert DayNumber(Date(2020, 1, 2)) == 737425;
    DayNumberInjective(Date(2020, 1, 2), IsoThursday(Date(2020, 1, 1)));
  }

  /** Example: 2020-12-31 lies in week 53. */
  lemma IsoWeekLastDayOf2020()
    ensures IsoWeek(Date(2020, 12, 31)) == 53
  {
    WeekdaysOf2020();
    DayNumberInjective(Date(2020, 12, 31), IsoThursday(Date(2020, 12, 31)));
  }
}
