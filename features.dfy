/** Feature derivation (model_utils.py): the season of a date, with fixed season
    boundaries for Vancouver (approximately the equinoxes and solstices), and the
    bucket of a temperature in degrees Celsius. NaN temperatures are not modelled. */
module Features {
  import opened Calendar
  import opened Wrappers

  datatype Season = Winter | Spring | Summer | Autumn {
    function Label(): string {
      match this
      case Winter => "Winter"
      case Spring => "Spring"
      case Summer => "Summer"
      case Autumn => "Autumn"
    }
  }

  datatype TemperatureCategory = VeryCold | Cold | Normal | Warm | Hot {
    function Label(): string {
      match this
      case VeryCold => "Very cold"
      case Cold => "Cold"
      case Normal => "Normal"
      case Warm => "Warm"
      case Hot => "Hot"
    }

    /** Position in the order Very cold < Cold < Normal < Warm < Hot. */
    function Rank(): nat {
      match this
      case VeryCold => 0
      case Cold => 1
      case Normal => 2
      case Warm => 3
      case Hot => 4
    }
  }

  /** Python's comparison of (month, day) tuples: lexicographic. */
  predicate MonthDayLe(m1: int, d1: int, m2: int, d2: int) {
    m1 < m2 || (m1 == m2 && d1 <= d2)
  }

  /** The seasons' days, month by month. */
  predicate SpringDay(m: int, d: int) {
    (m == 3 && d >= 20) || m == 4 || m == 5 || (m == 6 && d <= 19)
  }

  predicate SummerDay(m: int, d: int) {
    (m == 6 && d >= 20) || m == 7 || m == 8 || (m == 9 && d <= 19)
  }

  predicate AutumnDay(m: int, d: int) {
    (m == 9 && d >= 20) || m == 10 || m == 11 || (m == 12 && d <= 19)
  }

  /** Winter is the union of Dec 20 - Dec 31 and Jan 1 - Mar 19. */
  predicate WinterDay(m: int, d: int) {
    (m == 12 && d >= 20) || m == 1 || m == 2 || (m == 3 && d <= 19)
  }

  /** get_season: the inclusive ranges Spring Mar 20 - Jun 19, Summer Jun 20 - Sep 19,
      Autumn Sep 20 - Dec 19, and Winter for the rest, Dec 20 across the year end to
      Mar 19. The year plays no part. */
  function GetSeason(date: Date): (s: Season)
    requires ValidDate(date)
    ensures s == Spring <==> SpringDay(date.month, date.day)
    ensures s == Summer <==> SummerDay(date.month, date.day)
    ensures s == Autumn <==> AutumnDay(date.month, date.day)
    ensures s == Winter <==> WinterDay(date.month, date.day)
  {
    var m, d := date.month, date.day;
    if MonthDayLe(3, 20, m, d) && MonthDayLe(m, d, 6, 19) then Spring
    else if MonthDayLe(6, 20, m, d) && MonthDayLe(m, d, 9, 19) then Summer
    else if MonthDayLe(9, 20, m, d) && MonthDayLe(m, d, 12, 19) then Autumn
    else Winter
  }

  /** The season depends on month and day only. */
  lemma SeasonIgnoresYear(y1: int, y2: int, m: int, d: int)
    requires ValidDate(Date(y1, m, d)) && ValidDate(Date(y2, m, d))
    ensures GetSeason(Date(y1, m, d)) == GetSeason(Date(y2, m, d))
  {
  }

  /** The boundary dates of the unit tests. */
  lemma SeasonBoundaries()
    ensures GetSeason(Date(2023, 3, 20)) == Spring && GetSeason(Date(2023, 6, 19)) == Spring
    ensures GetSeason(Date(2023, 6, 20)) == Summer && GetSeason(Date(2023, 9, 19)) == Summer
    ensures GetSeason(Date(2023, 9, 20)) == Autumn && GetSeason(Date(2023, 12, 19)) == Autumn
    ensures GetSeason(Date(2023, 12, 20)) == Winter && GetSeason(Date(2023, 3, 19)) == Winter
  {
  }

  /** get_temperature_category: t <= -3 is Very cold, then the half-open ranges
      (-3, 10) Cold, [10, 17) Normal, [17, 27) Warm, and t >= 27 Hot. */
  function GetTemperatureCategory(t: real): (c: TemperatureCategory)
    ensures c == VeryCold <==> t <= -3.0
    ensures c == Cold <==> -3.0 < t < 10.0
    ensures c == Normal <==> 10.0 <= t < 17.0
    ensures c == Warm <==> 17.0 <= t < 27.0
    ensures c == Hot <==> 27.0 <= t
  {
    if t <= -3.0 then VeryCold
    else if t < 10.0 then Cold
    else if t < 17.0 then Normal
    else if t < 27.0 then Warm
    else Hot
  }

  /** A warmer temperature never gets a colder bucket. */
  lemma TemperatureCategoryMonotone(t1: real, t2: real)
    requires t1 <= t2
    ensures GetTemperatureCategory(t1).Rank() <= GetTemperatureCategory(t2).Rank()
  {
  }

  /** The values of the unit tests. */
  lemma TemperatureCategoryExamples()
    ensures GetTemperatureCategory(-5.0) == VeryCold && GetTemperatureCategory(-3.0) == VeryCold
    ensures GetTemperatureCategory(-2.0) == Cold && GetTemperatureCategory(9.0) == Cold
    ensures GetTemperatureCategory(10.0) == Normal && GetTemperatureCategory(16.0) == Normal
    ensures GetTemperatureCategory(17.0) == Warm && GetTemperatureCategory(26.0) == Warm
    ensures GetTemperatureCategory(27.0) == Hot && GetTemperatureCategory(35.0) == Hot
  {
  }

  /** What a Python call does: return a value, or raise TypeError. */
  datatype CallOutcome<T> = Returns(value: T) | RaisesTypeError

  /** get_temperature_category as written, given a temperature that may be None:
      the first comparison `None <= -3` raises TypeError, so a missing temperature
      never yields None. */
  function GetTemperatureCategoryAsWritten(t: Option<real>): (r: CallOutcome<Option<TemperatureCategory>>)
    ensures t.None? <==> r.RaisesTypeError?
    ensures t.Some? ==> r == Returns(Some(GetTemperatureCategory(t.value)))
  {
    match t
    case None => RaisesTypeError
    case Some(v) => Returns(Some(GetTemperatureCategory(v)))
  }

  /** The unit test's expectation for None, a returned None, fails as written. */
  lemma NoneTestFailsAsWritten()
    ensures GetTemperatureCategoryAsWritten(None) != Returns(None)
  {
  }

  /** The intended behaviour: a missing temperature propagates to a missing bucket. */
  function GetTemperatureCategoryOrNone(t: Option<real>): (r: Option<TemperatureCategory>)
    ensures r.None? <==> t.None?
    ensures t.Some? ==> r == Some(GetTemperatureCategory(t.value))
  {
    match t
    case None => None
    case Some(v) => Some(GetTemperatureCategory(v))
  }
}
