/** The synthetic history (generate_data.py, generate_data): one row per day from
    2020-01-01 to 2023-12-31 with a season, weather, temperature level, the event
    flags and a box count. The values the random module would return are an
    input, one Draw per day, each within the range the code asks for. */
module Generator {
  import opened Calendar
  import opened Text
  import opened Wrappers
  import opened Features
  import opened Weather

  datatype TemperatureLevel = Low | Medium | High

  /** One generated row, the columns of the CSV file. */
  datatype DayRow = DayRow(
    date: string,
    season: Season,
    weather: WeatherCategory,
    temperature: TemperatureLevel,
    longWeekend: bool,
    promotion: bool,
    holiday: bool,
    boxesOrdered: int)

  /** What the random calls of one day return: the index random.choices or
      random.choice picks from the weather and the temperature options, the two
      random.random() rolls, and the randint results. A slot whose call is not made
      on that day is ignored. Weights and distributions are not modelled. */
  datatype Draw = Draw(
    weatherPick: int,
    temperaturePick: int,
    longWeekendRoll: real,
    promotionRoll: real,
    baseBoxes: int,
    sunnyBonus: int,
    promotionBonus: int,
    weatherPenalty: int,
    holidayBonus: int)

  const FirstDay := Date(2020, 1, 1)
  const LastDay := Date(2023, 12, 31)

  /** `range(delta.days + 1)` with delta = end_date - start_date. */
  const NumDays := DayNumber(LastDay) - DayNumber(FirstDay) + 1

  /** The i-th day of the loop: `start_date + timedelta(days=i)`. */
  function DayAt(i: nat): (d: Date)
    ensures ValidDate(d) && DayNumber(d) == DayNumber(FirstDay) + i
  {
    Shift(FirstDay, i)
  }

  /** The generator's seasons go by month alone (unlike get_season). */
  function SeasonOfMonth(m: int): (s: Season)
    ensures s == Winter <==> m == 12 || m == 1 || m == 2
    ensures s == Spring <==> m == 3 || m == 4 || m == 5
    ensures s == Summer <==> m == 6 || m == 7 || m == 8
    ensures s == Autumn <==> !(1 <= m <= 8 || m == 12)
  {
    if m in [12, 1, 2] then Winter
    else if m in [3, 4, 5] then Spring
    else if m in [6, 7, 8] then Summer
    else Autumn
  }

  /** weather_options: Snowy is offered in Winter only. */
  function WeatherOptions(s: Season): (o: seq<WeatherCategory>)
    ensures |o| == (if s == Winter then 4 else 3)
    ensures Snowy in o <==> s == Winter
    ensures Sunny in o && Cloudy in o && Rainy in o
  {
    var options := [Sunny, Cloudy, Rainy];
    if s == Winter then options + [Snowy] else options
  }

  /** The temperature levels offered: High or Medium in Summer, Low or Medium in
      Winter, any of the three otherwise. */
  function TemperatureOptions(s: Season): (o: seq<TemperatureLevel>)
    ensures s == Summer ==> forall t :: t in o <==> t == High || t == Medium
    ensures s == Winter ==> forall t :: t in o <==> t == Low || t == Medium
    ensures s == Spring || s == Autumn ==> |o| == 3 && Low in o && Medium in o && High in o
  {
    match s
    case Summer => [High, Medium]
    case Winter => [Low, Medium]
    case _ => [Low, Medium, High]
  }

  /** The four fixed holidays: New Year, Christmas, July 4th and November 26. */
  predicate IsHoliday(month: int, day: int) {
    (month, day) in {(1, 1), (12, 25), (7, 4), (11, 26)}
  }

  /** The randint ranges: randint(2, 5), randint(2, 4), randint(2, 3), randint(1, 2)
      and randint(5, 10). */
  predicate BoxDrawsInRange(dr: Draw) {
    && 2 <= dr.baseBoxes <= 5
    && 2 <= dr.sunnyBonus <= 4
    && 2 <= dr.promotionBonus <= 3
    && 1 <= dr.weatherPenalty <= 2
    && 5 <= dr.holidayBonus <= 10
  }

  /** Every draw of a day in the range its call gives, for a day of season s. */
  predicate DrawInRange(dr: Draw, s: Season) {
    && 0 <= dr.weatherPick < |WeatherOptions(s)|
    && 0 <= dr.temperaturePick < |TemperatureOptions(s)|
    && 0.0 <= dr.longWeekendRoll < 1.0
    && 0.0 <= dr.promotionRoll < 1.0
    && BoxDrawsInRange(dr)
  }

  function Max(a: int, b: int): int {
    if a >= b then a else b
  }

  /** The sunny-summer bonus is due only on a Summer day that is Sunny and High. */
  predicate SunnyBonusDue(season: Season, weather: WeatherCategory, temperature: TemperatureLevel) {
    season == Summer && weather == Sunny && temperature == High
  }

  /** The bad-weather penalty: rain, or a Low temperature outside Summer. */
  predicate PenaltyDue(season: Season, weather: WeatherCategory, temperature: TemperatureLevel) {
    weather == Rainy || (season != Summer && temperature == Low)
  }

  /** The box count the modifiers produce, as one sum clamped at 1. */
  function BoxesFor(sunnyBonusDue: bool, longWeekend: bool, promotion: bool, penaltyDue: bool,
                    holiday: bool, dr: Draw): int
  {
    Max(1, dr.baseBoxes
           + (if sunnyBonusDue then dr.sunnyBonus else 0)
           + (if longWeekend then 2 else 0)
           + (if promotion then dr.promotionBonus else 0)
           - (if penaltyDue then dr.weatherPenalty else 0)
           + (if holiday then dr.holidayBonus else 0))
  }

  /** The box count of a row with these labels and flags: between 1 and 24, at
      least 5 on a holiday, and raised by the sunny-summer bonus when that is due. */
  function ExpectedBoxes(season: Season, weather: WeatherCategory, temperature: TemperatureLevel,
                         longWeekend: bool, promotion: bool, holiday: bool, dr: Draw): (b: int)
    requires BoxDrawsInRange(dr)
    ensures 1 <= b <= 24
    ensures holiday ==> b >= 5
    ensures SunnyBonusDue(season, weather, temperature) ==> b >= dr.baseBoxes + dr.sunnyBonus
  {
    BoxesFor(SunnyBonusDue(season, weather, temperature), longWeekend, promotion,
             PenaltyDue(season, weather, temperature), holiday, dr)
  }

  /** The sunny-summer bonus draw changes nothing unless all three conditions hold. */
  lemma SunnyBonusOnlyWhenDue(season: Season, weather: WeatherCategory, temperature: TemperatureLevel,
                              longWeekend: bool, promotion: bool, holiday: bool, dr: Draw, bonus: int)
    requires BoxDrawsInRange(dr) && 2 <= bonus <= 4
    requires !SunnyBonusDue(season, weather, temperature)
    ensures ExpectedBoxes(season, weather, temperature, longWeekend, promotion, holiday, dr)
         == ExpectedBoxes(season, weather, temperature, longWeekend, promotion, holiday, dr.(sunnyBonus := bonus))
  {
  }

  /** The text `day.strftime('%Y-%m-%d')`, ten characters for a four-digit year. */
  function IsoDateString(d: Date): (s: string)
    requires PyDate(d)
    ensures 1000 <= d.year ==> |s| == 10
  {
    var s := Decimal(d.year) + "-" + Pad2(d.month) + "-" + Pad2(d.day);
    if 1000 <= d.year then DecimalFourDigits(d.year); s else s
  }

  /** Reads back the YYYY-MM-DD text. */
  function ParseIsoDate(s: string): Option<Date> {
    if |s| == 10 && AllDigits(s[..4]) && s[4] == '-' && AllDigits(s[5..7]) && s[7] == '-'
       && AllDigits(s[8..])
    then
      var d := Date(ParseDecimal(s[..4]), ParsePad2(s[5..7]), ParsePad2(s[8..]));
      if ValidDate(d) then Some(d) else None
    else None
  }

  /** A four-digit year's date text reads back as the same date. */
  lemma IsoDateRoundTrip(d: Date)
    requires PyDate(d) && 1000 <= d.year
    ensures ParseIsoDate(IsoDateString(d)) == Some(d)
  {
    DecimalFourDigits(d.year);
    DecimalRoundTrip(d.year);
    var s := IsoDateString(d);
    assert s[..4] == Decimal(d.year);
    assert s[5..7] == Pad2(d.month) && s[8..] == Pad2(d.day);
  }

  /** The rules one row obeys, given its day and its draws. */
  ghost predicate FollowsRules(row: DayRow, day: Date, dr: Draw) {
    && PyDate(day)
    && row.date == IsoDateString(day)
    && row.season == SeasonOfMonth(day.month)
    && DrawInRange(dr, row.season)
    && row.weather == WeatherOptions(row.season)[dr.weatherPick]
    && row.temperature == TemperatureOptions(row.season)[dr.temperaturePick]
    && row.longWeekend == ((Weekday(day) == 0 || Weekday(day) == 4) && dr.longWeekendRoll < 0.05)
    && row.promotion == (dr.promotionRoll < 0.15)
    && row.holiday == IsHoliday(day.month, day.day)
    && row.boxesOrdered == ExpectedBoxes(row.season, row.weather, row.temperature,
                                         row.longWeekend, row.promotion, row.holiday, dr)
  }

  /** The loop body of generate_data for one day. */
  method MakeRow(day: Date, dr: Draw) returns (row: DayRow)
    requires PyDate(day)
    requires DrawInRange(dr, SeasonOfMonth(day.month))
    ensures FollowsRules(row, day, dr)
  {
    var month := day.month;
    var weekday := Weekday(day);
    var season := DetermineSeason(month);
    var weather, temp := DetermineWeatherAndTemperature(season, dr);

    var isLongWeekend := DetermineLongWeekend(weekday, dr.longWeekendRoll);

    var isHoliday := DetermineHoliday(month, day.day);
    var isPromotion := dr.promotionRoll < 0.15;

    var sunnyBonusDue := season == Summer && weather == Sunny && temp == High;
    var penaltyDue := weather == Rainy || (season != Summer && temp == Low);
    var boxes := CountBoxes(sunnyBonusDue, isLongWeekend, isPromotion, penaltyDue, isHoliday, dr);
    assert boxes == ExpectedBoxes(season, weather, temp, isLongWeekend, isPromotion, isHoliday, dr);

    row := DayRow(IsoDateString(day), season, weather, temp, isLongWeekend, isPromotion, isHoliday, boxes);
  }

  /** What the rules imply for any row: a box count between 1 and 24 and at least 5
      on a holiday, Snowy only in Winter, a long weekend only on a Monday or a
      Friday, a ten-character date for a four-digit year, and no Low day in Summer
      and no High day in Winter. */
  lemma RowFacts(row: DayRow, day: Date, dr: Draw)
    requires FollowsRules(row, day, dr)
    ensures 1 <= row.boxesOrdered <= 24
    ensures row.holiday ==> row.boxesOrdered >= 5
    ensures row.weather == Snowy ==> row.season == Winter
    ensures row.longWeekend ==> Weekday(day) == 0 || Weekday(day) == 4
    ensures 1000 <= day.year ==> |row.date| == 10
    ensures row.season == Summer ==> row.temperature == High || row.temperature == Medium
    ensures row.season == Winter ==> row.temperature == Low || row.temperature == Medium
  {
    var o := TemperatureOptions(row.season);
    assert row.temperature == o[dr.temperaturePick] && row.temperature in o;
  }

  /** The "Long Weekend" step: a 5% chance on a Friday or a Monday. */
  method DetermineLongWeekend(weekday: int, roll: real) returns (isLongWeekend: bool)
    ensures isLongWeekend <==> (weekday == 0 || weekday == 4) && roll < 0.05
  {
    isLongWeekend := false;
    if weekday == 4 || weekday == 0 {
      if roll < 0.05 {
        isLongWeekend := true;
      }
    }
  }

  /** The "Determine Season" step of the loop body. */
  method DetermineSeason(month: int) returns (season: Season)
    ensures season == SeasonOfMonth(month)
  {
    if month in [12, 1, 2] {
      season := Winter;
    } else if month in [3, 4, 5] {
      season := Spring;
    } else if month in [6, 7, 8] {
      season := Summer;
    } else {
      season := Autumn;
    }
  }

  /** The "Determine Weather and Temp" step: the drawn entries of the season's
      option lists. */
  method DetermineWeatherAndTemperature(season: Season, dr: Draw)
    returns (weather: WeatherCategory, temp: TemperatureLevel)
    requires DrawInRange(dr, season)
    ensures weather == WeatherOptions(season)[dr.weatherPick]
    ensures temp == TemperatureOptions(season)[dr.temperaturePick]
  {
    var weatherOptions := [Sunny, Cloudy, Rainy];
    if season == Winter {
      weatherOptions := weatherOptions + [Snowy];
    }
    if season == Summer {
      weather := weatherOptions[dr.weatherPick];
      temp := [High, Medium][dr.temperaturePick];
    } else if season == Winter {
      weather := weatherOptions[dr.weatherPick];
      temp := [Low, Medium][dr.temperaturePick];
    } else {
      weather := weatherOptions[dr.weatherPick];
      temp := [Low, Medium, High][dr.temperaturePick];
    }
  }

  /** The "Holiday" step: four independent tests of the fixed dates. */
  method DetermineHoliday(month: int, day: int) returns (isHoliday: bool)
    ensures isHoliday == IsHoliday(month, day)
  {
    isHoliday := false;
    if month == 1 && day == 1 { isHoliday := true; }
    if month == 12 && day == 25 { isHoliday := true; }
    if month == 7 && day == 4 { isHoliday := true; }
    if month == 11 && day == 26 { isHoliday := true; }
  }

  /** The "Calculate Boxes" and "Modifiers" steps of the loop body, given the
      truth of the two weather conditions. */
  method CountBoxes(sunnyBonusDue: bool, isLongWeekend: bool, isPromotion: bool, penaltyDue: bool,
                    isHoliday: bool, dr: Draw)
    returns (boxes: int)
    ensures boxes == BoxesFor(sunnyBonusDue, isLongWeekend, isPromotion, penaltyDue, isHoliday, dr)
  {
    boxes := dr.baseBoxes;
    if sunnyBonusDue {
      boxes := boxes + dr.sunnyBonus;
    }
    if isLongWeekend {
      boxes := boxes + 2;
    }
    if isPromotion {
      boxes := boxes + dr.promotionBonus;
    }
    if penaltyDue {
      boxes := boxes - dr.weatherPenalty;
    }
    if isHoliday {
      boxes := boxes + dr.holidayBonus;
    }
    boxes := Max(1, boxes);
  }

  /** One iteration of the loop: `day = start_date + timedelta(days=i)` and its row. */
  method MakeDayRow(i: nat, dr: Draw) returns (row: DayRow)
    requires i < NumDays
    requires DrawInRange(dr, SeasonOfMonth(DayAt(i).month))
    ensures FollowsRules(row, DayAt(i), dr) && RowBounds(row)
  {
    var day := Shift(FirstDay, i);
    DayAtInRange(i);
    row := MakeRow(day, dr);
    RowFacts(row, day, dr);
  }

  /** generate_data without the file and the console: one row per day of
      2020-2023, the i-th row following the rules for day i and draw i. */
  method GenerateData(draws: seq<Draw>) returns (rows: seq<DayRow>)
    requires |draws| == NumDays
    requires forall i :: 0 <= i < |draws| ==> DrawInRange(draws[i], SeasonOfMonth(DayAt(i).month))
    ensures |rows| == NumDays && Generated(rows, draws)
  {
    var data := [];
    for i := 0 to NumDays
      invariant |data| == i
      invariant Generated(data, draws)
    {
      var row := MakeDayRow(i, draws[i]);
      GeneratedAppend(data, row, draws);
      data := data + [row];
    }
    rows := data;
  }

  /** The rows made so far: row k follows the rules for day k and draw k. */
  ghost predicate Generated(rows: seq<DayRow>, draws: seq<Draw>) {
    && |rows| <= |draws|
    && forall k :: 0 <= k < |rows| ==> FollowsRules(rows[k], DayAt(k), draws[k]) && RowBounds(rows[k])
  }

  /** What the rows made so far say row by row. */
  lemma GeneratedRows(rows: seq<DayRow>, draws: seq<Draw>)
    requires Generated(rows, draws)
    ensures forall i :: 0 <= i < |rows| ==> FollowsRules(rows[i], DayAt(i), draws[i])
    ensures forall i :: 0 <= i < |rows| ==> 1 <= rows[i].boxesOrdered <= 24
    ensures forall i :: 0 <= i < |rows| && rows[i].weather == Snowy ==> rows[i].season == Winter
    ensures forall i :: 0 <= i < |rows| ==> |rows[i].date| == 10
  {
  }

  /** One more row made by the rules extends the rows made so far. */
  lemma GeneratedAppend(rows: seq<DayRow>, row: DayRow, draws: seq<Draw>)
    requires Generated(rows, draws) && |rows| < |draws|
    requires FollowsRules(row, DayAt(|rows|), draws[|rows|]) && RowBounds(row)
    ensures Generated(rows + [row], draws)
  {
    var all := rows + [row];
    forall k | 0 <= k < |all|
      ensures FollowsRules(all[k], DayAt(k), draws[k]) && RowBounds(all[k])
    {
      if k < |rows| {
        assert all[k] == rows[k];
      }
    }
  }

  /** The facts about a row that hold whatever the draws. */
  predicate RowBounds(row: DayRow) {
    && 1 <= row.boxesOrdered <= 24
    && (row.weather == Snowy ==> row.season == Winter)
    && |row.date| == 10
  }

  /** The loop runs over 1461 days, 2020-01-01 first and 2023-12-31 last. */
  lemma DayRange()
    ensures NumDays == 1461
    ensures DayAt(0) == FirstDay && DayAt(NumDays - 1) == LastDay
  {
    assert DayNumber(FirstDay) == 737424;
    assert DayNumber(LastDay) == 738884;
    DayNumberInjective(DayAt(NumDays - 1), LastDay);
  }

  /** Each loop day is the calendar day after the previous one. */
  lemma ConsecutiveDays(i: nat)
    ensures DayAt(i + 1) == NextDay(DayAt(i)) && DateLt(DayAt(i), DayAt(i + 1))
  {
    NextDayNumber(DayAt(i));
    DayNumberInjective(DayAt(i + 1), NextDay(DayAt(i)));
  }

  /** Every loop day lies between the first and the last day. */
  lemma DayAtInRange(i: nat)
    requires i < NumDays
    ensures PyDate(DayAt(i)) && 2020 <= DayAt(i).year <= 2023
    ensures DateLe(FirstDay, DayAt(i)) && DateLe(DayAt(i), LastDay)
  {
    var d := DayAt(i);
    if DateLt(d, FirstDay) {
      DayNumberStrictlyMonotone(d, FirstDay);
    }
    if DateLt(LastDay, d) {
      DayNumberStrictlyMonotone(LastDay, d);
    }
  }

  /** Every day between the first and the last is a loop day: no day is skipped. */
  lemma EveryDayCovered(d: Date)
    requires ValidDate(d) && DateLe(FirstDay, d) && DateLe(d, LastDay)
    ensures exists i :: 0 <= i < NumDays && DayAt(i) == d
  {
    if DateLt(FirstDay, d) {
      DayNumberStrictlyMonotone(FirstDay, d);
    }
    if DateLt(d, LastDay) {
      DayNumberStrictlyMonotone(d, LastDay);
    }
    var i := DayNumber(d) - DayNumber(FirstDay);
    DayNumberInjective(DayAt(i), d);
  }
}
