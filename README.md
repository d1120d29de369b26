# Tomato sales: the sequential core, in Dafny

This project models the rule-based part of a small restaurant-forecasting app. The app
predicts how many boxes of tomatoes to order. Five pieces of plain logic sit behind its
user interface and its machine-learning code:

- **Feature derivation** (`model_utils.py`). `get_season` gives the season of a date
  using fixed season boundaries for Vancouver (approximately the equinoxes and
  solstices). `get_temperature_category` buckets a
  temperature in degrees Celsius into five bands. Module `Features`.
- **Weather codes** (`weather_service.py`, `get_weather_category`). A WMO present-weather
  code becomes Sunny, Cloudy, Snowy or Rainy. The codes come from code table 4677 of
  the WMO Manual on Codes (WMO-No. 306), as Open-Meteo reports them. Module `Weather`.
- **Week filter** (`data_filter.py`, `filter_by_week`). It keeps the rows whose ISO 8601
  week number is the requested one and sorts them by date. When no row matches, it
  falls back to the table's last four rows. Module `WeekFilter`.
- **Date display** (`data_formatter.py`, `format_dates_for_display`). It returns a copy
  of the table with each date written as `strftime('%B %d, %Y')` does in the C locale,
  for example "July 04, 2021". Module `DisplayFormat`.
- **Synthetic history** (`generate_data.py`, `generate_data`). It emits one row per day
  from 2020-01-01 to 2023-12-31. Each row holds a season, weather, a temperature level,
  long-weekend, promotion and holiday flags, and a box count. Module `Generator`.

Four supporting modules have no counterpart in the repository:

- `Calendar` models the parts of Python's `datetime` that this code relies on: the
  proleptic Gregorian calendar, day arithmetic (`timedelta`), `weekday()` and the
  ISO 8601 week number.
- `Table` holds the row type with a Date column that the filter and the formatter share.
- `Text` holds decimal digit strings and their parsing.
- `Wrappers` holds `Option`.

The first four pieces are pure and are modelled as functions. `generate_data` is
imperative, so it is modelled as methods:

- `Generator.GenerateData` is a `for` loop that appends one row per day.
- `Generator.MakeRow` is the loop body, split into the steps the source's comments name.
- `Generator.CountBoxes` updates the box count step by step with `+=`, `-=` and `max`.

The random module is replaced by an input. Each day has one `Draw` record that holds
what `random.choices`, `random.choice`, `random.random` and `random.randint` would
return, each value within the range the call can produce. Given the draws, each row is
determined. `Generator.FollowsRules` states the rules a row obeys, and the lemmas
derive the bounds those rules imply.

ISO week numbers are computed, not given as a parameter, with these steps:

1. The day number counts days from 0001-01-01, which was a Monday. The weekday is that
   number modulo 7.
2. The Thursday of the date's Monday-to-Sunday week decides the week.
3. The week number is `(day-of-year(Thursday) - 1) / 7 + 1`.

This matches section 4.1.4 of ISO 8601:2004: week 1 is the week that holds the year's
first Thursday. `Calendar.IsoWeekOfJanuaryFourth` proves that week 1 is the week of
January 4.

## Model

| member | source | states |
|---|---|---|
| Features.GetSeason | model_utils.py:10-19 | Spring exactly on Mar 20 to Jun 19 inclusive, Summer exactly on Jun 20 to Sep 19, Autumn exactly on Sep 20 to Dec 19, Winter exactly on Dec 20 to Dec 31 and Jan 1 to Mar 19 (both directions of each) |
| Features.SeasonIgnoresYear | model_utils.py:10 | two dates with the same month and day get the same season, whatever their years |
| Features.SeasonBoundaries | test_model_utils.py:22-37 | the eight boundary dates of the unit test get the seasons the test expects |
| Features.GetTemperatureCategory | model_utils.py:30-39 | Very cold iff t <= -3, Cold iff -3 < t < 10, Normal iff 10 <= t < 17, Warm iff 17 <= t < 27, Hot iff t >= 27 |
| Features.TemperatureCategoryMonotone | model_utils.py:30-39 | a warmer temperature never gets a colder bucket in the order Very cold < Cold < Normal < Warm < Hot |
| Features.TemperatureCategoryExamples | test_model_utils.py:10-20 | the ten values of the unit test get the buckets the test expects |
| Features.GetTemperatureCategoryAsWritten | model_utils.py:30 | given None the call raises TypeError (the first comparison `None <= -3`), and given a number it returns that number's bucket |
| Features.NoneTestFailsAsWritten | test_model_utils.py:7-8 | as written, the call with None does not return None, so the unit test's expectation fails |
| Features.GetTemperatureCategoryOrNone | test_model_utils.py:7-8 | the intended behaviour: the result is None exactly when the input is None, and otherwise the bucket of the number |
| Weather.GetWeatherCategory | weather_service.py:16-24 | Sunny iff the code is 0, Cloudy iff it is in {1, 2, 3, 45, 48}, Snowy iff it is in {71, 73, 75, 77, 85, 86}, Rainy iff it is none of these |
| Weather.CodeGroupsDisjoint | weather_service.py:16-21 | the three named code groups do not overlap, so the order of the tests does not matter |
| Weather.PrecipitationCodesAreRainy | weather_service.py:22-24 | drizzle (51-57), rain (61-67), rain showers (80-82) and thunderstorm (95-99) codes are Rainy |
| Calendar.Weekday | generate_data.py:16 | the weekday is between 0 (Monday) and 6 (Sunday) |
| Calendar.NextDay | generate_data.py:14 | the next day is a valid date and comes strictly later; with Calendar.NextDayIsSuccessor, no valid date lies strictly between a date and its next day |
| Calendar.NextDayIsSuccessor | generate_data.py:14 | every valid date later than d is on or after NextDay(d) |
| Calendar.NextDayNumber | generate_data.py:14 | the next day's day number is one more, so `timedelta(days=1)` moves one calendar day |
| Calendar.WeekdayNext | generate_data.py:16 | the weekday of the next day is the following weekday, Sunday wrapping to Monday |
| Calendar.DayNumberInjective | generate_data.py:14 | two valid dates with the same day number are the same date |
| Calendar.Shift | generate_data.py:14 | `start + timedelta(days=k)` is a valid date whose day number is k more |
| Calendar.IsoThursday | data_filter.py:20 | the Thursday of the date's Monday-to-Sunday week is a Thursday, at 3 - weekday days from the date |
| Calendar.IsoWeek | data_filter.py:20 | the ISO week number lies between 1 and 53 |
| Calendar.IsoWeekWithinWeek | data_filter.py:20 | Monday to Sunday of one week share their week number |
| Calendar.IsoWeekOfJanuaryFourth | data_filter.py:20 | January 4 of every year is in week 1 |
| Calendar.IsoWeekFirstDayOf2020 | data_filter.py:20 | 2020-01-01 is in week 1 |
| Calendar.IsoWeekLastDayOf2020 | data_filter.py:20 | 2020-12-31 is in week 53 |
| WeekFilter.InWeek | data_filter.py:20 | the mask `isocalendar().week == week_number` can hold only for a week number from 1 to 53 |
| WeekFilter.SelectWeek | data_filter.py:20 | the mask keeps each row in the week as often as it occurs and drops every other row |
| WeekFilter.InsertByDate | data_filter.py:20 | inserting a row into a date-sorted sequence keeps it sorted and adds exactly that row |
| WeekFilter.SortByDate | data_filter.py:20 | `sort_values('Date')` yields a date-sorted permutation of its input |
| WeekFilter.WeekMembers | data_filter.py:20 | a sequence with the mask's row counts holds only rows of the week, every input row of the week, and only input rows |
| WeekFilter.FilterByWeek | data_filter.py:20-26 | never longer than the input; when some row matches, a date-sorted permutation of exactly the matching rows; when none does, the last min(4, n) rows in input order |
| DisplayFormat.MonthName | data_formatter.py:16 | `%B` gives a month name of at least three letters without spaces |
| DisplayFormat.MonthNumber | data_formatter.py:16 | a recognised month name is the name of the number it returns |
| DisplayFormat.MonthNameRoundTrip | data_formatter.py:16 | reading a month name back gives its month |
| DisplayFormat.DisplayDate | data_formatter.py:16 | the text is the month name, a space, two digits that read as the day, ", " and digits that read as the year |
| DisplayFormat.DisplayDateRoundTrip | data_formatter.py:16 | parsing the displayed text gives back the original date, for every year 1 to 9999 |
| DisplayFormat.FormatDatesForDisplay | data_formatter.py:15-17 | same number of rows in the same order, every other column unchanged, each Date that row's display text, which parses back to its date |
| Text.Decimal | generate_data.py:88 | the `%Y` numeral is a non-empty string of decimal digits |
| Text.DecimalRoundTrip | generate_data.py:88 | the decimal digits of a number read back as that number |
| Text.DecimalFourDigits | generate_data.py:88 | a year from 1000 to 9999 has four digits |
| Text.Pad2 | data_formatter.py:16 | `%d` and `%m` give two digits that read back as the value |
| Generator.SeasonOfMonth | generate_data.py:19-26 | Winter iff the month is 12, 1 or 2, Spring iff 3, 4 or 5, Summer iff 6, 7 or 8, Autumn otherwise |
| Generator.DetermineSeason | generate_data.py:18-26 | the if/elif chain on `month in [...]` gives the season of the month |
| Generator.WeatherOptions | generate_data.py:29-31 | Sunny, Cloudy and Rainy are offered in every season; Snowy is offered iff the season is Winter |
| Generator.TemperatureOptions | generate_data.py:34-42 | Summer offers exactly High and Medium, Winter exactly Low and Medium, Spring and Autumn all three |
| Generator.DetermineWeatherAndTemperature | generate_data.py:28-42 | the weather and temperature are the drawn entries of the season's option lists |
| Generator.DetermineLongWeekend | generate_data.py:44-48 | a long weekend iff the day is a Friday or a Monday and the roll is below 0.05 |
| Generator.DetermineHoliday | generate_data.py:50-59 | a holiday iff (month, day) is (1, 1), (12, 25), (7, 4) or (11, 26) |
| Generator.CountBoxes | generate_data.py:64-85 | the step-by-step count equals the modifiers' sum clamped at 1 |
| Generator.ExpectedBoxes | generate_data.py:64-85 | with draws in their randint ranges the count is between 1 and 24, at least 5 on a holiday, and raised by the sunny-summer bonus when that is due |
| Generator.SunnyBonusOnlyWhenDue | generate_data.py:68-69 | unless Summer, Sunny and High all hold, the bonus draw does not change the count |
| Generator.IsoDateString | generate_data.py:88 | `day.strftime('%Y-%m-%d')`: for a four-digit year the text has ten characters |
| Generator.IsoDateRoundTrip | generate_data.py:88 | a four-digit year's `%Y-%m-%d` text reads back as the same date |
| Generator.MakeRow | generate_data.py:14-96 | the row has the day's date text, its season by month, the drawn weather and temperature, the flags by their rules, and the rule-made box count |
| Generator.RowFacts | generate_data.py:29-85 | any rule-made row has 1 to 24 boxes, at least 5 on a holiday, Snowy only in Winter, no Low day in Summer, no High day in Winter, a long weekend only on a Monday or a Friday, and a ten-character date for a four-digit year |
| Generator.MakeDayRow | generate_data.py:14 | the loop's i-th row follows the rules for `start_date + timedelta(days=i)` and has the row bounds |
| Generator.GenerateData | generate_data.py:7-96 | 1461 rows, row i following the rules for day i and draw i |
| Generator.GeneratedRows | generate_data.py:11-96 | row by row, every generated row follows its rules, has 1 to 24 boxes, is Snowy only in Winter and has a ten-character date |
| Generator.GeneratedAppend | generate_data.py:87-96 | appending a rule-made row for the next day extends the rows made so far |
| Generator.DayAt | generate_data.py:14 | `start_date + timedelta(days=i)` is a valid date exactly i day numbers after 2020-01-01 |
| Generator.DayRange | generate_data.py:7-13 | NumDays, the `range(delta.days + 1)` bound, is 1461, so the loop runs from 2020-01-01 to 2023-12-31 |
| Generator.ConsecutiveDays | generate_data.py:13-14 | each loop day is the calendar day after the previous one, and strictly later |
| Generator.DayAtInRange | generate_data.py:7-14 | every loop day is a valid date from 2020 to 2023, between the first and the last day |
| Generator.EveryDayCovered | generate_data.py:7-14 | every date from 2020-01-01 to 2023-12-31 is some loop day, so no day is skipped |

## Left out

- `app.py`: the Streamlit page, widgets and messages are user-interface code. That
  includes the `weather is None` guard.
- `model_trainer.py` and `shap_explainer.py`: the random-forest model and the SHAP
  plots are third-party libraries working in floating point.
- `weather_service.fetch_weather_data`: it makes an HTTP request and parses JSON.
- `data_loader.py`: it checks a file exists, reads a CSV file and caches the result.
- The default of `filter_by_week` reads the clock when `week_number` is None. Here the
  week number is a required argument of any integer value.
- The side effects of `generate_data` are not modelled: the DataFrame, `to_csv` and
  `print`.
- The random module is not modelled. Its place is taken by the per-day `Draw` records.
- Generator.GenerateData: the weights of `random.choices` and the order in which draws
  come from one random stream are not modelled. A draw is only required to lie within
  the range of its call, and a slot whose call is not made on a day is ignored.
- WeekFilter.FilterByWeek: pandas' default sort is not stable, so the order among rows
  with the same date is not determined. The contract states only ascending dates and a
  permutation of the matching rows. The tie order of the modelled insertion sort is not
  promised.
- WeekFilter.FilterByWeek: a row whose date is not a valid calendar date never matches.
  pandas cannot hold such a date, so this changes nothing.
- DisplayFormat.DisplayDate: the year is written as plain digits without padding. This
  matches glibc's `%Y`, and pandas dates always have four-digit years. Padding for
  years below 1000 is not modelled.
- Generator.IsoDateRoundTrip: the ten-character `YYYY-MM-DD` form is proved for years
  1000 to 9999 only. The generator's years are 2020 to 2023.
- Features.GetTemperatureCategory: the temperature is a mathematical real. A NaN
  temperature is not modelled; the code's comparisons all fail on NaN and send it to
  'Hot'. The app's temperatures come from JSON, where a missing value is null (None),
  not NaN.
- `format_data_for_display`, `apply_year_highlight` and `TEMPERATURE_CATEGORIES` are
  imported by `app.py` but defined nowhere in the repository. They are not part of this
  model.
- The consistency of column names between the generator and the trainer is not
  modelled. The generator writes `Boxes_Ordered`, while the trainer reads
  per-ingredient columns.

## Findings

| source | as written | input that shows it | evidently intended | confidence | as-written member | corrected member |
|---|---|---|---|---|---|---|
| model_utils.py:30 | `get_temperature_category` compares its argument with -3 directly, with no test for None | `get_temperature_category(None)`: `None <= -3` raises TypeError | None yields None, as test_model_utils.py:7-8 asserts | not executed | Features.NoneTestFailsAsWritten | Features.GetTemperatureCategoryOrNone |
