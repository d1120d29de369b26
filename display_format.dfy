/** Date formatting for display (data_formatter.py, format_dates_for_display):
    a copy of the table whose Date column holds `strftime('%B %d, %Y')` in the C
    locale, such as "July 04, 2021". */
module DisplayFormat {
  import opened Calendar
  import opened Text
  import opened Table
  import opened Wrappers

  /** A row after formatting: the Date column is now text, the rest as before. */
  datatype Displayed<T> = Displayed(date: string, fields: T)

  predicate NoSpace(s: string) {
    forall i :: 0 <= i < |s| ==> s[i] != ' '
  }

  /** %B in the C locale: the full English month name. */
  function MonthName(m: int): (s: string)
    requires 1 <= m <= 12
    ensures 3 <= |s| && NoSpace(s)
  {
    ["January", "February", "March", "April", "May", "June", "July",
     "August", "September", "October", "November", "December"][m - 1]
  }

  /** The month a full English name stands for, 0 for any other text. */
  function MonthNumber(name: string): (m: int)
    ensures 0 <= m <= 12
    ensures 1 <= m ==> MonthName(m) == name
  {
    if name == "January" then 1 else if name == "February" then 2
    else if name == "March" then 3 else if name == "April" then 4
    else if name == "May" then 5 else if name == "June" then 6
    else if name == "July" then 7 else if name == "August" then 8
    else if name == "September" then 9 else if name == "October" then 10
    else if name == "November" then 11 else if name == "December" then 12
    else 0
  }

  lemma MonthNameRoundTrip(m: int)
    requires 1 <= m <= 12
    ensures MonthNumber(MonthName(m)) == m
  {
  }

  /** `strftime('%B %d, %Y')`: month name, a space, the day as two digits, a comma
      and a space, and the year's decimal digits. */
  function DisplayDate(d: Date): (s: string)
    requires PyDate(d)
    ensures var n := |MonthName(d.month)|;
            && n + 6 <= |s| && s[..n] == MonthName(d.month) && s[n] == ' '
            && AllDigits(s[n + 1..n + 3]) && ParsePad2(s[n + 1..n + 3]) == d.day
            && s[n + 3..n + 5] == ", "
            && AllDigits(s[n + 5..]) && ParseDecimal(s[n + 5..]) == d.year
  {
    var name, dd, yy := MonthName(d.month), Pad2(d.day), Decimal(d.year);
    var s := name + " " + dd + ", " + yy;
    assert s[|name| + 1..|name| + 3] == dd && s[|name| + 5..] == yy;
    DecimalRoundTrip(d.year);
    s
  }

  /** The index of the first space in s, or |s| when there is none. */
  function FirstSpace(s: string): (i: nat)
    ensures i <= |s| && NoSpace(s[..i])
    ensures i < |s| ==> s[i] == ' '
    decreases |s|
  {
    if s == [] then 0
    else if s[0] == ' ' then 0
    else
      assert s[..1 + FirstSpace(s[1..])] == [s[0]] + s[1..][..FirstSpace(s[1..])];
      1 + FirstSpace(s[1..])
  }

  lemma {:induction false} FirstSpaceAfter(p: string, rest: string)
    requires NoSpace(p)
    ensures FirstSpace(p + " " + rest) == |p|
    decreases |p|
  {
    if p != [] {
      assert (p + " " + rest)[1..] == p[1..] + " " + rest;
      FirstSpaceAfter(p[1..], rest);
    }
  }

  /** Reads a displayed date back: the inverse of DisplayDate. */
  function ParseDisplayDate(s: string): Option<Date> {
    var n := FirstSpace(s);
    var m := MonthNumber(s[..n]);
    if m == 0 || |s| < n + 6 || !AllDigits(s[n + 1..n + 3]) || s[n + 3..n + 5] != ", "
       || !AllDigits(s[n + 5..])
    then None
    else
      var date := Date(ParseDecimal(s[n + 5..]), m, ParsePad2(s[n + 1..n + 3]));
      if PyDate(date) then Some(date) else None
  }

  lemma DisplayDateRoundTrip(d: Date)
    requires PyDate(d)
    ensures ParseDisplayDate(DisplayDate(d)) == Some(d)
  {
    var name, dd, yy := MonthName(d.month), Pad2(d.day), Decimal(d.year);
    var s := DisplayDate(d);
    assert s == name + " " + (dd + ", " + yy);
    FirstSpaceAfter(name, dd + ", " + yy);
    MonthNameRoundTrip(d.month);
    var n := FirstSpace(s);
    assert n == |name| && s[..n] == name;
    assert MonthNumber(s[..n]) == d.month;
  }

  /** format_dates_for_display: the same rows in the same order, each with its Date
      shown as text that reads back as that date and every other column as it was.
      The input is a value and is left as it is. */
  function FormatDatesForDisplay<T>(rows: seq<Dated<T>>): (r: seq<Displayed<T>>)
    requires forall i :: 0 <= i < |rows| ==> PyDate(rows[i].date)
    ensures |r| == |rows|
    ensures forall i :: 0 <= i < |r| ==> r[i].fields == rows[i].fields
    ensures forall i :: 0 <= i < |r| ==> r[i].date == DisplayDate(rows[i].date)
    ensures forall i :: 0 <= i < |r| ==> ParseDisplayDate(r[i].date) == Some(rows[i].date)
  {
    assert forall i :: 0 <= i < |rows| ==> ParseDisplayDate(DisplayDate(rows[i].date)) == Some(rows[i].date) by {
      forall i | 0 <= i < |rows| ensures ParseDisplayDate(DisplayDate(rows[i].date)) == Some(rows[i].date) {
        DisplayDateRoundTrip(rows[i].date);
      }
    }
    seq(|rows|, i requires 0 <= i < |rows| => Displayed(DisplayDate(rows[i].date), rows[i].fields))
  }
}
