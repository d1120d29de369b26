/** The week filter (data_filter.py, filter_by_week): the rows of a table whose
    Date falls in a given ISO week, in date order, or the table's last four rows
    when no row does. */
module WeekFilter {
  import opened Calendar
  import opened Table

  /** The boolean mask `df['Date'].dt.isocalendar().week == week_number`. */
  predicate InWeek<T>(x: Dated<T>, week: int)
    ensures InWeek(x, week) ==> 1 <= week <= 53
  {
    ValidDate(x.date) && IsoWeek(x.date) == week
  }

  predicate SortedByDate<T>(s: seq<Dated<T>>) {
    forall i, j :: 0 <= i < j < |s| ==> DateLe(s[i].date, s[j].date)
  }

  /** `df[mask]`: the rows in the week, in table order, each as often as in the table. */
  function SelectWeek<T(!new)>(rows: seq<Dated<T>>, week: int): (r: seq<Dated<T>>)
    ensures |r| <= |rows|
    ensures forall x :: multiset(r)[x] == if InWeek(x, week) then multiset(rows)[x] else 0
    decreases |rows|
  {
    if rows == [] then []
    else
      assert rows == [rows[0]] + rows[1..];
      (if InWeek(rows[0], week) then [rows[0]] else []) + SelectWeek(rows[1..], week)
  }

  /** Places x in a date-ordered sequence. */
  function InsertByDate<T>(x: Dated<T>, s: seq<Dated<T>>): (r: seq<Dated<T>>)
    requires SortedByDate(s)
    ensures SortedByDate(r) && multiset(r) == multiset(s) + multiset{x}
    ensures forall j :: 0 <= j < |r| ==> r[j] == x || r[j] in s
    decreases |s|
  {
    if s == [] then [x]
    else if DateLe(x.date, s[0].date) then
      [x] + s
    else
      var tail := InsertByDate(x, s[1..]);
      assert s == [s[0]] + s[1..];
      ConsSorted(x, s, tail);
      [s[0]] + tail
  }

  /** The head of a sorted sequence may precede a sorted sequence of its tail's rows
      and a later row x. */
  lemma ConsSorted<T>(x: Dated<T>, s: seq<Dated<T>>, tail: seq<Dated<T>>)
    requires SortedByDate(s) && s != [] && !DateLe(x.date, s[0].date)
    requires SortedByDate(tail)
    requires forall j :: 0 <= j < |tail| ==> tail[j] == x || tail[j] in s[1..]
    ensures SortedByDate([s[0]] + tail)
  {
    DateLeTotal(x.date, s[0].date);
    forall j | 0 <= j < |tail| ensures DateLe(s[0].date, tail[j].date) {
      if tail[j] != x {
        var k :| 0 <= k < |s[1..]| && s[1..][k] == tail[j];
        assert s[k + 1] == tail[j];
      }
    }
    var r := [s[0]] + tail;
    forall i, j | 0 <= i < j < |r| ensures DateLe(r[i].date, r[j].date) {
      if i > 0 {
        assert r[i] == tail[i - 1] && r[j] == tail[j - 1];
      } else {
        assert r[j] == tail[j - 1];
      }
    }
  }

  /** `sort_values('Date')`: the rows rearranged into ascending date order. */
  function SortByDate<T>(s: seq<Dated<T>>): (r: seq<Dated<T>>)
    ensures SortedByDate(r) && multiset(r) == multiset(s)
    decreases |s|
  {
    if s == [] then []
    else
      assert s == [s[0]] + s[1..];
      InsertByDate(s[0], SortByDate(s[1..]))
  }

  function Min(a: int, b: int): int {
    if a <= b then a else b
  }

  /** What the multiset equation of SelectWeek says about single rows. */
  lemma WeekMembers<T(!new)>(rows: seq<Dated<T>>, week: int, r: seq<Dated<T>>)
    requires forall x :: multiset(r)[x] == if InWeek(x, week) then multiset(rows)[x] else 0
    ensures forall i :: 0 <= i < |r| ==> InWeek(r[i], week)
    ensures forall i :: 0 <= i < |rows| && InWeek(rows[i], week) ==> rows[i] in r
    ensures forall i :: 0 <= i < |r| ==> r[i] in rows
  {
    forall i | 0 <= i < |r| ensures InWeek(r[i], week) && r[i] in rows {
      assert r[i] in multiset(r);
      assert r[i] in multiset(rows);
    }
    forall i | 0 <= i < |rows| && InWeek(rows[i], week) ensures rows[i] in r {
      assert rows[i] in multiset(rows);
      assert rows[i] in multiset(r);
    }
  }

  /** filter_by_week with the week given: the matching rows sorted by date, or
      `df.tail(4)` when none matches. */
  function FilterByWeek<T(!new)>(rows: seq<Dated<T>>, week: int): (r: seq<Dated<T>>)
    ensures |r| <= |rows|
    ensures (exists i :: 0 <= i < |rows| && InWeek(rows[i], week)) ==>
              && SortedByDate(r)
              && (forall x :: multiset(r)[x] == if InWeek(x, week) then multiset(rows)[x] else 0)
              && (forall i :: 0 <= i < |r| ==> InWeek(r[i], week))
              && (forall i :: 0 <= i < |rows| && InWeek(rows[i], week) ==> rows[i] in r)
    ensures (forall i :: 0 <= i < |rows| ==> !InWeek(rows[i], week)) ==>
              r == rows[|rows| - Min(4, |rows|)..]
  {
    var selected := SortByDate(SelectWeek(rows, week));
    WeekMembers(rows, week, selected);
    if |selected| == 0 then
      assert forall i :: 0 <= i < |rows| ==> !InWeek(rows[i], week);
      rows[|rows| - Min(4, |rows|)..]
    else
      assert selected[0] in rows && InWeek(selected[0], week);
      selected
  }
}
