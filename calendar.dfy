/**
  Proleptic Gregorian dates and naive date-times, as Python's `datetime` and pandas'
  `Timestamp` represent them: validity, chronological order, the next calendar day
  (what `resample("D")` steps by) and `DateOffset(years=n)` subtraction.
*/
module Calendar {

  datatype Date = Date(year: int, month: int, day: int)

  datatype DateTime = DateTime(year: int, month: int, day: int, hour: int, minute: int, second: int)

  predicate IsLeapYear(y: int) {
    y % 4 == 0 && (y % 100 != 0 || y % 400 == 0)
  }

  function DaysInMonth(y: int, m: int): (n: int)
    requires 1 <= m <= 12
    ensures 28 <= n <= 31
    ensures m == 2 ==> (n == 29 <==> IsLeapYear(y))
  {
    if m == 2 then (if IsLeapYear(y) then 29 else 28)
    else if m == 4 || m == 6 || m == 9 || m == 11 then 30
    else 31
  }

  /** `datetime.date(year, month, day)` accepts exactly these (MINYEAR 1, MAXYEAR 9999). */
  predicate ValidDate(d: Date) {
    1 <= d.year <= 9999 && 1 <= d.month <= 12 && 1 <= d.day <= DaysInMonth(d.year, d.month)
  }

  function DateOf(t: DateTime): Date {
    Date(t.year, t.month, t.day)
  }

  /** `datetime(...)` with seconds and no fraction accepts exactly these. */
  predicate ValidDateTime(t: DateTime) {
    ValidDate(DateOf(t)) && 0 <= t.hour <= 23 && 0 <= t.minute <= 59 && 0 <= t.second <= 59
  }

  /** The start of a day, as pandas labels a daily bin or converts a `date`. */
  function Midnight(d: Date): (t: DateTime)
    ensures DateOf(t) == d
    ensures ValidDate(d) ==> ValidDateTime(t)
  {
    DateTime(d.year, d.month, d.day, 0, 0, 0)
  }

  predicate DateLt(a: Date, b: Date) {
    a.year < b.year
    || (a.year == b.year && (a.month < b.month || (a.month == b.month && a.day < b.day)))
  }

  predicate DateLe(a: Date, b: Date) {
    DateLt(a, b) || a == b
  }

  /** Strict chronological order of date-times. */
  predicate Before(a: DateTime, b: DateTime) {
    DateLt(DateOf(a), DateOf(b))
    || (DateOf(a) == DateOf(b)
        && (a.hour < b.hour
            || (a.hour == b.hour && (a.minute < b.minute || (a.minute == b.minute && a.second < b.second)))))
  }

  predicate AtOrBefore(a: DateTime, b: DateTime) {
    Before(a, b) || a == b
  }

  lemma AtOrBeforeTotal(a: DateTime, b: DateTime)
    ensures AtOrBefore(a, b) || AtOrBefore(b, a)
  {
  }

  lemma AtOrBeforeTransitive(a: DateTime, b: DateTime, c: DateTime)
    requires AtOrBefore(a, b) && AtOrBefore(b, c)
    ensures AtOrBefore(a, c)
  {
  }

  /** The calendar day after `d`. */
  function NextDay(d: Date): (n: Date)
    requires ValidDate(d)
    ensures DateLt(d, n)
  {
    if d.day < DaysInMonth(d.year, d.month) then Date(d.year, d.month, d.day + 1)
    else if d.month < 12 then Date(d.year, d.month + 1, 1)
    else Date(d.year + 1, 1, 1)
  }

  /**
    `NextDay` is the immediate successor: below any later valid date it is itself a
    valid date no later than that one, so no valid date lies strictly between `d` and it.
  */
  lemma NextDayImmediate(d: Date, e: Date)
    requires ValidDate(d) && ValidDate(e) && DateLt(d, e)
    ensures ValidDate(NextDay(d)) && DateLe(NextDay(d), e)
  {
  }

  /** The days `first, NextDay(first), ..., last`, one per calendar day. */
  function DaysFromTo(first: Date, last: Date): (r: seq<Date>)
    requires ValidDate(first) && ValidDate(last) && DateLe(first, last)
    ensures |r| >= 1 && r[0] == first && r[|r| - 1] == last
    ensures forall i :: 0 <= i < |r| ==> ValidDate(r[i]) && DateLe(first, r[i]) && DateLe(r[i], last)
    ensures forall i :: 0 <= i < |r| - 1 ==> r[i + 1] == NextDay(r[i])
    decreases last.year - first.year, 12 - first.month, 31 - first.day
  {
    if first == last then [first]
    else
      NextDayImmediate(first, last);
      [first] + DaysFromTo(NextDay(first), last)
  }

  /** Every valid date between the two ends is one of the days `DaysFromTo` lists. */
  lemma {:induction false} DaysFromToCovers(first: Date, last: Date, d: Date)
    requires ValidDate(first) && ValidDate(last) && DateLe(first, last)
    requires ValidDate(d) && DateLe(first, d) && DateLe(d, last)
    ensures d in DaysFromTo(first, last)
    decreases last.year - first.year, 12 - first.month, 31 - first.day
  {
    if d != first {
      NextDayImmediate(first, d);
      NextDayImmediate(first, last);
      DaysFromToCovers(NextDay(first), last, d);
    }
  }

  /** The days `DaysFromTo` lists are strictly increasing. */
  lemma {:induction false} DaysFromToAscending(first: Date, last: Date, i: int, j: int)
    requires ValidDate(first) && ValidDate(last) && DateLe(first, last)
    requires 0 <= i < j < |DaysFromTo(first, last)|
    ensures DateLt(DaysFromTo(first, last)[i], DaysFromTo(first, last)[j])
    decreases j - i
  {
    var r := DaysFromTo(first, last);
    if j == i + 1 {
      assert r[j] == NextDay(r[i]);
    } else {
      DaysFromToAscending(first, last, i + 1, j);
      assert r[i + 1] == NextDay(r[i]);
    }
  }

  /**
    `t - pd.DateOffset(years=n)`: the same month, day and time `n` years earlier,
    with the day clipped to the length of the target month (29 February becomes 28).
  */
  function MinusYears(t: DateTime, n: nat): (r: DateTime)
    requires 1 <= t.month <= 12
    ensures r.year == t.year - n && r.month == t.month && r.day <= t.day
    ensures (r.hour, r.minute, r.second) == (t.hour, t.minute, t.second)
    ensures ValidDateTime(t) && t.year - n >= 1 ==> ValidDateTime(r)
    ensures ValidDateTime(t) ==> AtOrBefore(r, t)
    ensures n > 0 ==> Before(r, t)
  {
    var y := t.year - n;
    var d := if t.day <= DaysInMonth(y, t.month) then t.day else DaysInMonth(y, t.month);
    DateTime(y, t.month, d, t.hour, t.minute, t.second)
  }
}
