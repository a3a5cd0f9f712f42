/**
 * Proleptic Gregorian dates, as Python's `datetime.date` counts them, and
 * timestamps with a second-of-day for the `DateTimeField` columns.
 */
module Dates {

  datatype Date = Date(year: int, month: int, day: int)

  /** A `DateTimeField` value: a date and the second of that day. */
  datatype Timestamp = Timestamp(date: Date, second: nat)

  predicate IsLeapYear(y: int)
  {
    y % 4 == 0 && (y % 100 != 0 || y % 400 == 0)
  }

  function DaysInMonth(y: int, m: int): (n: int)
    requires 1 <= m <= 12
    ensures 28 <= n <= 31
    ensures n == 29 <==> m == 2 && IsLeapYear(y)
  {
    if m == 2 then (if IsLeapYear(y) then 29 else 28)
    else if m == 4 || m == 6 || m == 9 || m == 11 then 30
    else 31
  }

  predicate ValidDate(d: Date)
  {
    1 <= d.month <= 12 && 1 <= d.day <= DaysInMonth(d.year, d.month)
  }

  predicate ValidTimestamp(t: Timestamp)
  {
    ValidDate(t.date) && t.second < 86400
  }

  /** Calendar order on dates. */
  predicate Before(a: Date, b: Date)
  {
    a.year < b.year
    || (a.year == b.year && a.month < b.month)
    || (a.year == b.year && a.month == b.month && a.day < b.day)
  }

  /** Calendar order on timestamps. */
  predicate EarlierThan(a: Timestamp, b: Timestamp)
  {
    Before(a.date, b.date) || (a.date == b.date && a.second < b.second)
  }

  /** `d + timedelta(days=1)`. */
  function NextDay(d: Date): (r: Date)
    requires ValidDate(d)
    ensures ValidDate(r) && Before(d, r)
  {
    if d.day < DaysInMonth(d.year, d.month) then Date(d.year, d.month, d.day + 1)
    else if d.month < 12 then Date(d.year, d.month + 1, 1)
    else Date(d.year + 1, 1, 1)
  }

  /** `d - timedelta(days=1)`. */
  function PrevDay(d: Date): (r: Date)
    requires ValidDate(d)
    ensures ValidDate(r) && Before(r, d)
  {
    if d.day > 1 then Date(d.year, d.month, d.day - 1)
    else if d.month > 1 then Date(d.year, d.month - 1, DaysInMonth(d.year, d.month - 1))
    else Date(d.year - 1, 12, 31)
  }

  /** `d - timedelta(days=n)`. */
  function DaysBefore(d: Date, n: nat): (r: Date)
    requires ValidDate(d)
    ensures ValidDate(r)
    ensures n > 0 ==> Before(r, d)
  {
    if n == 0 then d
    else
      var r := PrevDay(DaysBefore(d, n - 1));
      BeforeTransitive(r, DaysBefore(d, n - 1), d);
      r
  }

  lemma BeforeTransitive(a: Date, b: Date, c: Date)
    requires Before(a, b)
    requires Before(b, c) || b == c
    ensures Before(a, c)
  {
  }

  /** Stepping back one day and forward one day returns to the same date. */
  lemma NextOfPrev(d: Date)
    requires ValidDate(d)
    ensures NextDay(PrevDay(d)) == d
  {
  }

  /** Stepping forward one day and back one day returns to the same date. */
  lemma PrevOfNext(d: Date)
    requires ValidDate(d)
    ensures PrevDay(NextDay(d)) == d
  {
  }

  /** Going further back gives an earlier date. */
  lemma {:induction false} DaysBeforeOrder(d: Date, a: nat, b: nat)
    requires ValidDate(d)
    requires b < a
    ensures Before(DaysBefore(d, a), DaysBefore(d, b))
  {
    if a - 1 != b {
      DaysBeforeOrder(d, a - 1, b);
      BeforeTransitive(DaysBefore(d, a), DaysBefore(d, a - 1), DaysBefore(d, b));
    }
  }

  /** A day count that grows with the calendar order (31 slots per month). */
  function DayNumber(d: Date): int
  {
    (d.year * 12 + (d.month - 1)) * 31 + (d.day - 1)
  }

  /** A second count that grows with the calendar order of timestamps. */
  function Instant(t: Timestamp): int
  {
    DayNumber(t.date) * 86400 + t.second
  }

  /** On valid dates, DayNumber orders exactly as the calendar does. */
  lemma DayNumberOrder(a: Date, b: Date)
    requires ValidDate(a) && ValidDate(b)
    ensures DayNumber(a) < DayNumber(b) <==> Before(a, b)
    ensures DayNumber(a) == DayNumber(b) <==> a == b
  {
  }

  /** On valid timestamps, Instant orders exactly as the calendar and clock do. */
  lemma InstantOrder(a: Timestamp, b: Timestamp)
    requires ValidTimestamp(a) && ValidTimestamp(b)
    ensures Instant(a) < Instant(b) <==> EarlierThan(a, b)
  {
    DayNumberOrder(a.date, b.date);
  }
}
