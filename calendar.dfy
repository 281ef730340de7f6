/**
 * What `new DateTime("yy-mm-dd hh:mm")->getTimestamp()` yields for the dates
 * the order accepts, on the proleptic Gregorian calendar with no time-zone
 * offset. A day number past the end of its month rolls over into the next
 * month, as PHP's DateTime does with `31/02/15`.
 */
module Calendar {

  /** A validated date and time: two-digit year, month, day, hour and minute. */
  datatype Moment = Moment(year: nat, month: nat, day: nat, hour: nat, minute: nat)

  /** PHP reads a two-digit year 00–69 as 2000–2069 and 70–99 as 1970–1999. */
  function FullYear(yy: nat): (y: int)
    requires yy <= 99
    ensures 1970 <= y <= 2069 && y % 100 == yy
  {
    if yy < 70 then 2000 + yy else 1900 + yy
  }

  predicate IsLeapYear(y: int)
  {
    y % 4 == 0 && (y % 100 != 0 || y % 400 == 0)
  }

  /** Leap years from year 1 up to, not including, `y`. */
  function LeapYearsBefore(y: int): int
    requires y >= 1
  {
    (y - 1) / 4 - (y - 1) / 100 + (y - 1) / 400
  }

  /** Days from 1 January 1970 to 1 January of year `y`. */
  function DaysBeforeYear(y: int): int
    requires y >= 1970
  {
    365 * (y - 1970) + LeapYearsBefore(y) - LeapYearsBefore(1970)
  }

  /** A year has 366 days exactly when it is a leap year. */
  lemma YearLength(y: int)
    requires y >= 1970
    ensures DaysBeforeYear(y + 1) - DaysBeforeYear(y) == if IsLeapYear(y) then 366 else 365
  {
    assert y / 4 - (y - 1) / 4 == if y % 4 == 0 then 1 else 0;
    assert y / 100 - (y - 1) / 100 == if y % 100 == 0 then 1 else 0;
    assert y / 400 - (y - 1) / 400 == if y % 400 == 0 then 1 else 0;
  }

  /** Days of year `y` before the first of month `m`. */
  function DaysBeforeMonth(y: int, m: nat): (d: nat)
    requires 1 <= m <= 12
    ensures d <= 335
  {
    [0, 31, 59, 90, 120, 151, 181, 212, 243, 273, 304, 334][m - 1] + if m > 2 && IsLeapYear(y) then 1 else 0
  }

  /** The number of days of month `m` of year `y`. */
  function DaysInMonth(y: int, m: nat): (n: nat)
    requires 1 <= m <= 12
    ensures 28 <= n <= 31
  {
    if m == 2 then (if IsLeapYear(y) then 29 else 28)
    else if m == 4 || m == 6 || m == 9 || m == 11 then 30
    else 31
  }

  /** The months before month `m2` hold month `m1` whole. */
  lemma MonthsFill(y: int, m1: nat, m2: nat)
    requires 1 <= m1 < m2 <= 12
    ensures DaysBeforeMonth(y, m1) + DaysInMonth(y, m1) <= DaysBeforeMonth(y, m2)
  {
  }

  /** December ends the year. */
  lemma DecemberEndsYear(y: int)
    requires y >= 1970
    ensures DaysBeforeYear(y) + DaysBeforeMonth(y, 12) + DaysInMonth(y, 12) == DaysBeforeYear(y + 1)
  {
    YearLength(y);
  }

  lemma {:induction false} YearsFill(y1: int, y2: int)
    requires 1970 <= y1 < y2
    ensures DaysBeforeYear(y1 + 1) <= DaysBeforeYear(y2)
    decreases y2 - y1
  {
    if y1 + 1 < y2 {
      YearsFill(y1, y2 - 1);
      YearLength(y2 - 1);
    }
  }

  /** A moment that exists: its day is in its month and its time in its day. */
  predicate ValidMoment(t: Moment)
  {
    && t.year <= 99 && 1 <= t.month <= 12
    && 1 <= t.day <= DaysInMonth(FullYear(t.year), t.month)
    && t.hour <= 23 && t.minute <= 59
  }

  /** `a` comes strictly before `b`: full year, month, day, hour and minute compared in that order. */
  predicate Earlier(a: Moment, b: Moment)
    requires a.year <= 99 && b.year <= 99
  {
    var ya, yb := FullYear(a.year), FullYear(b.year);
    || ya < yb
    || (ya == yb && a.month < b.month)
    || (ya == yb && a.month == b.month && a.day < b.day)
    || (ya == yb && a.month == b.month && a.day == b.day && a.hour < b.hour)
    || (ya == yb && a.month == b.month && a.day == b.day && a.hour == b.hour && a.minute < b.minute)
  }

  /** Seconds since 1970-01-01 00:00 of a validated moment. */
  function Timestamp(t: Moment): int
    requires t.year <= 99 && 1 <= t.month <= 12
  {
    var y := FullYear(t.year);
    var days := DaysBeforeYear(y) + DaysBeforeMonth(y, t.month) + t.day - 1;
    86400 * days + 3600 * t.hour + 60 * t.minute
  }

  /** The day number of a moment, counted from 1970-01-01. */
  function DayNumber(t: Moment): int
    requires t.year <= 99 && 1 <= t.month <= 12
  {
    var y := FullYear(t.year);
    DaysBeforeYear(y) + DaysBeforeMonth(y, t.month) + t.day - 1
  }

  lemma EarlierDay(a: Moment, b: Moment)
    requires ValidMoment(a) && ValidMoment(b) && FullYear(a.year) < FullYear(b.year)
    ensures DayNumber(a) < DayNumber(b)
  {
    var ya, yb := FullYear(a.year), FullYear(b.year);
    if a.month < 12 {
      MonthsFill(ya, a.month, 12);
    }
    DecemberEndsYear(ya);
    YearsFill(ya, yb);
  }

  lemma EarlierStamp(a: Moment, b: Moment)
    requires ValidMoment(a) && ValidMoment(b) && Earlier(a, b)
    ensures Timestamp(a) < Timestamp(b)
  {
    var ya, yb := FullYear(a.year), FullYear(b.year);
    if ya < yb {
      EarlierDay(a, b);
    } else if a.month < b.month {
      MonthsFill(ya, a.month, b.month);
    }
    assert Timestamp(a) == 86400 * DayNumber(a) + 3600 * a.hour + 60 * a.minute;
    assert Timestamp(b) == 86400 * DayNumber(b) + 3600 * b.hour + 60 * b.minute;
  }

  /**
   * Timestamps order moments as the calendar does: of two moments that exist,
   * the one with the smaller timestamp is the earlier one, and equal
   * timestamps mean the same moment.
   */
  lemma TimestampOrder(a: Moment, b: Moment)
    requires ValidMoment(a) && ValidMoment(b)
    ensures Timestamp(a) < Timestamp(b) <==> Earlier(a, b)
    ensures Timestamp(a) == Timestamp(b) <==> a == b
  {
    if Earlier(a, b) {
      EarlierStamp(a, b);
    } else if Earlier(b, a) {
      EarlierStamp(b, a);
    } else {
      assert FullYear(a.year) == FullYear(b.year);
      assert a.year == FullYear(a.year) % 100 && b.year == FullYear(b.year) % 100;
    }
  }
}
