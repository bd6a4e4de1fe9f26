/**
 * Calendar dates and times of day as the server's `datetime` values use them.
 *
 * A date is a proleptic Gregorian day number, numbered as Python's
 * `date.toordinal()` numbers them: 0001-01-01 is day 1 and 9999-12-31 (the
 * largest date the server can represent) is day 3652059. A time of day is a
 * count of microseconds since midnight, the finest resolution of `datetime`.
 */
module Calendar {

  import opened Wrappers

  const MinOrdinal: int := 1
  const MaxOrdinal: int := 3652059

  /** A representable calendar date. */
  type Date = d: int | MinOrdinal <= d <= MaxOrdinal witness MinOrdinal

  const MicrosPerSecond: int := 1_000_000
  const MicrosPerDay: int := 24 * 60 * 60 * MicrosPerSecond

  /** A wall-clock time within one day, in microseconds since midnight. */
  type TimeOfDay = t: int | 0 <= t < MicrosPerDay

  /** The instant `hour:minute:second.micro` of a day. */
  function ClockTime(hour: int, minute: int, second: int, micro: int): (t: TimeOfDay)
    requires 0 <= hour < 24 && 0 <= minute < 60 && 0 <= second < 60 && 0 <= micro < MicrosPerSecond
    ensures t / MicrosPerSecond == (hour * 60 + minute) * 60 + second
    ensures t % MicrosPerSecond == micro
  {
    ((hour * 60 + minute) * 60 + second) * MicrosPerSecond + micro
  }

  /** The cutoff the attendance endpoint hard-codes: 21:30:00.000000. */
  const HardCodedCutoff: TimeOfDay := 21 * 60 * 60 * MicrosPerSecond + 30 * 60 * MicrosPerSecond

  /** Day of the week with Monday = 0 and Sunday = 6, as `date.weekday()` numbers it. */
  function Weekday(d: Date): (w: int)
    ensures 0 <= w < 7
    ensures d == MinOrdinal ==> w == 0
  {
    (d + 6) % 7
  }

  /** Saturday (5) and Sunday (6) are the weekend. */
  predicate IsWeekend(d: Date) {
    Weekday(d) >= 5
  }

  /** The day after `d`, if it is still representable (Python raises `OverflowError` past 9999-12-31). */
  function NextDay(d: Date): (r: Option<Date>)
    ensures r.Some? <==> d < MaxOrdinal
    ensures r.Some? ==> r.value == d + 1 && Weekday(r.value) == (Weekday(d) + 1) % 7
  {
    if d < MaxOrdinal then Some(d + 1) else None
  }

  /** Whether `year` is a leap year of the proleptic Gregorian calendar. */
  predicate IsLeap(year: int) {
    year % 4 == 0 && (year % 100 != 0 || year % 400 == 0)
  }

  function DaysInMonth(year: int, month: int): int
    requires 1 <= month <= 12
  {
    if month == 2 then (if IsLeap(year) then 29 else 28)
    else if month == 4 || month == 6 || month == 9 || month == 11 then 30
    else 31
  }

  /** Days of `year` that precede the first of `month`. */
  function DaysBeforeMonth(year: int, month: int): int
    requires 1 <= month <= 12
  {
    if month == 1 then 0 else DaysBeforeMonth(year, month - 1) + DaysInMonth(year, month - 1)
  }

  /** The day number of the civil date `year-month-day`, computed as Python's `date.toordinal()` does. */
  function Ordinal(year: int, month: int, day: int): int
    requires 1 <= year <= 9999 && 1 <= month <= 12 && 1 <= day <= DaysInMonth(year, month)
  {
    var y := year - 1;
    y * 365 + y / 4 - y / 100 + y / 400 + DaysBeforeMonth(year, month) + day
  }

  /** Day numbers of the civil dates the worked scenarios use, as Python computes them. */
  lemma ScenarioOrdinals()
    ensures Ordinal(2024, 6, 10) == 739047
    ensures Ordinal(2024, 6, 14) == 739051
  {
    assert DaysBeforeMonth(2024, 6) == 152 by {
      assert IsLeap(2024);
      assert DaysBeforeMonth(2024, 3) == 60;
    }
    var y := 2023;
    assert y * 365 == 738395;
    assert y / 4 == 505 && y / 100 == 20 && y / 400 == 5;
  }

  /** 9999-12-31, the largest representable date, is a Friday. */
  lemma LastDateIsFriday()
    ensures Weekday(MaxOrdinal) == 4
  {
    assert MaxOrdinal + 6 == 7 * 521723 + 4;
  }

  /** Weekdays of the scenario dates: 2024-06-10 is a Monday, 2024-06-14 a Friday, 2024-06-15 a Saturday. */
  lemma ScenarioWeekdays()
    ensures Weekday(739047) == 0 && Weekday(739048) == 1
    ensures Weekday(739051) == 4 && Weekday(739052) == 5
  {
    assert 739047 + 6 == 7 * 105579;
  }
}
