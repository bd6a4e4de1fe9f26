/**
 * The date decision of the attendance endpoint: given the date an employee
 * asked for and the server clock, either refuse the submission or choose the
 * date the attendance is stored under and the message returned with it.
 */
module Cutoff {

  import opened Wrappers
  import opened Calendar

  /** One reading of the server clock: today's date and the current time of day. */
  datatype Clock = Clock(today: Date, now: TimeOfDay)

  /** Why the date decision refuses a submission. */
  datatype Rejection =
    | InvalidDateFormat   // the date string did not parse as YYYY-MM-DD
    | WeekendRejected     // the requested date is a Saturday or a Sunday
    | DateOverflow        // rolling over past 9999-12-31 raised OverflowError

  /** Which of the endpoint's two success messages is returned. */
  datatype Notice = RolledOver | Marked

  /** The `message` field of the endpoint's answer for each notice. */
  function NoticeText(n: Notice): (text: string)
    ensures text != ""
  {
    match n
    case RolledOver => "Cutoff time passed. Attendance marked for tomorrow."
    case Marked => "Attendance marked successfully."
  }

  /** The two messages are distinct, so the answer tells the caller whether the date moved. */
  lemma NoticeTextDistinct()
    ensures NoticeText(RolledOver) != NoticeText(Marked)
  {
  }

  /** The accepted outcome: the date the record is stored under and the message. */
  datatype Resolution = Resolution(effective: Date, notice: Notice)

  /**
   * Whether the current time is strictly later than the cutoff on the same day.
   * The endpoint builds the cutoff as `now` with its clock fields replaced, so
   * only the time of day takes part in the comparison.
   */
  predicate AfterCutoff(now: TimeOfDay, cutoff: TimeOfDay) {
    now > cutoff
  }

  /**
   * The decision `mark_attendance` takes before it writes. `requested` is the
   * parsed date (None when `strptime` rejected the string). Only the requested
   * date is checked for the weekend; the rolled-over date is not re-checked.
   */
  function Resolve(requested: Option<Date>, clock: Clock, cutoff: TimeOfDay): (r: Result<Resolution, Rejection>)
    ensures requested.None? <==> r == Failure(InvalidDateFormat)
    ensures r == Failure(WeekendRejected) <==> requested.Some? && IsWeekend(requested.value)
    ensures r == Failure(DateOverflow) <==>
              requested.Some? && !IsWeekend(requested.value) && requested.value == clock.today
              && AfterCutoff(clock.now, cutoff) && clock.today == MaxOrdinal
    ensures r.Success? ==> requested.Some? && !IsWeekend(requested.value)
    ensures r.Success? && r.value.notice == RolledOver <==>
              requested.Some? && !IsWeekend(requested.value) && requested.value == clock.today
              && AfterCutoff(clock.now, cutoff) && clock.today < MaxOrdinal
    ensures r.Success? && r.value.notice == RolledOver ==> r.value.effective == clock.today + 1
    ensures r.Success? && r.value.notice == Marked ==> r.value.effective == requested.value
  {
    match requested
    case None => Failure(InvalidDateFormat)
    case Some(d) =>
      if IsWeekend(d) then Failure(WeekendRejected)
      else if d == clock.today && AfterCutoff(clock.now, cutoff) then
        match NextDay(clock.today)
        case None => Failure(DateOverflow)
        case Some(tomorrow) => Success(Resolution(tomorrow, RolledOver))
      else Success(Resolution(d, Marked))
  }

  /** A weekend date is refused whatever the clock says and whatever the cutoff is. */
  lemma WeekendRejectedAtAnyTime(d: Date, c1: Clock, c2: Clock, cut1: TimeOfDay, cut2: TimeOfDay)
    requires IsWeekend(d)
    ensures Resolve(Some(d), c1, cut1) == Resolve(Some(d), c2, cut2) == Failure(WeekendRejected)
  {
  }

  /** A weekday date other than today is stored as requested, before or after the cutoff. */
  lemma OtherDayKeepsDate(d: Date, clock: Clock, cutoff: TimeOfDay)
    requires !IsWeekend(d) && d != clock.today
    ensures Resolve(Some(d), clock, cutoff) == Success(Resolution(d, Marked))
  {
  }

  /** Today up to and including the cutoff instant is stored as today. */
  lemma TodayBeforeCutoffKeepsDate(clock: Clock, cutoff: TimeOfDay)
    requires !IsWeekend(clock.today) && clock.now <= cutoff
    ensures Resolve(Some(clock.today), clock, cutoff) == Success(Resolution(clock.today, Marked))
  {
  }

  /** Today after the cutoff is stored as tomorrow, and tomorrow is not re-checked for the weekend. */
  lemma TodayAfterCutoffRollsOver(clock: Clock, cutoff: TimeOfDay)
    requires !IsWeekend(clock.today) && clock.now > cutoff && clock.today < MaxOrdinal
    ensures Resolve(Some(clock.today), clock, cutoff) == Success(Resolution(clock.today + 1, RolledOver))
    ensures Weekday(clock.today) == 4 ==> IsWeekend(clock.today + 1)
  {
  }

  /**
   * An accepted submission lands on a weekend exactly when it was made on a
   * Friday after the cutoff: the rollover then stores it under Saturday.
   */
  lemma WeekendEffectiveIffFridayRollover(requested: Option<Date>, clock: Clock, cutoff: TimeOfDay)
    requires Resolve(requested, clock, cutoff).Success?
    ensures IsWeekend(Resolve(requested, clock, cutoff).value.effective) <==>
              requested == Some(clock.today) && Weekday(clock.today) == 4 && AfterCutoff(clock.now, cutoff)
    ensures IsWeekend(Resolve(requested, clock, cutoff).value.effective) ==>
              Weekday(Resolve(requested, clock, cutoff).value.effective) == 5
  {
  }

  /** With the hard-coded cutoff, 21:30:00.000000 itself still counts as on time and one microsecond later does not. */
  lemma HardCodedCutoffBoundary()
    ensures HardCodedCutoff == ClockTime(21, 30, 0, 0)
    ensures !AfterCutoff(ClockTime(21, 30, 0, 0), HardCodedCutoff)
    ensures AfterCutoff(ClockTime(21, 30, 0, 1), HardCodedCutoff)
    ensures !AfterCutoff(ClockTime(9, 45, 0, 0), HardCodedCutoff)
  {
  }

  /** Monday 2024-06-10 at 21:45 with a 21:30 cutoff: a request for that day is stored for Tuesday 2024-06-11. */
  lemma MondayEveningScenario()
    ensures Resolve(Some(Ordinal(2024, 6, 10)), Clock(Ordinal(2024, 6, 10), ClockTime(21, 45, 0, 0)), HardCodedCutoff)
            == Success(Resolution(Ordinal(2024, 6, 10) + 1, RolledOver))
  {
    ScenarioOrdinals();
    ScenarioWeekdays();
  }

  /** Friday 2024-06-14 at 22:00: a request for that day is stored under Saturday 2024-06-15. */
  lemma FridayEveningScenario()
    ensures Resolve(Some(Ordinal(2024, 6, 14)), Clock(Ordinal(2024, 6, 14), ClockTime(22, 0, 0, 0)), HardCodedCutoff)
            == Success(Resolution(Ordinal(2024, 6, 14) + 1, RolledOver))
    ensures IsWeekend(Ordinal(2024, 6, 14) + 1)
  {
    ScenarioOrdinals();
    ScenarioWeekdays();
  }
}
