/**
 * The attendance endpoints as whole requests: `mark_attendance` (decide the
 * date, then upsert), `get_user_attendance` (list) and
 * `get_daily_office_count` (choose the date, then count), each with the
 * database error it can meet.
 */
module Endpoints {

  import opened Wrappers
  import opened Calendar
  import opened Cutoff
  import opened Store

  /** Why a request fails: the date decision refused it, or the database raised. */
  datatype ApiError = Refused(reason: Rejection) | DatabaseError

  /** The HTTP status each failure is answered with. */
  function HttpStatus(e: ApiError): (code: int)
    ensures code == 400 <==> e == Refused(InvalidDateFormat) || e == Refused(WeekendRejected)
    ensures code == 400 || code == 500
  {
    match e
    case Refused(InvalidDateFormat) => 400
    case Refused(WeekendRejected) => 400
    case Refused(DateOverflow) => 500
    case DatabaseError => 500
  }

  /** A `POST /attendance` request: the user id, the parsed date string and the status string. */
  datatype Submission = Submission(user: UserId, date: Option<Date>, status: string)

  /** The JSON answer of an accepted submission: its message and the date it was stored under. */
  datatype Answer = Answer(message: string, date: Date)

  /** The table after a request, and what the request answered. */
  datatype Outcome = Outcome(table: Table, reply: Result<Answer, ApiError>)

  /**
   * `mark_attendance`: the date decision runs first and writes nothing when
   * it refuses; then one upsert under the effective date, which either
   * commits or (on a database error, `writeFails`) rolls back.
   */
  function MarkAttendance(t: Table, sub: Submission, clock: Clock, cutoff: TimeOfDay, stamp: int, writeFails: bool): (out: Outcome)
    ensures out.reply.Failure? ==> out.table == t
    ensures out.reply.Success? <==> Resolve(sub.date, clock, cutoff).Success? && !writeFails
    ensures out.reply.Success? ==>
              var res := Resolve(sub.date, clock, cutoff).value;
              && out.reply.value == Answer(NoticeText(res.notice), res.effective)
              && out.table == Upsert(t, sub.user, res.effective, sub.status, stamp)
    ensures Resolve(sub.date, clock, cutoff).Failure? ==> out.reply == Failure(Refused(Resolve(sub.date, clock, cutoff).error))
    ensures Resolve(sub.date, clock, cutoff).Success? && writeFails ==> out.reply == Failure(DatabaseError)
  {
    match Resolve(sub.date, clock, cutoff)
    case Failure(e) => Outcome(t, Failure(Refused(e)))
    case Success(res) =>
      if writeFails then Outcome(t, Failure(DatabaseError))
      else Outcome(Upsert(t, sub.user, res.effective, sub.status, stamp), Success(Answer(NoticeText(res.notice), res.effective)))
  }

  /** A weekend date is refused with 400 before any write: the table is unchanged. */
  lemma WeekendSubmissionWritesNothing(t: Table, sub: Submission, clock: Clock, cutoff: TimeOfDay, stamp: int, writeFails: bool)
    requires sub.date.Some? && IsWeekend(sub.date.value)
    ensures MarkAttendance(t, sub, clock, cutoff, stamp, writeFails) == Outcome(t, Failure(Refused(WeekendRejected)))
    ensures HttpStatus(Refused(WeekendRejected)) == 400
  {
  }

  /**
   * Resubmitting a request replaces the row's status and timestamp and adds
   * no row, provided the two clock readings resolve it to the same date.
   */
  lemma ResubmissionKeepsOneRow(t: Table, sub: Submission, clock1: Clock, clock2: Clock, cutoff: TimeOfDay, stamp1: int, stamp2: int)
    requires stamp1 <= stamp2
    requires Resolve(sub.date, clock1, cutoff).Success? && Resolve(sub.date, clock2, cutoff).Success?
    requires Resolve(sub.date, clock1, cutoff).value.effective == Resolve(sub.date, clock2, cutoff).value.effective
    ensures var first := MarkAttendance(t, sub, clock1, cutoff, stamp1, false).table;
            var second := MarkAttendance(first, sub, clock2, cutoff, stamp2, false).table;
            var k := Key(sub.user, Resolve(sub.date, clock1, cutoff).value.effective);
            && second.Keys == first.Keys
            && second[k] == Record(sub.status, stamp2)
            && first[k].markedAt <= second[k].markedAt
  {
    var d := Resolve(sub.date, clock1, cutoff).value.effective;
    UpsertIdempotent(t, sub.user, d, sub.status, stamp1, stamp2);
  }

  /**
   * The same request for Monday 2024-06-10, sent at 21:00 and again at 22:00,
   * leaves two rows: the second crossed the cutoff and rolled over to Tuesday.
   */
  lemma CutoffBetweenSubmissionsAddsRow(stamp1: int, stamp2: int)
    ensures var mon: Date := Ordinal(2024, 6, 10);
            var sub := Submission(7, Some(mon), "office");
            var first := MarkAttendance(map[], sub, Clock(mon, ClockTime(21, 0, 0, 0)), HardCodedCutoff, stamp1, false).table;
            var second := MarkAttendance(first, sub, Clock(mon, ClockTime(22, 0, 0, 0)), HardCodedCutoff, stamp2, false).table;
            second == map[Key(7, mon) := Record("office", stamp1), Key(7, mon + 1) := Record("office", stamp2)]
            && |second| == 2
  {
    ScenarioOrdinals();
    ScenarioWeekdays();
    var mon: Date := Ordinal(2024, 6, 10);
    var sub := Submission(7, Some(mon), "office");
    var first := MarkAttendance(map[], sub, Clock(mon, ClockTime(21, 0, 0, 0)), HardCodedCutoff, stamp1, false).table;
    assert first == map[Key(7, mon) := Record("office", stamp1)];
    var second := MarkAttendance(first, sub, Clock(mon, ClockTime(22, 0, 0, 0)), HardCodedCutoff, stamp2, false).table;
    assert second == map[Key(7, mon) := Record("office", stamp1), Key(7, mon + 1) := Record("office", stamp2)];
    assert second.Keys == {Key(7, mon), Key(7, mon + 1)};
  }

  /** No row is dated on a Saturday or a Sunday. */
  ghost predicate NoWeekendRows(t: Table) {
    forall k :: k in t ==> !IsWeekend(k.date)
  }

  /**
   * The only way a submission can put a row on a weekend is a Friday request
   * for today after the cutoff, which rolls over to Saturday.
   */
  lemma WeekendRowOnlyFromFridayRollover(t: Table, sub: Submission, clock: Clock, cutoff: TimeOfDay, stamp: int, writeFails: bool)
    requires NoWeekendRows(t)
    ensures !NoWeekendRows(MarkAttendance(t, sub, clock, cutoff, stamp, writeFails).table) ==>
              sub.date == Some(clock.today) && Weekday(clock.today) == 4 && AfterCutoff(clock.now, cutoff)
  {
    var out := MarkAttendance(t, sub, clock, cutoff, stamp, writeFails);
    if out.reply.Success? {
      WeekendEffectiveIffFridayRollover(sub.date, clock, cutoff);
    }
  }

  /** Friday 2024-06-14 at 22:00: the request for that day is stored under Saturday 2024-06-15, and with a status no one validated. */
  lemma FridayRequestStoredOnSaturday(stamp: int)
    ensures var fri: Date := Ordinal(2024, 6, 14);
            var out := MarkAttendance(map[], Submission(7, Some(fri), "anything"), Clock(fri, ClockTime(22, 0, 0, 0)), HardCodedCutoff, stamp, false);
            && out.reply == Success(Answer("Cutoff time passed. Attendance marked for tomorrow.", fri + 1))
            && out.table == map[Key(7, fri + 1) := Record("anything", stamp)]
            && IsWeekend(fri + 1)
            && !NoWeekendRows(out.table)
  {
    FridayEveningScenario();
    var fri: Date := Ordinal(2024, 6, 14);
    var out := MarkAttendance(map[], Submission(7, Some(fri), "anything"), Clock(fri, ClockTime(22, 0, 0, 0)), HardCodedCutoff, stamp, false);
    assert Key(7, fri + 1) in out.table;
  }

  /**
   * `get_user_attendance`: the listing of `Store.UserAttendance`, or a 500
   * when the connection or the SELECT raises (`readFails`); the bounds are
   * handed to the database unparsed, so no date error is possible here.
   */
  method GetUserAttendance(t: Table, user: UserId, start: Option<Date>, end: Option<Date>, readFails: bool)
    returns (r: Result<seq<Row>, ApiError>)
    ensures r.Failure? <==> readFails
    ensures r.Failure? ==> r.error == DatabaseError
    ensures r.Success? ==> Descending(r.value)
    ensures r.Success? ==> forall x :: x in r.value ==> var k := Key(x.user, x.date); k in t && Selected(k, user, start, end) && RowOf(k, t[k]) == x
    ensures r.Success? ==> forall k :: k in t && Selected(k, user, start, end) ==> RowOf(k, t[k]) in r.value
  {
    if readFails {
      return Failure(DatabaseError);
    }
    var rows := UserAttendance(t, user, start, end);
    return Success(rows);
  }

  /** The `date_str` query parameter: omitted (or empty), or given and parsed. */
  datatype DateParam = Omitted | Given(parsed: Option<Date>)

  /** The headcount reply: which date was counted and how many rows say "office". */
  datatype CountReply = CountReply(date: Date, officeCount: nat)

  /**
   * `get_daily_office_count`: today when no date is given, otherwise the
   * parsed date, with no weekend check. The date is parsed before the
   * connection is opened, so a malformed date is reported even when the
   * database would have raised (`readFails`).
   */
  function DailyOfficeCount(t: Table, param: DateParam, today: Date, readFails: bool): (r: Result<CountReply, ApiError>)
    ensures param == Given(None) <==> r == Failure(Refused(InvalidDateFormat))
    ensures r == Failure(DatabaseError) <==> readFails && param != Given(None)
    ensures r.Success? <==> !readFails && param != Given(None)
    ensures r.Success? && param.Omitted? ==> r.value.date == today
    ensures r.Success? && param.Given? ==> r.value.date == param.parsed.value
    ensures r.Success? ==> r.value.officeCount == |set k | k in t && k.date == r.value.date && t[k].status == Office|
  {
    match param
    case Given(None) => Failure(Refused(InvalidDateFormat))
    case Given(Some(d)) => if readFails then Failure(DatabaseError) else Success(CountReply(d, OfficeCount(t, d)))
    case Omitted => if readFails then Failure(DatabaseError) else Success(CountReply(today, OfficeCount(t, today)))
  }
}
