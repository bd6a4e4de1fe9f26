# Lunch attendance and chef notification — a Dafny model

The lunch management server lets employees mark, per day, whether they will
be in the office, at home or on leave, and once per business day mails the
office headcount to every active chef. This project models the server's core
logic and proves its properties:

- the **cutoff resolver** inside `mark_attendance`. It refuses malformed and
  weekend dates. A request for today after the cutoff rolls over to tomorrow.
- the **attendance table**: an upsert keyed by (user, date), the office
  headcount of a date, and a user's listing newest first.
- the **chef notification run** `send_chef_notification`. It skips weekends,
  counts the office rows, selects the active chefs and attempts a send to each. It
  logs one entry per chef and commits once after the loop.
- the **send classification** of `send_email_notification`.

Modules: `Wrappers` (Option/Result), `Calendar` (day numbers, weekdays, times
of day), `Cutoff` (the date decision), `Store` (the table), `Endpoints` (the
three attendance requests as a whole), `Notify` (classification, recipients,
dispatch).

Modelling choices:

- Dates are Python's proleptic day numbers, 1 = 0001-01-01 up to
  3652059 = 9999-12-31. The weekday is `(n + 6) % 7`, Monday = 0, as
  `date.weekday()` numbers it.
- A time of day counts microseconds since midnight. The cutoff is a parameter.
  `HardCodedCutoff` is the 21:30:00.000000 the code hard-codes. The code's own
  comment says 9:30 AM; the model follows the code.
- The clock is one reading `Clock(today, now)`. Row timestamps are passed in as
  `stamp`. `strptime` is modelled as an already-parsed `Option<Date>`, where
  `None` is the 400 "Invalid date format" answer.
- The mail gateway is an oracle `seq<GatewayReply>`, one reply per chef: an
  HTTP status, or `Raised`. Database errors are an oracle `Option<FaultPoint>`:
  the connection, one of the two SELECTs, the i-th log INSERT, or the commit.

Behaviours of the code worth knowing, each stated by a member:

- Only the requested date is checked for the weekend, so a Friday request
  after the cutoff stores a Saturday row (`FridayRequestStoredOnSaturday`,
  `WeekendRowOnlyFromFridayRollover`).
- All log entries of a run are committed once, after the loop. An error on
  the i-th INSERT or on the commit loses the whole run's entries, although
  sends to those chefs were already attempted (`InsertFaultLosesAttemptedEntries`,
  `CommitFaultLosesAttemptedEntries`). An attempt delivers mail only when
  `SendEmail` returns True.
- The status string is stored as given. It is never validated against
  office/home/leave.
- A missing key warns once per chef. Log messages are not modelled.

## Model

| member | source | states |
|---|---|---|
| Calendar.Weekday | backend_server.py:114-116 | weekday numbering lies in 0..6 with day 1 (0001-01-01) a Monday; weekend means weekday 5 or 6 |
| Calendar.IsWeekend | backend_server.py:114-116 | a date is a weekend exactly when its weekday is 5 or 6; characterised through `Weekday`, `WeekendRejectedAtAnyTime` and `LastDateIsFriday` |
| Calendar.NextDay | backend_server.py:190 | `today + timedelta(days=1)` exists exactly below 9999-12-31; it is the next day number and the next weekday, cyclically |
| Calendar.ClockTime | backend_server.py:121 | a time of day `h:m:s.us` is the microsecond count whose whole seconds are `(h*60+m)*60+s` and whose remainder is `us` |
| Calendar.LastDateIsFriday | backend_server.py:190 | the last representable date is a Friday, so it passes the weekend check and can reach the overflowing rollover |
| Cutoff.AfterCutoff | backend_server.py:118-122 | strictly later than the cutoff on the same day; pinned at the boundary by `HardCodedCutoffBoundary` |
| Cutoff.NoticeText | backend_server.py:191-193 | the two success messages, each non-empty |
| Cutoff.NoticeTextDistinct | backend_server.py:191-193 | the rollover message differs from the plain one, so the answer tells whether the date moved |
| Cutoff.Resolve | backend_server.py:176-193 | missing date ⇔ InvalidDateFormat; weekend requested date ⇔ WeekendRejected, whatever the clock; today after the cutoff rolls over to today+1 with the "cutoff passed" message, or fails with overflow on the last date; every other accepted date is kept with the "marked" message |
| Cutoff.WeekendRejectedAtAnyTime | backend_server.py:183-184 | a weekend date gets the same refusal under every clock and cutoff |
| Cutoff.OtherDayKeepsDate | backend_server.py:188-193 | a past or future weekday is stored as requested, whatever the time |
| Cutoff.TodayBeforeCutoffKeepsDate | backend_server.py:187-193 | today at or before the cutoff instant is stored as today |
| Cutoff.TodayAfterCutoffRollsOver | backend_server.py:187-191 | today strictly after the cutoff is stored as tomorrow, and a Friday rolls over to a weekend day |
| Cutoff.WeekendEffectiveIffFridayRollover | backend_server.py:183-191 | an accepted date lands on a weekend if and only if it was a Friday request for today after the cutoff, and then it lands on Saturday |
| Cutoff.HardCodedCutoffBoundary | backend_server.py:118-122 | with the hard-coded 21:30 cutoff, 21:30:00.000000 is still on time and 21:30:00.000001 is late |
| Cutoff.MondayEveningScenario | backend_server.py:187-191 | Monday 2024-06-10 at 21:45: a request for that day is stored for 2024-06-11 with the rollover message |
| Cutoff.FridayEveningScenario | backend_server.py:183-191 | Friday 2024-06-14 at 22:00: a request for that day is stored for Saturday 2024-06-15 |
| Store.Upsert | backend_server.py:199-204 | after the write the key holds the new status and timestamp; the key set gains only that key; every other row is unchanged |
| Store.UpsertSize | backend_server.py:199-204 | the table gains a row exactly when the key was new |
| Store.UpsertIdempotent | backend_server.py:199-204 | repeating a write equals writing once with the later timestamp, adds no row, and never moves `marked_at` backwards |
| Store.OfficeKeys | backend_server.py:254-259 | the rows the headcount query counts; characterised by `OfficeCountZeroIff`, `OfficeCountSameDate` and `OfficeCountOtherDate` |
| Store.OfficeCount | backend_server.py:254-259 | the headcount of a date, never more than the table's row count |
| Store.OfficeCountZeroIff | backend_server.py:254-259 | the headcount is 0 if and only if no row of that date says "office" |
| Store.OfficeCountOtherDate | backend_server.py:254-259 | an upsert leaves the headcount of every other date unchanged |
| Store.OfficeCountSameDate | backend_server.py:254-259 | an upsert changes its own date's headcount by the change of that one row: minus one if it said "office", plus one if it now does |
| Store.HeadcountScenario | backend_server.py:254-259 | three "office" writes and one "home" write for 2024-06-11 give a headcount of 3 |
| Store.InsertByDate | backend_server.py:231 | inserting a row with a new date into a newest-first listing keeps it newest-first and adds exactly that row |
| Store.DescendingUnique | backend_server.py:231 | two newest-first listings of the same rows are equal, so `ORDER BY date DESC` fixes the order |
| Store.UserAttendance | backend_server.py:220-236 | the listing is strictly newest-first, holds only that user's stored rows within the supplied bounds, and holds every such row |
| Endpoints.HttpStatus | backend_server.py:177-212 | malformed and weekend dates are answered with 400; the overflowing rollover and database errors with 500 |
| Endpoints.MarkAttendance | backend_server.py:174-212 | a refused or failed request leaves the table unchanged; a refusal carries the resolver's reason; a successful one answers the resolver's message and effective date, plus one upsert under that date with the unvalidated status; a database error after a successful decision answers DatabaseError |
| Endpoints.WeekendSubmissionWritesNothing | backend_server.py:182-184 | a weekend request is refused with 400 before any write |
| Endpoints.ResubmissionKeepsOneRow | backend_server.py:186-204 | two submissions of one request whose clock readings resolve to the same effective date leave one row, with the second status and timestamp |
| Endpoints.CutoffBetweenSubmissionsAddsRow | backend_server.py:186-204 | the same Monday request at 21:00 and again at 22:00 leaves two rows, for Monday and for Tuesday, because the cutoff passed in between |
| Endpoints.WeekendRowOnlyFromFridayRollover | backend_server.py:183-190 | from a table without weekend rows, a request creates one only as a Friday request for today after the cutoff |
| Endpoints.FridayRequestStoredOnSaturday | backend_server.py:186-202 | a Friday 22:00 request stores a row under Saturday, with the status as given |
| Endpoints.GetUserAttendance | backend_server.py:214-239 | a database error answers DatabaseError; otherwise the listing is strictly newest-first, sound and complete for the user and the supplied bounds |
| Endpoints.DailyOfficeCount | backend_server.py:241-268 | an unparsable date answers InvalidDateFormat even when the database would fail; otherwise a database error answers DatabaseError; no date counts today and a given date counts that date, with no weekend check; the count is the number of "office" rows of that date |
| Notify.SendEmailClassification | backend_server.py:337-369 | a send succeeds if and only if the key is present and non-empty and the gateway answered 200, 201 or 202; a missing key or an exception means failure |
| Notify.SendEmail | backend_server.py:337-369 | a True result needs a configured key and a gateway answer; the full classification is `SendEmailClassification` |
| Notify.ActiveChefEmails | backend_server.py:390-391 | an address is selected if and only if some user with it is an active chef; the result is empty if and only if there is no active chef; order and multiplicity via `ActiveChefEmailsAppend` |
| Notify.ActiveChefEmailsConcat | backend_server.py:390-391 | selecting from two concatenated directories gives the two selections concatenated |
| Notify.ActiveChefEmailsAppend | backend_server.py:390-391 | a directory row adds its address at the end exactly when it is an active chef: one address per active-chef row, in directory order |
| Notify.SharedAddressListedTwice | backend_server.py:390-391 | two active chef rows with one address are both selected, so that address gets two send attempts; inactive and non-chef rows are not |
| Notify.BuildEntries | backend_server.py:409-417 | one entry per chef in order, each of type daily_count with the run's body and headcount, "sent" exactly when that chef's send returned True |
| Notify.SentCountMatchesGateway | backend_server.py:409-417 | with a key, the number of "sent" entries equals the number of accepted replies; without one it is 0 |
| Notify.FailureIsolation | backend_server.py:409-417 | changing one chef's gateway reply changes no other chef's entry |
| Notify.Dispatch | backend_server.py:372-429 | a weekend run does nothing and is the only SkippedWeekend; only a connection fault escapes; a fault before the loop attempts no send; no chefs means no attempt and no entries; entries persist all together or not at all, exactly when no fault struck before the loop ended or at the commit; sends are attempted for a prefix of the chefs, all of them when committed or when the commit fails, i+1 of them when the i-th insert fails |
| Notify.FaultFreeRunLogsEveryChef | backend_server.py:380-420 | a fault-free business-day run attempts a send to every chef in order and commits one entry per chef with the day's headcount, "sent" exactly for a configured key and an accepted reply |
| Notify.AllOrNothing | backend_server.py:414-429 | a run persists either none of its entries or one per chef |
| Notify.InsertFaultLosesAttemptedEntries | backend_server.py:409-429 | an error on the i-th insert persists nothing although sends to i+1 chefs were attempted |
| Notify.CommitFaultLosesAttemptedEntries | backend_server.py:409-429 | a failed commit persists nothing although a send to every chef was attempted |
| Notify.FaultBeforeLoopAttemptsNobody | backend_server.py:380-391 | a fault at the connection or either SELECT attempts no send and logs nothing, and only the connection fault escapes |
| Notify.ThreeChefsOneFailure | backend_server.py:409-417 | three chefs with one rejected send give three entries, two "sent" and the rejected one "failed" |
| Notify.MissingKeyFailsEveryone | backend_server.py:340-343 | with the key absent or empty, every persisted entry says "failed" |

## Left out

- The scheduler (`BackgroundScheduler`, the `CronTrigger` at 18:57 Mon–Fri, startup and shutdown hooks) is library behaviour and is not modelled. Its concurrency and overlap rules are not modelled either.
- Login, registration and password hashing are authentication, outside this core.
- The admin reports and the user listing are SQL aggregation over the same table. They are outside this core.
- `streamlit_app.py` is the dashboard and an HTTP client. Its display-only cutoff banner is not modelled.
- `strptime` parsing and `str(date)` formatting are not modelled. Dates arrive parsed, and replies carry day numbers instead of strings.
- The listing's `start_date`/`end_date` arrive as parsed dates. An empty string counts as absent, as `if start_date:` treats it. MySQL's coercion of a malformed bound string is not modelled.
- The row id, the user foreign key and the table schema are not visible in the source. The unique (user, date) key that `ON DUPLICATE KEY UPDATE` relies on is assumed. A failed write is covered by the `writeFails` flag, a failed read by `readFails`.
- The INSERT does not set `marked_at`, yet `Upsert` stores `stamp` on a new row too: the column's default is assumed to be CURRENT_TIMESTAMP.
- Status and role strings compare by exact equality. The column collation (often case-insensitive in MySQL) is not visible.
- `date.today()` and `datetime.now()` are separate clock reads in the source. They are merged into one `Clock`, so the midnight race between them is not modelled.
- The headcount reply's `message` text ("N employees will be in office today") is not modelled; the reply carries the date and the count it is built from.
- The Brevo HTTP request, the mail subject and body text are not modelled: the body is an opaque parameter. `datetime.now()` in the body and all logger output are left out as well.
- The chef query has no `ORDER BY`. The model mails chefs in directory order.
- The gateway call sets no timeout, so a hanging call would stall the run. The oracle only offers replies and exceptions.
