/**
 * The daily chef notification: classifying one e-mail send, selecting the
 * recipients, and one run of `send_chef_notification` with its per-chef log
 * entries and its single commit.
 */
module Notify {

  import opened Wrappers
  import opened Calendar
  import opened Store

  /** What the mail gateway's HTTP call did: answered with a status code, or raised. */
  datatype GatewayReply = Responded(code: int) | Raised

  /** The HTTP statuses the send treats as delivered. */
  predicate Accepted(code: int) {
    code == 200 || code == 201 || code == 202
  }

  /** An API key counts as configured only when it is present and non-empty. */
  predicate KeyConfigured(apiKey: Option<string>) {
    apiKey.Some? && apiKey.value != ""
  }

  /**
   * `send_email_notification`'s return value: False without a key (the
   * gateway is then not called), True only for an accepted status, False on
   * any other status or exception.
   */
  function SendEmail(apiKey: Option<string>, reply: GatewayReply): (sent: bool)
    ensures sent ==> KeyConfigured(apiKey) && reply.Responded?
  {
    if !KeyConfigured(apiKey) then false
    else match reply
      case Raised => false
      case Responded(code) => Accepted(code)
  }

  /** A send succeeds exactly when the key is configured and the gateway answered 200, 201 or 202. */
  lemma SendEmailClassification(apiKey: Option<string>, reply: GatewayReply)
    ensures SendEmail(apiKey, reply) <==> KeyConfigured(apiKey) && reply.Responded? && reply.code in {200, 201, 202}
    ensures !KeyConfigured(apiKey) ==> !SendEmail(apiKey, reply)
    ensures reply == Raised ==> !SendEmail(apiKey, reply)
  {
  }

  /** A row of the `users` table as far as recipient selection reads it. */
  datatype User = User(id: int, email: string, name: string, role: string, active: bool)

  predicate IsActiveChef(u: User) {
    u.role == "chef" && u.active
  }

  /** `SELECT email FROM users WHERE role = 'chef' AND is_active = 1`, in directory order. */
  function ActiveChefEmails(users: seq<User>): (emails: seq<string>)
    ensures |emails| <= |users|
    ensures forall e :: e in emails <==> exists u :: u in users && IsActiveChef(u) && u.email == e
    ensures (forall u :: u in users ==> !IsActiveChef(u)) <==> emails == []
  {
    if users == [] then []
    else
      var rest := ActiveChefEmails(users[1..]);
      assert forall u :: u in users[1..] ==> u in users;
      assert forall u :: u in users ==> u == users[0] || u in users[1..];
      if IsActiveChef(users[0]) then [users[0].email] + rest else rest
  }

  /** Selection distributes over concatenation: each part keeps its own chefs, in order. */
  lemma {:induction false} ActiveChefEmailsConcat(a: seq<User>, b: seq<User>)
    ensures ActiveChefEmails(a + b) == ActiveChefEmails(a) + ActiveChefEmails(b)
  {
    if a == [] {
      assert a + b == b;
    } else {
      assert (a + b)[1..] == a[1..] + b;
      ActiveChefEmailsConcat(a[1..], b);
    }
  }

  /**
   * One more directory row adds its address at the end exactly when it is an
   * active chef: one address per active-chef row, in directory order.
   */
  lemma ActiveChefEmailsAppend(users: seq<User>, u: User)
    ensures ActiveChefEmails(users + [u]) == ActiveChefEmails(users) + (if IsActiveChef(u) then [u.email] else [])
  {
    ActiveChefEmailsConcat(users, [u]);
    assert [u][1..] == [];
  }

  /** Two active chef rows sharing an address are both selected, so that address gets two send attempts. */
  lemma SharedAddressListedTwice()
    ensures ActiveChefEmails([User(1, "a@x", "A", "chef", true), User(2, "a@x", "B", "chef", true)]) == ["a@x", "a@x"]
    ensures ActiveChefEmails([User(1, "a@x", "A", "chef", true), User(2, "b@x", "B", "chef", false),
                              User(3, "c@x", "C", "employee", true)]) == ["a@x"]
  {
  }

  datatype DeliveryStatus = Sent | Failed

  /** One row of the `notifications` table. */
  datatype LogEntry = LogEntry(kind: string, recipient: string, content: string, officeCount: nat, status: DeliveryStatus)

  const DailyCount: string := "daily_count"

  /** The entry the loop builds for one chef. */
  function EntryFor(email: string, body: string, count: nat, sent: bool): LogEntry {
    LogEntry(DailyCount, email, body, count, if sent then Sent else Failed)
  }

  /**
   * The loop over the chefs: send to each in turn, and build its log entry
   * from that send's result. `replies[i]` is the gateway's behaviour for the i-th chef.
   */
  function BuildEntries(emails: seq<string>, replies: seq<GatewayReply>, apiKey: Option<string>, body: string, count: nat): (log: seq<LogEntry>)
    requires |replies| == |emails|
    ensures |log| == |emails|
    ensures forall i :: 0 <= i < |log| ==>
              && log[i].kind == DailyCount
              && log[i].recipient == emails[i]
              && log[i].content == body
              && log[i].officeCount == count
              && (log[i].status == Sent <==> SendEmail(apiKey, replies[i]))
  {
    if emails == [] then []
    else [EntryFor(emails[0], body, count, SendEmail(apiKey, replies[0]))]
         + BuildEntries(emails[1..], replies[1..], apiKey, body, count)
  }

  /** Number of entries marked "sent". */
  function SentCount(log: seq<LogEntry>): nat {
    if log == [] then 0 else (if log[0].status == Sent then 1 else 0) + SentCount(log[1..])
  }

  /** Number of replies the gateway accepted. */
  function AcceptedCount(replies: seq<GatewayReply>): nat {
    if replies == [] then 0
    else (if replies[0].Responded? && Accepted(replies[0].code) then 1 else 0) + AcceptedCount(replies[1..])
  }

  /** With a key, as many entries say "sent" as the gateway accepted; without one, none does. */
  lemma {:induction false} SentCountMatchesGateway(emails: seq<string>, replies: seq<GatewayReply>, apiKey: Option<string>, body: string, count: nat)
    requires |replies| == |emails|
    ensures SentCount(BuildEntries(emails, replies, apiKey, body, count)) ==
              if KeyConfigured(apiKey) then AcceptedCount(replies) else 0
  {
    if emails != [] {
      var log := BuildEntries(emails, replies, apiKey, body, count);
      SentCountMatchesGateway(emails[1..], replies[1..], apiKey, body, count);
      assert log[1..] == BuildEntries(emails[1..], replies[1..], apiKey, body, count);
    }
  }

  /** One chef's gateway failure changes that chef's entry and no other. */
  lemma FailureIsolation(emails: seq<string>, replies: seq<GatewayReply>, apiKey: Option<string>, body: string, count: nat, j: nat, other: GatewayReply)
    requires |replies| == |emails| && j < |emails|
    ensures var a := BuildEntries(emails, replies, apiKey, body, count);
            var b := BuildEntries(emails, replies[j := other], apiKey, body, count);
            |a| == |b| && forall i :: 0 <= i < |a| && i != j ==> a[i] == b[i]
  {
  }

  /** Where a database error is raised during a run, if one is. */
  datatype FaultPoint =
    | Connect            // get_db_connection, before the try block
    | CountQuery         // the office-count SELECT
    | ChefQuery          // the chef SELECT
    | LogInsert(index: nat)  // the INSERT of the index-th chef's entry
    | Commit             // the single commit after the loop

  /** How a run ended. */
  datatype RunEnd = SkippedWeekend | NoChefs | Committed | Uncommitted | Escaped

  /**
   * A run's effect: the addresses whose send was attempted (in order; an
   * attempt without a key or with a refused reply delivers nothing), the entries that reached
   * the `notifications` table, and how it ended.
   */
  datatype Run = Run(attempted: seq<string>, persisted: seq<LogEntry>, end: RunEnd)

  /**
   * `send_chef_notification` on day `today`. A fault inside the try block is
   * caught and logged; the commit is then skipped and the closed connection
   * discards every entry inserted so far. A connection fault escapes the function.
   */
  function Dispatch(today: Date, t: Table, users: seq<User>, apiKey: Option<string>,
                    replies: seq<GatewayReply>, body: string, fault: Option<FaultPoint>): (run: Run)
    requires |replies| == |ActiveChefEmails(users)|
    ensures IsWeekend(today) ==> run == Run([], [], SkippedWeekend)
    ensures ActiveChefEmails(users) == [] ==> run.attempted == [] && run.persisted == []
    ensures run.persisted == [] || run.persisted == BuildEntries(ActiveChefEmails(users), replies, apiKey, body, OfficeCount(t, today))
    ensures run.persisted != [] <==> run.end == Committed
    ensures run.end == Committed <==>
              !IsWeekend(today) && ActiveChefEmails(users) != []
              && (fault.None? || (fault.value.LogInsert? && fault.value.index >= |ActiveChefEmails(users)|))
    ensures run.attempted <= ActiveChefEmails(users)
    ensures run.end == Committed ==> run.attempted == ActiveChefEmails(users)
    ensures run.end == Uncommitted && fault.Some? && fault.value.LogInsert? ==> |run.attempted| == fault.value.index + 1
    ensures run.end == SkippedWeekend <==> IsWeekend(today)
    ensures run.end == Escaped <==> !IsWeekend(today) && fault == Some(Connect)
    ensures run.end == NoChefs <==>
              !IsWeekend(today) && ActiveChefEmails(users) == []
              && fault != Some(Connect) && fault != Some(CountQuery) && fault != Some(ChefQuery)
    ensures fault == Some(Connect) || fault == Some(CountQuery) || fault == Some(ChefQuery) ==>
              run.attempted == [] && run.persisted == []
    ensures !IsWeekend(today) && fault == Some(Commit) ==>
              run.attempted == ActiveChefEmails(users) && run.persisted == []
  {
    if IsWeekend(today) then Run([], [], SkippedWeekend)
    else if fault == Some(Connect) then Run([], [], Escaped)
    else if fault == Some(CountQuery) then Run([], [], Uncommitted)
    else
      var count := OfficeCount(t, today);
      if fault == Some(ChefQuery) then Run([], [], Uncommitted)
      else
        var chefs := ActiveChefEmails(users);
        if chefs == [] then Run([], [], NoChefs)
        else
          var entries := BuildEntries(chefs, replies, apiKey, body, count);
          match fault
          case Some(LogInsert(i)) =>
            if i < |chefs| then Run(chefs[..i + 1], [], Uncommitted) else Run(chefs, entries, Committed)
          case Some(Commit) => Run(chefs, [], Uncommitted)
          case _ => Run(chefs, entries, Committed)
  }

  /** Without database faults on a business day, every chef gets one send attempt, in order, and is logged with the day's headcount. */
  lemma FaultFreeRunLogsEveryChef(today: Date, t: Table, users: seq<User>, apiKey: Option<string>, replies: seq<GatewayReply>, body: string)
    requires |replies| == |ActiveChefEmails(users)|
    requires !IsWeekend(today) && ActiveChefEmails(users) != []
    ensures var run := Dispatch(today, t, users, apiKey, replies, body, None);
            var chefs := ActiveChefEmails(users);
            && run.end == Committed
            && run.attempted == chefs
            && |run.persisted| == |chefs|
            && forall i :: 0 <= i < |chefs| ==>
                 run.persisted[i].recipient == chefs[i]
                 && run.persisted[i].officeCount == OfficeCount(t, today)
                 && (run.persisted[i].status == Sent <==> KeyConfigured(apiKey) && replies[i].Responded? && Accepted(replies[i].code))
  {
  }

  /** A run commits all of its entries or none of them. */
  lemma AllOrNothing(today: Date, t: Table, users: seq<User>, apiKey: Option<string>, replies: seq<GatewayReply>, body: string, fault: Option<FaultPoint>)
    requires |replies| == |ActiveChefEmails(users)|
    ensures var run := Dispatch(today, t, users, apiKey, replies, body, fault);
            run.persisted == [] || |run.persisted| == |ActiveChefEmails(users)|
  {
  }

  /** A failed insert of the i-th entry loses the whole run's log although sends to i + 1 chefs were already attempted. */
  lemma InsertFaultLosesAttemptedEntries(today: Date, t: Table, users: seq<User>, apiKey: Option<string>, replies: seq<GatewayReply>, body: string, i: nat)
    requires |replies| == |ActiveChefEmails(users)|
    requires !IsWeekend(today) && i < |ActiveChefEmails(users)|
    ensures var run := Dispatch(today, t, users, apiKey, replies, body, Some(LogInsert(i)));
            run.persisted == [] && |run.attempted| == i + 1 && run.end == Uncommitted
  {
  }

  /** A failed commit loses the whole run's log although a send to every chef was already attempted. */
  lemma CommitFaultLosesAttemptedEntries(today: Date, t: Table, users: seq<User>, apiKey: Option<string>, replies: seq<GatewayReply>, body: string)
    requires |replies| == |ActiveChefEmails(users)|
    requires !IsWeekend(today) && ActiveChefEmails(users) != []
    ensures var run := Dispatch(today, t, users, apiKey, replies, body, Some(Commit));
            run.persisted == [] && run.attempted == ActiveChefEmails(users) && run.end == Uncommitted
  {
  }

  /** A fault before the loop (connection, headcount or chef query) attempts no send and logs nothing. */
  lemma FaultBeforeLoopAttemptsNobody(today: Date, t: Table, users: seq<User>, apiKey: Option<string>, replies: seq<GatewayReply>, body: string, fault: FaultPoint)
    requires |replies| == |ActiveChefEmails(users)|
    requires fault == Connect || fault == CountQuery || fault == ChefQuery
    ensures var run := Dispatch(today, t, users, apiKey, replies, body, Some(fault));
            run.attempted == [] && run.persisted == []
            && (run.end == Escaped <==> !IsWeekend(today) && fault == Connect)
  {
  }

  /** Three active chefs, the second one's send rejected with 500: two "sent" entries and one "failed". */
  lemma ThreeChefsOneFailure(today: Date, t: Table, body: string)
    requires !IsWeekend(today)
    ensures var users := [User(1, "a@x", "A", "chef", true), User(2, "b@x", "B", "chef", true),
                          User(3, "c@x", "C", "chef", true), User(4, "e@x", "E", "employee", true)];
            var replies := [Responded(200), Responded(500), Responded(202)];
            var run := Dispatch(today, t, users, Some("key"), replies, body, None);
            && run.end == Committed
            && |run.persisted| == 3
            && SentCount(run.persisted) == 2
            && run.persisted[1].status == Failed
  {
    var users := [User(1, "a@x", "A", "chef", true), User(2, "b@x", "B", "chef", true),
                  User(3, "c@x", "C", "chef", true), User(4, "e@x", "E", "employee", true)];
    var replies := [Responded(200), Responded(500), Responded(202)];
    assert ActiveChefEmails(users) == ["a@x", "b@x", "c@x"];
    var chefs := ActiveChefEmails(users);
    SentCountMatchesGateway(chefs, replies, Some("key"), body, OfficeCount(t, today));
    assert AcceptedCount(replies) == 2;
  }

  /** Without an API key (absent or empty) every entry of a committed run says "failed". */
  lemma MissingKeyFailsEveryone(today: Date, t: Table, users: seq<User>, apiKey: Option<string>, replies: seq<GatewayReply>, body: string, fault: Option<FaultPoint>)
    requires |replies| == |ActiveChefEmails(users)|
    requires !KeyConfigured(apiKey)
    ensures var run := Dispatch(today, t, users, apiKey, replies, body, fault);
            forall e :: e in run.persisted ==> e.status == Failed
  {
  }
}
