/**
 * The `attendance` table: at most one row per (user, date), written with
 * MySQL's `INSERT ... ON DUPLICATE KEY UPDATE`, counted per date and status,
 * and listed per user newest first.
 */
module Store {

  import opened Wrappers
  import opened Calendar

  type UserId = int

  /** The table's unique key. */
  datatype Key = Key(user: UserId, date: Date)

  /** The columns a row carries besides its key: the status as submitted and when it was last marked. */
  datatype Record = Record(status: string, markedAt: int)

  /** A key can hold only one record, so the map itself is the uniqueness constraint on (user, date). */
  type Table = map<Key, Record>

  /** The status the office headcount looks for. */
  const Office: string := "office"

  /**
   * Insert the row, or overwrite status and timestamp of the row that already
   * holds the key. The status string is written as given, never validated;
   * `stamp` is the database's CURRENT_TIMESTAMP at the write.
   */
  function Upsert(t: Table, user: UserId, date: Date, status: string, stamp: int): (t': Table)
    ensures Key(user, date) in t' && t'[Key(user, date)] == Record(status, stamp)
    ensures t'.Keys == t.Keys + {Key(user, date)}
    ensures forall k :: k in t && k != Key(user, date) ==> k in t' && t'[k] == t[k]
  {
    t[Key(user, date) := Record(status, stamp)]
  }

  /** The table grows by one row exactly when the key was new. */
  lemma UpsertSize(t: Table, user: UserId, date: Date, status: string, stamp: int)
    ensures Key(user, date) in t ==> |Upsert(t, user, date, status, stamp)| == |t|
    ensures Key(user, date) !in t ==> |Upsert(t, user, date, status, stamp)| == |t| + 1
  {
    var t' := Upsert(t, user, date, status, stamp);
    if Key(user, date) in t {
      assert t'.Keys == t.Keys;
    } else {
      assert t'.Keys == t.Keys + {Key(user, date)};
      assert |t.Keys + {Key(user, date)}| == |t.Keys| + 1;
    }
  }

  /**
   * Repeating a submission leaves the single row of the first, carrying the
   * later timestamp, so a clock that does not go back makes `markedAt` non-decreasing.
   */
  lemma UpsertIdempotent(t: Table, user: UserId, date: Date, status: string, stamp1: int, stamp2: int)
    requires stamp1 <= stamp2
    ensures Upsert(Upsert(t, user, date, status, stamp1), user, date, status, stamp2) == Upsert(t, user, date, status, stamp2)
    ensures |Upsert(Upsert(t, user, date, status, stamp1), user, date, status, stamp2)| == |Upsert(t, user, date, status, stamp1)|
    ensures Upsert(t, user, date, status, stamp1)[Key(user, date)].markedAt
            <= Upsert(Upsert(t, user, date, status, stamp1), user, date, status, stamp2)[Key(user, date)].markedAt
  {
    var once := Upsert(t, user, date, status, stamp1);
    UpsertSize(once, user, date, status, stamp2);
  }

  /** Keys of the rows counted by `SELECT COUNT(*) ... WHERE date = d AND status = 'office'`. */
  function OfficeKeys(t: Table, d: Date): set<Key> {
    set k | k in t && k.date == d && t[k].status == Office
  }

  /** The office headcount for a date. */
  function OfficeCount(t: Table, d: Date): (n: nat)
    ensures n <= |t|
  {
    assert OfficeKeys(t, d) <= t.Keys;
    SubsetSize(OfficeKeys(t, d), t.Keys);
    |OfficeKeys(t, d)|
  }

  /** A subset of a finite set is no larger than it. */
  lemma {:induction false} SubsetSize(a: set<Key>, b: set<Key>)
    requires a <= b
    ensures |a| <= |b|
    decreases b
  {
    if a != {} {
      var x :| x in a;
      SubsetSize(a - {x}, b - {x});
    }
  }

  /** The headcount is zero exactly when no row of that date says "office". */
  lemma OfficeCountZeroIff(t: Table, d: Date)
    ensures OfficeCount(t, d) == 0 <==> forall k :: k in t && k.date == d ==> t[k].status != Office
  {
    if OfficeCount(t, d) != 0 {
      var k :| k in OfficeKeys(t, d);
    } else {
      forall k | k in t && k.date == d ensures t[k].status != Office {
        assert k !in OfficeKeys(t, d);
      }
    }
  }

  /** An upsert leaves the headcount of every other date alone. */
  lemma OfficeCountOtherDate(t: Table, user: UserId, date: Date, status: string, stamp: int, d: Date)
    requires d != date
    ensures OfficeCount(Upsert(t, user, date, status, stamp), d) == OfficeCount(t, d)
  {
    assert OfficeKeys(Upsert(t, user, date, status, stamp), d) == OfficeKeys(t, d);
  }

  /**
   * An upsert moves the headcount of its own date by the change of that one
   * row: minus one if it said "office", plus one if it now does.
   */
  lemma OfficeCountSameDate(t: Table, user: UserId, date: Date, status: string, stamp: int)
    ensures var before := if Key(user, date) in t && t[Key(user, date)].status == Office then 1 else 0;
            var after := if status == Office then 1 else 0;
            OfficeCount(Upsert(t, user, date, status, stamp), date) == OfficeCount(t, date) - before + after
  {
    var k := Key(user, date);
    var rest := OfficeKeys(t, date) - {k};
    assert OfficeKeys(Upsert(t, user, date, status, stamp), date) - {k} == rest;
    assert k in OfficeKeys(Upsert(t, user, date, status, stamp), date) <==> status == Office;
    assert k in OfficeKeys(t, date) <==> k in t && t[k].status == Office;
    SizeAroundKey(OfficeKeys(t, date), k);
    SizeAroundKey(OfficeKeys(Upsert(t, user, date, status, stamp), date), k);
  }

  /** A set's size is that of the set without `k`, plus one when `k` was in it. */
  lemma SizeAroundKey(ks: set<Key>, k: Key)
    ensures |ks| == |ks - {k}| + (if k in ks then 1 else 0)
  {
    if k in ks {
      assert ks == (ks - {k}) + {k};
    } else {
      assert ks == ks - {k};
    }
  }

  /** Three employees in the office and one at home on 2024-06-11 make a headcount of three. */
  lemma HeadcountScenario(stamp: int)
    ensures var d: Date := Ordinal(2024, 6, 11);
            var t := Upsert(Upsert(Upsert(Upsert(map[], 1, d, "office", stamp), 2, d, "office", stamp), 3, d, "office", stamp), 4, d, "home", stamp);
            OfficeCount(t, d) == 3
  {
    var d: Date := Ordinal(2024, 6, 11);
    var t0: Table := map[];
    assert OfficeKeys(t0, d) == {};
    var t1 := Upsert(t0, 1, d, "office", stamp);
    OfficeCountSameDate(t0, 1, d, "office", stamp);
    var t2 := Upsert(t1, 2, d, "office", stamp);
    OfficeCountSameDate(t1, 2, d, "office", stamp);
    var t3 := Upsert(t2, 3, d, "office", stamp);
    OfficeCountSameDate(t2, 3, d, "office", stamp);
    OfficeCountSameDate(t3, 4, d, "home", stamp);
  }

  /** One row of the per-user listing: `SELECT *` of the key and its record. */
  datatype Row = Row(user: UserId, date: Date, status: string, markedAt: int)

  function RowOf(k: Key, r: Record): Row {
    Row(k.user, k.date, r.status, r.markedAt)
  }

  /** Whether a key passes the listing's filter; an absent bound does not constrain. */
  predicate Selected(k: Key, user: UserId, start: Option<Date>, end: Option<Date>) {
    && k.user == user
    && (start.None? || start.value <= k.date)
    && (end.None? || k.date <= end.value)
  }

  /** Rows in strictly decreasing date order (`ORDER BY date DESC` over one user's unique dates). */
  predicate Descending(rows: seq<Row>) {
    forall i, j :: 0 <= i < j < |rows| ==> rows[i].date > rows[j].date
  }

  /** Place `r` into a newest-first listing that does not yet hold its date. */
  function InsertByDate(rows: seq<Row>, r: Row): (out: seq<Row>)
    requires Descending(rows)
    requires forall x :: x in rows ==> x.date != r.date
    ensures Descending(out)
    ensures |out| == |rows| + 1
    ensures forall x :: x in out <==> x in rows || x == r
  {
    if rows == [] then [r]
    else if r.date > rows[0].date then [r] + rows
    else
      assert forall x :: x in rows[1..] ==> x.date < rows[0].date by {
        forall x | x in rows[1..] ensures x.date < rows[0].date {
          var j :| 0 <= j < |rows[1..]| && rows[1..][j] == x;
          assert rows[j + 1] == x;
        }
      }
      [rows[0]] + InsertByDate(rows[1..], r)
  }

  /** Two newest-first listings of the same rows are the same listing: the order leaves no choice. */
  lemma {:induction false} DescendingUnique(a: seq<Row>, b: seq<Row>)
    requires Descending(a) && Descending(b)
    requires forall x :: x in a <==> x in b
    ensures a == b
  {
    if a != [] { assert a[0] in b; }
    if b != [] { assert b[0] in a; }
    if a != [] {
      var i :| 0 <= i < |a| && a[i] == b[0];
      var j :| 0 <= j < |b| && b[j] == a[0];
      assert a[0].date >= b[0].date;
      assert b[0].date >= a[0].date;
      assert j == 0;
      forall x | x in a[1..] ensures x in b[1..] {
        var p :| 1 <= p < |a| && a[p] == x;
        assert x.date < a[0].date;
        assert x in a;
        var q :| 0 <= q < |b| && b[q] == x;
        assert q != 0;
      }
      forall x | x in b[1..] ensures x in a[1..] {
        var q :| 1 <= q < |b| && b[q] == x;
        assert x.date < b[0].date;
        assert x in b;
        var p :| 0 <= p < |a| && a[p] == x;
        assert p != 0;
      }
      DescendingUnique(a[1..], b[1..]);
      assert a == [a[0]] + a[1..];
      assert b == [b[0]] + b[1..];
    }
  }

  /**
   * `get_user_attendance`: the user's rows with start <= date <= end (each
   * bound only when supplied), newest first.
   */
  method UserAttendance(t: Table, user: UserId, start: Option<Date>, end: Option<Date>) returns (rows: seq<Row>)
    ensures Descending(rows)
    ensures forall r :: r in rows ==> var k := Key(r.user, r.date); k in t && Selected(k, user, start, end) && RowOf(k, t[k]) == r
    ensures forall k :: k in t && Selected(k, user, start, end) ==> RowOf(k, t[k]) in rows
  {
    rows := [];
    var pending := t.Keys;
    while pending != {}
      invariant pending <= t.Keys
      invariant Descending(rows)
      invariant forall r :: r in rows ==> var k := Key(r.user, r.date); k in t && k !in pending && Selected(k, user, start, end) && RowOf(k, t[k]) == r
      invariant forall k :: k in t && k !in pending && Selected(k, user, start, end) ==> RowOf(k, t[k]) in rows
      decreases pending
    {
      var k :| k in pending;
      if Selected(k, user, start, end) {
        rows := InsertByDate(rows, RowOf(k, t[k]));
      }
      pending := pending - {k};
    }
  }
}
