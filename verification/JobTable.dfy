/** The jobs table as its statements read it: rows, filters, orders and limits. */
module JobTable {
  import opened Outcomes

  datatype JobState =
    | Pending | Scanning | AwaitingFlip | AwaitingNextPass | AwaitingBlankDecision | AwaitingRetry
    | ScanningReverse | Assembling | Uploading
    | JobDone | JobError | JobFallback | JobCancelled

  predicate IsActive(state: JobState) {
    !state.JobDone? && !state.JobError? && !state.JobFallback? && !state.JobCancelled?
  }

  datatype Category = Rejected | UnconfirmedSend | OtherCategory(code: nat)

  /** A row's error text: one the run gave, or what a restart writes, with where the pages were kept. */
  datatype ErrorText = Given(text: nat) | RestartReason(kept: Option<nat>) | RestartUploadingReason(kept: Option<nat>)

  /**
   * One row.  `rowid` is the order rows were inserted in; `created` is the time stamped on it,
   * which a clock set back can make smaller than an earlier row's.
   */
  datatype Row = Row(rowid: nat, id: nat, created: int, submission: nat, state: JobState, error: Option<ErrorText>,
                     category: Option<Category>, thumbnail: Option<nat>, result: Option<nat>)

  /** A row of a submit that was refused; every other row is a run. */
  predicate IsRefusal(row: Row) {
    row.category == Some(Rejected)
  }

  predicate IsRun(row: Row) {
    !IsRefusal(row)
  }

  /** Rows are in insertion order, and no two share an id. */
  ghost predicate Table(rows: seq<Row>) {
    rows == [] || (
      var rest, last := rows[..|rows| - 1], rows[|rows| - 1];
      Table(rest) && forall row | row in rest :: row.rowid < last.rowid && row.id != last.id)
  }

  lemma {:induction false} OneRowAnId(rows: seq<Row>, a: Row, b: Row)
    requires Table(rows) && a in rows && b in rows && (a.id == b.id || a.rowid == b.rowid)
    ensures a == b
  {
    var rest, last := rows[..|rows| - 1], rows[|rows| - 1];
    if a in rest && b in rest {
      OneRowAnId(rest, a, b);
    }
  }

  /** The rows a `WHERE` clause lets through, in table order. */
  function Where(rows: seq<Row>, test: Row -> bool): seq<Row> {
    if rows == [] then []
    else Where(rows[..|rows| - 1], test) + if test(rows[|rows| - 1]) then [rows[|rows| - 1]] else []
  }

  lemma {:induction false} WhereHolds(rows: seq<Row>, test: Row -> bool)
    ensures forall row :: row in Where(rows, test) <==> row in rows && test(row)
    ensures |Where(rows, test)| <= |rows|
  {
    if rows != [] {
      var rest, last := rows[..|rows| - 1], rows[|rows| - 1];
      WhereHolds(rest, test);
      forall row ensures row in Where(rows, test) <==> row in rows && test(row) {
        assert row in rows <==> row in rest || row == last;
      }
    }
  }

  lemma {:induction false} WhereTable(rows: seq<Row>, test: Row -> bool)
    requires Table(rows)
    ensures Table(Where(rows, test))
  {
    if rows != [] {
      var rest := rows[..|rows| - 1];
      WhereTable(rest, test);
      WhereHolds(rest, test);
      if test(rows[|rows| - 1]) {
        assert Where(rows, test)[..|Where(rows, test)| - 1] == Where(rest, test);
      } else {
        assert Where(rows, test) == Where(rest, test);
      }
    }
  }

  lemma {:induction false} WhereAll(rows: seq<Row>, test: Row -> bool)
    requires forall row | row in rows :: test(row)
    ensures Where(rows, test) == rows
  {
    if rows != [] {
      var rest, last := rows[..|rows| - 1], rows[|rows| - 1];
      assert last in rows;
      WhereAll(rest, test);
      assert rows == rest + [last];
    }
  }

  /** `created_at` orders rows, ties going to the row inserted last; or insertion alone does. */
  datatype Order = ByTime | ByRowid

  predicate Newer(order: Order, a: Row, b: Row) {
    match order
    case ByTime => a.created > b.created || (a.created == b.created && a.rowid > b.rowid)
    case ByRowid => a.rowid > b.rowid
  }

  /** Put one row where a descending order puts it. */
  function InsertNewest(order: Order, sorted: seq<Row>, row: Row): seq<Row> {
    if sorted == [] || Newer(order, row, sorted[0]) then [row] + sorted
    else [sorted[0]] + InsertNewest(order, sorted[1..], row)
  }

  /** `ORDER BY ... DESC`. */
  function NewestFirst(order: Order, rows: seq<Row>): seq<Row> {
    if rows == [] then [] else InsertNewest(order, NewestFirst(order, rows[..|rows| - 1]), rows[|rows| - 1])
  }

  /** `LIMIT`. */
  function Limit(rows: seq<Row>, limit: nat): seq<Row> {
    if |rows| <= limit then rows else rows[..limit]
  }

  ghost predicate Descending(order: Order, sorted: seq<Row>) {
    forall i, j :: 0 <= i < j < |sorted| ==> Newer(order, sorted[i], sorted[j])
  }

  lemma {:induction false} InsertHolds(order: Order, sorted: seq<Row>, row: Row)
    ensures multiset(InsertNewest(order, sorted, row)) == multiset(sorted) + multiset{row}
  {
    if sorted != [] && !Newer(order, row, sorted[0]) {
      InsertHolds(order, sorted[1..], row);
      assert sorted == [sorted[0]] + sorted[1..];
    }
  }

  lemma InsertOnly(order: Order, sorted: seq<Row>, row: Row, r: Row)
    requires r in InsertNewest(order, sorted, row)
    ensures r == row || r in sorted
  {
    InsertHolds(order, sorted, row);
    assert r in multiset(InsertNewest(order, sorted, row));
  }

  lemma {:induction false} InsertDescends(order: Order, sorted: seq<Row>, row: Row)
    requires Descending(order, sorted) && forall r | r in sorted :: r.rowid != row.rowid
    ensures Descending(order, InsertNewest(order, sorted, row))
  {
    if sorted == [] {
    } else if Newer(order, row, sorted[0]) {
      forall j | 0 <= j < |sorted| ensures Newer(order, row, sorted[j]) {
        assert j > 0 ==> Newer(order, sorted[0], sorted[j]);
      }
    } else {
      var rest := InsertNewest(order, sorted[1..], row);
      InsertDescends(order, sorted[1..], row);
      forall j | 0 <= j < |rest| ensures Newer(order, sorted[0], rest[j]) {
        InsertOnly(order, sorted[1..], row, rest[j]);
        assert sorted[0] in sorted;
      }
    }
  }

  lemma {:induction false} SortHolds(order: Order, rows: seq<Row>)
    requires Table(rows)
    ensures multiset(NewestFirst(order, rows)) == multiset(rows)
    ensures Descending(order, NewestFirst(order, rows))
  {
    if rows != [] {
      var rest, last := rows[..|rows| - 1], rows[|rows| - 1];
      SortHolds(order, rest);
      InsertHolds(order, NewestFirst(order, rest), last);
      assert rows == rest + [last];
      forall r | r in NewestFirst(order, rest) ensures r.rowid != last.rowid {
        assert r in multiset(rest);
      }
      InsertDescends(order, NewestFirst(order, rest), last);
    }
  }

  lemma SortSame(order: Order, rows: seq<Row>)
    requires Table(rows)
    ensures |NewestFirst(order, rows)| == |rows|
    ensures forall row :: row in NewestFirst(order, rows) <==> row in rows
  {
    SortHolds(order, rows);
    assert |multiset(NewestFirst(order, rows))| == |multiset(rows)|;
    forall row ensures row in NewestFirst(order, rows) <==> row in rows {
      assert row in NewestFirst(order, rows) <==> row in multiset(NewestFirst(order, rows));
      assert row in rows <==> row in multiset(rows);
    }
  }

  /** How many of the rows pass a test. */
  function CountIf(rows: seq<Row>, test: Row -> bool): nat {
    if rows == [] then 0 else (if test(rows[0]) then 1 else 0) + CountIf(rows[1..], test)
  }

  lemma {:induction false} CountSplits(a: seq<Row>, b: seq<Row>, test: Row -> bool)
    ensures CountIf(a + b, test) == CountIf(a, test) + CountIf(b, test)
  {
    if a == [] {
      assert a + b == b;
    } else {
      assert (a + b)[1..] == a[1..] + b;
      CountSplits(a[1..], b, test);
    }
  }

  lemma {:induction false} InsertCounts(order: Order, sorted: seq<Row>, added: Row, test: Row -> bool)
    ensures CountIf(InsertNewest(order, sorted, added), test) == CountIf(sorted, test) + if test(added) then 1 else 0
  {
    if sorted != [] && !Newer(order, added, sorted[0]) {
      InsertCounts(order, sorted[1..], added, test);
    }
  }

  /** Sorting does not change how many rows pass a test. */
  lemma {:induction false} SortCounts(order: Order, rows: seq<Row>, test: Row -> bool)
    ensures CountIf(NewestFirst(order, rows), test) == CountIf(rows, test)
  {
    if rows != [] {
      var rest, last := rows[..|rows| - 1], rows[|rows| - 1];
      SortCounts(order, rest, test);
      InsertCounts(order, NewestFirst(order, rest), last, test);
      assert rows == rest + [last];
      CountSplits(rest, [last], test);
    }
  }

  lemma {:induction false} CountAll(rows: seq<Row>, test: Row -> bool, other: Row -> bool)
    requires forall i :: 0 <= i < |rows| ==> (test(rows[i]) <==> other(rows[i]))
    ensures CountIf(rows, test) == CountIf(rows, other)
  {
    if rows != [] {
      CountAll(rows[1..], test, other);
    }
  }

  lemma {:induction false} CountWhole(rows: seq<Row>)
    ensures CountIf(rows, row => true) == |rows|
    ensures CountIf(rows, row => false) == 0
  {
    if rows != [] {
      CountWhole(rows[1..]);
    }
  }

  /** How many of the rows are newer than this one. */
  function CountNewer(order: Order, rows: seq<Row>, row: Row): nat {
    CountIf(rows, r => Newer(order, r, row))
  }

  /** In a descending list, the rows newer than one are exactly those before it. */
  lemma CountBefore(order: Order, sorted: seq<Row>, i: nat, test: Row -> bool)
    requires Descending(order, sorted) && i < |sorted|
    ensures CountIf(sorted, r => Newer(order, r, sorted[i]) && test(r)) == CountIf(sorted[..i], test)
  {
    var before, after := sorted[..i], sorted[i..];
    assert sorted == before + after;
    var newer: Row -> bool := r => Newer(order, r, sorted[i]) && test(r);
    CountSplits(before, after, newer);
    CountAll(before, newer, test);
    forall k | 0 <= k < |after| ensures !Newer(order, after[k], sorted[i]) {
      assert after[k] == sorted[i + k];
    }
    CountAll(after, newer, row => false);
    CountWhole(after);
  }

  /** And the rows older than it are exactly those after it. */
  lemma CountAfter(order: Order, sorted: seq<Row>, i: nat, test: Row -> bool)
    requires Descending(order, sorted) && i < |sorted|
    ensures CountIf(sorted, r => Newer(order, sorted[i], r) && test(r)) == CountIf(sorted[i + 1..], test)
  {
    var before, after := sorted[..i + 1], sorted[i + 1..];
    assert sorted == before + after;
    var older: Row -> bool := r => Newer(order, sorted[i], r) && test(r);
    CountSplits(before, after, older);
    CountAll(after, older, test);
    forall k | 0 <= k < |before| ensures !Newer(order, sorted[i], before[k]) {
      assert before[k] == sorted[k];
    }
    CountAll(before, older, row => false);
    CountWhole(before);
  }

  lemma RankIsPlace(order: Order, sorted: seq<Row>, i: nat)
    requires Descending(order, sorted) && i < |sorted|
    ensures CountNewer(order, sorted, sorted[i]) == i
  {
    CountBefore(order, sorted, i, row => true);
    CountWhole(sorted[..i]);
    CountAll(sorted, r => Newer(order, r, sorted[i]), r => Newer(order, r, sorted[i]) && (row => true)(r));
  }

  /** The newest rows up to a limit: `SELECT ... ORDER BY ... DESC LIMIT ?`. */
  function Newest(order: Order, rows: seq<Row>, limit: nat): seq<Row> {
    Limit(NewestFirst(order, rows), limit)
  }

  /** Where the order puts a row of the table: after exactly the rows newer than it. */
  lemma PlaceOf(order: Order, rows: seq<Row>, row: Row) returns (i: nat)
    requires Table(rows) && row in rows
    ensures i < |NewestFirst(order, rows)| && NewestFirst(order, rows)[i] == row
    ensures i == CountNewer(order, rows, row)
  {
    var sorted := NewestFirst(order, rows);
    SortHolds(order, rows);
    assert row in sorted by {
      SortSame(order, rows);
    }
    i :| 0 <= i < |sorted| && sorted[i] == row;
    RankIsPlace(order, sorted, i);
    SortCounts(order, rows, r => Newer(order, r, row));
  }

  lemma NewestAreRows(order: Order, rows: seq<Row>, limit: nat, row: Row)
    requires Table(rows) && row in Newest(order, rows, limit)
    ensures row in rows && CountNewer(order, rows, row) < limit
  {
    var sorted, newest := NewestFirst(order, rows), Newest(order, rows, limit);
    var j :| 0 <= j < |newest| && newest[j] == row;
    assert sorted[j] == row;
    SortSame(order, rows);
    SortHolds(order, rows);
    RankIsPlace(order, sorted, j);
    SortCounts(order, rows, r => Newer(order, r, row));
  }

  /** A row is among the newest exactly when fewer rows than the limit are newer than it. */
  lemma NewestIsRank(order: Order, rows: seq<Row>, limit: nat, row: Row)
    requires Table(rows)
    ensures row in Newest(order, rows, limit) <==> row in rows && CountNewer(order, rows, row) < limit
  {
    if row in Newest(order, rows, limit) {
      NewestAreRows(order, rows, limit, row);
    }
    if row in rows {
      var i := PlaceOf(order, rows, row);
      if i < limit {
        assert Newest(order, rows, limit)[i] == row;
      }
    }
  }
}
