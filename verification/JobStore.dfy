/** The job store: one table, two partitions with caps of their own, and restart recovery. */
module JobStore {
  import opened Outcomes
  import opened JobTable

  const REJECTED_HISTORY_ROWS: nat := 20

  function Ids(rows: seq<Row>): set<nat> {
    set row | row in rows :: row.id
  }

  /** The rows of a table with a change made to those that match. */
  function SetWhere(rows: seq<Row>, test: Row -> bool, change: Row -> Row): seq<Row> {
    if rows == [] then []
    else
      var last := rows[|rows| - 1];
      SetWhere(rows[..|rows| - 1], test, change) + [if test(last) then change(last) else last]
  }

  function WithId(id: nat): Row -> bool {
    (row: Row) => row.id == id
  }

  function InState(state: JobState): Row -> bool {
    (row: Row) => row.state == state
  }

  /** The columns `update_state` sets, and those `finish_job` does. */
  function Moved(state: JobState, error: Option<ErrorText>, category: Option<Category>): Row -> Row {
    (row: Row) => row.(state := state, error := error, category := category)
  }

  function Ended(state: JobState, error: Option<ErrorText>, category: Option<Category>, result: Option<nat>): Row -> Row {
    (row: Row) => row.(state := state, error := error, category := category, result := result)
  }

  /** A change of a row's other columns: its place and its id stay. */
  ghost predicate KeepsPlace(change: Row -> Row) {
    forall row :: change(row).rowid == row.rowid && change(row).id == row.id
  }

  lemma {:induction false} SetHolds(rows: seq<Row>, test: Row -> bool, change: Row -> Row)
    ensures |SetWhere(rows, test, change)| == |rows|
    ensures forall i :: 0 <= i < |rows| ==> SetWhere(rows, test, change)[i] == if test(rows[i]) then change(rows[i]) else rows[i]
  {
    if rows != [] {
      SetHolds(rows[..|rows| - 1], test, change);
    }
  }

  lemma {:induction false} SetTable(rows: seq<Row>, test: Row -> bool, change: Row -> Row)
    requires Table(rows) && KeepsPlace(change)
    ensures Table(SetWhere(rows, test, change))
  {
    if rows != [] {
      var rest, last := rows[..|rows| - 1], rows[|rows| - 1];
      SetTable(rest, test, change);
      SetHolds(rest, test, change);
      var set' := SetWhere(rows, test, change);
      assert set'[..|set'| - 1] == SetWhere(rest, test, change);
      forall row | row in SetWhere(rest, test, change) ensures row.rowid < last.rowid && row.id != last.id {
        var i :| 0 <= i < |rest| && SetWhere(rest, test, change)[i] == row;
        assert rest[i] in rest;
      }
    }
  }

  /** A change that makes no row a refusal makes no more refusals. */
  lemma {:induction false} SetRefusals(rows: seq<Row>, test: Row -> bool, change: Row -> Row)
    requires forall row :: IsRefusal(change(row)) ==> IsRefusal(row)
    ensures CountIf(SetWhere(rows, test, change), IsRefusal) <= CountIf(rows, IsRefusal)
  {
    if rows != [] {
      var rest, last := rows[..|rows| - 1], rows[|rows| - 1];
      SetRefusals(rest, test, change);
      assert rows == rest + [last];
      CountSplits(rest, [last], IsRefusal);
      CountSplits(SetWhere(rest, test, change), [if test(last) then change(last) else last], IsRefusal);
    }
  }

  /**
   * `update_state` trims nothing: recording a refusal through it adds one for each run it turns
   * into one, so the cap holds afterwards exactly when there was room for them.
   */
  lemma {:induction false} RefusingAddsOne(rows: seq<Row>, id: nat, state: JobState, error: Option<ErrorText>)
    ensures CountIf(SetWhere(rows, WithId(id), Moved(state, error, Some(Rejected))), IsRefusal)
         == CountIf(rows, IsRefusal) + CountIf(rows, (row: Row) => row.id == id && IsRun(row))
  {
    if rows != [] {
      var rest, last := rows[..|rows| - 1], rows[|rows| - 1];
      var change, added := Moved(state, error, Some(Rejected)), (row: Row) => row.id == id && IsRun(row);
      RefusingAddsOne(rest, id, state, error);
      assert rows == rest + [last];
      CountSplits(rest, [last], IsRefusal);
      CountSplits(rest, [last], added);
      CountSplits(SetWhere(rest, WithId(id), change), [if last.id == id then change(last) else last], IsRefusal);
    }
  }

  /** The ids `_NEWEST_REJECTED_IDS` selects: the refusals written last, whatever the clock said. */
  function NewestRefusals(rows: seq<Row>): seq<Row> {
    Newest(ByRowid, Where(rows, IsRefusal), REJECTED_HISTORY_ROWS)
  }

  /** `_TRIM_REJECTED`. */
  function Trimmed(rows: seq<Row>): seq<Row> {
    var kept := Ids(NewestRefusals(rows));
    Where(rows, row => !(IsRefusal(row) && row.id !in kept))
  }

  /** The row `_PRUNE`'s `WHERE` does not match. */
  predicate Outlives(row: Row, cutoff: int, runs: set<nat>, refusals: set<nat>) {
    !(row.created < cutoff || (IsRun(row) && row.id !in runs) || (IsRefusal(row) && row.id !in refusals))
  }

  /** `_PRUNE`. */
  function Pruned(rows: seq<Row>, cutoff: int, maxRows: nat): seq<Row> {
    var runs := Ids(Newest(ByTime, Where(rows, IsRun), maxRows));
    var refusals := Ids(NewestRefusals(rows));
    Where(rows, row => Outlives(row, cutoff, runs, refusals))
  }

  /** An id selected from rows of the table names the row it was read from. */
  lemma IdsName(rows: seq<Row>, selected: seq<Row>, row: Row)
    requires Table(rows) && row in rows && forall r | r in selected :: r in rows
    ensures row.id in Ids(selected) <==> row in selected
  {
    if row.id in Ids(selected) {
      var r :| r in selected && r.id == row.id;
      OneRowAnId(rows, r, row);
    }
  }

  /** One of the newest rows that pass a test, by rank among them. */
  lemma SelectedByRank(rows: seq<Row>, order: Order, test: Row -> bool, limit: nat, row: Row)
    requires Table(rows) && row in rows && test(row)
    ensures row.id in Ids(Newest(order, Where(rows, test), limit)) <==> CountNewer(order, Where(rows, test), row) < limit
  {
    var partition := Where(rows, test);
    WhereTable(rows, test);
    WhereHolds(rows, test);
    NewestIsRank(order, partition, limit, row);
    forall r | r in Newest(order, partition, limit) ensures r in rows {
      NewestIsRank(order, partition, limit, r);
    }
    IdsName(rows, Newest(order, partition, limit), row);
  }

  /**
   * The survivors of a prune, exactly: the rows not past the cutoff that lie among the newest
   * `maxRows` runs by time, or among the newest 20 refusals by insertion.  A row's fate depends
   * on its own partition alone.
   */
  lemma PruneSurvivors(rows: seq<Row>, cutoff: int, maxRows: nat, row: Row)
    requires Table(rows)
    ensures row in Pruned(rows, cutoff, maxRows) <==>
              && row in rows
              && row.created >= cutoff
              && if IsRefusal(row) then CountNewer(ByRowid, Where(rows, IsRefusal), row) < REJECTED_HISTORY_ROWS
                 else CountNewer(ByTime, Where(rows, IsRun), row) < maxRows
  {
    var runs := Ids(Newest(ByTime, Where(rows, IsRun), maxRows));
    var refusals := Ids(NewestRefusals(rows));
    WhereHolds(rows, row => Outlives(row, cutoff, runs, refusals));
    if row in rows {
      if IsRefusal(row) {
        SelectedByRank(rows, ByRowid, IsRefusal, REJECTED_HISTORY_ROWS, row);
      } else {
        SelectedByRank(rows, ByTime, IsRun, maxRows, row);
      }
    }
  }

  /** Neither partition evicts the other: pruning runs as if there were no refusals, and the converse. */
  lemma PartitionsApart(rows: seq<Row>, cutoff: int, maxRows: nat, row: Row)
    requires Table(rows)
    ensures row in Pruned(rows, cutoff, maxRows) <==>
              row in Pruned(Where(rows, if IsRefusal(row) then IsRefusal else IsRun), cutoff, maxRows)
  {
    var test: Row -> bool := if IsRefusal(row) then IsRefusal else IsRun;
    var own := Where(rows, test);
    WhereTable(rows, test);
    WhereHolds(rows, test);
    WhereAll(own, test);
    PruneSurvivors(rows, cutoff, maxRows, row);
    PruneSurvivors(own, cutoff, maxRows, row);
  }

  /** A trim keeps every run, and the refusals fewer than 20 others were written after. */
  lemma TrimSurvivors(rows: seq<Row>, row: Row)
    requires Table(rows)
    ensures row in Trimmed(rows) <==>
              row in rows && (IsRefusal(row) ==> CountNewer(ByRowid, Where(rows, IsRefusal), row) < REJECTED_HISTORY_ROWS)
  {
    var kept := Ids(NewestRefusals(rows));
    WhereHolds(rows, row => !(IsRefusal(row) && row.id !in kept));
    if row in rows && IsRefusal(row) {
      SelectedByRank(rows, ByRowid, IsRefusal, REJECTED_HISTORY_ROWS, row);
    }
  }

  lemma {:induction false} CountIsWhere(rows: seq<Row>, test: Row -> bool)
    ensures CountIf(rows, test) == |Where(rows, test)|
  {
    if rows != [] {
      var rest, last := rows[..|rows| - 1], rows[|rows| - 1];
      CountIsWhere(rest, test);
      assert rows == rest + [last];
      CountSplits(rest, [last], test);
    }
  }

  /** Rows of a table that all lie in a list are no more than the list is long. */
  lemma {:induction false} NoMoreThan(rows: seq<Row>, list: seq<Row>)
    requires Table(rows) && forall row | row in rows :: row in list
    ensures |rows| <= |list|
  {
    if rows != [] {
      var rest, last := rows[..|rows| - 1], rows[|rows| - 1];
      assert last in list;
      var k :| 0 <= k < |list| && list[k] == last;
      var others := list[..k] + list[k + 1..];
      forall row | row in rest ensures row in others {
        assert row in list && row != last;
        var i :| 0 <= i < |list| && list[i] == row;
        assert if i < k then others[i] == row else others[i - 1] == row;
      }
      NoMoreThan(rest, others);
    }
  }

  lemma RefusalKept(rows: seq<Row>, row: Row)
    requires Table(rows) && row in Trimmed(rows) && IsRefusal(row)
    ensures row in NewestRefusals(rows)
  {
    TrimSurvivors(rows, row);
    WhereTable(rows, IsRefusal);
    WhereHolds(rows, IsRefusal);
    NewestIsRank(ByRowid, Where(rows, IsRefusal), REJECTED_HISTORY_ROWS, row);
  }

  /** A trim leaves at most 20 refusals. */
  lemma TrimCaps(rows: seq<Row>)
    requires Table(rows)
    ensures Table(Trimmed(rows)) && CountIf(Trimmed(rows), IsRefusal) <= REJECTED_HISTORY_ROWS
  {
    var kept := Ids(NewestRefusals(rows));
    WhereTable(rows, row => !(IsRefusal(row) && row.id !in kept));
    var trimmed := Trimmed(rows);
    WhereTable(trimmed, IsRefusal);
    forall row | row in Where(trimmed, IsRefusal) ensures row in NewestRefusals(rows) {
      WhereHolds(trimmed, IsRefusal);
      RefusalKept(rows, row);
    }
    NoMoreThan(Where(trimmed, IsRefusal), NewestRefusals(rows));
    CountIsWhere(trimmed, IsRefusal);
  }

  /** Pruning keeps a table a table, and makes no more refusals. */
  lemma PruneCaps(rows: seq<Row>, cutoff: int, maxRows: nat)
    requires Table(rows)
    ensures Table(Pruned(rows, cutoff, maxRows))
    ensures CountIf(Pruned(rows, cutoff, maxRows), IsRefusal) <= REJECTED_HISTORY_ROWS
    ensures CountIf(Pruned(rows, cutoff, maxRows), IsRun) <= maxRows
  {
    var runs := Ids(Newest(ByTime, Where(rows, IsRun), maxRows));
    var refusals := Ids(NewestRefusals(rows));
    WhereTable(rows, row => Outlives(row, cutoff, runs, refusals));
    PartitionCap(rows, cutoff, maxRows, ByRowid, IsRefusal, REJECTED_HISTORY_ROWS);
    PartitionCap(rows, cutoff, maxRows, ByTime, IsRun, maxRows);
  }

  lemma PartitionCap(rows: seq<Row>, cutoff: int, maxRows: nat, order: Order, test: Row -> bool, cap: nat)
    requires Table(rows) && Table(Pruned(rows, cutoff, maxRows))
    requires (test == IsRefusal && order == ByRowid && cap == REJECTED_HISTORY_ROWS)
             || (test == IsRun && order == ByTime && cap == maxRows)
    ensures CountIf(Pruned(rows, cutoff, maxRows), test) <= cap
  {
    var pruned := Pruned(rows, cutoff, maxRows);
    WhereTable(pruned, test);
    WhereTable(rows, test);
    WhereHolds(rows, test);
    WhereHolds(pruned, test);
    forall row | row in Where(pruned, test) ensures row in Newest(order, Where(rows, test), cap) {
      PruneSurvivors(rows, cutoff, maxRows, row);
      NewestIsRank(order, Where(rows, test), cap, row);
    }
    NoMoreThan(Where(pruned, test), Newest(order, Where(rows, test), cap));
    CountIsWhere(pruned, test);
  }

  /** The first of the rows whose id is not excluded. */
  function FirstNotIn(rows: seq<Row>, exclude: set<nat>): (r: Option<Row>)
    ensures r.Some? ==> r.value in rows && r.value.id !in exclude
    ensures r.None? ==> forall row | row in rows :: row.id in exclude
  {
    if rows == [] then None
    else if rows[0].id !in exclude then Some(rows[0])
    else FirstNotIn(rows[1..], exclude)
  }

  lemma {:induction false} FirstSplits(a: seq<Row>, b: seq<Row>, exclude: set<nat>)
    requires FirstNotIn(a, exclude).Some?
    ensures FirstNotIn(a + b, exclude) == FirstNotIn(a, exclude)
  {
    assert (a + b)[0] == a[0];
    if a[0].id in exclude {
      assert (a + b)[1..] == a[1..] + b;
      FirstSplits(a[1..], b, exclude);
    }
  }

  /** Ids of distinct rows are as many as the rows. */
  lemma {:induction false} IdsCount(sorted: seq<Row>)
    requires forall i, j :: 0 <= i < j < |sorted| ==> sorted[i].id != sorted[j].id
    ensures |Ids(sorted)| == |sorted|
  {
    if sorted != [] {
      var rest, last := sorted[..|sorted| - 1], sorted[|sorted| - 1];
      IdsCount(rest);
      assert sorted == rest + [last];
      assert Ids(sorted) == Ids(rest) + {last.id};
    }
  }

  lemma SubsetCount(a: set<nat>, b: set<nat>)
    requires a <= b
    ensures |a| <= |b|
  {
    assert b == a + (b - a);
  }

  /** A descending list of rows of a table has an id in each place. */
  lemma SortedIdsDiffer(rows: seq<Row>, order: Order)
    requires Table(rows)
    ensures forall i, j :: 0 <= i < j < |NewestFirst(order, rows)| ==> NewestFirst(order, rows)[i].id != NewestFirst(order, rows)[j].id
  {
    var sorted := NewestFirst(order, rows);
    SortHolds(order, rows);
    SortSame(order, rows);
    forall i, j | 0 <= i < j < |sorted| ensures sorted[i].id != sorted[j].id {
      assert Newer(order, sorted[i], sorted[j]);
      if sorted[i].id == sorted[j].id {
        OneRowAnId(rows, sorted[i], sorted[j]);
      }
    }
  }

  /** Reading one row more than there are ids to skip finds what reading them all would. */
  lemma LimitIsEnough(rows: seq<Row>, exclude: set<nat>)
    requires Table(rows)
    ensures FirstNotIn(Newest(ByTime, rows, |exclude| + 1), exclude) == FirstNotIn(NewestFirst(ByTime, rows), exclude)
  {
    var sorted := NewestFirst(ByTime, rows);
    if |sorted| > |exclude| + 1 {
      var read := sorted[..|exclude| + 1];
      assert sorted == read + sorted[|exclude| + 1..];
      SortedIdsDiffer(rows, ByTime);
      IdsCount(read);
      if FirstNotIn(read, exclude).None? {
        SubsetCount(Ids(read), exclude);
      }
      FirstSplits(read, sorted[|exclude| + 1..], exclude);
    }
  }

  /** The first of a descending list that is not excluded is newer than every other that is not. */
  lemma {:induction false} FirstIsNewest(sorted: seq<Row>, exclude: set<nat>, row: Row)
    requires Descending(ByTime, sorted) && row in sorted && row.id !in exclude
    ensures FirstNotIn(sorted, exclude).Some?
    ensures FirstNotIn(sorted, exclude).value == row || Newer(ByTime, FirstNotIn(sorted, exclude).value, row)
  {
    if sorted[0].id in exclude {
      FirstIsNewest(sorted[1..], exclude, row);
    }
  }

  /** What a restart leaves of a row: an active one ends in error, worded for how far it got. */
  function Restarted(row: Row, kept: Option<nat>): Row
  {
    if !IsActive(row.state) then row
    else if row.state.Uploading? then
      row.(state := JobError, error := Some(RestartUploadingReason(kept)), category := Some(UnconfirmedSend))
    else
      row.(state := JobError, error := Some(RestartReason(kept)), category := if kept.Some? then None else row.category)
  }

  function KeptFor(kept: map<nat, nat>, id: nat): Option<nat> {
    if id in kept then Some(kept[id]) else None
  }

  class JobStore {
    var rows: seq<Row>

    constructor ()
      ensures rows == []
    {
      rows := [];
    }

    /** What every commit leaves: a table, with no more refusals than their cap. */
    ghost predicate Valid()
      reads this
    {
      Table(rows) && CountIf(rows, IsRefusal) <= REJECTED_HISTORY_ROWS
    }

    /** The place and the id an `INSERT` gives its row. */
    method NewPlace() returns (rowid: nat, id: nat)
      requires Table(rows)
      ensures forall row | row in rows :: row.rowid < rowid && row.id != id
    {
      rowid := if rows == [] then 1 else rows[|rows| - 1].rowid + 1;
      var drawn: int := *;
      id := if drawn < 0 || drawn in Ids(rows) then Above(rows) else drawn;
    }

    /** `create_job`: one more run, in flight from the start; nothing else changes. */
    method CreateJob(submission: nat, now: int) returns (row: Row)
      requires Valid()
      modifies this
      ensures Valid()
      ensures rows == old(rows) + [row]
      ensures IsRun(row) && row.state == Pending && row.created == now && row.submission == submission
      ensures row.error == None && row.result == None && row.thumbnail == None
    {
      var rowid, id := NewPlace();
      row := Row(rowid, id, now, submission, Pending, None, None, None, None);
      CountSplits(rows, [row], IsRefusal);
      assert (rows + [row])[..|rows|] == rows;
      rows := rows + [row];
    }

    /**
     * `create_rejected_job`: the refusal is written and the refusals are trimmed to their cap in
     * one transaction.  It survives its own trim whatever the clock says, and no run is touched.
     */
    method CreateRejectedJob(submission: nat, error: ErrorText, now: int) returns (row: Row)
      requires Table(rows)
      modifies this
      ensures Valid()
      ensures rows == Trimmed(old(rows) + [row])
      ensures row in rows && IsRefusal(row) && row.state == JobError && row.error == Some(error) && row.created == now
      ensures forall r :: IsRun(r) ==> (r in rows <==> r in old(rows))
    {
      var rowid, id := NewPlace();
      row := Row(rowid, id, now, submission, JobError, Some(error), Some(Rejected), None, None);
      var written := rows + [row];
      assert written[..|rows|] == rows;
      rows := Trimmed(written);
      TrimCaps(written);
      LastRefusalSurvives(old(rows), row);
      forall r | IsRun(r) ensures r in rows <==> r in old(rows) {
        TrimSurvivors(written, r);
      }
    }

    /** `update_state`: the state, error and category of one job. */
    method UpdateState(id: nat, state: JobState, error: Option<ErrorText>, category: Option<Category>)
      requires Valid()
      modifies this
      ensures Table(rows) && (category != Some(Rejected) ==> Valid())
      ensures rows == SetWhere(old(rows), WithId(id), Moved(state, error, category))
    {
      SetTable(rows, WithId(id), Moved(state, error, category));
      if category != Some(Rejected) {
        SetRefusals(rows, WithId(id), Moved(state, error, category));
      }
      rows := SetWhere(rows, WithId(id), Moved(state, error, category));
    }

    /**
     * `finish_job`: everything the run produced in one update.  A job that ends refused joins
     * the refusals and their cap in the same transaction.
     */
    method FinishJob(id: nat, state: JobState, result: Option<nat>, error: Option<ErrorText>, category: Option<Category>)
      requires Valid()
      modifies this
      ensures Valid()
      ensures var updated := SetWhere(old(rows), WithId(id), Ended(state, error, category, result));
              rows == if category == Some(Rejected) then Trimmed(updated) else updated
    {
      var change := Ended(state, error, category, result);
      SetTable(rows, WithId(id), change);
      if category != Some(Rejected) {
        SetRefusals(rows, WithId(id), change);
      }
      var updated := SetWhere(rows, WithId(id), change);
      rows := updated;
      if category == Some(Rejected) {
        TrimCaps(rows);
        rows := Trimmed(rows);
      }
    }

    /** `prune`: see PruneSurvivors for which rows those are. */
    method Prune(cutoff: int, maxRows: nat) returns (deleted: nat)
      requires Table(rows)
      modifies this
      ensures Valid() && rows == Pruned(old(rows), cutoff, maxRows)
      ensures deleted == |old(rows)| - |rows|
      ensures CountIf(rows, IsRun) <= maxRows
    {
      PruneCaps(rows, cutoff, maxRows);
      var kept := Pruned(rows, cutoff, maxRows);
      var runs, refusals := Ids(Newest(ByTime, Where(rows, IsRun), maxRows)), Ids(NewestRefusals(rows));
      WhereHolds(rows, row => Outlives(row, cutoff, runs, refusals));
      deleted := |rows| - |kept|;
      rows := kept;
    }

    /**
     * `latest_run_job`: the newest run that is not excluded, found by reading one row more than
     * there are ids to exclude.
     */
    method LatestRunJob(exclude: set<nat>) returns (r: Option<Row>)
      requires Table(rows)
      ensures r.Some? ==> r.value in rows && IsRun(r.value) && r.value.id !in exclude
      ensures forall row | row in rows && IsRun(row) && row.id !in exclude ::
                r.Some? && (r.value == row || Newer(ByTime, r.value, row))
    {
      var runs := Where(rows, IsRun);
      WhereTable(rows, IsRun);
      WhereHolds(rows, IsRun);
      LimitIsEnough(runs, exclude);
      SortHolds(ByTime, runs);
      SortSame(ByTime, runs);
      r := FirstNotIn(Newest(ByTime, runs, |exclude| + 1), exclude);
      forall row | row in rows && IsRun(row) && row.id !in exclude
        ensures r.Some? && (r.value == row || Newer(ByTime, r.value, row))
      {
        FirstIsNewest(NewestFirst(ByTime, runs), exclude, row);
      }
    }

    /** `_pending_jobs`: the queue, oldest first. */
    method PendingJobs() returns (queue: seq<Row>)
      requires Table(rows)
      ensures queue == OldestFirst(Where(rows, InState(Pending)))
    {
      queue := OldestFirst(Where(rows, InState(Pending)));
    }

    /**
     * `queue_position`: how many jobs are pending ahead of this one, the running one aside, or
     * None when it is not waiting.
     */
    method QueuePosition(id: nat, running: Option<nat>) returns (r: Option<nat>)
      requires Table(rows)
      ensures r.Some? ==> exists row | row in rows && row.id == id && row.state == Pending && running != Some(id) ::
                            r.value == CountIf(rows, OlderThan(row, running))
      ensures r.None? ==> forall row | row in rows && row.id == id :: row.state != Pending || running == Some(id)
    {
      var queue := PendingJobs();
      ghost var sorted := NewestFirst(ByTime, Where(rows, InState(Pending)));
      var i, position := Ahead(queue, sorted, id, running);
      if i < |queue| {
        AheadIsPlace(rows, |sorted| - 1 - i, running);
        WaitingIn(rows, i);
        return Some(position);
      }
      NotWaiting(rows, queue, id, running);
      return None;
    }

    /** The walk down the queue: how far the job is, counting every job before it but the running one. */
    static method Ahead(queue: seq<Row>, ghost sorted: seq<Row>, id: nat, running: Option<nat>) returns (i: nat, position: nat)
      requires |queue| == |sorted| && forall k :: 0 <= k < |queue| ==> queue[k] == sorted[|queue| - 1 - k]
      ensures i <= |queue|
      ensures forall j :: 0 <= j < i ==> queue[j].id != id || running == Some(id)
      ensures i < |queue| ==> queue[i].id == id && running != Some(id)
      ensures position == CountIf(sorted[|sorted| - i..], NotRunning(running))
    {
      i, position := 0, 0;
      while i < |queue| && (queue[i].id != id || running == Some(id))
        invariant i <= |queue|
        invariant position == CountIf(sorted[|sorted| - i..], NotRunning(running))
        invariant forall j :: 0 <= j < i ==> queue[j].id != id || running == Some(id)
      {
        assert sorted[|sorted| - 1 - i..] == [sorted[|sorted| - 1 - i]] + sorted[|sorted| - i..];
        if running != Some(queue[i].id) {
          position := position + 1;
        }
        i := i + 1;
      }
    }

    /**
     * `fail_active_jobs`: every job still in flight ends in error, one still uploading with a
     * text and a category of its own.
     */
    method FailActiveJobs() returns (failed: nat)
      requires Valid()
      modifies this
      ensures Valid()
      ensures failed == CountIf(old(rows), InFlight)
      ensures rows == RestartedRows(old(rows))
    {
      var uploading := MayBeSent();
      TwoUpdates(rows);
      TwoUpdatesCount(rows, uploading);
      SetTable(rows, InState(Uploading), uploading);
      SetRefusals(rows, InState(Uploading), uploading);
      failed := CountIf(rows, InState(Uploading));
      rows := SetWhere(rows, InState(Uploading), uploading);
      SetTable(rows, InFlight, CutShort());
      SetRefusals(rows, InFlight, CutShort());
      failed := failed + CountIf(rows, InFlight);
      rows := SetWhere(rows, InFlight, CutShort());
    }

    /**
     * `fail_recovered_jobs`: each named job still in flight ends in error, saying where its pages
     * were kept; an id with no such row is ignored.
     */
    method FailRecoveredJobs(kept: map<nat, nat>, order: seq<nat>) returns (failed: nat)
      requires Valid() && Lists(order, kept.Keys)
      modifies this
      ensures Valid()
      ensures failed == CountIf(old(rows), Named(kept.Keys))
      ensures rows == RecoveredRows(old(rows), kept.Keys, kept)
    {
      failed := 0;
      ghost var done: set<nat> := {};
      NoneNamed(rows);
      NoneRecovered(rows, kept);
      assert order[0..] == order && kept.Keys - {} == kept.Keys;
      for k := 0 to |order|
        invariant Valid()
        invariant Lists(order[k..], kept.Keys - done) && done <= kept.Keys
        invariant failed == CountIf(old(rows), Named(done))
        invariant rows == RecoveredRows(old(rows), done, kept)
      {
        var id := order[k];
        assert order[k..][0] == id && order[k..][1..] == order[k + 1..];
        var updated := FailOne(id, kept[id]);
        OneMoreRecovered(old(rows), done, id, kept);
        failed := failed + updated;
        done := done + {id};
        assert kept.Keys - done == kept.Keys - (done - {id}) - {id};
      }
      assert order[|order|..] == [];
      assert done == kept.Keys - (kept.Keys - done);
    }

    /** One job of `fail_recovered_jobs`. */
    method FailOne(id: nat, sentence: nat) returns (updated: nat)
      requires Valid()
      modifies this
      ensures Valid()
      ensures updated == CountIf(old(rows), Named({id}))
      ensures rows == SetWhere(old(rows), Named({id}), RestartedWith(sentence))
    {
      SetTable(rows, Named({id}), RestartedWith(sentence));
      SetRefusals(rows, Named({id}), RestartedWith(sentence));
      updated := CountIf(rows, Named({id}));
      rows := SetWhere(rows, Named({id}), RestartedWith(sentence));
    }

    /**
     * Restart recovery, in the order start-up runs it: each job in flight is moved exactly once,
     * with the text its own progress earned and the place its pages were kept if they were, and
     * no finished job is touched.
     */
    method RecoverAfterRestart(kept: map<nat, nat>, order: seq<nat>) returns (failed: nat)
      requires Valid() && Lists(order, kept.Keys)
      modifies this
      ensures Valid()
      ensures failed == CountIf(old(rows), InFlight)
      ensures CountIf(rows, InFlight) == 0
      ensures |rows| == |old(rows)|
      ensures forall i :: 0 <= i < |rows| ==> rows[i] == Restarted(old(rows)[i], KeptFor(kept, old(rows)[i].id))
    {
      var recovered := FailRecoveredJobs(kept, order);
      RecoveredThenActive(old(rows), rows, kept);
      var active := FailActiveJobs();
      BothRecover(old(rows), kept);
      failed := recovered + active;
    }
  }

  predicate InFlight(row: Row) {
    IsActive(row.state)
  }

  /** A job in flight with one of these ids. */
  function Named(ids: set<nat>): Row -> bool {
    (row: Row) => row.id in ids && IsActive(row.state)
  }

  function NotRunning(running: Option<nat>): Row -> bool {
    (row: Row) => running != Some(row.id)
  }

  /** A pending job, not the running one, that is older than this one. */
  function OlderThan(row: Row, running: Option<nat>): Row -> bool {
    (r: Row) => r.state == Pending && Newer(ByTime, row, r) && running != Some(r.id)
  }

  /** `ORDER BY created_at ASC`. */
  function OldestFirst(rows: seq<Row>): (r: seq<Row>)
    ensures |r| == |NewestFirst(ByTime, rows)|
    ensures forall i :: 0 <= i < |r| ==> r[i] == NewestFirst(ByTime, rows)[|r| - 1 - i]
  {
    var sorted := NewestFirst(ByTime, rows);
    seq(|sorted|, i requires 0 <= i < |sorted| => sorted[|sorted| - 1 - i])
  }

  lemma WaitingIn(rows: seq<Row>, i: nat)
    requires Table(rows) && i < |OldestFirst(Where(rows, InState(Pending)))|
    ensures var row := OldestFirst(Where(rows, InState(Pending)))[i];
            row in rows && row.state == Pending
  {
    var pending := Where(rows, InState(Pending));
    WhereTable(rows, InState(Pending));
    SortSame(ByTime, pending);
    assert OldestFirst(pending)[i] in NewestFirst(ByTime, pending);
    WhereHolds(rows, InState(Pending));
  }

  /** Every pending row is in the queue. */
  lemma InQueue(rows: seq<Row>, row: Row) returns (i: nat)
    requires Table(rows) && row in rows && row.state == Pending
    ensures i < |OldestFirst(Where(rows, InState(Pending)))| && OldestFirst(Where(rows, InState(Pending)))[i] == row
  {
    var pending := Where(rows, InState(Pending));
    WhereTable(rows, InState(Pending));
    assert row in pending by {
      WhereHolds(rows, InState(Pending));
    }
    var k := PlaceOf(ByTime, pending, row);
    i := |OldestFirst(pending)| - 1 - k;
  }

  lemma NotWaiting(rows: seq<Row>, queue: seq<Row>, id: nat, running: Option<nat>)
    requires Table(rows) && queue == OldestFirst(Where(rows, InState(Pending)))
    requires forall j :: 0 <= j < |queue| ==> queue[j].id != id || running == Some(id)
    ensures forall row | row in rows && row.id == id :: row.state != Pending || running == Some(id)
  {
    forall row | row in rows && row.id == id ensures row.state != Pending || running == Some(id) {
      if row.state == Pending {
        var i := InQueue(rows, row);
      }
    }
  }

  lemma {:induction false} CountWhere(rows: seq<Row>, where: Row -> bool, test: Row -> bool)
    ensures CountIf(Where(rows, where), test) == CountIf(rows, row => where(row) && test(row))
  {
    if rows != [] {
      var rest, last := rows[..|rows| - 1], rows[|rows| - 1];
      CountWhere(rest, where, test);
      assert rows == rest + [last];
      CountSplits(rest, [last], row => where(row) && test(row));
      CountSplits(Where(rest, where), if where(last) then [last] else [], test);
    }
  }

  /** The rows after one in the descending queue, the running one aside, are those ahead of it. */
  lemma AheadIsPlace(rows: seq<Row>, place: nat, running: Option<nat>)
    requires Table(rows) && place < |NewestFirst(ByTime, Where(rows, InState(Pending)))|
    ensures var sorted := NewestFirst(ByTime, Where(rows, InState(Pending)));
            CountIf(rows, OlderThan(sorted[place], running)) == CountIf(sorted[place + 1..], NotRunning(running))
  {
    var pending := Where(rows, InState(Pending));
    WhereTable(rows, InState(Pending));
    SortHolds(ByTime, pending);
    var sorted := NewestFirst(ByTime, pending);
    var row := sorted[place];
    CountAfter(ByTime, sorted, place, NotRunning(running));
    var older: Row -> bool := r => Newer(ByTime, row, r) && NotRunning(running)(r);
    SortCounts(ByTime, pending, older);
    CountWhere(rows, InState(Pending), older);
    CountAll(rows, OlderThan(row, running), r => InState(Pending)(r) && older(r));
    CountAll(sorted, older, r => Newer(ByTime, sorted[place], r) && NotRunning(running)(r));
  }

  /** The two updates of `fail_active_jobs` move each active row once between them. */
  lemma {:induction false} TwoUpdatesCount(rows: seq<Row>, uploading: Row -> Row)
    requires forall row :: uploading(row).state == JobError
    ensures CountIf(rows, InState(Uploading)) + CountIf(SetWhere(rows, InState(Uploading), uploading), InFlight)
         == CountIf(rows, InFlight)
  {
    if rows != [] {
      var rest, last := rows[..|rows| - 1], rows[|rows| - 1];
      TwoUpdatesCount(rest, uploading);
      assert rows == rest + [last];
      CountSplits(rest, [last], InState(Uploading));
      CountSplits(rest, [last], InFlight);
      CountSplits(SetWhere(rest, InState(Uploading), uploading), [if last.state == Uploading then uploading(last) else last], InFlight);
    }
  }

  lemma {:induction false} NoneNamed(rows: seq<Row>)
    ensures CountIf(rows, Named({})) == 0
  {
    if rows != [] {
      NoneNamed(rows[1..]);
    }
  }

  /** A listing of these ids, each once: the order a mapping is walked in. */
  ghost predicate Lists(order: seq<nat>, ids: set<nat>) {
    if order == [] then ids == {} else order[0] in ids && Lists(order[1..], ids - {order[0]})
  }

  function RestartedWith(sentence: nat): Row -> Row {
    (row: Row) => Restarted(row, Some(sentence))
  }

  /** The rows once these ids have been dealt with. */
  ghost function RecoveredRows(rows: seq<Row>, done: set<nat>, kept: map<nat, nat>): seq<Row> {
    seq(|rows|, i requires 0 <= i < |rows| =>
      if rows[i].id in done then Restarted(rows[i], KeptFor(kept, rows[i].id)) else rows[i])
  }

  /** The columns `_FAIL_ACTIVE` sets. */
  function CutShort(): Row -> Row {
    (row: Row) => row.(state := JobError, error := Some(RestartReason(None)))
  }

  /** Every row after a restart that recovered nothing. */
  ghost function RestartedRows(rows: seq<Row>): seq<Row> {
    seq(|rows|, i requires 0 <= i < |rows| => Restarted(rows[i], None))
  }

  /** What `_FAIL_UPLOADING` sets. */
  function MayBeSent(): Row -> Row {
    Moved(JobError, Some(RestartUploadingReason(None)), Some(UnconfirmedSend))
  }

  lemma OneRestart(row: Row)
    ensures var first := if InState(Uploading)(row) then MayBeSent()(row) else row;
            (if InFlight(first) then CutShort()(first) else first) == Restarted(row, None)
  {
  }

  /** The two updates of `fail_active_jobs` are one restart. */
  lemma TwoUpdates(rows: seq<Row>)
    ensures SetWhere(SetWhere(rows, InState(Uploading), MayBeSent()), InFlight, CutShort()) == RestartedRows(rows)
  {
    var first := SetWhere(rows, InState(Uploading), MayBeSent());
    var second := SetWhere(first, InFlight, CutShort());
    SetHolds(rows, InState(Uploading), MayBeSent());
    SetHolds(first, InFlight, CutShort());
    forall i | 0 <= i < |rows| ensures second[i] == RestartedRows(rows)[i] {
      OneRestart(rows[i]);
    }
  }

  lemma NoneRecovered(rows: seq<Row>, kept: map<nat, nat>)
    ensures RecoveredRows(rows, {}, kept) == rows
  {
  }

  /** One more named job: it was still as it had been, it counts once, and only it changes. */
  lemma OneMoreRecovered(before: seq<Row>, done: set<nat>, id: nat, kept: map<nat, nat>)
    requires id !in done && id in kept
    ensures var now := RecoveredRows(before, done, kept);
            && CountIf(before, Named(done + {id})) == CountIf(before, Named(done)) + CountIf(now, Named({id}))
            && SetWhere(now, Named({id}), RestartedWith(kept[id])) == RecoveredRows(before, done + {id}, kept)
  {
    var now := RecoveredRows(before, done, kept);
    NamedOneMore(before, now, done, id);
    SetHolds(now, Named({id}), RestartedWith(kept[id]));
  }

  lemma {:induction false} NamedOneMore(before: seq<Row>, now: seq<Row>, done: set<nat>, id: nat)
    requires id !in done && |now| == |before|
    requires forall i :: 0 <= i < |now| && before[i].id !in done ==> now[i] == before[i]
    requires forall i :: 0 <= i < |now| ==> now[i].id == before[i].id
    ensures CountIf(before, Named(done + {id})) == CountIf(before, Named(done)) + CountIf(now, Named({id}))
  {
    if before != [] {
      NamedOneMore(before[1..], now[1..], done, id);
    }
  }

  /** The two recoveries together move each row in flight once, and leave none in flight. */
  lemma BothRecover(rows: seq<Row>, kept: map<nat, nat>)
    ensures var after := RestartedRows(RecoveredRows(rows, kept.Keys, kept));
            && |after| == |rows|
            && (forall i :: 0 <= i < |rows| ==> after[i] == Restarted(rows[i], KeptFor(kept, rows[i].id)))
            && CountIf(after, InFlight) == 0
  {
    var after := RestartedRows(RecoveredRows(rows, kept.Keys, kept));
    CountAll(after, InFlight, row => false);
    CountWhole(after);
  }

  /** What is left for `fail_active_jobs` is what `fail_recovered_jobs` did not name. */
  lemma {:induction false} RecoveredThenActive(before: seq<Row>, after: seq<Row>, kept: map<nat, nat>)
    requires |after| == |before|
    requires forall i :: 0 <= i < |after| ==>
               after[i] == if before[i].id in kept then Restarted(before[i], KeptFor(kept, before[i].id)) else before[i]
    ensures CountIf(before, Named(kept.Keys)) + CountIf(after, InFlight) == CountIf(before, InFlight)
  {
    if before != [] {
      RecoveredThenActive(before[1..], after[1..], kept);
    }
  }

  function Above(rows: seq<Row>): (id: nat)
    ensures forall row | row in rows :: row.id < id
  {
    if rows == [] then 0
    else
      var rest := Above(rows[1..]);
      if rows[0].id < rest then rest else rows[0].id + 1
  }

  /** The refusal just written has none written after it. */
  lemma LastRefusalSurvives(rows: seq<Row>, row: Row)
    requires Table(rows + [row]) && IsRefusal(row)
    ensures row in Trimmed(rows + [row])
  {
    var written := rows + [row];
    TrimSurvivors(written, row);
    WhereHolds(written, IsRefusal);
    var refusals := Where(written, IsRefusal);
    assert written[..|written| - 1] == rows;
    forall i | 0 <= i < |refusals| ensures !Newer(ByRowid, refusals[i], row) {
      assert refusals[i] in refusals;
    }
    CountAll(refusals, r => Newer(ByRowid, r, row), r => false);
    CountWhole(refusals);
  }
}
