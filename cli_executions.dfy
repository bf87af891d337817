/** Executions of the Cloud Run job as `status` and `list` show them: the
    id taken from an execution's resource name, the status read off its
    task counts, and the listing ordered newest first and cut to a limit.
    The executions are the list the Cloud Run client returned; creation
    times are numbers that order them. */
module Executions {
  import opened Strings
  import opened PyValue

  /** What `_print_execution_status` and `list` show for an execution. */
  datatype Status = Succeeded | Failed | Running | Pending

  /** Lines 376-383 and 487-494: a success wins over a failure, a failure
      over a running task. */
  function Classify(succeeded: nat, failed: nat, running: nat): (r: Status)
    ensures r == Succeeded <==> succeeded > 0
    ensures r == Failed <==> succeeded == 0 && failed > 0
    ensures r == Running <==> succeeded == 0 && failed == 0 && running > 0
    ensures r == Pending <==> succeeded == 0 && failed == 0 && running == 0
  {
    if succeeded > 0 then Succeeded
    else if failed > 0 then Failed
    else if running > 0 then Running
    else Pending
  }

  /** The markup each status is shown with. */
  function StatusLabel(s: Status): string {
    match s
    case Succeeded => "[green]Succeeded[/green]"
    case Failed => "[red]Failed[/red]"
    case Running => "[yellow]Running[/yellow]"
    case Pending => "[blue]Pending[/blue]"
  }

  /** `name.split("/")[-1]` (lines 237, 373, 485). */
  function ExecutionId(name: string): (id: string)
    ensures '/' !in id && EndsWith(name, id)
    ensures |id| < |name| ==> name[|name| - |id| - 1] == '/'
    ensures '/' !in name ==> id == name
  {
    SplitLast(name, '/');
    LastOf(Split(name, '/'))
  }

  /** The execution path `status` builds (line 347). */
  function ExecutionPath(jobPath: string, id: string): string {
    jobPath + "/executions/" + id
  }

  /** The id shown for an execution is the one `status` and `logs` accept:
      reading the id off the path built from it gives it back. */
  lemma ExecutionIdOfPath(jobPath: string, id: string)
    requires '/' !in id
    ensures ExecutionId(ExecutionPath(jobPath, id)) == id
  {
    var name := ExecutionPath(jobPath, id);
    var l := ExecutionId(name);
    assert name == (jobPath + "/executions") + "/" + id;
    assert name[|name| - |id|..] == id;
    assert name[|name| - |id| - 1] == '/';
    if |l| != |id| {
      assert false;
    }
  }

  /** The fields of an execution the two commands read. */
  datatype Execution = Execution(name: string, createTime: int, succeeded: nat, failed: nat, running: nat)

  function StatusOf(e: Execution): Status {
    Classify(e.succeeded, e.failed, e.running)
  }

  /** Newest first. */
  predicate NewestFirst(xs: seq<Execution>) {
    forall i, j :: 0 <= i < j < |xs| ==> xs[i].createTime >= xs[j].createTime
  }

  /** `x` placed into a newest-first list after every execution created no
      earlier than it, so executions created at the same time keep the
      order they came in, as Python's stable `sort(reverse=True)` keeps it. */
  function Insert(sorted: seq<Execution>, x: Execution): seq<Execution>
    decreases |sorted|
  {
    if sorted == [] then [x]
    else if sorted[0].createTime >= x.createTime then [sorted[0]] + Insert(sorted[1..], x)
    else [x] + sorted
  }

  lemma {:induction false} InsertSorted(sorted: seq<Execution>, x: Execution)
    requires NewestFirst(sorted)
    ensures NewestFirst(Insert(sorted, x))
    ensures |Insert(sorted, x)| == |sorted| + 1
    ensures Insert(sorted, x)[0] == (if sorted != [] && sorted[0].createTime >= x.createTime then sorted[0] else x)
    decreases |sorted|
  {
    if sorted != [] && sorted[0].createTime >= x.createTime {
      InsertSorted(sorted[1..], x);
      var rest := Insert(sorted[1..], x);
      if sorted[1..] != [] && sorted[1].createTime >= x.createTime {
        assert rest[0] == sorted[1];
      }
    }
  }

  lemma {:induction false} InsertMultiset(sorted: seq<Execution>, x: Execution)
    ensures multiset(Insert(sorted, x)) == multiset(sorted) + multiset{x}
    decreases |sorted|
  {
    if sorted != [] && sorted[0].createTime >= x.createTime {
      InsertMultiset(sorted[1..], x);
      assert sorted == [sorted[0]] + sorted[1..];
    }
  }

  /** Line 475 (and 364): the executions ordered newest first, built up one
      execution at a time. */
  method SortNewestFirst(executions: seq<Execution>) returns (sorted: seq<Execution>)
    ensures NewestFirst(sorted)
    ensures multiset(sorted) == multiset(executions)
  {
    sorted := [];
    var i := 0;
    while i < |executions|
      invariant 0 <= i <= |executions|
      invariant NewestFirst(sorted)
      invariant multiset(sorted) == multiset(executions[..i])
    {
      InsertSorted(sorted, executions[i]);
      InsertMultiset(sorted, executions[i]);
      sorted := Insert(sorted, executions[i]);
      assert executions[..i + 1] == executions[..i] + [executions[i]];
      i := i + 1;
    }
    assert executions[..i] == executions;
  }

  /** Python's `xs[:limit]`: a negative limit counts from the end. */
  function Take<T>(xs: seq<T>, limit: int): (r: seq<T>)
    ensures 0 <= limit ==> |r| == if limit < |xs| then limit else |xs|
    ensures limit < 0 ==> |r| == if |xs| + limit > 0 then |xs| + limit else 0
    ensures r == xs[..|r|]
  {
    var n := if limit >= 0 then limit else |xs| + limit;
    var n' := if n < 0 then 0 else if n > |xs| then |xs| else n;
    xs[..n']
  }

  /** A newest-first list cut to a limit keeps the newest executions. */
  lemma TakeNewest(xs: seq<Execution>, limit: int)
    requires NewestFirst(xs)
    ensures NewestFirst(Take(xs, limit))
    ensures forall i, j :: 0 <= i < |Take(xs, limit)| <= j < |xs| ==> Take(xs, limit)[i].createTime >= xs[j].createTime
  {
  }

  /** One row of the `list` table (its created and duration columns are
      left out). */
  datatype Row = Row(id: string, status: string, createTime: int)

  function RowOf(e: Execution): Row {
    Row(ExecutionId(e.name), StatusLabel(StatusOf(e)), e.createTime)
  }

  /** What `list` shows: a notice when there is no execution, else a table. */
  datatype Listing = NoExecutions | Table(rows: seq<Row>)

  /** What is left after cutting a sorted copy of the executions: only
      executions, and every execution either kept or no newer than all
      that are kept. */
  lemma {:induction false} CutKeepsNewest(executions: seq<Execution>, sorted: seq<Execution>, limit: int)
    requires NewestFirst(sorted) && multiset(sorted) == multiset(executions)
    ensures |sorted| == |executions|
    ensures forall k :: 0 <= k < |Take(sorted, limit)| ==> Take(sorted, limit)[k] in executions
    ensures forall e :: e in executions ==>
      (exists j :: 0 <= j < |Take(sorted, limit)| && Take(sorted, limit)[j] == e) ||
      forall k :: 0 <= k < |Take(sorted, limit)| ==> Take(sorted, limit)[k].createTime >= e.createTime
  {
    var shown := Take(sorted, limit);
    assert |multiset(sorted)| == |multiset(executions)|;
    forall k | 0 <= k < |shown| ensures shown[k] in executions {
      assert shown[k] == sorted[k];
      assert sorted[k] in multiset(executions);
    }
    forall e | e in executions
      ensures (exists j :: 0 <= j < |shown| && shown[j] == e) ||
              forall k :: 0 <= k < |shown| ==> shown[k].createTime >= e.createTime
    {
      assert e in multiset(sorted);
      var j :| 0 <= j < |sorted| && sorted[j] == e;
      if j < |shown| {
        assert shown[j] == e;
      } else {
        forall k | 0 <= k < |shown| ensures shown[k].createTime >= e.createTime {
          assert shown[k] == sorted[k];
        }
      }
    }
  }

  /** The row shows one of the executions. */
  predicate IsRowOf(row: Row, executions: seq<Execution>) {
    exists e :: e in executions && row == RowOf(e)
  }

  /** The rows of the executions kept after sorting and cutting: as many
      as Python's slice keeps, newest first, each an execution's, and every
      execution left out no newer than any shown. */
  lemma RowsShowNewest(executions: seq<Execution>, sorted: seq<Execution>, limit: int, rows: seq<Row>)
    requires NewestFirst(sorted) && multiset(sorted) == multiset(executions)
    requires |rows| == |Take(sorted, limit)|
    requires forall k :: 0 <= k < |rows| ==> rows[k] == RowOf(Take(sorted, limit)[k])
    ensures |rows| <= |executions|
    ensures limit >= 0 ==> |rows| == if limit < |executions| then limit else |executions|
    ensures limit < 0 ==> |rows| == if |executions| + limit > 0 then |executions| + limit else 0
    ensures forall i, j :: 0 <= i < j < |rows| ==> rows[i].createTime >= rows[j].createTime
    ensures forall k :: 0 <= k < |rows| ==> IsRowOf(rows[k], executions)
    ensures forall e :: e in executions ==>
      RowOf(e) in rows || forall k :: 0 <= k < |rows| ==> rows[k].createTime >= e.createTime
  {
    var shown := Take(sorted, limit);
    TakeNewest(sorted, limit);
    CutKeepsNewest(executions, sorted, limit);
    forall k | 0 <= k < |rows| ensures IsRowOf(rows[k], executions) {
      assert shown[k] in executions && rows[k] == RowOf(shown[k]);
    }
    forall e | e in executions
      ensures RowOf(e) in rows || forall k :: 0 <= k < |rows| ==> rows[k].createTime >= e.createTime
    {
      if exists j :: 0 <= j < |shown| && shown[j] == e {
        var j :| 0 <= j < |shown| && shown[j] == e;
        assert rows[j] == RowOf(e);
      }
    }
  }

  /** Lines 470-504: sort, cut to `limit`, then one row per execution. */
  method ListExecutions(executions: seq<Execution>, limit: int) returns (r: Listing)
    ensures executions == [] <==> r == NoExecutions
    ensures r.Table? ==>
      && |r.rows| <= |executions|
      && (limit >= 0 ==> |r.rows| == if limit < |executions| then limit else |executions|)
      && (limit < 0 ==> |r.rows| == if |executions| + limit > 0 then |executions| + limit else 0)
      && (forall i, j :: 0 <= i < j < |r.rows| ==> r.rows[i].createTime >= r.rows[j].createTime)
      && (forall k :: 0 <= k < |r.rows| ==> IsRowOf(r.rows[k], executions))
      && (forall e :: e in executions ==>
            RowOf(e) in r.rows || forall k :: 0 <= k < |r.rows| ==> r.rows[k].createTime >= e.createTime)
  {
    if executions == [] {
      return NoExecutions;
    }
    var sorted := SortNewestFirst(executions);
    var shown := Take(sorted, limit);
    var rows: seq<Row> := [];
    var i := 0;
    while i < |shown|
      invariant 0 <= i <= |shown|
      invariant |rows| == i
      invariant forall k :: 0 <= k < i ==> rows[k] == RowOf(shown[k])
    {
      rows := rows + [RowOf(shown[i])];
      i := i + 1;
    }
    RowsShowNewest(executions, sorted, limit, rows);
    r := Table(rows);
  }

  /** `status` without an id (lines 358-365): the newest execution, if any. */
  method Latest(executions: seq<Execution>) returns (r: Option<Execution>)
    ensures r.None? <==> executions == []
    ensures r.Some? ==> r.value in executions && forall e :: e in executions ==> e.createTime <= r.value.createTime
  {
    if executions == [] {
      return None;
    }
    var sorted := SortNewestFirst(executions);
    assert |sorted| == |executions| by {
      assert |multiset(sorted)| == |multiset(executions)|;
    }
    assert sorted[0] in multiset(executions);
    forall e | e in executions ensures e.createTime <= sorted[0].createTime {
      assert e in multiset(sorted);
    }
    r := Some(sorted[0]);
  }
}
