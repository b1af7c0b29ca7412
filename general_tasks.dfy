/**
 * The periodic status job `update_task_statuses`: every stored task moves at
 * most one step along pending -> in_progress -> completed, driven by its
 * start and end times against the clock.
 *
 * The table is what `db_manager.get_all_tasks()` returns; the job's effect is
 * the sequence of `update_task_status` writes it issues. The clock reading is
 * one parameter `now`.
 */
module GeneralTasks {
  import opened Wrappers

  type Time = int

  /** The `TaskStatus` enum. */
  datatype TaskStatus = Pending | InProgress | Completed | Failed

  /** The enum's `.value`, the string stored in the status column. */
  function StatusValue(s: TaskStatus): string
  {
    match s
    case Pending => "pending"
    case InProgress => "in_progress"
    case Completed => "completed"
    case Failed => "failed"
  }

  /** A stored task as the loop reads it. The column is a plain string, so any status may be stored. */
  datatype TaskRow = TaskRow(id: int, status: string, startTime: Time, endTime: Time)

  /** One `db_manager.update_task_status(task.id, status)` call. */
  datatype StatusWrite = StatusWrite(taskId: int, status: string)

  /** The status the loop body writes for one task (its `if`/`elif`), if any. */
  function StepWrite(t: TaskRow, now: Time): (w: Option<string>)
    // a write always changes the status, and only to in_progress or completed
    ensures w.Some? ==> w.value != t.status
    ensures w.Some? ==> w.value == StatusValue(InProgress) || w.value == StatusValue(Completed)
  {
    if t.status == StatusValue(Pending) && t.startTime <= now then Some(StatusValue(InProgress))
    else if t.status == StatusValue(InProgress) && t.endTime <= now then Some(StatusValue(Completed))
    else None
  }

  /** A task's status once the loop body has run for it. */
  function NextStatus(t: TaskRow, now: Time): (s: string)
    // statuses only move forward, one step along the chain
    ensures s != t.status ==>
              || (t.status == StatusValue(Pending) && s == StatusValue(InProgress))
              || (t.status == StatusValue(InProgress) && s == StatusValue(Completed))
    // the job never sets FAILED, and COMPLETED, FAILED and unknown statuses stay put
    ensures s == StatusValue(Failed) ==> t.status == StatusValue(Failed)
    ensures t.status !in {StatusValue(Pending), StatusValue(InProgress)} ==> s == t.status
    // the two moves happen exactly when their time has come
    ensures t.status == StatusValue(Pending) ==> (s == StatusValue(InProgress) <==> t.startTime <= now)
    ensures t.status == StatusValue(InProgress) ==> (s == StatusValue(Completed) <==> t.endTime <= now)
  {
    match StepWrite(t, now)
    case Some(st) => st
    case None => t.status
  }

  function Step(t: TaskRow, now: Time): TaskRow
  {
    t.(status := NextStatus(t, now))
  }

  /** The table after one run, each task advanced on its own. */
  function Advance(ts: seq<TaskRow>, now: Time): (r: seq<TaskRow>)
    ensures |r| == |ts|
  {
    seq(|ts|, i requires 0 <= i < |ts| => Step(ts[i], now))
  }

  /** The writes one run issues, in table order. */
  function Writes(ts: seq<TaskRow>, now: Time): (ws: seq<StatusWrite>)
    // at most one write per task, each to in_progress or completed
    ensures |ws| <= |ts|
    ensures forall k :: 0 <= k < |ws| ==>
              ws[k].status == StatusValue(InProgress) || ws[k].status == StatusValue(Completed)
  {
    if ts == [] then []
    else
      var last := ts[|ts| - 1];
      Writes(ts[..|ts| - 1], now)
        + match StepWrite(last, now) case Some(st) => [StatusWrite(last.id, st)] case None => []
  }

  /** `update_task_statuses`: the loop over the tasks and the writes it issues. */
  method UpdateTaskStatuses(tasks: seq<TaskRow>, now: Time) returns (writes: seq<StatusWrite>)
    ensures writes == Writes(tasks, now)
  {
    writes := [];
    var i := 0;
    while i < |tasks|
      invariant 0 <= i <= |tasks|
      invariant writes == Writes(tasks[..i], now)
    {
      var task := tasks[i];
      assert tasks[..i + 1][..i] == tasks[..i];
      if task.status == StatusValue(Pending) && task.startTime <= now {
        writes := writes + [StatusWrite(task.id, StatusValue(InProgress))];
      } else if task.status == StatusValue(InProgress) && task.endTime <= now {
        writes := writes + [StatusWrite(task.id, StatusValue(Completed))];
      }
      i := i + 1;
    }
    assert tasks[..i] == tasks;
  }

  /** `update_task_status(id, status)`: set the status of the stored task with that id. */
  function ApplyWrite(table: seq<TaskRow>, w: StatusWrite): (r: seq<TaskRow>)
    ensures |r| == |table|
  {
    seq(|table|, i requires 0 <= i < |table| =>
      if table[i].id == w.taskId then table[i].(status := w.status) else table[i])
  }

  function ApplyWrites(table: seq<TaskRow>, ws: seq<StatusWrite>): (r: seq<TaskRow>)
    ensures |r| == |table|
    decreases |ws|
  {
    if ws == [] then table else ApplyWrites(ApplyWrite(table, ws[0]), ws[1..])
  }

  predicate UniqueIds(ts: seq<TaskRow>)
  {
    forall i, j :: 0 <= i < j < |ts| ==> ts[i].id != ts[j].id
  }

  lemma {:induction false} ApplyWritesAppend(table: seq<TaskRow>, a: seq<StatusWrite>, b: seq<StatusWrite>)
    ensures ApplyWrites(table, a + b) == ApplyWrites(ApplyWrites(table, a), b)
    decreases |a|
  {
    if a == [] {
      assert a + b == b;
    } else {
      assert (a + b)[0] == a[0];
      assert (a + b)[1..] == a[1..] + b;
      ApplyWritesAppend(ApplyWrite(table, a[0]), a[1..], b);
    }
  }

  /** The table with its first `k` tasks advanced and the rest as stored. */
  function AdvancePrefix(ts: seq<TaskRow>, k: nat, now: Time): (r: seq<TaskRow>)
    requires k <= |ts|
    ensures |r| == |ts|
  {
    seq(|ts|, i requires 0 <= i < |ts| => if i < k then Step(ts[i], now) else ts[i])
  }

  /**
   * With distinct ids (the table's key), the writes of one run leave every
   * task with exactly the status `Advance` gives it: whatever else is stored,
   * a write touches only the task it was issued for.
   */
  lemma {:induction false} WritesRealiseAdvance(ts: seq<TaskRow>, now: Time)
    requires UniqueIds(ts)
    ensures ApplyWrites(ts, Writes(ts, now)) == Advance(ts, now)
  {
    var k := 0;
    while k < |ts|
      invariant 0 <= k <= |ts|
      invariant ApplyWrites(ts, Writes(ts[..k], now)) == AdvancePrefix(ts, k, now)
      decreases |ts| - k
    {
      var pre := ApplyWrites(ts, Writes(ts[..k], now));
      assert ts[..k + 1][..k] == ts[..k];
      var t := ts[k];
      match StepWrite(t, now) {
      case None =>
        assert Writes(ts[..k + 1], now) == Writes(ts[..k], now) + [];
        assert Writes(ts[..k], now) + [] == Writes(ts[..k], now);
        assert AdvancePrefix(ts, k + 1, now) == AdvancePrefix(ts, k, now);
      case Some(st) =>
        var w := StatusWrite(t.id, st);
        assert Writes(ts[..k + 1], now) == Writes(ts[..k], now) + [w];
        ApplyWritesAppend(ts, Writes(ts[..k], now), [w]);
        assert ApplyWrites(ApplyWrite(pre, w), []) == ApplyWrite(pre, w);
        forall i | 0 <= i < |ts|
          ensures ApplyWrite(pre, w)[i] == AdvancePrefix(ts, k + 1, now)[i]
        {
          if i != k {
            assert ts[i].id != t.id;
          }
        }
      }
      k := k + 1;
    }
    assert ts[..k] == ts;
  }

  lemma AdvanceAppend(a: seq<TaskRow>, b: seq<TaskRow>, now: Time)
    ensures Advance(a + b, now) == Advance(a, now) + Advance(b, now)
  {
  }

  /**
   * Each task's new status depends only on its own row and the clock, so the
   * order in which the loop visits the tasks does not matter: permuting the
   * table permutes the result.
   */
  lemma {:induction false} AdvanceOrderIrrelevant(s1: seq<TaskRow>, s2: seq<TaskRow>, now: Time)
    requires multiset(s1) == multiset(s2)
    ensures multiset(Advance(s1, now)) == multiset(Advance(s2, now))
    decreases |s1|
  {
    if s1 == [] {
      assert |s2| == |multiset(s2)| == 0;
    } else {
      var x := s1[0];
      assert x in multiset(s2);
      var k :| 0 <= k < |s2| && s2[k] == x;
      var rest2 := s2[..k] + s2[k + 1..];
      assert s2 == s2[..k] + [x] + s2[k + 1..];
      assert s1 == [x] + s1[1..];
      assert multiset(s2) == multiset(s2[..k]) + multiset{x} + multiset(s2[k + 1..]);
      assert multiset(s1) == multiset{x} + multiset(s1[1..]);
      assert multiset(rest2) == multiset(s2[..k]) + multiset(s2[k + 1..]);
      assert multiset(s1[1..]) == multiset(s1) - multiset{x};
      assert multiset(rest2) == multiset(s2) - multiset{x};
      assert multiset(s1[1..]) == multiset(rest2);
      AdvanceOrderIrrelevant(s1[1..], rest2, now);
      AdvanceAppend([x], s1[1..], now);
      AdvanceAppend(s2[..k] + [x], s2[k + 1..], now);
      AdvanceAppend(s2[..k], [x], now);
      AdvanceAppend(s2[..k], s2[k + 1..], now);
    }
  }

  /**
   * One run moves a task at most one step: a pending task whose start and
   * end have both passed becomes in_progress, and only the next run
   * completes it.
   */
  lemma OneStepPerRun(t: TaskRow, now: Time)
    requires t.status == StatusValue(Pending) && t.startTime <= now && t.endTime <= now
    ensures Step(t, now).status == StatusValue(InProgress)
    ensures Step(Step(t, now), now).status == StatusValue(Completed)
  {
  }

  /** Once a task is completed or failed, further runs leave it alone at any later time. */
  lemma {:induction false} FinalStatusesStable(ts: seq<TaskRow>, later: Time)
    requires forall i :: 0 <= i < |ts| ==> ts[i].status in {StatusValue(Completed), StatusValue(Failed)}
    ensures Advance(ts, later) == ts
  {
    forall i | 0 <= i < |ts| ensures Advance(ts, later)[i] == ts[i] {
      assert ts[i].status !in {StatusValue(Pending), StatusValue(InProgress)};
    }
  }
}
