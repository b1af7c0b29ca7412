/**
 * The task list view: it loads the tasks from the API, lets the user start,
 * complete or delete a task, and shows a loading line, an error line or the
 * list.
 *
 * Each handler awaits one API call. A handler is modelled as the call it
 * makes, the component state while the call is outstanding, and the state
 * once it has settled; the API's answer is a parameter.
 */
module TaskList {
  import opened Wrappers

  datatype Status = Todo | InProgress | Done

  datatype Task = Task(id: string, title: string, description: string, status: Status, dueDate: string)

  /** The component's three pieces of state. */
  datatype ListState = ListState(tasks: seq<Task>, loading: bool, error: string)

  /** The request a handler sends. */
  datatype ApiCall = GetTasks | UpdateTask(taskId: string, status: Status) | DeleteTask(taskId: string)

  /** One handler run: its request, the state while awaiting it, the state once it has settled. */
  datatype Run = Run(call: ApiCall, during: ListState, after: ListState)

  datatype View = LoadingView | ErrorView(message: string) | ListView(tasks: seq<Task>)

  const FetchError := "Failed to fetch tasks. Please try again."
  const UpdateError := "Failed to update task status. Please try again."
  const DeleteError := "Failed to delete task. Please try again."

  /** The state the component mounts with; mounting then runs `FetchTasks`. */
  function Mounted(): (s: ListState)
    ensures s.tasks == [] && s.loading && s.error == ""
  {
    ListState([], true, "")
  }

  /** `tasks.map(...)`: the tasks with that id get the new status; nothing else changes. */
  function SetStatus(ts: seq<Task>, taskId: string, status: Status): (r: seq<Task>)
    ensures |r| == |ts|
    ensures forall i :: 0 <= i < |ts| && ts[i].id == taskId ==> r[i] == ts[i].(status := status)
    ensures forall i :: 0 <= i < |ts| && ts[i].id != taskId ==> r[i] == ts[i]
  {
    seq(|ts|, i requires 0 <= i < |ts| => if ts[i].id == taskId then ts[i].(status := status) else ts[i])
  }

  /** `tasks.filter(task => task.id !== taskId)`. */
  function RemoveId(ts: seq<Task>, taskId: string): (r: seq<Task>)
    ensures |r| <= |ts|
    ensures forall k :: 0 <= k < |r| ==> r[k].id != taskId && r[k] in ts
    ensures forall k :: 0 <= k < |ts| && ts[k].id != taskId ==> ts[k] in r
  {
    if ts == [] then []
    else if ts[0].id == taskId then RemoveId(ts[1..], taskId)
    else [ts[0]] + RemoveId(ts[1..], taskId)
  }

  /** `fetchTasks`: loading while the request is out; afterwards the fetched list, or the error, and never loading. */
  function FetchTasks(s: ListState, reply: Result<seq<Task>>): (run: Run)
    ensures run.call == GetTasks
    ensures run.during == s.(loading := true)
    ensures !run.after.loading
    ensures reply.Ok? ==> run.after.tasks == reply.value && run.after.error == s.error
    ensures reply.Err? ==> run.after.tasks == s.tasks && run.after.error == FetchError
  {
    var during := s.(loading := true);
    match reply
    case Ok(fetched) => Run(GetTasks, during, during.(tasks := fetched, loading := false))
    case Err(_) => Run(GetTasks, during, during.(error := FetchError, loading := false))
  }

  /** `handleStatusChange`: nothing changes until the update returns; then the list, or the error. */
  function HandleStatusChange(s: ListState, taskId: string, status: Status, reply: Outcome): (run: Run)
    ensures run.call == UpdateTask(taskId, status)
    ensures run.during == s
    ensures run.after.loading == s.loading
    ensures reply.Pass? ==> run.after.tasks == SetStatus(s.tasks, taskId, status) && run.after.error == s.error
    ensures reply.Fail? ==> run.after.tasks == s.tasks && run.after.error == UpdateError
  {
    match reply
    case Pass => Run(UpdateTask(taskId, status), s, s.(tasks := SetStatus(s.tasks, taskId, status)))
    case Fail(_) => Run(UpdateTask(taskId, status), s, s.(error := UpdateError))
  }

  /** `handleDeleteTask`: nothing changes until the delete returns; then the list, or the error. */
  function HandleDeleteTask(s: ListState, taskId: string, reply: Outcome): (run: Run)
    ensures run.call == DeleteTask(taskId)
    ensures run.during == s
    ensures run.after.loading == s.loading
    ensures reply.Pass? ==> run.after.tasks == RemoveId(s.tasks, taskId) && run.after.error == s.error
    ensures reply.Fail? ==> run.after.tasks == s.tasks && run.after.error == DeleteError
  {
    match reply
    case Pass => Run(DeleteTask(taskId), s, s.(tasks := RemoveId(s.tasks, taskId)))
    case Fail(_) => Run(DeleteTask(taskId), s, s.(error := DeleteError))
  }

  /** What the component shows: loading first, then a non-empty error, then the list. */
  function Render(s: ListState): (v: View)
    ensures v == LoadingView <==> s.loading
    ensures v.ErrorView? <==> !s.loading && s.error != ""
    ensures v.ListView? ==> v.tasks == s.tasks
  {
    if s.loading then LoadingView
    else if s.error != "" then ErrorView(s.error)
    else ListView(s.tasks)
  }

  // ---- Properties ----

  /** Deleting keeps the order of the rest: it works piece by piece. */
  lemma {:induction false} RemoveIdConcat(a: seq<Task>, b: seq<Task>, taskId: string)
    ensures RemoveId(a + b, taskId) == RemoveId(a, taskId) + RemoveId(b, taskId)
  {
    if a == [] {
      assert a + b == b;
    } else {
      assert (a + b)[0] == a[0];
      assert (a + b)[1..] == a[1..] + b;
      RemoveIdConcat(a[1..], b, taskId);
      if a[0].id != taskId {
        assert [a[0]] + (RemoveId(a[1..], taskId) + RemoveId(b, taskId))
            == ([a[0]] + RemoveId(a[1..], taskId)) + RemoveId(b, taskId);
      }
    }
  }

  /** Deleting an id no task has changes nothing, and deleting twice is deleting once. */
  lemma {:induction false} RemoveIdAbsent(ts: seq<Task>, taskId: string)
    requires forall k :: 0 <= k < |ts| ==> ts[k].id != taskId
    ensures RemoveId(ts, taskId) == ts
  {
    if ts != [] {
      RemoveIdAbsent(ts[1..], taskId);
    }
  }

  lemma RemoveIdIdempotent(ts: seq<Task>, taskId: string)
    ensures RemoveId(RemoveId(ts, taskId), taskId) == RemoveId(ts, taskId)
  {
    RemoveIdAbsent(RemoveId(ts, taskId), taskId);
  }

  /** A status change keeps the ids in place and is idempotent. */
  lemma SetStatusKeepsIds(ts: seq<Task>, taskId: string, status: Status)
    ensures forall i :: 0 <= i < |ts| ==> SetStatus(ts, taskId, status)[i].id == ts[i].id
    ensures SetStatus(SetStatus(ts, taskId, status), taskId, status) == SetStatus(ts, taskId, status)
  {
  }

  /** Whatever the fetch returns, the view is no longer the loading line afterwards. */
  lemma FetchEndsLoading(s: ListState, reply: Result<seq<Task>>)
    ensures Render(FetchTasks(s, reply).during) == LoadingView
    ensures Render(FetchTasks(s, reply).after) != LoadingView
  {
  }

  /**
   * No handler clears the error: once one call has failed, every later run,
   * a successful fetch included, still shows an error instead of the list.
   */
  lemma ErrorPersists(s: ListState, reply: Result<seq<Task>>, taskId: string, status: Status, outcome: Outcome)
    requires s.error != ""
    ensures Render(FetchTasks(s, reply).after).ErrorView?
    ensures !s.loading ==> Render(HandleStatusChange(s, taskId, status, outcome).after).ErrorView?
    ensures !s.loading ==> Render(HandleDeleteTask(s, taskId, outcome).after).ErrorView?
  {
  }
}
