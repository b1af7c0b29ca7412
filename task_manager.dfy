/**
 * The in-memory task registry: `Task` and its concrete subclasses, and
 * `TaskManager`, which keeps the tasks in a list.
 *
 * Identifiers (`uuid4`), clock readings (`datetime.now()`) and the answers of
 * the external clients (CalDAV, e-mail, text generation, GitHub) are
 * parameters of the model.
 */
module Tasks {
  import opened Wrappers

  /** A `datetime`; only its order and identity matter here. */
  type Time = int

  /** A value in one of the dictionaries the tasks produce. `VTime(t)` stands for `t.isoformat()`. */
  datatype Value = VStr(s: string) | VInt(i: int) | VTime(t: Time) | VNone | VDict(d: map<string, Value>)

  type Dict = map<string, Value>

  /**
   * The concrete task classes with the attributes each adds to `Task`.
   * `ScheduledTask` and `CommunicationTask` define no `execute`, so like
   * `Task` they are abstract and never instantiated; their attributes
   * appear in the concrete classes that extend them. A client that was not
   * supplied (`None`) is `false`.
   */
  datatype Kind =
    | Calendar(startTime: Time, endTime: Time, location: string, hasCalDavClient: bool)
    | Email(recipient: string, subject: string, body: string, hasEmailClient: bool)
    | WebLookup(url: string, hasTextProcessor: bool)
    | GitHubPRReview(repoName: string, prNumber: int)
    | GeneralInfoLookup(query: string, hasTextProcessor: bool)

  /** `self.__class__.__name__`. */
  function ClassName(k: Kind): string
  {
    match k
    case Calendar(_, _, _, _) => "CalendarTask"
    case Email(_, _, _, _) => "EmailTask"
    case WebLookup(_, _) => "WebLookupTask"
    case GitHubPRReview(_, _) => "GitHubPRReviewTask"
    case GeneralInfoLookup(_, _) => "GeneralInfoLookupTask"
  }

  /** The keys `Task.to_dict` writes. */
  function BaseKeys(): set<string>
  {
    {"id", "title", "description", "created_at", "completed_at", "type"}
  }

  /** The keys the subclasses' `to_dict` overrides add, along the inheritance chain. */
  function OwnKeys(k: Kind): set<string>
  {
    match k
    case Calendar(_, _, _, _) => {"start_time", "end_time", "location"}
    case Email(_, _, _, _) => {"recipient", "subject"}
    case WebLookup(_, _) => {"url"}
    case GitHubPRReview(_, _) => {"repo_name", "pr_number"}
    case GeneralInfoLookup(_, _) => {}
  }

  /** No override writes a base key, so the base entries survive the updates. */
  lemma KeysDisjoint(k: Kind)
    ensures BaseKeys() !! OwnKeys(k)
  {
  }

  /** The entries `ScheduledTask.to_dict` adds to the base dictionary. */
  function ScheduledFields(startTime: Time, endTime: Option<Time>): (d: Dict)
    ensures d.Keys == {"start_time", "end_time"}
  {
    map["start_time" := VTime(startTime),
        "end_time" := if endTime.Some? then VTime(endTime.value) else VNone]
  }

  /** The entries the overrides of `to_dict` add, each `update` applied in turn. */
  function OwnFields(k: Kind): (d: Dict)
    ensures d.Keys == OwnKeys(k)
  {
    match k
    case Calendar(s, e, loc, _) => ScheduledFields(s, Some(e)) + map["location" := VStr(loc)]
    case Email(to, subject, _, _) => map["recipient" := VStr(to)] + map["subject" := VStr(subject)]
    case WebLookup(url, _) => map["url" := VStr(url)]
    case GitHubPRReview(repo, pr) => map["repo_name" := VStr(repo), "pr_number" := VInt(pr)]
    case GeneralInfoLookup(_, _) => map[]
  }

  /** A call that `execute` makes into an external client. */
  datatype ClientCall =
    | CreateEvent(calendar: string, summary: string, start: Time, end: Time, description: string)
    | SendEmail(to: string, subject: string, body: string)
    | GenerateText(prompt: string)
    | GitHubCall(operation: string, repo: string, prNumber: int)

  /** What the external client gave back for one call `execute` made, or the exception it raised. */
  datatype Reply = Answered(value: Value) | Raised(error: string)

  /**
   * The reply to the `k`-th client call of one `execute`, from the replies
   * given in call order; a call beyond them returns `None`, as the GitHub
   * client's stub coroutines do.
   */
  function ReplyAt(replies: seq<Reply>, k: nat): Reply
  {
    if k < |replies| then replies[k] else Answered(VNone)
  }

  /** The position of the first of `n` calls whose reply raised, or `n` when all `n` were answered. */
  function FirstRaised(replies: seq<Reply>, n: nat): (k: nat)
    ensures k <= n
    ensures k < n ==> ReplyAt(replies, k).Raised?
    ensures forall j :: 0 <= j < k ==> ReplyAt(replies, j).Answered?
    decreases n
  {
    if n == 0 then 0
    else
      var k := FirstRaised(replies, n - 1);
      if k < n - 1 then k
      else if ReplyAt(replies, n - 1).Raised? then n - 1
      else n
  }

  /** The result `execute` returns (or the exception it raises) and the client calls it made, in order. */
  datatype Execution = Execution(outcome: Result<Dict>, calls: seq<ClientCall>)

  function StatusDict(status: string, message: string): (d: Dict)
    ensures "status" in d && "message" in d && d["status"] == VStr(status)
  {
    map["status" := VStr(status), "message" := VStr(message)]
  }

  /** The subclasses whose `execute` guards on a client that was not supplied. */
  predicate MissingClient(k: Kind)
  {
    || (k.Calendar? && !k.hasCalDavClient)
    || (k.Email? && !k.hasEmailClient)
    || (k.GeneralInfoLookup? && !k.hasTextProcessor)
  }

  predicate IsErrorResult(d: Dict)
  {
    "status" in d && d["status"] == VStr("error")
  }

  /** The five GitHub client calls of `GitHubPRReviewTask.execute`, in order. */
  function GitHubPRCalls(repo: string, pr: int): seq<ClientCall>
  {
    [GitHubCall("review_pr", repo, pr), GitHubCall("parse_action_logs", repo, pr),
     GitHubCall("suggest_fixes", repo, pr), GitHubCall("auto_update_pr", repo, pr),
     GitHubCall("auto_respond_to_pr_comments", repo, pr)]
  }

  /** A task as `Task.__init__` builds it; only `completed_at` changes later. */
  class Task {
    const id: string
    const title: string
    const description: string
    const createdAt: Time
    const kind: Kind
    var completedAt: Option<Time>

    /** `Task.__init__` with the generated id and the creation time as parameters. */
    constructor (id: string, title: string, description: string, createdAt: Time, kind: Kind)
      ensures this.id == id && this.title == title && this.description == description
      ensures this.createdAt == createdAt && this.kind == kind
      ensures completedAt == None
    {
      this.id := id;
      this.title := title;
      this.description := description;
      this.createdAt := createdAt;
      this.kind := kind;
      completedAt := None;
    }

    /** `mark_completed`, with the clock reading as a parameter. */
    method MarkCompleted(now: Time)
      modifies this
      ensures completedAt == Some(now)
    {
      completedAt := Some(now);
    }

    /** `Task.to_dict`. */
    function BaseDict(): (d: Dict)
      reads this
      ensures d.Keys == BaseKeys()
    {
      map["id" := VStr(id), "title" := VStr(title), "description" := VStr(description),
          "created_at" := VTime(createdAt),
          "completed_at" := if completedAt.Some? then VTime(completedAt.value) else VNone,
          "type" := VStr(ClassName(kind))]
    }

    /** `to_dict` of the task's concrete class: the base dictionary updated by each override. */
    function ToDict(): (d: Dict)
      reads this
      ensures d.Keys == BaseKeys() + OwnKeys(kind)
      ensures forall key :: key in BaseKeys() ==> d[key] == BaseDict()[key]
      ensures d["id"] == VStr(id) && d["type"] == VStr(ClassName(kind))
      ensures d["completed_at"] == VNone <==> completedAt == None
      ensures completedAt.Some? ==> d["completed_at"] == VTime(completedAt.value)
    {
      var base, own := BaseDict(), OwnFields(kind);
      KeysDisjoint(kind);
      base + own
    }

    /**
     * `execute` of the task's concrete class. `WebLookupTask.execute` calls
     * `WebScraper.scrape_url(self.url)` on the class rather than on an
     * instance, so the one argument binds to `self`, `url` is missing and
     * Python raises `TypeError` before any request is made.
     */
    function Execute(replies: seq<Reply>): (e: Execution)
      ensures MissingClient(kind) ==> e.calls == [] && e.outcome.Ok?
      ensures (e.outcome.Ok? && IsErrorResult(e.outcome.value)) <==> MissingClient(kind)
      ensures e.outcome.Ok? ==> "status" in e.outcome.value && "message" in e.outcome.value
      ensures ReplyAt(replies, 0).Raised? && !MissingClient(kind) && !kind.WebLookup? ==>
                e.outcome == Err(ReplyAt(replies, 0).error)
      ensures kind.WebLookup? ==> e.outcome.Err? && e.calls == []
    {
      match kind
      case Calendar(s, end, _, hasClient) => ExecuteCalendar(title, description, s, end, hasClient, ReplyAt(replies, 0))
      case Email(to, subject, body, hasClient) => ExecuteEmail(to, subject, body, hasClient, ReplyAt(replies, 0))
      case WebLookup(_, _) =>
        Execution(Err(UnboundScrapeError), [])
      case GitHubPRReview(repo, pr) => ExecuteGitHubPRReview(repo, pr, replies)
      case GeneralInfoLookup(query, hasProcessor) => ExecuteGeneralInfoLookup(query, hasProcessor, ReplyAt(replies, 0))
    }
  }

  /** The exception the unbound call `WebScraper.scrape_url(self.url)` raises. */
  const UnboundScrapeError := "TypeError: WebScraper.scrape_url() missing 1 required positional argument: 'url'"

  /** The outcome every `execute` gives once its client call has been made. */
  predicate Settled(e: Execution, calls: seq<ClientCall>, reply: Reply)
  {
    && e.calls == calls
    && (reply.Raised? ==> e.outcome == Err(reply.error))
    && (e.outcome.Ok? ==> "status" in e.outcome.value && "message" in e.outcome.value
                          && !IsErrorResult(e.outcome.value))
  }

  /** The guard every `execute` with an optional client has: no client, an error result and no call. */
  predicate Unavailable(e: Execution, message: string)
  {
    e == Execution(Ok(StatusDict("error", message)), [])
  }

  /** `CalendarTask.execute`. */
  function ExecuteCalendar(title: string, description: string, start: Time, end: Time, hasClient: bool, reply: Reply): (e: Execution)
    ensures !hasClient ==> Unavailable(e, "CalDAV client not initialized")
    ensures hasClient ==> Settled(e, [CreateEvent("default", title, start, end, description)], reply)
  {
    if !hasClient then Execution(Ok(StatusDict("error", "CalDAV client not initialized")), [])
    else
      var calls := [CreateEvent("default", title, start, end, description)];
      match reply
      case Raised(err) => Execution(Err(err), calls)
      case Answered(event) =>
        if event.VDict? && "id" in event.d then
          Execution(Ok(StatusDict("success", "Calendar event '" + title + "' created")
                       + map["event_id" := event.d["id"]]), calls)
        else Execution(Err("KeyError: 'id'"), calls)
  }

  /** `EmailTask.execute`. */
  function ExecuteEmail(to: string, subject: string, body: string, hasClient: bool, reply: Reply): (e: Execution)
    ensures !hasClient ==> Unavailable(e, "Email client not initialized")
    ensures hasClient ==> Settled(e, [SendEmail(to, subject, body)], reply)
  {
    if !hasClient then Execution(Ok(StatusDict("error", "Email client not initialized")), [])
    else
      var calls := [SendEmail(to, subject, body)];
      match reply
      case Raised(err) => Execution(Err(err), calls)
      case Answered(_) => Execution(Ok(StatusDict("success", "Email '" + subject + "' sent to " + to)), calls)
  }

  /**
   * `GitHubPRReviewTask.execute`: five client calls awaited one after the
   * other, so the first that raises ends it and no later call is made.
   */
  function ExecuteGitHubPRReview(repo: string, pr: int, replies: seq<Reply>): (e: Execution)
    // the calls made are a non-empty prefix of the five, in order
    ensures 1 <= |e.calls| && e.calls <= GitHubPRCalls(repo, pr)
    // it returns exactly when all five calls were answered, and then all five were made
    ensures e.outcome.Ok? <==> forall k :: 0 <= k < 5 ==> ReplyAt(replies, k).Answered?
    ensures e.outcome.Ok? ==> e.calls == GitHubPRCalls(repo, pr)
    // otherwise the last call made is the first that raised, and its exception propagates
    ensures e.outcome.Err? ==>
              && ReplyAt(replies, |e.calls| - 1) == Raised(e.outcome.error)
              && forall k :: 0 <= k < |e.calls| - 1 ==> ReplyAt(replies, k).Answered?
    ensures e.outcome.Ok? ==> "status" in e.outcome.value && "message" in e.outcome.value
                              && !IsErrorResult(e.outcome.value)
  {
    var calls := GitHubPRCalls(repo, pr);
    var k := FirstRaised(replies, 5);
    if k < 5 then Execution(Err(ReplyAt(replies, k).error), calls[..k + 1])
    else
      Execution(Ok(StatusDict("success", "Completed review and automated actions for PR #"
                                          + IntToString(pr) + " in " + repo)), calls)
  }

  /** `GeneralInfoLookupTask.execute`. */
  function ExecuteGeneralInfoLookup(query: string, hasProcessor: bool, reply: Reply): (e: Execution)
    ensures !hasProcessor ==> Unavailable(e, "Text processor not initialized")
    ensures hasProcessor ==> Settled(e, [GenerateText("Provide information about: " + query)], reply)
  {
    if !hasProcessor then Execution(Ok(StatusDict("error", "Text processor not initialized")), [])
    else
      var calls := [GenerateText("Provide information about: " + query)];
      match reply
      case Raised(err) => Execution(Err(err), calls)
      case Answered(response) =>
        Execution(Ok(StatusDict("success", "Information lookup completed") + map["response" := response]), calls)
  }

  /** The position of the first task in list order whose id is `taskId`, if any. */
  function FirstIndexOf(ts: seq<Task>, taskId: string): (r: Option<nat>)
    ensures r.None? <==> forall j :: 0 <= j < |ts| ==> ts[j].id != taskId
    ensures r.Some? ==> r.value < |ts| && ts[r.value].id == taskId
    ensures r.Some? ==> forall j :: 0 <= j < r.value ==> ts[j].id != taskId
  {
    if ts == [] then None
    else if ts[0].id == taskId then Some(0)
    else match FirstIndexOf(ts[1..], taskId)
      case None => None
      case Some(i) => Some(i + 1)
  }

  /** Python's `list.remove(x)`: drop the first element equal to `x` (identity, as `Task` defines no `__eq__`). */
  function RemoveFirst(ts: seq<Task>, x: Task): (r: seq<Task>)
    // an absent task leaves the list as it is (Python raises instead; `remove_task` never asks)
    ensures x !in ts ==> r == ts
    // a present one loses exactly one occurrence
    ensures x in ts ==> |r| == |ts| - 1 && multiset(r) + multiset{x} == multiset(ts)
  {
    if ts == [] then []
    else
      assert ts == [ts[0]] + ts[1..];
      if ts[0] == x then ts[1..]
      else
        assert x in ts ==> x in ts[1..];
        [ts[0]] + RemoveFirst(ts[1..], x)
  }

  /** Removing the first occurrence of `x`, found at `k`, is cutting out position `k`. */
  lemma {:induction false} RemoveFirstAt(ts: seq<Task>, x: Task, k: nat)
    requires k < |ts| && ts[k] == x
    requires forall j :: 0 <= j < k ==> ts[j] != x
    ensures RemoveFirst(ts, x) == ts[..k] + ts[k + 1..]
  {
    if k > 0 {
      RemoveFirstAt(ts[1..], x, k - 1);
      CutOutTail(ts, k);
    }
  }

  /** Cutting position `k - 1` out of the tail, then putting the head back, cuts position `k` out of the whole. */
  lemma CutOutTail<T>(ts: seq<T>, k: nat)
    requires 0 < k < |ts|
    ensures [ts[0]] + (ts[1..][..k - 1] + ts[1..][k..]) == ts[..k] + ts[k + 1..]
  {
    assert ts[1..][..k - 1] == ts[1..k];
    assert ts[1..][k..] == ts[k + 1..];
    assert ts[..k] == [ts[0]] + ts[1..k];
  }

  /** The message of the `ValueError` that `get_task` raises. */
  function NotFoundMessage(taskId: string): string
  {
    "Task with id " + taskId + " not found"
  }

  class TaskManager {
    var tasks: seq<Task>

    constructor ()
      ensures tasks == []
    {
      tasks := [];
    }

    /** `add_task`: append at the end. */
    method AddTask(task: Task)
      modifies this
      ensures tasks == old(tasks) + [task]
    {
      tasks := tasks + [task];
    }

    /** `get_task`: the first task with that id, or `ValueError`. */
    method GetTask(taskId: string) returns (r: Result<Task>)
      ensures r.Ok? <==> exists j :: 0 <= j < |tasks| && tasks[j].id == taskId
      ensures r.Ok? ==> exists k :: 0 <= k < |tasks| && tasks[k] == r.value && r.value.id == taskId
                          && forall j :: 0 <= j < k ==> tasks[j].id != taskId
      ensures r.Err? ==> r.error == NotFoundMessage(taskId)
      ensures r.Ok? ==> FirstIndexOf(tasks, taskId).Some? && r.value == tasks[FirstIndexOf(tasks, taskId).value]
    {
      var i := 0;
      while i < |tasks|
        invariant 0 <= i <= |tasks|
        invariant forall j :: 0 <= j < i ==> tasks[j].id != taskId
      {
        if tasks[i].id == taskId {
          return Ok(tasks[i]);
        }
        i := i + 1;
      }
      return Err(NotFoundMessage(taskId));
    }

    /** `list_tasks`: one dictionary per task, in list order. */
    function ListTasks(): (ds: seq<Dict>)
      reads this, tasks
      ensures |ds| == |tasks|
      ensures forall i :: 0 <= i < |tasks| ==> ds[i] == tasks[i].ToDict()
      ensures forall i :: 0 <= i < |tasks| ==> "id" in ds[i] && ds[i]["id"] == VStr(tasks[i].id)
    {
      seq(|tasks|, i reads this, tasks requires 0 <= i < |tasks| => tasks[i].ToDict())
    }

    /**
     * `execute_task`: look the task up, run its `execute`, then mark it
     * completed. A `ValueError` from the lookup or an exception raised by
     * `execute` propagates before anything is marked; an error result
     * returned by `execute` is returned after marking.
     */
    method ExecuteTask(taskId: string, replies: seq<Reply>, now: Time) returns (r: Result<Dict>, calls: seq<ClientCall>)
      modifies tasks
      ensures FirstIndexOf(tasks, taskId).None? ==> r == Err(NotFoundMessage(taskId)) && calls == []
      ensures FirstIndexOf(tasks, taskId).Some? ==>
                var t := tasks[FirstIndexOf(tasks, taskId).value];
                && r == t.Execute(replies).outcome && calls == t.Execute(replies).calls
                && t.completedAt == (if r.Ok? then Some(now) else old(t.completedAt))
      ensures forall u :: u in tasks && (FirstIndexOf(tasks, taskId).None? || u != tasks[FirstIndexOf(tasks, taskId).value])
                ==> u.completedAt == old(u.completedAt)
    {
      var found := GetTask(taskId);
      if found.Err? {
        return Err(found.error), [];
      }
      var t := found.value;
      var e := t.Execute(replies);
      r, calls := e.outcome, e.calls;
      if r.Ok? {
        t.MarkCompleted(now);
      }
    }

    /** `remove_task`: remove the first task with that id, or raise `ValueError` and change nothing. */
    method RemoveTask(taskId: string) returns (r: Outcome)
      modifies this
      ensures FirstIndexOf(old(tasks), taskId).None? ==> r == Fail(NotFoundMessage(taskId)) && tasks == old(tasks)
      ensures FirstIndexOf(old(tasks), taskId).Some? ==>
                var k := FirstIndexOf(old(tasks), taskId).value;
                r == Pass && tasks == old(tasks)[..k] + old(tasks)[k + 1..]
    {
      var found := GetTask(taskId);
      if found.Err? {
        return Fail(found.error);
      }
      var k := FirstIndexOf(tasks, taskId).value;
      RemoveFirstAt(tasks, found.value, k);
      tasks := RemoveFirst(tasks, found.value);
      return Pass;
    }
  }
}
