/**
 * `SyncManager`: bring e-mail, calendar and GitHub data up to date after a
 * period offline, and replay the actions queued while offline.
 *
 * The database and the vector store are the fields of the class that the
 * sync code changes: the three watermarks, the three activity logs, the
 * documents added to the vector store and the trace of calls made into the
 * external clients. A fetched batch is the answer the client gave, passed in
 * as a parameter, and so is each exception: the fetch may raise, a write for
 * one item may raise, and a queued action's client call may raise. An
 * exception ends the coroutine, so whatever comes after it in the source is
 * not done; each sync method returns whether it raised.
 */
module Sync {
  import opened Wrappers

  type Time = int

  /** An e-mail as `sync_emails` reads it from the fetched batch. */
  datatype FetchedEmail = FetchedEmail(uid: nat, subject: string, sender: string, content: string)

  /** A calendar event as `sync_calendar` reads it. */
  datatype CalendarEvent = CalendarEvent(id: string, summary: string, start: Time, end: Time, description: string)

  /** A GitHub activity as `sync_github` reads it; `payload` is the text of its payload. */
  datatype GitHubActivity = GitHubActivity(id: string, activityType: string, repoName: string, payload: string, createdAt: Time)

  /** The rows `log_email`, `log_calendar_event` and `log_github_activity` store. */
  datatype EmailLog = EmailLog(userId: int, subject: string, sender: string, recipient: string, isSent: int)
  datatype CalendarLog = CalendarLog(userId: int, summary: string, start: Time, end: Time, description: string)
  datatype GitHubLog = GitHubLog(userId: int, activityType: string, repo: string, details: string)

  /** The metadata stored beside a document: the fetched item itself. */
  datatype Metadata = EmailMeta(email: FetchedEmail) | EventMeta(event: CalendarEvent) | ActivityMeta(activity: GitHubActivity)

  /** One document added to the vector store by `add_documents(collection, [text], [metadata], [id])`. */
  datatype Document = Document(collection: string, text: string, metadata: Metadata, id: string)

  /** An action queued while offline, with the fields its dispatch reads. */
  datatype OfflineAction = OfflineAction(
    id: int, actionType: string, githubAction: string,
    to: string, subject: string, body: string,
    calendar: string, summary: string, start: Time, end: Time, description: string,
    repo: string, title: string, base: string, head: string)

  /** A call into an external client or into the database's offline queue, in the order made. */
  datatype Effect =
    | FetchNewEmails(lastUid: nat)
    | GetEvents(calendar: string, start: Time)
    | GetUserActivities(since: Time)
    | SendEmail(to: string, subject: string, body: string)
    | CreateEvent(calendar: string, summary: string, start: Time, end: Time, description: string)
    | CreateIssue(repo: string, title: string, body: string)
    | CreatePullRequest(repo: string, title: string, body: string, base: string, head: string)
    | MarkSynced(actionId: int)

  /** The user id the sync code logs under. */
  const DefaultUserId := 1

  /** `str()` of a `datetime` is stood for by the decimal rendering of the timestamp. */
  function TimeText(t: Time): string
  {
    IntToString(t)
  }

  function EmailDocument(e: FetchedEmail): Document
  {
    Document("emails", "Subject: " + e.subject + "\n\nFrom: " + e.sender + "\n\nContent: " + e.content,
             EmailMeta(e), NatToString(e.uid))
  }

  function EventDocument(e: CalendarEvent): Document
  {
    Document("calendar_events",
             "Summary: " + e.summary + "\nStart: " + TimeText(e.start) + "\nEnd: " + TimeText(e.end)
               + "\nDescription: " + e.description,
             EventMeta(e), e.id)
  }

  function ActivityDocument(a: GitHubActivity): Document
  {
    Document("github_activities", "Type: " + a.activityType + "\nRepo: " + a.repoName + "\nDetails: " + a.payload,
             ActivityMeta(a), a.id)
  }

  /** The log rows of a batch, one per item in fetch order. */
  function EmailLogs(batch: seq<FetchedEmail>, recipient: string): (r: seq<EmailLog>)
    ensures |r| == |batch|
  {
    seq(|batch|, i requires 0 <= i < |batch| =>
      EmailLog(DefaultUserId, batch[i].subject, batch[i].sender, recipient, 0))
  }

  function EventLogs(batch: seq<CalendarEvent>): (r: seq<CalendarLog>)
    ensures |r| == |batch|
  {
    seq(|batch|, i requires 0 <= i < |batch| =>
      CalendarLog(DefaultUserId, batch[i].summary, batch[i].start, batch[i].end, batch[i].description))
  }

  function ActivityLogs(batch: seq<GitHubActivity>): (r: seq<GitHubLog>)
    ensures |r| == |batch|
  {
    seq(|batch|, i requires 0 <= i < |batch| =>
      GitHubLog(DefaultUserId, batch[i].activityType, batch[i].repoName, batch[i].payload))
  }

  /** The documents of a batch, one per item in fetch order. */
  function EmailDocuments(batch: seq<FetchedEmail>): (r: seq<Document>)
    ensures |r| == |batch|
  {
    seq(|batch|, i requires 0 <= i < |batch| => EmailDocument(batch[i]))
  }

  function EventDocuments(batch: seq<CalendarEvent>): (r: seq<Document>)
    ensures |r| == |batch|
  {
    seq(|batch|, i requires 0 <= i < |batch| => EventDocument(batch[i]))
  }

  function ActivityDocuments(batch: seq<GitHubActivity>): (r: seq<Document>)
    ensures |r| == |batch|
  {
    seq(|batch|, i requires 0 <= i < |batch| => ActivityDocument(batch[i]))
  }

  /** Python's `max` over a non-empty sequence of timestamps. */
  function MaxOf(s: seq<Time>): (m: Time)
    requires |s| > 0
    ensures m in s
    ensures forall i :: 0 <= i < |s| ==> s[i] <= m
  {
    if |s| == 1 then s[0]
    else
      var rest := MaxOf(s[1..]);
      if s[0] >= rest then s[0] else rest
  }

  function Ends(batch: seq<CalendarEvent>): (r: seq<Time>)
    ensures |r| == |batch| && forall i :: 0 <= i < |batch| ==> r[i] == batch[i].end
  {
    seq(|batch|, i requires 0 <= i < |batch| => batch[i].end)
  }

  function CreationTimes(batch: seq<GitHubActivity>): (r: seq<Time>)
    ensures |r| == |batch| && forall i :: 0 <= i < |batch| ==> r[i] == batch[i].createdAt
  {
    seq(|batch|, i requires 0 <= i < |batch| => batch[i].createdAt)
  }

  /** The watermarks written after each sync: from the batch when it is not empty, else the old one. */
  function NextEmailUid(stored: nat, batch: seq<FetchedEmail>): nat
  {
    if batch == [] then stored else batch[|batch| - 1].uid
  }

  function NextCalendarDate(stored: Time, batch: seq<CalendarEvent>): (d: Time)
    // the latest end among the batch, or the old date for an empty batch
    ensures batch == [] ==> d == stored
    ensures batch != [] ==> exists k :: 0 <= k < |batch| && batch[k].end == d
    ensures forall k :: 0 <= k < |batch| ==> batch[k].end <= d
  {
    if batch == [] then stored else MaxOf(Ends(batch))
  }

  function NextGitHubDate(stored: Time, batch: seq<GitHubActivity>): (d: Time)
    // the latest creation time among the batch, or the old date for an empty batch
    ensures batch == [] ==> d == stored
    ensures batch != [] ==> exists k :: 0 <= k < |batch| && batch[k].createdAt == d
    ensures forall k :: 0 <= k < |batch| ==> batch[k].createdAt <= d
  {
    if batch == [] then stored else MaxOf(CreationTimes(batch))
  }

  /**
   * Where the writes for a fetched batch raised, if they did: at the item
   * with index `at`, in its log write or in its `add_documents` call. The
   * loop over the batch ends there and the watermark is not written.
   */
  datatype WriteFault = LogRaised(at: nat) | StoreRaised(at: nat)

  predicate FaultWithin(fault: Option<WriteFault>, n: nat)
  {
    fault.Some? ==> fault.value.at < n
  }

  /** The number of items of a batch of `n` that were logged before `fault`. */
  function LoggedCount(n: nat, fault: Option<WriteFault>): (k: nat)
    requires FaultWithin(fault, n)
    ensures k <= n
    ensures fault.None? ==> k == n
  {
    match fault
    case None => n
    case Some(LogRaised(at)) => at
    case Some(StoreRaised(at)) => at + 1
  }

  /** The number of items of a batch of `n` that were stored before `fault`; at most one fewer than were logged. */
  function StoredCount(n: nat, fault: Option<WriteFault>): (k: nat)
    requires FaultWithin(fault, n)
    ensures k <= LoggedCount(n, fault) <= k + 1
    ensures fault.None? <==> k == n
  {
    match fault
    case None => n
    case Some(f) => f.at
  }

  /** The action types (and GitHub actions) the `if`/`elif` chain dispatches to a client. */
  predicate MakesCall(a: OfflineAction)
  {
    || a.actionType == "email"
    || a.actionType == "calendar"
    || (a.actionType == "github" && (a.githubAction == "create_issue" || a.githubAction == "create_pr"))
  }

  /** The calls `sync_offline_actions` makes for one action before marking it. */
  function Dispatch(a: OfflineAction): (r: seq<Effect>)
    ensures |r| <= 1 && (r != [] ==> !r[0].MarkSynced?)
    ensures r != [] <==> MakesCall(a)
  {
    if a.actionType == "email" then [SendEmail(a.to, a.subject, a.body)]
    else if a.actionType == "calendar" then [CreateEvent(a.calendar, a.summary, a.start, a.end, a.description)]
    else if a.actionType == "github" then
      if a.githubAction == "create_issue" then [CreateIssue(a.repo, a.title, a.body)]
      else if a.githubAction == "create_pr" then [CreatePullRequest(a.repo, a.title, a.body, a.base, a.head)]
      else []
    else []
  }

  /**
   * `email` calls only `send_email`, `calendar` only `create_event`, and
   * `github` only `create_issue` or `create_pull_request` as its `action`
   * says; every other action calls nothing.
   */
  lemma DispatchCalls(a: OfflineAction)
    ensures Dispatch(a) != [] && Dispatch(a)[0].SendEmail? <==> a.actionType == "email"
    ensures Dispatch(a) != [] && Dispatch(a)[0].CreateEvent? <==> a.actionType == "calendar"
    ensures Dispatch(a) != [] && Dispatch(a)[0].CreateIssue? <==> a.actionType == "github" && a.githubAction == "create_issue"
    ensures Dispatch(a) != [] && Dispatch(a)[0].CreatePullRequest? <==> a.actionType == "github" && a.githubAction == "create_pr"
    ensures Dispatch(a) == [] <==> !MakesCall(a)
  {
  }

  /** Everything `sync_offline_actions` does with the queued actions, in order, when every dispatch returns. */
  function Replay(actions: seq<OfflineAction>): seq<Effect>
  {
    if actions == [] then []
    else Replay(actions[..|actions| - 1])
           + Dispatch(actions[|actions| - 1]) + [MarkSynced(actions[|actions| - 1].id)]
  }

  /** The ids marked synced in a trace, in order. */
  function Marks(trace: seq<Effect>): seq<int>
  {
    if trace == [] then []
    else (if trace[0].MarkSynced? then [trace[0].actionId] else []) + Marks(trace[1..])
  }

  function Ids(actions: seq<OfflineAction>): (r: seq<int>)
    ensures |r| == |actions| && forall i :: 0 <= i < |actions| ==> r[i] == actions[i].id
  {
    seq(|actions|, i requires 0 <= i < |actions| => actions[i].id)
  }

  /** The replay of one more action extends the trace by that action's dispatch and mark. */
  lemma ReplayStep(actions: seq<OfflineAction>, i: nat)
    requires i < |actions|
    ensures Replay(actions[..i + 1]) == Replay(actions[..i]) + Dispatch(actions[i]) + [MarkSynced(actions[i].id)]
  {
    assert actions[..i + 1][..i] == actions[..i];
  }

  lemma AppendAssoc<T>(a: seq<T>, b: seq<T>, c: seq<T>, d: seq<T>)
    ensures a + b + c + d == a + (b + c + d)
  {
  }

  lemma AppendOne<T>(a: seq<T>, b: seq<T>, x: T)
    ensures a + b + [x] == a + (b + [x])
  {
  }

  lemma {:induction false} MarksAppend(a: seq<Effect>, b: seq<Effect>)
    ensures Marks(a + b) == Marks(a) + Marks(b)
    decreases |a|
  {
    if a == [] {
      assert a + b == b;
    } else {
      assert (a + b)[0] == a[0];
      assert (a + b)[1..] == a[1..] + b;
      MarksAppend(a[1..], b);
    }
  }

  /** One action's part of the trace marks exactly that action. */
  lemma MarksOfStep(a: OfflineAction)
    ensures Marks(Dispatch(a) + [MarkSynced(a.id)]) == [a.id]
  {
    var d, m := Dispatch(a), [MarkSynced(a.id)];
    assert Marks(m) == [a.id] by {
      assert m[1..] == [];
    }
    if d != [] {
      assert (d + m)[1..] == m;
    } else {
      assert d + m == m;
    }
  }

  /**
   * When every dispatch returns, every queued action is marked synced
   * exactly once and in the order returned, whether or not its type (or
   * GitHub action) was recognised.
   */
  lemma {:induction false} ReplayMarksEveryAction(actions: seq<OfflineAction>)
    ensures Marks(Replay(actions)) == Ids(actions)
  {
    if actions != [] {
      var init, last := actions[..|actions| - 1], actions[|actions| - 1];
      var step := Dispatch(last) + [MarkSynced(last.id)];
      AppendOne(Replay(init), Dispatch(last), MarkSynced(last.id));
      ReplayMarksEveryAction(init);
      MarksAppend(Replay(init), step);
      MarksOfStep(last);
      assert Ids(actions) == Ids(init) + [last.id];
    }
  }

  /** When every dispatch returns, each call is directly followed by the mark of its action. */
  lemma {:induction false} ReplayCallsThenMark(actions: seq<OfflineAction>)
    ensures var r := Replay(actions);
            forall p :: 0 <= p < |r| && !r[p].MarkSynced? ==> p + 1 < |r| && r[p + 1].MarkSynced?
    ensures actions != [] ==> var r := Replay(actions);
            |r| > 0 && r[|r| - 1] == MarkSynced(actions[|actions| - 1].id)
  {
    if actions != [] {
      var init, last := actions[..|actions| - 1], actions[|actions| - 1];
      ReplayCallsThenMark(init);
      var r0 := Replay(init);
      var r := Replay(actions);
      assert r == r0 + Dispatch(last) + [MarkSynced(last.id)];
      forall p | 0 <= p < |r| && !r[p].MarkSynced?
        ensures p + 1 < |r| && r[p + 1].MarkSynced?
      {
        if p < |r0| {
          assert r[p] == r0[p];
          if p + 1 < |r0| {
            assert r[p + 1] == r0[p + 1];
          }
        }
      }
    }
  }

  /**
   * Whether the dispatch of an action returned, given whether its client
   * call returned: an action whose type (or GitHub action) calls nothing
   * cannot raise.
   */
  predicate Returns(a: OfflineAction, callReturned: bool)
  {
    !MakesCall(a) || callReturned
  }

  /** The position of the first action whose dispatch raised, or the length of the queue when none did. */
  function FirstRaise(actions: seq<OfflineAction>, returned: seq<bool>): (n: nat)
    requires |returned| == |actions|
    ensures n <= |actions|
    ensures n < |actions| ==> !Returns(actions[n], returned[n])
    decreases |actions|
  {
    if actions == [] then 0
    else if !Returns(actions[0], returned[0]) then 0
    else 1 + FirstRaise(actions[1..], returned[1..])
  }

  /** Every action before the first raising one returned. */
  lemma {:induction false} BeforeFirstRaise(actions: seq<OfflineAction>, returned: seq<bool>, j: nat)
    requires |returned| == |actions| && j < FirstRaise(actions, returned)
    ensures Returns(actions[j], returned[j])
    decreases |actions|
  {
    if j > 0 {
      BeforeFirstRaise(actions[1..], returned[1..], j - 1);
    }
  }

  /** An action that returned, reached before the first raise, moves the first raise past it. */
  lemma PastReturned(actions: seq<OfflineAction>, returned: seq<bool>, i: nat)
    requires |returned| == |actions| && i < |actions| && i <= FirstRaise(actions, returned)
    requires Returns(actions[i], returned[i])
    ensures i + 1 <= FirstRaise(actions, returned)
  {
  }

  /** The trace of a loop that stopped at `i`: the replay of the actions before it, then the raising call if any. */
  lemma OfflineTraceAt(actions: seq<OfflineAction>, returned: seq<bool>, i: nat)
    requires |returned| == |actions| && i <= FirstRaise(actions, returned)
    requires i < |actions| ==> !Returns(actions[i], returned[i])
    ensures FirstRaise(actions, returned) == i
    ensures i < |actions| ==> OfflineTrace(actions, returned) == Replay(actions[..i]) + Dispatch(actions[i])
    ensures i == |actions| ==> OfflineTrace(actions, returned) == Replay(actions)
  {
    if i < FirstRaise(actions, returned) {
      BeforeFirstRaise(actions, returned, i);
    }
    assert actions[..|actions|] == actions;
  }

  /**
   * Everything `sync_offline_actions` does with the queue: every action
   * before the first raising dispatch is dispatched and marked; the raising
   * call ends the loop, and neither its action nor any later one is marked.
   */
  function OfflineTrace(actions: seq<OfflineAction>, returned: seq<bool>): seq<Effect>
    requires |returned| == |actions|
  {
    var n := FirstRaise(actions, returned);
    Replay(actions[..n]) + (if n < |actions| then Dispatch(actions[n]) else [])
  }

  lemma DispatchMarksNothing(a: OfflineAction)
    ensures Marks(Dispatch(a)) == []
  {
    var d := Dispatch(a);
    if d != [] {
      assert d[1..] == [];
    }
  }

  /** The ids marked synced are exactly the first `FirstRaise` ids of the queue, in order. */
  lemma OfflineMarks(actions: seq<OfflineAction>, returned: seq<bool>)
    requires |returned| == |actions|
    ensures Marks(OfflineTrace(actions, returned)) == Ids(actions)[..FirstRaise(actions, returned)]
  {
    var n := FirstRaise(actions, returned);
    var tail := if n < |actions| then Dispatch(actions[n]) else [];
    ReplayMarksEveryAction(actions[..n]);
    MarksAppend(Replay(actions[..n]), tail);
    if n < |actions| {
      DispatchMarksNothing(actions[n]);
    }
    assert Marks(tail) == [];
    assert Ids(actions[..n]) == Ids(actions)[..n];
  }

  /** The marked ids are a prefix of the queue's ids. */
  lemma MarksArePrefix(actions: seq<OfflineAction>, returned: seq<bool>)
    requires |returned| == |actions|
    ensures Marks(OfflineTrace(actions, returned)) <= Ids(actions)
  {
    OfflineMarks(actions, returned);
  }

  /** An action is marked exactly when its own dispatch and every earlier one returned. */
  lemma MarkedIffReturned(actions: seq<OfflineAction>, returned: seq<bool>, i: nat)
    requires |returned| == |actions| && i < |actions|
    ensures (i < |Marks(OfflineTrace(actions, returned))|)
              <==> (forall j :: 0 <= j <= i ==> Returns(actions[j], returned[j]))
    ensures i < |Marks(OfflineTrace(actions, returned))| ==> Marks(OfflineTrace(actions, returned))[i] == actions[i].id
  {
    OfflineMarks(actions, returned);
    var n := FirstRaise(actions, returned);
    if i < n {
      forall j | 0 <= j <= i
        ensures Returns(actions[j], returned[j])
      {
        BeforeFirstRaise(actions, returned, j);
      }
    }
  }

  /** When every dispatch returns, the loop runs to the end and the trace is `Replay` of the whole queue. */
  lemma AllReturnedReplay(actions: seq<OfflineAction>, returned: seq<bool>)
    requires |returned| == |actions|
    requires forall j :: 0 <= j < |actions| ==> Returns(actions[j], returned[j])
    ensures FirstRaise(actions, returned) == |actions|
    ensures OfflineTrace(actions, returned) == Replay(actions)
  {
    OfflineTraceAt(actions, returned, FirstRaise(actions, returned));
  }

  /**
   * Each client call but the raising one is directly followed by the mark of
   * its action. A queue that raised ends on the raising call, unmarked; one
   * that did not ends on the mark of its last action.
   */
  lemma OfflineCallsThenMark(actions: seq<OfflineAction>, returned: seq<bool>)
    requires |returned| == |actions|
    ensures var t := OfflineTrace(actions, returned);
            forall p :: 0 <= p < |t| - 1 && !t[p].MarkSynced? ==> t[p + 1].MarkSynced?
    ensures var t, n := OfflineTrace(actions, returned), FirstRaise(actions, returned);
            n < |actions| ==> |t| > 0 && t[|t| - 1] == Dispatch(actions[n])[0]
    ensures var t, n := OfflineTrace(actions, returned), FirstRaise(actions, returned);
            n == |actions| && actions != [] ==> |t| > 0 && t[|t| - 1] == MarkSynced(actions[|actions| - 1].id)
  {
    var n := FirstRaise(actions, returned);
    var r := Replay(actions[..n]);
    var t := OfflineTrace(actions, returned);
    ReplayCallsThenMark(actions[..n]);
    if n < |actions| {
      var d := Dispatch(actions[n]);
      assert |d| == 1 && t == r + d;
      forall p | 0 <= p < |t| - 1 && !t[p].MarkSynced?
        ensures t[p + 1].MarkSynced?
      {
        assert p < |r| && t[p] == r[p];
        if p + 1 < |r| {
          assert t[p + 1] == r[p + 1];
        }
      }
    } else {
      assert actions[..n] == actions;
    }
  }

  /**
   * The dispatches that return with the clients the repository defines:
   * `EmailClient.send_email` is a coroutine; `CalDAVClient` has no
   * `create_event` and `GitHubClient` no `create_pull_request`, so their
   * lookups raise `AttributeError`; and `GitHubClient.create_issue` is a plain
   * method, so awaiting the dictionary it returns raises `TypeError` after
   * the issue was created.
   */
  predicate DefinedClientReturns(a: OfflineAction)
  {
    a.actionType != "calendar" && !(a.actionType == "github" && (a.githubAction == "create_issue" || a.githubAction == "create_pr"))
  }

  /**
   * With those clients the replay stops at the first queued calendar event,
   * issue or pull request, and only the actions before it are marked.
   */
  lemma DefinedClientsStopAtFirstCreate(actions: seq<OfflineAction>, returned: seq<bool>)
    requires |returned| == |actions|
    requires forall j :: 0 <= j < |actions| ==> returned[j] == DefinedClientReturns(actions[j])
    ensures var n := FirstRaise(actions, returned);
            && (forall j :: 0 <= j < n ==> DefinedClientReturns(actions[j]))
            && (n < |actions| ==> !DefinedClientReturns(actions[n]))
            && Marks(OfflineTrace(actions, returned)) == Ids(actions)[..n]
  {
    OfflineMarks(actions, returned);
    var n := FirstRaise(actions, returned);
    forall j | 0 <= j < n
      ensures DefinedClientReturns(actions[j])
    {
      BeforeFirstRaise(actions, returned, j);
    }
  }

  /** Distinct e-mail uids give distinct document ids in the vector store. */
  lemma EmailDocumentIdsDistinct(batch: seq<FetchedEmail>)
    requires forall i, j :: 0 <= i < j < |batch| ==> batch[i].uid != batch[j].uid
    ensures forall i, j :: 0 <= i < j < |batch| ==> EmailDocuments(batch)[i].id != EmailDocuments(batch)[j].id
  {
    forall i, j | 0 <= i < j < |batch|
      ensures EmailDocuments(batch)[i].id != EmailDocuments(batch)[j].id
    {
      if NatToString(batch[i].uid) == NatToString(batch[j].uid) {
        NatToStringInjective(batch[i].uid, batch[j].uid);
      }
    }
  }

  class SyncManager {
    /** `settings.email_username`, the recipient logged for every fetched e-mail. */
    const emailUsername: string

    var lastEmailUid: nat
    var lastCalendarDate: Time
    var lastGitHubDate: Time
    var emailLog: seq<EmailLog>
    var calendarLog: seq<CalendarLog>
    var githubLog: seq<GitHubLog>
    var documents: seq<Document>
    var effects: seq<Effect>

    constructor (emailUsername: string, lastEmailUid: nat, lastCalendarDate: Time, lastGitHubDate: Time)
      ensures this.emailUsername == emailUsername
      ensures this.lastEmailUid == lastEmailUid && this.lastCalendarDate == lastCalendarDate
      ensures this.lastGitHubDate == lastGitHubDate
      ensures emailLog == [] && calendarLog == [] && githubLog == [] && documents == [] && effects == []
    {
      this.emailUsername := emailUsername;
      this.lastEmailUid := lastEmailUid;
      this.lastCalendarDate := lastCalendarDate;
      this.lastGitHubDate := lastGitHubDate;
      emailLog, calendarLog, githubLog, documents, effects := [], [], [], [], [];
    }

    /**
     * `sync_emails`, with `fetched` the client's answer to the fetch (or the
     * exception it raised) and `fault` the write that raised, if one did.
     */
    method SyncEmails(fetched: Result<seq<FetchedEmail>>, fault: Option<WriteFault>) returns (raised: bool)
      requires fetched.Ok? ==> FaultWithin(fault, |fetched.value|)
      modifies this`lastEmailUid, this`emailLog, this`documents, this`effects
      ensures effects == old(effects) + [FetchNewEmails(old(lastEmailUid))]
      ensures raised <==> fetched.Err? || fault.Some?
      ensures fetched.Err? ==> emailLog == old(emailLog) && documents == old(documents)
      ensures fetched.Ok? ==>
                && emailLog == old(emailLog) + EmailLogs(fetched.value[..LoggedCount(|fetched.value|, fault)], emailUsername)
                && documents == old(documents) + EmailDocuments(fetched.value[..StoredCount(|fetched.value|, fault)])
      ensures raised ==> lastEmailUid == old(lastEmailUid)
      ensures !raised ==> lastEmailUid == NextEmailUid(old(lastEmailUid), fetched.value)
      ensures lastCalendarDate == old(lastCalendarDate) && lastGitHubDate == old(lastGitHubDate)
      ensures calendarLog == old(calendarLog) && githubLog == old(githubLog)
    {
      var lastSyncedUid := lastEmailUid;
      effects := effects + [FetchNewEmails(lastSyncedUid)];
      if fetched.Err? {
        return true;
      }
      var newEmails := fetched.value;
      var i := 0;
      while i < |newEmails|
        invariant 0 <= i <= |newEmails|
        invariant fault.Some? ==> i <= fault.value.at
        invariant emailLog == old(emailLog) + EmailLogs(newEmails[..i], emailUsername)
        invariant documents == old(documents) + EmailDocuments(newEmails[..i])
        invariant effects == old(effects) + [FetchNewEmails(lastSyncedUid)]
        invariant lastEmailUid == lastSyncedUid == old(lastEmailUid)
      {
        var email := newEmails[i];
        if fault == Some(LogRaised(i)) {
          return true;
        }
        emailLog := emailLog + [EmailLog(DefaultUserId, email.subject, email.sender, emailUsername, 0)];
        assert EmailLogs(newEmails[..i + 1], emailUsername) == EmailLogs(newEmails[..i], emailUsername) + [EmailLog(DefaultUserId, email.subject, email.sender, emailUsername, 0)];
        AppendOne(old(emailLog), EmailLogs(newEmails[..i], emailUsername), EmailLog(DefaultUserId, email.subject, email.sender, emailUsername, 0));
        if fault == Some(StoreRaised(i)) {
          return true;
        }
        documents := documents + [EmailDocument(email)];
        assert EmailDocuments(newEmails[..i + 1]) == EmailDocuments(newEmails[..i]) + [EmailDocument(email)];
        AppendOne(old(documents), EmailDocuments(newEmails[..i]), EmailDocument(email));
        i := i + 1;
      }
      assert newEmails[..i] == newEmails;
      lastEmailUid := if |newEmails| > 0 then newEmails[|newEmails| - 1].uid else lastSyncedUid;
      return false;
    }

    /** `sync_calendar`, with `fetched` the client's answer to the query and `fault` the write that raised, if one did. */
    method SyncCalendar(fetched: Result<seq<CalendarEvent>>, fault: Option<WriteFault>) returns (raised: bool)
      requires fetched.Ok? ==> FaultWithin(fault, |fetched.value|)
      modifies this`lastCalendarDate, this`calendarLog, this`documents, this`effects
      ensures effects == old(effects) + [GetEvents("default", old(lastCalendarDate))]
      ensures raised <==> fetched.Err? || fault.Some?
      ensures fetched.Err? ==> calendarLog == old(calendarLog) && documents == old(documents)
      ensures fetched.Ok? ==>
                && calendarLog == old(calendarLog) + EventLogs(fetched.value[..LoggedCount(|fetched.value|, fault)])
                && documents == old(documents) + EventDocuments(fetched.value[..StoredCount(|fetched.value|, fault)])
      ensures raised ==> lastCalendarDate == old(lastCalendarDate)
      ensures !raised ==> lastCalendarDate == NextCalendarDate(old(lastCalendarDate), fetched.value)
      ensures lastEmailUid == old(lastEmailUid) && lastGitHubDate == old(lastGitHubDate)
      ensures emailLog == old(emailLog) && githubLog == old(githubLog)
    {
      var lastSyncedDate := lastCalendarDate;
      effects := effects + [GetEvents("default", lastSyncedDate)];
      if fetched.Err? {
        return true;
      }
      var newEvents := fetched.value;
      var i := 0;
      while i < |newEvents|
        invariant 0 <= i <= |newEvents|
        invariant fault.Some? ==> i <= fault.value.at
        invariant calendarLog == old(calendarLog) + EventLogs(newEvents[..i])
        invariant documents == old(documents) + EventDocuments(newEvents[..i])
        invariant effects == old(effects) + [GetEvents("default", lastSyncedDate)]
        invariant lastCalendarDate == lastSyncedDate == old(lastCalendarDate)
      {
        var event := newEvents[i];
        if fault == Some(LogRaised(i)) {
          return true;
        }
        calendarLog := calendarLog + [CalendarLog(DefaultUserId, event.summary, event.start, event.end, event.description)];
        assert EventLogs(newEvents[..i + 1]) == EventLogs(newEvents[..i]) + [CalendarLog(DefaultUserId, event.summary, event.start, event.end, event.description)];
        AppendOne(old(calendarLog), EventLogs(newEvents[..i]), CalendarLog(DefaultUserId, event.summary, event.start, event.end, event.description));
        if fault == Some(StoreRaised(i)) {
          return true;
        }
        documents := documents + [EventDocument(event)];
        assert EventDocuments(newEvents[..i + 1]) == EventDocuments(newEvents[..i]) + [EventDocument(event)];
        AppendOne(old(documents), EventDocuments(newEvents[..i]), EventDocument(event));
        i := i + 1;
      }
      assert newEvents[..i] == newEvents;
      lastCalendarDate := if |newEvents| > 0 then MaxOf(Ends(newEvents)) else lastSyncedDate;
      return false;
    }

    /** `sync_github`, with `fetched` the client's answer to the query and `fault` the write that raised, if one did. */
    method SyncGitHub(fetched: Result<seq<GitHubActivity>>, fault: Option<WriteFault>) returns (raised: bool)
      requires fetched.Ok? ==> FaultWithin(fault, |fetched.value|)
      modifies this`lastGitHubDate, this`githubLog, this`documents, this`effects
      ensures effects == old(effects) + [GetUserActivities(old(lastGitHubDate))]
      ensures raised <==> fetched.Err? || fault.Some?
      ensures fetched.Err? ==> githubLog == old(githubLog) && documents == old(documents)
      ensures fetched.Ok? ==>
                && githubLog == old(githubLog) + ActivityLogs(fetched.value[..LoggedCount(|fetched.value|, fault)])
                && documents == old(documents) + ActivityDocuments(fetched.value[..StoredCount(|fetched.value|, fault)])
      ensures raised ==> lastGitHubDate == old(lastGitHubDate)
      ensures !raised ==> lastGitHubDate == NextGitHubDate(old(lastGitHubDate), fetched.value)
      ensures lastEmailUid == old(lastEmailUid) && lastCalendarDate == old(lastCalendarDate)
      ensures emailLog == old(emailLog) && calendarLog == old(calendarLog)
    {
      var lastSyncedDate := lastGitHubDate;
      effects := effects + [GetUserActivities(lastSyncedDate)];
      if fetched.Err? {
        return true;
      }
      var newActivities := fetched.value;
      var i := 0;
      while i < |newActivities|
        invariant 0 <= i <= |newActivities|
        invariant fault.Some? ==> i <= fault.value.at
        invariant githubLog == old(githubLog) + ActivityLogs(newActivities[..i])
        invariant documents == old(documents) + ActivityDocuments(newActivities[..i])
        invariant effects == old(effects) + [GetUserActivities(lastSyncedDate)]
        invariant lastGitHubDate == lastSyncedDate == old(lastGitHubDate)
      {
        var activity := newActivities[i];
        if fault == Some(LogRaised(i)) {
          return true;
        }
        githubLog := githubLog + [GitHubLog(DefaultUserId, activity.activityType, activity.repoName, activity.payload)];
        assert ActivityLogs(newActivities[..i + 1]) == ActivityLogs(newActivities[..i]) + [GitHubLog(DefaultUserId, activity.activityType, activity.repoName, activity.payload)];
        AppendOne(old(githubLog), ActivityLogs(newActivities[..i]), GitHubLog(DefaultUserId, activity.activityType, activity.repoName, activity.payload));
        if fault == Some(StoreRaised(i)) {
          return true;
        }
        documents := documents + [ActivityDocument(activity)];
        assert ActivityDocuments(newActivities[..i + 1]) == ActivityDocuments(newActivities[..i]) + [ActivityDocument(activity)];
        AppendOne(old(documents), ActivityDocuments(newActivities[..i]), ActivityDocument(activity));
        i := i + 1;
      }
      assert newActivities[..i] == newActivities;
      lastGitHubDate := if |newActivities| > 0 then MaxOf(CreationTimes(newActivities)) else lastSyncedDate;
      return false;
    }

    /**
     * `sync_offline_actions`, with `actions` what `get_offline_actions`
     * returned and `returned[i]` whether the client call of action `i`
     * returned (rather than raised).
     */
    method SyncOfflineActions(actions: seq<OfflineAction>, returned: seq<bool>) returns (raised: bool)
      requires |returned| == |actions|
      modifies this`effects
      ensures effects == old(effects) + OfflineTrace(actions, returned)
      ensures raised <==> FirstRaise(actions, returned) < |actions|
    {
      var i := 0;
      while i < |actions|
        invariant 0 <= i <= |actions|
        invariant i <= FirstRaise(actions, returned)
        invariant effects == old(effects) + Replay(actions[..i])
      {
        ghost var before := effects;
        var ok := ReplayAction(actions[i], returned[i]);
        if !ok {
          OfflineTraceAt(actions, returned, i);
          return true;
        }
        PastReturned(actions, returned, i);
        ReplayStep(actions, i);
        AppendAssoc(old(effects), Replay(actions[..i]), Dispatch(actions[i]), [MarkSynced(actions[i].id)]);
        i := i + 1;
      }
      OfflineTraceAt(actions, returned, i);
      return false;
    }

    /** One turn of the loop of `sync_offline_actions`: dispatch the action, then mark it synced if the dispatch returned. */
    method ReplayAction(action: OfflineAction, callReturned: bool) returns (ok: bool)
      modifies this`effects
      ensures ok <==> Returns(action, callReturned)
      ensures ok ==> effects == old(effects) + Dispatch(action) + [MarkSynced(action.id)]
      ensures !ok ==> effects == old(effects) + Dispatch(action)
    {
      ok := DispatchAction(action, callReturned);
      if ok {
        effects := effects + [MarkSynced(action.id)];
      }
    }

    /**
     * The `if`/`elif` chain of `sync_offline_actions` for one action: the
     * client call it makes, if any, and whether it returned; `callReturned`
     * is whether that call returned.
     */
    method DispatchAction(action: OfflineAction, callReturned: bool) returns (ok: bool)
      modifies this`effects
      ensures effects == old(effects) + Dispatch(action)
      ensures ok <==> Returns(action, callReturned)
    {
      ok := true;
      if action.actionType == "email" {
        effects := effects + [SendEmail(action.to, action.subject, action.body)];
        ok := callReturned;
      } else if action.actionType == "calendar" {
        effects := effects + [CreateEvent(action.calendar, action.summary, action.start, action.end, action.description)];
        ok := callReturned;
      } else if action.actionType == "github" {
        if action.githubAction == "create_issue" {
          effects := effects + [CreateIssue(action.repo, action.title, action.body)];
          ok := callReturned;
        } else if action.githubAction == "create_pr" {
          effects := effects + [CreatePullRequest(action.repo, action.title, action.body, action.base, action.head)];
          ok := callReturned;
        }
      }
    }
  }
}
