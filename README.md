# mypia core, modelled in Dafny

mypia is a personal assistant. It has a Python back end, which queues tasks,
advances their status on a schedule and syncs mail, calendar and GitHub data
after a period offline. It also has a React front end: a store, a task board,
a task list, an inbox, a route guard and an email service. This project
models the deterministic logic of both halves and proves what that logic
promises. Every call into a client the code does not own is a parameter of
the model. This covers the database, IMAP/SMTP, CalDAV, GitHub, the text
generator, the HTTP API and the clock. In the task and sync code, each such
call is modelled as the answer the client gave, or the exception it raised.
An exception ends the coroutine at that call, so nothing after it in the
source is done.

One module per source file:

| module | file | form |
|---|---|---|
| `Wrappers` | (shared) | `Option`, `Result`, `Outcome`; decimal rendering of integers (`str(n)`) |
| `Tasks` | personal_ai_assistant/tasks/task_manager.py | the class `Task` (its `completed_at` is the one mutable field) with its concrete subclasses as a `Kind` datatype. The class `TaskManager` holds `tasks: seq<Task>` and has methods for `add_task`, `get_task`, `execute_task` and `remove_task`. |
| `GeneralTasks` | personal_ai_assistant/tasks/general_tasks.py | the status loop as a method returning the writes it issues, proved against `Writes`. `ApplyWrites` and `Advance` give the table those writes produce. |
| `Sync` | personal_ai_assistant/sync/sync_manager.py | the class `SyncManager`. Its fields are the three watermarks, the three activity logs, the documents added to the vector store, and the trace of client calls. Each sync is a loop method. |
| `Scraper` | personal_ai_assistant/web/scraper.py | the fallback of `summarize_content`, with Python's `str.split()`, slicing and `" ".join` |
| `Store` | app/store/useStore.ts | every store action as a state-to-state function |
| `TaskBoard` | app/components/TaskManagement.tsx | `onDragEnd` as a method over a fresh array (`Array.from` followed by two `splice`s), proved against `DragEnd` |
| `TaskList` | frontend/src/components/tasks/TaskList.tsx | each async handler as its request, the state while it is awaited, and the state once it settles; also the render choice |
| `Inbox` | app/components/EmailInterface.tsx | the handlers and the pane choice as functions, plus event sequences |
| `RouteGuard` | frontend/src/components/ClientLayout.tsx | the redirect and render decisions |
| `EmailService` | frontend/src/services/email.service.ts | the `preview` derivation in `getEmails` |

Notes on what the code does:

- `WebLookupTask.execute` calls `WebScraper.scrape_url(self.url)` on the class. `scrape_url` is an instance method, so `self.url` binds to `self` and `url` is missing. Python raises `TypeError` before any request, and the model's `Execute` returns that error for every web lookup. Because `execute_task` marks only after `execute` returns, a web lookup task is never marked completed.
- `execute_task` marks a task completed whenever `execute` returns, an `{"status": "error"}` result included. An exception raised by a client propagates before the mark.
- The GitHub review task awaits five client calls in turn. The first that raises ends it, and no later call is made.
- In `sync_offline_actions`, an action is marked synced only after its dispatch returned. The first dispatch that raises ends the loop, so neither its action nor any later one is marked. Against the clients the repository defines, this happens at the first queued calendar event, issue or pull request. `CalDAVClient` has no `create_event`, and `GitHubClient` has no `create_pull_request`. `GitHubClient.create_issue` is a plain method, so awaiting its dictionary raises `TypeError` after the issue was created (`Sync.DefinedClientsStopAtFirstCreate`).
- In the three fetching syncs, a raise in the fetch or in one item's writes skips the rest of the batch and the watermark write. The next run therefore fetches from the old watermark again.
- The `tasks` list is searched by id: `get_task` returns the first match. `remove_task` removes that object by identity, the first occurrence of it (`list.remove`), which is the position `get_task` found. `Task` defines no `__eq__`.
- `update_task_statuses` moves each task at most one step per run, from pending to in_progress to completed.
- In the task board, `source.index` and `destination.index` are used as positions in the whole array, even in the kanban view, where a column numbers only its own tasks. The model does the same.
- Once the task list has shown an error, no handler clears it, a later successful fetch included (`TaskList.ErrorPersists`).
- The email preview always ends in "...", even for a body of 100 characters or fewer.

## Model

| member | source | states |
|---|---|---|
| `Wrappers.NatToString` | personal_ai_assistant/sync/sync_manager.py:40 | `str(uid)`: at least one digit, all digits, no leading zero for a positive number |
| `Wrappers.IntToString` | personal_ai_assistant/tasks/task_manager.py:153 | an integer as an f-string renders it: a leading '-' exactly for negatives |
| `Wrappers.NatToStringRoundTrip` | personal_ai_assistant/sync/sync_manager.py:40 | reading the digits of `str(n)` back gives `n` |
| `Wrappers.NatToStringInjective` | personal_ai_assistant/sync/sync_manager.py:40 | distinct uids render to distinct strings |
| `Tasks.ScheduledFields` | personal_ai_assistant/tasks/task_manager.py:45-51 | `ScheduledTask.to_dict` adds exactly `start_time` and `end_time` |
| `Tasks.OwnFields` | personal_ai_assistant/tasks/task_manager.py:45-183 | the keys the override chain of each concrete class adds: start_time/end_time/location, recipient/subject, url, repo_name/pr_number, none |
| `Tasks.KeysDisjoint` | personal_ai_assistant/tasks/task_manager.py:29-183 | no override writes a base key |
| `Tasks.StatusDict` | personal_ai_assistant/tasks/task_manager.py:73 | a result dictionary has `status` and `message`, with the given status |
| `Tasks.Task.constructor` | personal_ai_assistant/tasks/task_manager.py:15-20 | a new task carries its id, title, description and creation time, and `completed_at` is `None` |
| `Tasks.Task.MarkCompleted` | personal_ai_assistant/tasks/task_manager.py:26-27 | `completed_at` becomes the clock reading |
| `Tasks.Task.BaseDict` | personal_ai_assistant/tasks/task_manager.py:29-37 | `Task.to_dict` writes exactly the six base keys |
| `Tasks.Task.ToDict` | personal_ai_assistant/tasks/task_manager.py:45-51 | a subclass dictionary holds all base keys, with the base values, plus its own keys. `type` is the concrete class name and `id` is the task's id. `completed_at` is `None` exactly until the task is marked, then the mark's time. |
| `Tasks.ClassName` | personal_ai_assistant/tasks/task_manager.py:36 | the `type` key: the concrete class's name (a definition; `Tasks.Task.ToDict` states it) |
| `Tasks.MissingClient` | personal_ai_assistant/tasks/task_manager.py:71-177 | the three `if not self.<client>` guards (a definition; `Tasks.Task.Execute` states its consequence) |
| `Tasks.ReplyAt` | personal_ai_assistant/github/github_client.py:65-83 | the reply to the `k`-th awaited call. A call beyond the replies given answers `None`, as the stub coroutines do (a definition). |
| `Tasks.FirstRaised` | personal_ai_assistant/tasks/task_manager.py:144-149 | the position of the first of `n` awaited calls whose reply raised, or `n`. Every call before it was answered. |
| `Tasks.GitHubPRCalls` | personal_ai_assistant/tasks/task_manager.py:144-149 | the five GitHub calls of a review, in the order awaited (a definition; `Tasks.ExecuteGitHubPRReview` states what is made of them) |
| `Tasks.Task.Execute` | personal_ai_assistant/tasks/task_manager.py:71-179 | A missing client or processor gives an error result and no external call. An error result occurs exactly then. Every result has `status` and `message`. An exception from the first client call propagates unchanged. A web lookup raises before any call. |
| `Tasks.ExecuteCalendar` | personal_ai_assistant/tasks/task_manager.py:71-75 | Without a CalDAV client: the error result and no call. Otherwise: one `create_event` on the default calendar, then a success result or the client's exception. |
| `Tasks.ExecuteEmail` | personal_ai_assistant/tasks/task_manager.py:91-95 | Without an e-mail client: the error result and no call. Otherwise: one `send_email`, then a success result or the client's exception. |
| `Tasks.ExecuteGitHubPRReview` | personal_ai_assistant/tasks/task_manager.py:143-159 | The calls made are a non-empty prefix of the five, in order. A success result comes exactly when all five were answered, and then all five were made. Otherwise the last call made is the first that raised, every earlier one was answered, and that call's exception propagates. |
| `Tasks.ExecuteGeneralInfoLookup` | personal_ai_assistant/tasks/task_manager.py:175-179 | Without a text processor: the error result and no call. Otherwise: one `generate_text` with the query prompt, then a success result or the exception. |
| `Tasks.FirstIndexOf` | personal_ai_assistant/tasks/task_manager.py:192-196 | the position of the first task with the id, or none exactly when no task has it |
| `Tasks.RemoveFirst` | personal_ai_assistant/tasks/task_manager.py:209 | `list.remove`: a task in the list loses exactly one occurrence (one element fewer, the multiset less that task); an absent one leaves the list unchanged |
| `Tasks.RemoveFirstAt` | personal_ai_assistant/tasks/task_manager.py:209 | `list.remove` of the first occurrence at `k` cuts out position `k` and keeps the order of the rest |
| `Tasks.NotFoundMessage` | personal_ai_assistant/tasks/task_manager.py:196 | the `ValueError` text of `get_task` (a definition; `Tasks.TaskManager.GetTask` states when it comes) |
| `Tasks.TaskManager.constructor` | personal_ai_assistant/tasks/task_manager.py:186-187 | the registry starts empty |
| `Tasks.TaskManager.AddTask` | personal_ai_assistant/tasks/task_manager.py:189-190 | the task is appended at the end and earlier entries are untouched |
| `Tasks.TaskManager.GetTask` | personal_ai_assistant/tasks/task_manager.py:192-196 | Returns the first task in list order with the id. The `ValueError` message comes exactly when no task has it. |
| `Tasks.TaskManager.ListTasks` | personal_ai_assistant/tasks/task_manager.py:198-199 | one dictionary per task, same length and order, each dictionary's `id` the task's id |
| `Tasks.TaskManager.ExecuteTask` | personal_ai_assistant/tasks/task_manager.py:201-205 | An absent id raises with no call and no mark. Otherwise the result is that task's `execute` result. That task, and no other, is marked, whenever `execute` returns (an error result included), but not when it raises. |
| `Tasks.TaskManager.RemoveTask` | personal_ai_assistant/tasks/task_manager.py:207-209 | An absent id raises and leaves the list unchanged. A present id removes exactly the first task with it and keeps the order of the rest. |
| `GeneralTasks.StepWrite` | personal_ai_assistant/tasks/general_tasks.py:23-26 | The write the `if`/`elif` issues for one task, if any. A write always changes the status, and only to in_progress or completed. |
| `GeneralTasks.Step` | personal_ai_assistant/tasks/general_tasks.py:22-26 | the task with the status `NextStatus` gives it (a definition; `GeneralTasks.WritesRealiseAdvance` ties it to the writes) |
| `GeneralTasks.NextStatus` | personal_ai_assistant/tasks/general_tasks.py:22-26 | Statuses move only forward, one step: pending to in_progress exactly when the start has passed, and in_progress to completed exactly when the end has passed. Failed is never set, and every other status stays. |
| `GeneralTasks.Writes` | personal_ai_assistant/tasks/general_tasks.py:22-26 | at most one write per task, each to in_progress or completed, in table order |
| `GeneralTasks.ApplyWrites` | personal_ai_assistant/tasks/general_tasks.py:24-26 | applying the writes in order keeps the table's size; `GeneralTasks.WritesRealiseAdvance` states the statuses that result |
| `GeneralTasks.UpdateTaskStatuses` | personal_ai_assistant/tasks/general_tasks.py:18-26 | the loop issues exactly the writes of `Writes`, in table order |
| `GeneralTasks.Advance` | personal_ai_assistant/tasks/general_tasks.py:21-26 | one run leaves as many tasks as it found |
| `GeneralTasks.ApplyWrite` | personal_ai_assistant/tasks/general_tasks.py:24 | a status write keeps the table's size |
| `GeneralTasks.ApplyWritesAppend` | personal_ai_assistant/tasks/general_tasks.py:22-26 | applying writes in two batches is applying them in one |
| `GeneralTasks.WritesRealiseAdvance` | personal_ai_assistant/tasks/general_tasks.py:21-26 | with distinct ids, the writes of one run leave every task with the status `NextStatus` gives it |
| `GeneralTasks.AdvanceAppend` | personal_ai_assistant/tasks/general_tasks.py:21-26 | tasks are advanced independently of their neighbours |
| `GeneralTasks.AdvanceOrderIrrelevant` | personal_ai_assistant/tasks/general_tasks.py:21-26 | permuting the table permutes the result: the visiting order does not matter |
| `GeneralTasks.OneStepPerRun` | personal_ai_assistant/tasks/general_tasks.py:23-26 | a pending task whose start and end have both passed becomes in_progress, and only a second run completes it |
| `GeneralTasks.FinalStatusesStable` | personal_ai_assistant/tasks/general_tasks.py:22-26 | completed and failed tasks are left alone at any later time |
| `Sync.TimeText` | personal_ai_assistant/sync/sync_manager.py:55 | `str()` of a timestamp inside the event document (a definition; see "## Left out") |
| `Sync.EmailDocument` | personal_ai_assistant/sync/sync_manager.py:39-40 | the e-mail document: collection `emails`, the subject/from/content text, the e-mail as metadata, `str(uid)` as id (a definition) |
| `Sync.EventDocument` | personal_ai_assistant/sync/sync_manager.py:55-56 | the event document in `calendar_events` under the event's id (a definition) |
| `Sync.ActivityDocument` | personal_ai_assistant/sync/sync_manager.py:70-71 | the activity document in `github_activities` under the activity's id (a definition) |
| `Sync.EmailLogs` | personal_ai_assistant/sync/sync_manager.py:31-38 | one log row per fetched e-mail |
| `Sync.EventLogs` | personal_ai_assistant/sync/sync_manager.py:47-54 | one log row per fetched event |
| `Sync.ActivityLogs` | personal_ai_assistant/sync/sync_manager.py:63-69 | one log row per fetched activity |
| `Sync.EmailDocuments` | personal_ai_assistant/sync/sync_manager.py:39-40 | one document per fetched e-mail |
| `Sync.EventDocuments` | personal_ai_assistant/sync/sync_manager.py:55-56 | one document per fetched event |
| `Sync.ActivityDocuments` | personal_ai_assistant/sync/sync_manager.py:70-71 | one document per fetched activity |
| `Sync.MaxOf` | personal_ai_assistant/sync/sync_manager.py:57 | `max` is an element of the batch and at least every element |
| `Sync.Ends` | personal_ai_assistant/sync/sync_manager.py:57 | the `end` of each event, in order |
| `Sync.CreationTimes` | personal_ai_assistant/sync/sync_manager.py:72 | the `created_at` of each activity, in order |
| `Sync.NextEmailUid` | personal_ai_assistant/sync/sync_manager.py:41 | the uid of the last fetched e-mail, or the stored one for an empty batch (a definition; `Sync.SyncManager.SyncEmails` states when it is written) |
| `Sync.NextCalendarDate` | personal_ai_assistant/sync/sync_manager.py:57 | the largest `end` in the batch (one of the batch's ends, at least every end), or the stored date for an empty batch |
| `Sync.NextGitHubDate` | personal_ai_assistant/sync/sync_manager.py:72 | the largest `created_at` in the batch, or the stored date for an empty batch |
| `Sync.LoggedCount` | personal_ai_assistant/sync/sync_manager.py:31-40 | the items logged before a write raised: all of them when none did |
| `Sync.StoredCount` | personal_ai_assistant/sync/sync_manager.py:31-40 | The items stored before a write raised: at most one fewer than were logged. It is all of them exactly when no write raised. |
| `Sync.MakesCall` | personal_ai_assistant/sync/sync_manager.py:78-86 | the action types (and GitHub actions) the `if`/`elif` chain sends to a client (a definition) |
| `Sync.Dispatch` | personal_ai_assistant/sync/sync_manager.py:78-86 | an action's dispatch is at most one client call and never a mark; it makes a call exactly for the types the chain recognises |
| `Sync.DispatchCalls` | personal_ai_assistant/sync/sync_manager.py:78-86 | `email` calls only `send_email`, `calendar` only `create_event`, `github`+`create_issue` only `create_issue`, `github`+`create_pr` only `create_pull_request`; anything else calls nothing |
| `Sync.Replay` | personal_ai_assistant/sync/sync_manager.py:77-87 | the trace when every dispatch returns: each action's dispatch, then its mark, in queue order (a definition; its properties are the lemmas below) |
| `Sync.Marks` | personal_ai_assistant/sync/sync_manager.py:87 | the ids marked synced in a trace, in order (a definition) |
| `Sync.Ids` | personal_ai_assistant/sync/sync_manager.py:87 | the ids of the queued actions, in order |
| `Sync.MarksAppend` | personal_ai_assistant/sync/sync_manager.py:77-87 | the marks of a trace are those of its parts, in order |
| `Sync.MarksOfStep` | personal_ai_assistant/sync/sync_manager.py:78-87 | one action's dispatch and mark marks exactly that action |
| `Sync.ReplayStep` | personal_ai_assistant/sync/sync_manager.py:77-87 | one more action extends the trace by its dispatch, then its mark |
| `Sync.ReplayMarksEveryAction` | personal_ai_assistant/sync/sync_manager.py:77-87 | when every dispatch returns, every queued action is marked synced exactly once, in the order returned, recognised type or not |
| `Sync.ReplayCallsThenMark` | personal_ai_assistant/sync/sync_manager.py:77-87 | when every dispatch returns, every client call is directly followed by a mark, and the trace ends with the mark of the last action |
| `Sync.Returns` | personal_ai_assistant/sync/sync_manager.py:78-86 | an action's dispatch returns when its client call did; an action that calls nothing cannot raise (a definition) |
| `Sync.FirstRaise` | personal_ai_assistant/sync/sync_manager.py:77-87 | the first action whose dispatch raised, or the queue's length when none did |
| `Sync.BeforeFirstRaise` | personal_ai_assistant/sync/sync_manager.py:77-87 | every action before the first raise returned |
| `Sync.PastReturned` | personal_ai_assistant/sync/sync_manager.py:77-87 | an action that returned, reached before the first raise, moves the first raise past it |
| `Sync.OfflineTraceAt` | personal_ai_assistant/sync/sync_manager.py:77-87 | a loop stopped at `i` by a raise (or at the end) has the trace of `OfflineTrace` |
| `Sync.OfflineTrace` | personal_ai_assistant/sync/sync_manager.py:74-87 | the replay of the actions before the first raise, then the raising call, if any (a definition) |
| `Sync.DispatchMarksNothing` | personal_ai_assistant/sync/sync_manager.py:78-86 | a dispatch marks nothing |
| `Sync.OfflineMarks` | personal_ai_assistant/sync/sync_manager.py:77-87 | the ids marked are exactly the queue's ids up to the first raise, in order |
| `Sync.MarksArePrefix` | personal_ai_assistant/sync/sync_manager.py:77-87 | the marked ids are a prefix of the queue's ids |
| `Sync.MarkedIffReturned` | personal_ai_assistant/sync/sync_manager.py:77-87 | an action is marked exactly when its own dispatch and every earlier one returned, and then at its own position |
| `Sync.AllReturnedReplay` | personal_ai_assistant/sync/sync_manager.py:77-87 | when every dispatch returns, the loop runs to the end and the trace is `Replay` of the queue |
| `Sync.OfflineCallsThenMark` | personal_ai_assistant/sync/sync_manager.py:77-87 | Each call but the raising one is directly followed by a mark. A queue that raised ends on the raising call, unmarked. One that did not ends on the mark of its last action. |
| `Sync.DefinedClientReturns` | personal_ai_assistant/github/github_client.py:39 | With the clients the repository defines, only `send_email` returns. `create_event` and `create_pull_request` do not exist, and `create_issue` cannot be awaited (a definition). |
| `Sync.DefinedClientsStopAtFirstCreate` | personal_ai_assistant/sync/sync_manager.py:77-87 | with those clients the replay stops at the first queued calendar event, issue or pull request, and only the actions before it are marked |
| `Sync.EmailDocumentIdsDistinct` | personal_ai_assistant/sync/sync_manager.py:40 | distinct uids give distinct document ids |
| `Sync.SyncManager.constructor` | personal_ai_assistant/sync/sync_manager.py:11-16 | the stored watermarks are those given; nothing logged, stored or called yet |
| `Sync.SyncManager.SyncEmails` | personal_ai_assistant/sync/sync_manager.py:27-41 | Makes one fetch from the stored uid and raises exactly when the fetch or a write raised. A raising fetch logs and stores nothing. Otherwise the e-mails before the raising write are logged once and stored under `str(uid)`, in fetch order, and the one whose store raised is logged but not stored. The uid becomes `NextEmailUid` only when nothing raised and stays otherwise. Nothing else changes. |
| `Sync.SyncManager.SyncCalendar` | personal_ai_assistant/sync/sync_manager.py:43-57 | Makes one query from the stored date and raises exactly when the query or a write raised. The events before the raising write are logged and stored, in order. The date becomes the largest `end` (or stays for an empty batch) only when nothing raised, and stays otherwise. Nothing else changes. |
| `Sync.SyncManager.SyncGitHub` | personal_ai_assistant/sync/sync_manager.py:59-72 | Makes one query from the stored date and raises exactly when the query or a write raised. The activities before the raising write are logged and stored, in order. The date becomes the largest `created_at` (or stays for an empty batch) only when nothing raised, and stays otherwise. Nothing else changes. |
| `Sync.SyncManager.SyncOfflineActions` | personal_ai_assistant/sync/sync_manager.py:74-87 | The calls made are exactly `OfflineTrace` of the queue and the replies. It raises exactly when some dispatch raised. Watermarks, logs and documents stay. |
| `Sync.SyncManager.ReplayAction` | personal_ai_assistant/sync/sync_manager.py:78-87 | One turn of the loop: the action's dispatch, then its mark exactly when the dispatch returned. It reports whether it returned. |
| `Sync.SyncManager.DispatchAction` | personal_ai_assistant/sync/sync_manager.py:78-86 | The calls made for one action are exactly `Dispatch` of it. It reports whether the dispatch returned, and nothing else changes. |
| `Scraper.Summarize` | personal_ai_assistant/web/scraper.py:40-42 | the fallback of `summarize_content` (a definition; `Scraper.SummarizeWords` and `Scraper.SummarizeIdempotent` state its properties) |
| `Scraper.Join` | personal_ai_assistant/web/scraper.py:41 | `" ".join` (a definition; `Scraper.SplitJoin` and `Scraper.JoinNormalized` state its properties) |
| `Scraper.Normalized` | personal_ai_assistant/web/scraper.py:40-41 | text with no leading, trailing or repeated whitespace, what `" ".join` of words produces (a definition) |
| `Scraper.Extended` | personal_ai_assistant/web/scraper.py:41-42 | the kept words with "..." appended to the last one, the words the truncated summary splits into (a definition) |
| `Scraper.WordLength` | personal_ai_assistant/web/scraper.py:40 | the length of the leading run of non-whitespace |
| `Scraper.Split` | personal_ai_assistant/web/scraper.py:40 | every piece `str.split()` yields is a non-empty word without whitespace |
| `Scraper.PyPrefix` | personal_ai_assistant/web/scraper.py:41 | `words[:k]` for a non-negative `k` is the first `min(k, len)` words |
| `Scraper.WordLengthOfWord` | personal_ai_assistant/web/scraper.py:40 | a word followed by whitespace or the end is one run |
| `Scraper.SplitWord` | personal_ai_assistant/web/scraper.py:40 | such a word splits off as the first piece |
| `Scraper.SplitSpace` | personal_ai_assistant/web/scraper.py:40 | a leading space is skipped by the split |
| `Scraper.SplitEllipsis` | personal_ai_assistant/web/scraper.py:42 | "..." is a single word |
| `Scraper.AppendEllipsisWord` | personal_ai_assistant/web/scraper.py:41-42 | a word with "..." appended is still a word |
| `Scraper.ExtendedAllWords` | personal_ai_assistant/web/scraper.py:41-42 | the kept words with "..." on the last one are all words |
| `Scraper.TruncatedText` | personal_ai_assistant/web/scraper.py:41-42 | a truncated summary is the kept words joined, then "..." |
| `Scraper.JoinNonEmpty` | personal_ai_assistant/web/scraper.py:41 | joined words start with a non-space |
| `Scraper.SplitJoin` | personal_ai_assistant/web/scraper.py:40-41 | splitting the joined words gives the words back |
| `Scraper.JoinNormalized` | personal_ai_assistant/web/scraper.py:41 | the joined text has no leading, trailing or repeated whitespace |
| `Scraper.JoinExtendLast` | personal_ai_assistant/web/scraper.py:41-42 | appending the suffix extends the last word |
| `Scraper.SummarizeWords` | personal_ai_assistant/web/scraper.py:40-42 | the output is normalised text whose words are the first `min(n, max_length)` words, followed by "..." exactly when there were more than `max_length` |
| `Scraper.ShortContentNormalised` | personal_ai_assistant/web/scraper.py:40-42 | content of at most `max_length` words comes back whitespace-normalised with no suffix |
| `Scraper.OnlySpacesNoWords` | personal_ai_assistant/web/scraper.py:40 | whitespace alone has no words |
| `Scraper.NoWordsEmpty` | personal_ai_assistant/web/scraper.py:40-42 | content with no words gives the empty string |
| `Scraper.TruncatedSplit` | personal_ai_assistant/web/scraper.py:40-42 | a truncated summary splits into the kept words, the last carrying the "..." |
| `Scraper.SummarizeIdempotent` | personal_ai_assistant/web/scraper.py:40-42 | summarising a summary with the same limit changes nothing |
| `Scraper.ShortIdempotent` | personal_ai_assistant/web/scraper.py:40-42 | idempotence when nothing was dropped |
| `Scraper.EllipsisOnly` | personal_ai_assistant/web/scraper.py:40-42 | a zero limit turns content with words into "...", and "..." into itself |
| `Scraper.TruncatedIdempotent` | personal_ai_assistant/web/scraper.py:40-42 | idempotence when words were dropped |
| `Scraper.NegativeLimit` | personal_ai_assistant/web/scraper.py:41-42 | a negative limit drops words from the end, as Python slicing does, and always appends "..." |
| `Store.Initial` | app/store/useStore.ts:47-64 | No user, not authenticated, no dark mode and no notifications. The settings are en/system/true/daily/gpt-3.5-turbo/balanced. |
| `Store.SetUser` | app/store/useStore.ts:58 | replaces the user and nothing else |
| `Store.Merge` | app/store/useStore.ts:60 | a supplied settings field wins; an absent one keeps its value |
| `Store.Pick` | app/store/useStore.ts:60 | a supplied field's value, else the current one (a definition; `Store.Merge` states it per field) |
| `Store.SetSettings` | app/store/useStore.ts:59-60 | merges into the settings and changes no other field |
| `Store.SetIsAuthenticated` | app/store/useStore.ts:61 | replaces the flag and nothing else |
| `Store.ToggleDarkMode` | app/store/useStore.ts:62 | flips dark mode and nothing else |
| `Store.Logout` | app/store/useStore.ts:63 | user null, not authenticated; settings, dark mode and notifications unchanged |
| `Store.AddNotification` | app/store/useStore.ts:65-76 | the new notification, unread, with the given id and time, comes first, followed by the old list unchanged |
| `Store.MarkRead` | app/store/useStore.ts:79-81 | every notification with the id becomes read, the others stay, order and length kept |
| `Store.MarkNotificationAsRead` | app/store/useStore.ts:77-82 | marks the list and changes no other field |
| `Store.ClearNotifications` | app/store/useStore.ts:83 | empties the list and changes no other field |
| `Store.SetSettingsEmpty` | app/store/useStore.ts:59-60 | `setSettings({})` is a no-op |
| `Store.Combine` | app/store/useStore.ts:59-60 | the partial whose fields are the later partial's where supplied and the earlier's otherwise (a definition; `Store.SetSettingsTwice` states what it means) |
| `Store.SetSettingsTwice` | app/store/useStore.ts:59-60 | two merges are one merge of the combined partial, the later field winning; the same partial twice is once |
| `Store.ToggleTwice` | app/store/useStore.ts:62 | two toggles restore the state |
| `Store.LogoutIdempotent` | app/store/useStore.ts:63 | logging out twice is logging out once; the initial state is already logged out |
| `Store.MarkReadIdempotent` | app/store/useStore.ts:77-82 | marking twice is marking once |
| `Store.MarkReadEffect` | app/store/useStore.ts:77-82 | ids stay in place and every notification with the id is read afterwards |
| `Store.UnreadCount` | app/store/useStore.ts:40 | the number of notifications whose `read` flag is false, at most the list's length |
| `Store.MarkReadUnreadCount` | app/store/useStore.ts:77-82 | the unread count never grows, and stays when no notification has the id |
| `Store.AddNotificationUnread` | app/store/useStore.ts:65-76 | adding a notification adds one unread one |
| `TaskBoard.Without` | app/components/TaskManagement.tsx:37 | `splice(k, 1)` keeps the elements before `k` and shifts those after it |
| `TaskBoard.Insert` | app/components/TaskManagement.tsx:38-41 | `splice(p, 0, x)` puts `x` at `p`, keeps the elements before and shifts those after |
| `TaskBoard.InsertPosition` | app/components/TaskManagement.tsx:38 | an insertion index past the end inserts at the end |
| `TaskBoard.Ids` | app/components/TaskManagement.tsx:36-41 | the ids of the tasks, in order |
| `TaskBoard.Reorder` | app/components/TaskManagement.tsx:36-41 | the move as written: take out at the source, set the status to the destination's id, put in at the insertion point (a definition; `TaskBoard.ReorderSpec` states what it does) |
| `TaskBoard.DragEnd` | app/components/TaskManagement.tsx:22-44 | `onDragEnd` as a function of the tasks and the drop (a definition; `TaskBoard.NoMoveUnchanged` and `TaskBoard.OnDragEnd` state it) |
| `TaskBoard.OnDragEnd` | app/components/TaskManagement.tsx:22-44 | the copied array after the two splices is exactly `DragEnd` of the old tasks |
| `TaskBoard.MoveInCopy` | app/components/TaskManagement.tsx:36-41 | the copy after taking out at the source and putting in at the insertion point |
| `TaskBoard.SpliceOut` | app/components/TaskManagement.tsx:37 | the in-place shift leaves the array without the dragged task in its first `n-1` places |
| `TaskBoard.SpliceIn` | app/components/TaskManagement.tsx:38-41 | the in-place shift puts the moved task at the insertion point |
| `TaskBoard.NoMoveUnchanged` | app/components/TaskManagement.tsx:25-34 | a drop with no destination, or onto its own droppable and index, changes nothing |
| `TaskBoard.ReorderSpec` | app/components/TaskManagement.tsx:36-41 | Length is kept. The moved task sits at the destination, or at the end when the index is past it, with the new status and its other fields. The other tasks keep their relative order. |
| `TaskBoard.MoveMultiset` | app/components/TaskManagement.tsx:37-38 | taking out one element and putting another in replaces one occurrence |
| `TaskBoard.ReorderKeepsIds` | app/components/TaskManagement.tsx:36-41 | the multiset of ids is preserved |
| `TaskBoard.SameIndexOnlyStatus` | app/components/TaskManagement.tsx:36-41 | a drop at its own index in another column changes only that task's status |
| `TaskBoard.ListViewDropLosesStatus` | app/components/TaskManagement.tsx:36-47 | in the list view a move writes "list", which is no status, as the moved task's status |
| `TaskBoard.ReorderKeepingStatus` | app/components/TaskManagement.tsx:38-41 | the corrected move: a drop outside a status column keeps the task's status (a definition) |
| `TaskBoard.ReorderKeepingStatusValid` | app/components/TaskManagement.tsx:38-41 | with the corrected reorder every status stays valid, and a list move only permutes the tasks |
| `TaskList.Mounted` | frontend/src/components/tasks/TaskList.tsx:14-16 | the list mounts empty, loading, with no error |
| `TaskList.SetStatus` | frontend/src/components/tasks/TaskList.tsx:37-39 | only tasks with the id get the new status; order, length and all other fields kept |
| `TaskList.RemoveId` | frontend/src/components/tasks/TaskList.tsx:48 | no task with the id remains, and every other task remains |
| `TaskList.FetchTasks` | frontend/src/components/tasks/TaskList.tsx:22-32 | Shows loading while awaiting. On success the list is replaced; on failure the list stays and the error is set. Loading ends on both paths. |
| `TaskList.HandleStatusChange` | frontend/src/components/tasks/TaskList.tsx:34-43 | Nothing changes until the update returns. Then on success the status is changed; on failure the list stays and the error is set. |
| `TaskList.HandleDeleteTask` | frontend/src/components/tasks/TaskList.tsx:45-52 | Nothing changes until the delete returns. Then on success the tasks with the id are removed; on failure the list stays and the error is set. |
| `TaskList.Render` | frontend/src/components/tasks/TaskList.tsx:54-59 | loading first, then a non-empty error, then the list |
| `TaskList.RemoveIdConcat` | frontend/src/components/tasks/TaskList.tsx:48 | the filter works piece by piece, so the rest keep their order |
| `TaskList.RemoveIdAbsent` | frontend/src/components/tasks/TaskList.tsx:48 | deleting an id no task has changes nothing |
| `TaskList.RemoveIdIdempotent` | frontend/src/components/tasks/TaskList.tsx:48 | deleting twice is deleting once |
| `TaskList.SetStatusKeepsIds` | frontend/src/components/tasks/TaskList.tsx:37-39 | ids stay in place and the change is idempotent |
| `TaskList.FetchEndsLoading` | frontend/src/components/tasks/TaskList.tsx:22-32 | loading is shown while the fetch is out and never after it |
| `TaskList.ErrorPersists` | frontend/src/components/tasks/TaskList.tsx:29-55 | once an error is set, every later run still shows an error |
| `Inbox.Initial` | app/components/EmailInterface.tsx:12-43 | the mock emails, nothing selected, not composing, an empty draft |
| `Inbox.MarkRead` | app/components/EmailInterface.tsx:47 | only emails with the clicked id become read; order and length kept |
| `Inbox.HandleEmailClick` | app/components/EmailInterface.tsx:45-48 | selects the clicked email and marks it read; composing and draft stay |
| `Inbox.HandleCompose` | app/components/EmailInterface.tsx:50-53 | clears the selection and opens the composer |
| `Inbox.HandleSend` | app/components/EmailInterface.tsx:55-60 | closes the composer and resets the draft to empty to/subject/body |
| `Inbox.HandleEdit` | app/components/EmailInterface.tsx:100-113 | an input replaces its own draft field only |
| `Inbox.Handle` | app/components/EmailInterface.tsx:45-113 | one user event dispatched to its handler (a definition; `Inbox.HandleKeepsRead` states what every handler keeps) |
| `Inbox.HandleAll` | app/components/EmailInterface.tsx:45-113 | a sequence of events handled in order (a definition; `Inbox.ReadStaysRead` states what it keeps) |
| `Inbox.ShownPane` | app/components/EmailInterface.tsx:93-136 | the composer if composing, else the selected email, else the placeholder |
| `Inbox.ClickReadEmailKeepsList` | app/components/EmailInterface.tsx:47 | clicking an already-read email leaves the list unchanged |
| `Inbox.HandleKeepsRead` | app/components/EmailInterface.tsx:45-113 | no handler makes a read email unread or changes the list's ids |
| `Inbox.ReadStaysRead` | app/components/EmailInterface.tsx:45-113 | over any sequence of events a read email stays read |
| `Inbox.ComposeThenSend` | app/components/EmailInterface.tsx:50-60 | composing shows the composer; sending then shows the placeholder |
| `Inbox.ClickWhileComposing` | app/components/EmailInterface.tsx:93-136 | while composing, a click marks read but the composer stays in front |
| `RouteGuard.Redirect` | frontend/src/components/ClientLayout.tsx:14-22 | No navigation while loading. No user off the auth pages goes to /login, and a user on /login or /register goes to /. In every other case nothing happens. |
| `RouteGuard.Render` | frontend/src/components/ClientLayout.tsx:24-57 | Loading shows the loading screen. With no user, an auth page shows its children alone and any other page renders nothing. A signed-in user gets the sidebar layout. |
| `RouteGuard.RedirectSettles` | frontend/src/components/ClientLayout.tsx:16-19 | a redirect never targets the current path, and at its target the guard asks for nothing more |
| `RouteGuard.BlankOnlyWhileRedirecting` | frontend/src/components/ClientLayout.tsx:15-48 | nothing is rendered exactly when the guard is sending the visitor to /login |
| `RouteGuard.ScreenAfterRedirect` | frontend/src/components/ClientLayout.tsx:16-57 | after a redirect the visitor sees the login page alone or the signed-in layout |
| `EmailService.Preview` | frontend/src/services/email.service.ts:24 | the first `min(len, 100)` characters of the body followed by "...", so of length `min(len, 100) + 3` |
| `EmailService.WithPreview` | frontend/src/services/email.service.ts:22-25 | every field is copied and the preview is overridden |
| `EmailService.GetEmails` | frontend/src/services/email.service.ts:19-30 | the same emails in the same order, each with its preview; an API error is passed on unchanged |
| `EmailService.ShortBodyWhole` | frontend/src/services/email.service.ts:24 | a body of at most 100 characters appears whole, still followed by "..." |
| `EmailService.PreviewOnlyFirstHundred` | frontend/src/services/email.service.ts:24 | bodies agreeing on their first 100 characters have the same preview |
| `EmailService.GetEmailsIdempotent` | frontend/src/services/email.service.ts:22-25 | deriving the previews again changes nothing |

## Findings

| source | as written | input that shows it | evidently intended | confidence | as-written member | corrected member |
|---|---|---|---|---|---|---|
| app/components/TaskManagement.tsx:38-47 | The moved task's status is set to `destination.droppableId`. In the list view that id is `"list"`, so the task then renders as "Done". | The initial tasks, with task "1" dragged in the list view from index 0 to index 2. Its status becomes "list". | A list move only reorders. The status changes only on a drop into a status column. | medium, not executed | `TaskBoard.ListViewDropLosesStatus` | `TaskBoard.ReorderKeepingStatusValid` |

`TaskBoard.OnDragEnd` keeps the handler as written. `TaskBoard.ReorderKeepingStatus` is the corrected definition, and `TaskBoard.ReorderKeepingStatusValid` proves its property.

## Left out

- Database, IMAP/SMTP, CalDAV, GitHub, the vector store, the text generator and the HTTP API are not modelled. They are thin wrappers over third-party clients, and each of their answers is a parameter.
- `WebScraper.scrape_url` and the `text_processor` branch of `summarize_content` are left out, because they are HTTP/HTML parsing and a call into a language model. Only the fallback branch is modelled.
- `SyncManager.sync_all` and `is_internet_available` are left out: they are concurrency (`asyncio.gather`) and environment probing. Each sync is modelled as running alone.
- Identifiers (`uuid4`, `Date.now()`) and clock readings are parameters, because they are non-deterministic.
- `update_task_statuses` calls `datetime.now()` once per comparison. The model uses one reading `now` for the whole run, because successive readings differ only by the run's duration.
- The `DatabaseManager` of personal_ai_assistant/database/db_manager.py has only `get_db`. None of the methods the status and sync code call exists there: `get_all_tasks`, `update_task_status`, `get_offline_actions`, `mark_offline_action_synced`, `get_last_synced_*`, `update_last_synced_*` and the `log_*` writes. With that class, each of those calls would raise `AttributeError`. The model treats the database as a client that has them, with its answers as parameters.
- The sync code's field names do not match all of the clients' interfaces. `sync_emails` reads `content` where the e-mail client returns `body`, `get_events` is called without its `end` argument, and the GitHub client has no `get_user_activities`. The model takes each batch with the fields the sync code reads, so the `KeyError`/`AttributeError` the real clients would cause is not modelled.
- `Sync.TimeText`: `str()` of a `datetime` is stood for by the decimal rendering of the timestamp, because date formatting is not part of the sync logic.
- Sync.ReplayMarksEveryAction: states only the case where every dispatch returned. The general case is `Sync.OfflineMarks`, `Sync.MarksArePrefix` and `Sync.MarkedIffReturned`.
- Sync.ReplayCallsThenMark: states only the case where every dispatch returned. The general case is `Sync.OfflineCallsThenMark`.
- Sync.SyncManager.SyncOfflineActions: only the client calls of the dispatch may raise. A raise in `get_offline_actions` or in `mark_offline_action_synced` is not modelled.
- Sync.SyncManager.SyncEmails: the read of the stored watermark and the watermark write itself are taken not to raise. A raise in the fetch or in an item's log or store write is modelled.
- Sync.SyncManager.SyncCalendar: the read of the stored watermark and the watermark write itself are taken not to raise. A raise in the fetch or in an item's log or store write is modelled.
- Sync.SyncManager.SyncGitHub: the read of the stored watermark and the watermark write itself are taken not to raise. A raise in the fetch or in an item's log or store write is modelled.
- GeneralTasks.UpdateTaskStatuses: the database reads and writes are taken not to raise. The loop's writes are stated for a run that completes.
- Tasks.Task.Execute: the GitHub review result's five client answers (`review`, `action_logs`, `suggested_fixes`, `auto_update`, `auto_respond`) are not carried into the result dictionary, because the client's answers are opaque. Only `status` and `message` are stated.
- Tasks.Task.Execute: takes its replies in call order. The calendar, e-mail and lookup tasks make at most one call and read only the first reply.
- Tasks.Task.Execute: a CalDAV answer that is not a dictionary with `id` is modelled as `KeyError`, whatever the exception Python would raise. A GitHub review task constructed without a client is not modelled, because the type annotation requires one.
- `Task.execute` is `async`. The model runs each coroutine until it returns or raises, with the client's replies as parameters; the event loop is not modelled.
- `Store`: a partial settings object whose field is present but `undefined` is not modelled: spread would copy the `undefined`, while the model has only supplied or absent fields. `persist`/`localStorage` are left out because they are browser I/O.
- `TaskList`: the handlers close over the `tasks` of the render that created them. Another update landing while a call is out would be overwritten. The model applies each handler to the state current when it settles, because React's scheduling is not modelled.
- `TaskList`: after a successful fetch the `tasks` come from the API as given. Their content is not checked.
- `EmailService.Preview`: JavaScript's `substring` counts UTF-16 code units, while the model counts characters. The two differ for characters outside the Basic Multilingual Plane.
- `handleSend` only logs the draft; nothing is sent, and the log is not modelled.
- Rendering, styling and animation are left out, apart from the three pane, view and screen choices.
