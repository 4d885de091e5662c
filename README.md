# Video-generation dashboard: WebSocket registry, hooks and form logic

This project models the client-side core of a Next.js dashboard that turns scripts into videos. It has three parts.

**The connection registry** (`WebSocketManager`) keeps one WebSocket per subject id: a collection id or a job id.
- It reuses a socket that is OPEN or CONNECTING.
- It refuses a new attempt within 500 ms of the last one.
- It fans every event out to five sets of subscribed handlers (message, status, error, script_generated, job_complete).
- It answers server pings, sends a keep-alive ping every 30 s while the socket is open, and reconnects 1000 ms after any close whose code is not 1000.

**Two React hooks** sit on top of the registry:
- `useScriptWebSocket` follows script generation for a collection.
- `useJobWebSocket` follows a rendering job.

**Four components** hold form and table logic:
- The create-video page (`ScriptGenerator.tsx`): validators, configuration lookup and the submit guard.
- The project table: search, pagination and status labels.
- The three-tab script input.
- The YouTube upload form: file and title checks, guard order and the simulated progress bar.

The modules follow the source:
- `Registry`: `WebSocketManager.ts`, as a class with the manager's maps as fields.
- `Subscribers`: the handler sets.
- `Wire`: the JSON frames.
- `ScriptHook` and `JobHook`: the hooks. Their handlers are reducers over the hook state, and their effects, cleanups and `reconnect` are methods on a manager.
- `ScriptGenerator`, `ProjectTable`, `ScriptInput` and `YouTubeUpload`: the components.
- `Scenarios`: sequences of registry calls and browser events.
- `Text`: ASCII case mapping, trimming and substring search.

The environment is passed in as parameters:
- Time is the parameter `now`.
- What `new WebSocket(url)` does is a `Construction`: it either returns a socket or throws with a message.
- The close code is a parameter of the close event.
- Pending timers are explicit: `reconnects` is the queue of scheduled reconnections, `timers` the running ping intervals.

Handler calls are returned as a sequence of `Call`s. The hooks fold them with `Run`.

Two behaviours of the code are kept as written:
- A close event does not cancel the subject's ping timer. The timer stops itself at its next tick, because the socket is no longer OPEN.
- A close event of a socket that has already been replaced still tells every status subscriber `false`.

## Model

| member | source | states |
|---|---|---|
| Registry.ReadyStateString | src/lib/websocket/WebSocketManager.ts:242-250 | "UNKNOWN" exactly for codes outside 0..3; each ready-state code gets its own name |
| Registry.ReadyStateStringInjective | src/lib/websocket/WebSocketManager.ts:242-250 | two ready states with the same name are the same state |
| Registry.DispatchMalformed | src/lib/websocket/WebSocketManager.ts:124-128 | an unparseable frame (or a parsed `null`) calls each error handler exactly once with "Failed to parse WebSocket message", calls no other handler and sends nothing |
| Registry.DispatchDeliversOnce | src/lib/websocket/WebSocketManager.ts:93-123 | every parsed frame reaches each message handler exactly once, after the category-specific handlers |
| Registry.DispatchPing | src/lib/websocket/WebSocketManager.ts:101-104 | a ping is answered with exactly one pong and still reaches the message handlers; no other frame sends anything |
| Registry.DispatchScriptGenerated | src/lib/websocket/WebSocketManager.ts:105-114 | with a truthy `script_id`, each script_generated handler gets only that id, once, before the message fan-out; without one, only the message handlers are called; no job_complete handler is called |
| Registry.DispatchJobComplete | src/lib/websocket/WebSocketManager.ts:117-123 | `job_complete` gives the whole frame to each job_complete handler once, then to the message handlers; no script_generated handler is called |
| Registry.DispatchOtherTypes | src/lib/websocket/WebSocketManager.ts:115-123 | `job_status`, `pong` and unknown types reach the message handlers only |
| Registry.WebSocketManager.constructor | src/lib/websocket/WebSocketManager.ts:21-29 | empty maps and no sockets or timers; the registry invariant holds |
| Registry.Pool.Classify | src/lib/websocket/WebSocketManager.ts:45-62 | reuse only for the registered live socket; a new attempt only after the 500 ms cooldown; a refusal only inside it |
| Registry.WebSocketManager.GetConnection | src/lib/websocket/WebSocketManager.ts:45-167 | an empty id, or a call inside the cooldown, gives `null` and changes nothing; a live socket is returned unchanged; otherwise the attempt time is recorded and either a CONNECTING socket is registered (handler sets created only if absent) or every error handler hears "Failed to create WebSocket: ..." and the result is `null`; timers and the reconnection queue are untouched; the invariant is kept (the branches are spelled out once, in the predicate `Connects`) |
| Registry.WebSocketManager.Register | src/lib/websocket/WebSocketManager.ts:69-81 | the new socket is registered for the id and existing subscribers survive; the invariant is kept |
| Registry.WebSocketManager.On | src/lib/websocket/WebSocketManager.ts:172-187 | creates the subject's sets if absent and adds the handler to one set (a repeat is a no-op); nothing else changes |
| Registry.WebSocketManager.Off | src/lib/websocket/WebSocketManager.ts:192-197 | removes exactly that handler; an unknown id changes nothing |
| Registry.WebSocketManager.UnregisterAllHandlers | src/lib/websocket/WebSocketManager.ts:220-229 | empties all five sets of an existing subject and never touches connections, sockets or timers |
| Registry.WebSocketManager.CloseConnection | src/lib/websocket/WebSocketManager.ts:202-215 | acts only on a registered OPEN or CONNECTING socket: it becomes CLOSING, the entry is deleted and the ping timer cancelled; otherwise nothing changes |
| Registry.WebSocketManager.Retire | src/lib/websocket/WebSocketManager.ts:205-213 | the acting branch of `closeConnection`, with its exact new state |
| Registry.WebSocketManager.CancelPing | src/lib/websocket/WebSocketManager.ts:210-213 | the subject's ping timer is stopped and its entry deleted |
| Registry.WebSocketManager.SetupPingInterval | src/lib/websocket/WebSocketManager.ts:255-278 | any earlier timer for the subject is stopped and exactly one new timer is recorded, so a subject never has two |
| Registry.WebSocketManager.OnOpen | src/lib/websocket/WebSocketManager.ts:84-91 | the socket is OPEN, every status handler hears `true`, and then the ping timer is (re)started |
| Registry.WebSocketManager.OnMessage | src/lib/websocket/WebSocketManager.ts:93-129 | the calls and frames sent are exactly those `Dispatch` specifies; no state changes |
| Registry.WebSocketManager.OnError | src/lib/websocket/WebSocketManager.ts:131-136 | every error handler hears "WebSocket connection error", then every status handler hears `false` |
| Registry.WebSocketManager.OnClose | src/lib/websocket/WebSocketManager.ts:138-158 | every status handler hears `false`; the entry is removed only if it is still this socket; a reconnection is queued iff the code is not 1000; the ping timer is left running |
| Registry.WebSocketManager.PingTick | src/lib/websocket/WebSocketManager.ts:262-275 | sends exactly one ping while the socket is OPEN; otherwise sends nothing, stops itself and deletes the subject's entry |
| Registry.WebSocketManager.ReconnectTick | src/lib/websocket/WebSocketManager.ts:151-157 | the oldest queued reconnection leaves the queue and runs `getConnection` with the captured id and URL, with every outcome `Connects` gives it (reuse, cooldown, a new socket, or the error calls on a throwing constructor); handler sets are created only for a new socket of a subject without them; timers are untouched |
| Registry.WebSocketManager.Drop | src/lib/websocket/WebSocketManager.ts:50-51 | the browser moves a live socket to CLOSING or CLOSED without telling the manager: only that socket's state changes, it stays registered, and the invariant still holds |
| Subscribers.Insert | src/lib/websocket/WebSocketManager.ts:185 | `Set.add`: the element set grows by the handler, the order is kept, and a present handler leaves the set unchanged |
| Subscribers.Delete | src/lib/websocket/WebSocketManager.ts:195 | `Set.delete`: exactly that handler is gone and nothing else |
| Subscribers.DeleteUndoesInsert | src/lib/websocket/WebSocketManager.ts:185-195 | deleting a handler just added to a set without it restores the set |
| Subscribers.AddIdempotent | src/lib/websocket/WebSocketManager.ts:172-187 | registering the same handler twice leaves one copy |
| Subscribers.RemoveUndoesAdd | src/lib/websocket/WebSocketManager.ts:172-197 | `off` after `on` of a new handler restores the subject's sets |
| Subscribers.FanOut | src/lib/websocket/WebSocketManager.ts:87 | `forEach`: one call per handler, in set order, each with the same argument |
| Subscribers.FanOutOnce | src/lib/websocket/WebSocketManager.ts:123 | a fan-out calls each subscribed handler exactly once and unsubscribed ones never |
| Subscribers.Notify | src/lib/websocket/WebSocketManager.ts:123 | the loop over a handler set makes exactly the fan-out's calls |
| ScriptHook.SubscribeFresh | src/hooks/useScriptWebSocket.ts:75-78 | on a subject without handlers, each of the four categories holds exactly this hook's handler and job_complete none |
| ScriptHook.CleanupUndoesSubscribe | src/hooks/useScriptWebSocket.ts:91-99 | the four `off` calls undo the four `on` calls exactly |
| ScriptHook.StatusAndErrorHandlers | src/hooks/useScriptWebSocket.ts:34-48 | `true` gives connected with the error cleared; `false` gives disconnected with the error kept; an error records its message with status "error" |
| ScriptHook.RunAppend | src/hooks/useScriptWebSocket.ts:34-72 | two batches of calls in a row: the second sees the state the first left, and the callbacks are reported in order |
| ScriptHook.RunForeign | src/hooks/useScriptWebSocket.ts:34-72 | a fan-out over a set without the hook's own handler for that argument changes nothing and reports nothing |
| ScriptHook.RunFanOut | src/hooks/useScriptWebSocket.ts:34-78 | a fan-out over a valid handler set reaches the hook exactly once when its handler is in the set, and not at all otherwise, whoever else is subscribed |
| ScriptHook.ScriptGeneratedReported | src/hooks/useScriptWebSocket.ts:50-65 | on any valid handler sets, a `script_generated` frame with a `script_id` reports the id once for each of the two sets (script_generated, message) that holds the hook's handler, and records it when either does |
| ScriptHook.ScriptGeneratedReportedTwice | src/hooks/useScriptWebSocket.ts:75-78 | after the hook subscribed on any valid handler sets, one such frame calls `onScriptGenerated` twice with the same id |
| ScriptHook.ErrorThenDisconnect | src/hooks/useScriptWebSocket.ts:34-48 | on any valid handler sets holding the hook's error and status handlers, the error event followed by the manager's `status(false)` leaves the hook disconnected with status "disconnected", the error message kept and no callback |
| ScriptHook.ErrorSurvivesDisconnect | src/hooks/useScriptWebSocket.ts:34-48 | after the hook subscribed on any valid handler sets, the registry's error event leaves it disconnected with status "disconnected", the error message kept and no callback |
| ScriptHook.MessageReducer | src/hooks/useScriptWebSocket.ts:61-72 | `collection_status` sets `status` from the frame; `pong`, other types and a `script_generated` frame without `script_id` change nothing |
| ScriptHook.SubscribeAll | src/hooks/useScriptWebSocket.ts:75-78 | the four `on` calls: the subject's sets become `Subscribe` of the old ones and no other subject changes |
| ScriptHook.SubscribeFirst | src/hooks/useScriptWebSocket.ts:75-76 | the first two `on` calls (status, error): only this subject's sets change |
| ScriptHook.SubscribeRest | src/hooks/useScriptWebSocket.ts:77-78 | the last two `on` calls (script_generated, message): only this subject's sets change |
| ScriptHook.Setup | src/hooks/useScriptWebSocket.ts:28-89 | no collection id: nothing happens; otherwise the four handlers are subscribed, no other subject changes, and `getConnection` to `?collection_id=` has exactly the outcome `Connects` gives for the branch it takes, a failed construction being reported to the hook's own error handler too; only a reused OPEN socket marks the hook connected at once |
| ScriptHook.Cleanup | src/hooks/useScriptWebSocket.ts:91-99 | the four handlers are removed and the connection is left as it was |
| ScriptHook.UnsubscribeRest | src/hooks/useScriptWebSocket.ts:95-96 | the last two `off` calls |
| ScriptHook.Reconnect | src/hooks/useScriptWebSocket.ts:103-112 | `null` without an id; otherwise the old socket is no longer live and the result is a new socket to the setup URL exactly when the cooldown has passed and construction succeeds |
| JobHook.CleanupUndoesSubscribe | src/hooks/useJobWebSocket.ts:90-95 | the three `off` calls undo the three `on` calls exactly |
| JobHook.StatusAndErrorHandlers | src/hooks/useJobWebSocket.ts:35-44 | the status handler copies `connected` and clears the error only when connected; an error records its message |
| JobHook.OtherFramesIgnored | src/hooks/useJobWebSocket.ts:46-73 | frames other than `job_status` and `job_complete` change nothing and call no callback |
| JobHook.RunAppend | src/hooks/useJobWebSocket.ts:35-73 | two batches of calls in a row: the second sees the state the first left, and the notices are reported in order |
| JobHook.RunForeign | src/hooks/useJobWebSocket.ts:35-73 | a fan-out over a set without the hook's own handler for that argument changes nothing and reports nothing |
| JobHook.RunFanOut | src/hooks/useJobWebSocket.ts:35-78 | a fan-out over a valid handler set reaches the hook exactly once when its handler is in the set, and not at all otherwise |
| JobHook.JobCompleteReported | src/hooks/useJobWebSocket.ts:56-72 | on any valid handler sets, a `job_complete` frame completes the job (status "READY", fields from the frame) when the hook's message handler is in the job_complete or the message set, and reports `onJobComplete` once per such set |
| JobHook.JobCompleteReportedOnce | src/hooks/useJobWebSocket.ts:76-78 | after the hook subscribed, on handler sets where its closure is not a job_complete handler, a `job_complete` frame completes the job and calls `onJobComplete` exactly once |
| JobHook.JobStatusReported | src/hooks/useJobWebSocket.ts:49-55 | on any valid handler sets, a `job_status` frame sets `status` and calls `onStatusChange` once with it when the hook's message handler is subscribed, and changes nothing otherwise |
| JobHook.SubscribeAll | src/hooks/useJobWebSocket.ts:76-78 | the three `on` calls: the subject's sets become `Subscribe` of the old ones and no other subject changes |
| JobHook.Setup | src/hooks/useJobWebSocket.ts:31-87 | no job id: nothing happens; otherwise three handlers are subscribed, no other subject changes, and `getConnection` to `?job_id=` has exactly the outcome `Connects` gives for the branch it takes; only a reused OPEN socket marks the hook connected at once |
| JobHook.Cleanup | src/hooks/useJobWebSocket.ts:90-95 | the three handlers are removed and the connection is left as it was |
| JobHook.Reconnect | src/hooks/useJobWebSocket.ts:99-108 | `null` without an id; otherwise the old socket is no longer live and the result is a new socket to the setup URL exactly when the cooldown has passed and construction succeeds |
| Scenarios.SharedConnection | src/lib/websocket/WebSocketManager.ts:45-91 | two callers of one subject share one socket, and both status subscribers hear `true` on open, in subscription order |
| Scenarios.FailedAttemptCooldown | src/lib/websocket/WebSocketManager.ts:57-81 | a throwing constructor is reported to the error subscriber and counts as an attempt: a retry within 500 ms gets `null`, one 500 ms later a socket |
| Scenarios.ManualCloseDoesNotReconnect | src/lib/websocket/WebSocketManager.ts:138-215 | `closeConnection` and its close event leave no registration, no ping timer and no pending reconnection |
| Scenarios.AbnormalCloseReconnects | src/lib/websocket/WebSocketManager.ts:138-158 | a close with a code other than 1000 queues one reconnection, which creates a new socket and keeps the subscribers |
| Scenarios.StaleCloseAfterReconnect | src/lib/websocket/WebSocketManager.ts:138-158 | the late close of a replaced socket keeps the new registration but still tells subscribers `false`; its reconnection hands back the new socket |
| Scenarios.ServerStartedClosing | src/lib/websocket/WebSocketManager.ts:202-215 | once the server has started closing an open socket, `closeConnection` leaves the registration, the socket and the attempt time as they are |
| Scenarios.ServerClosing | src/lib/websocket/WebSocketManager.ts:45-81 | after that, a request past the cooldown creates a new CONNECTING socket for the subject while the old one stays CLOSING |
| Scenarios.PingPong | src/lib/websocket/WebSocketManager.ts:101-123 | on an open socket a ping is answered with a pong and delivered; the timer pings while the socket is open and stops once it is closed |
| ScriptGenerator.ValidateText | src/components/ScriptGenerator.tsx:394-410 | accepts exactly 50 to 5000 characters; empty, short and long input each have their own message; success clears the message |
| ScriptGenerator.ValidateUrl | src/components/ScriptGenerator.tsx:413-426 | "URL is required" for the empty string; otherwise accepts exactly `http://` or `https://` followed by a character that is not a line terminator |
| ScriptGenerator.ValidateFile | src/components/ScriptGenerator.tsx:429-453 | "File is required" for no file; then the three allowed MIME types; then at most 5 MiB, with exactly 5 MiB accepted |
| ScriptGenerator.TypeCheckedBeforeSize | src/components/ScriptGenerator.tsx:441-453 | a file of a disallowed type gets the type message whatever its size |
| ScriptGenerator.FindNameById | src/components/ScriptGenerator.tsx:497-500 | the name of the first entry with the id, else the id itself |
| ScriptGenerator.HandleChange | src/components/ScriptGenerator.tsx:389-391 | one key takes the new value and every other key keeps its own |
| ScriptGenerator.CreateVideo.constructor | src/components/ScriptGenerator.tsx:241-269 | the text tab, no messages, not loading, configurations loading, the initial form |
| ScriptGenerator.CreateVideo.ConfigurationsFetched | src/components/ScriptGenerator.tsx:349-370 | on success the lists are stored and each non-empty list's first name becomes its key's default; on failure only the loading flag changes |
| ScriptGenerator.CreateVideo.Choose | src/components/ScriptGenerator.tsx:389-391 | the form changes as `HandleChange` says and keeps all six keys |
| ScriptGenerator.CreateVideo.SelectTab | src/components/ScriptGenerator.tsx:640 | only the active tab changes |
| ScriptGenerator.CreateVideo.TextChanged | src/components/ScriptGenerator.tsx:455-459 | stores the text and shows its validation message |
| ScriptGenerator.CreateVideo.UrlChanged | src/components/ScriptGenerator.tsx:461-469 | stores the URL; a non-empty one is validated, an empty one clears the message |
| ScriptGenerator.CreateVideo.FileChanged | src/components/ScriptGenerator.tsx:471-481 | the first selected file is stored and validated; an empty selection changes nothing |
| ScriptGenerator.CreateVideo.Guard | src/components/ScriptGenerator.tsx:497-561 | only the active tab's validator runs and sets its message; a request is produced iff it accepts, carrying the names looked up from the form |
| ScriptGenerator.CreateVideo.Submit | src/components/ScriptGenerator.tsx:484-561 | as written: `loading` is set before the guard, and a rejected input leaves the submit button disabled |
| ScriptGenerator.CreateVideo.SubmitCorrected | src/components/ScriptGenerator.tsx:612-620 | a rejected input resets `loading` and the progress as the failure path does, so the button is disabled only while configurations load |
| ScriptGenerator.ShortScriptLocksSubmit | src/components/ScriptGenerator.tsx:484-561 | a 49-character script sends nothing, shows the length message, and leaves the button disabled |
| ScriptGenerator.ShortScriptCorrected | src/components/ScriptGenerator.tsx:612-620 | with the corrected handler the same submit shows the message and re-enables the button |
| ProjectTable.Filter | src/components/ProjectTable.tsx:76-78 | keeps exactly the projects whose lower-cased topic contains the lower-cased query |
| ProjectTable.FilterAppend | src/components/ProjectTable.tsx:76-78 | the filter keeps the original order |
| ProjectTable.EmptyQueryKeepsAll | src/components/ProjectTable.tsx:76-78 | an empty query keeps every project, in order |
| ProjectTable.QueryCaseIgnored | src/components/ProjectTable.tsx:76-78 | a query and its lower-cased form select the same projects |
| ProjectTable.CurrentPage | src/components/ProjectTable.tsx:81-83 | for page 1 or more: at most 10 rows, the exact count left on that page, and the rows are the filtered list from position (page-1)*10 on |
| ProjectTable.TotalPages | src/components/ProjectTable.tsx:85 | the ceiling of n/10, which is 0 exactly when nothing matches |
| ProjectTable.EveryItemOnItsPage | src/components/ProjectTable.tsx:81-85 | every filtered project appears on the page its position gives, and that page exists |
| ProjectTable.PastLastPageEmpty | src/components/ProjectTable.tsx:204 | a page past the last (the query does not reset the page) shows no rows, hence "No projects found." |
| ProjectTable.PreviousPage | src/components/ProjectTable.tsx:258 | `max(1, p - 1)` |
| ProjectTable.NextPage | src/components/ProjectTable.tsx:270 | `min(totalPages, p + 1)` |
| ProjectTable.PagingStaysInRange | src/components/ProjectTable.tsx:253-271 | from a page in range both buttons keep the page within 1..totalPages |
| ProjectTable.SampleDataOnePage | src/components/ProjectTable.tsx:23-85 | with the five sample projects and an empty query, all of them are listed, in order, on the single page |
| ProjectTable.SinglePage | src/components/ProjectTable.tsx:81-85 | a non-empty list of at most ten rows fits on one page, and page 1 shows all of it in order |
| ProjectTable.StatusColor | src/components/ProjectTable.tsx:110-121 | green exactly for completed, blue exactly for processing, gray for draft and anything else |
| ProjectTable.Capitalize | src/components/ProjectTable.tsx:211 | the first character upper-cased and the rest unchanged |
| ProjectTable.CapitalizeIdempotent | src/components/ProjectTable.tsx:211 | a capitalised label capitalises to itself |
| ProjectTable.StatusLabels | src/components/ProjectTable.tsx:211 | "Completed", "Processing", "Draft" |
| ScriptInput.ValidateText | src/components/ScriptInput.tsx:20-27 | accepts exactly 50 characters or more, with no upper bound; only the text message changes |
| ScriptInput.SubmitText | src/components/ScriptInput.tsx:29-32 | the request starts iff the text is valid, and only then is `loading` set |
| ScriptInput.FetchUrl | src/components/ScriptInput.tsx:52-59 | refused iff the URL is empty or does not start with "http"; otherwise the message is cleared and loading starts |
| ScriptInput.PrefixOnly | src/components/ScriptInput.tsx:53 | "httpx:" passes and "ftp://host" does not |
| ScriptInput.AfterLastDot | src/components/ScriptInput.tsx:87 | a dot-free suffix of the name, preceded by a '.' unless it is the whole name |
| ScriptInput.ValidExtensionIff | src/components/ScriptInput.tsx:86-88 | a name passes exactly when the lower-cased text after its last dot is pdf, doc or docx |
| ScriptInput.DotlessName | src/components/ScriptInput.tsx:87 | a name without a dot is its own extension text |
| ScriptInput.TextAfterLastDot | src/components/ScriptInput.tsx:87 | whatever precedes the last dot is ignored |
| ScriptInput.UpperCaseExtension | src/components/ScriptInput.tsx:86-91 | "REPORT.PDF" passes |
| ScriptInput.DotlessExtension | src/components/ScriptInput.tsx:86-91 | the dotless name "docx" passes |
| ScriptInput.UploadFile | src/components/ScriptInput.tsx:78-103 | no file does nothing; the extension is checked before the size; the message is cleared and loading starts only when both pass |
| ScriptInput.RefusalKeepsLoading | src/components/ScriptInput.tsx:29-101 | a refused check never touches `loading` |
| YouTubeUpload.VideoError | src/components/YouTubeUpload.tsx:51-72 | no message exactly for MP4 or MOV of at most 1 GiB; the type message first, then the size message |
| YouTubeUpload.TitleValid | src/components/YouTubeUpload.tsx:77 | true iff the title has a non-space character and at most 100 characters |
| YouTubeUpload.ProgressStep | src/components/YouTubeUpload.tsx:113-118 | the bar is clamped at 100, strictly climbs below it and rests on it; from a multiple of 10 within 0..100 it stays a multiple of 10 within 0..100 |
| YouTubeUpload.ProgressFromZero | src/components/YouTubeUpload.tsx:112-118 | from 0 the bar after n updates is min(10n, 100), so it stays within 0..100 |
| YouTubeUpload.Form.constructor | src/components/YouTubeUpload.tsx:18-27 | not authenticated, no file, empty title and messages, not uploading, progress 0 |
| YouTubeUpload.Form.Authenticate | src/components/YouTubeUpload.tsx:30-36 | authenticated, nothing else changes |
| YouTubeUpload.Form.SetTitle | src/components/YouTubeUpload.tsx:207 | the title input stores the typed text and changes nothing else |
| YouTubeUpload.Form.FileChanged | src/components/YouTubeUpload.tsx:51-72 | no file changes nothing; a rejected file sets its message and clears the selection; an accepted one clears the message and is selected |
| YouTubeUpload.Form.ValidateForm | src/components/YouTubeUpload.tsx:74-85 | the result is `TitleValid` and the title message is set or cleared to match |
| YouTubeUpload.Form.Tick | src/components/YouTubeUpload.tsx:112-118 | one firing: the updater runs, and the interval clears itself iff the bar was already at 100 |
| YouTubeUpload.Form.RunInterval | src/components/YouTubeUpload.tsx:112-118 | from 0 the interval fires at most 11 times; the bar after the k-th firing is `ProgressAfter(k)`, always within 0..100 |
| YouTubeUpload.Form.Upload | src/components/YouTubeUpload.tsx:87-145 | authentication, then a selected file, then the title; the first failure stops before `uploading` is set; success ends with the bar at 100 and `uploading` reset; the file message changes only on the missing-file path, the title message only once the title is checked |
| Text.TrimEmptyIffAllSpace | src/components/YouTubeUpload.tsx:77 | a trimmed string is empty iff every character is white space |

## Left out

- `console.*` calls and `debugConnections` are logging only.
- The `getInstance` singleton is object identity: the model works on one given manager.
- The browser `WebSocket` is replaced by socket ids with a ready state, and `JSON.parse` by a parsed/malformed frame. `setTimeout`, `setInterval` and `Date.now` become the reconnection queue, the timer map, tick methods and the `now` parameter.
- Exceptions thrown by `socket.send` or by a handler are not modelled. So is a handler that subscribes or unsubscribes while a fan-out runs.
- Numbers are unbounded integers. JSON `null` and `undefined` both read as an absent field.
- `toLowerCase`, `toUpperCase` and `trim` are modelled on ASCII. String lengths count characters, not UTF-16 code units.
- All HTTP requests are left out:
  - the request branches of `handleSubmit` (only the request that would be sent is modelled);
  - `fetchConfigurations` (only its outcome is modelled);
  - `checkJobStatus` in `useJobWebSocket`;
  - the mock requests, delays and toasts in `ScriptInput`, `YouTubeUpload` and `ProjectTable` (`handleExport`, `handleEdit`).
- JSX rendering is left out, and so are the effects at ScriptGenerator.tsx lines 288-303 and 778-783. Those read variables the component never declares.
- `VideoForm.tsx`, `config.ts`, the dashboard pages, `ProfileContext` and the Express route files are not part of this model.
- YouTubeUpload.Form.Upload: the 3000 ms wait is a tick count, the number of interval firings before it ends. The exact 300 ms timing is not modelled.
- ScriptHook.Reconnect and JobHook.Reconnect: they state the result and the old socket's fate, not the full new registry state. `CloseConnection` and `GetConnection` state that.

## Findings

| source | as written | input that shows it | evidently intended | confidence | as-written member | corrected member |
|---|---|---|---|---|---|---|
| src/components/ScriptGenerator.tsx:487 | `handleSubmit` sets `loading` before validating. A rejected input returns at lines 513, 536 or 561 without resetting it, and the button is `disabled={loading \|\| isLoadingConfigs}` (line 792), so it stays disabled. | a 49-character script on the text tab, after the configurations have loaded | reset `loading` and the progress on a rejected input, as the failure path at lines 612-620 does | not executed | ScriptGenerator.ShortScriptLocksSubmit | ScriptGenerator.ShortScriptCorrected |
