# Bulk-sync progress controller of the customer dashboard

This project models the client-side core of a customer-administration dashboard: the
controller that starts a long-running bulk sync on the server, follows the server-sent
progress stream, keeps a one-second elapsed-time timer, attaches on mount to a job that
is already running, and tears the stream and the timer down on a terminal status or when
the page goes away. Beside it are the time formatter and the pager rules of the customer
table.

Modules:

- `Wrappers`: `Option` and `Reply` (an HTTP reply: a decoded body, or a failure with the
  server's optional `message`).
- `TimeFormat`: `formatTime`, written with JavaScript semantics (floor `/`, truncating
  `%`, integer printing), and a parser `ParseTime` that the formatter round-trips with.
- `SyncProgress`: the value types (stream message, start reply, job status, progress
  snapshot), the elapsed and ETA arithmetic, and `ApplyEvent`, the pure effect of one
  decoded message on the snapshot, with lemmas about whole streams of messages (`Replay`).
- `Handles`: every `EventSource` and every interval the page ever created (live or
  closed) and the ref that points at one of them; closing and re-opening through the ref.
- `SyncControl`: the class `SyncController`, one field per piece of state and one method
  per callback. Its invariant `Valid()` says the refs own every live handle: at most one
  of each is live, and they are live together; a running timer has a start time.
- `Pagination`: `totalPages || 1` and the page shown after a delete.
- `CustomerTable`: the Previous/Next buttons.
- `SyncScenarios`: whole runs (a completed sync, elapsed time freezing at the end, a
  resumed job, no tick or message changing anything after disposal, two starts in a
  row, a start that fails while a resumed job streams, a status reply after disposal),
  checked against the method contracts.

Inputs the code reads from I/O are parameters: the clock as integer milliseconds
(`nowMs`), a stream message already decoded (`None` when `JSON.parse` fails), instants
already converted to milliseconds, and HTTP replies as `Reply` values. The `await` in
`handleStartSync` and in `checkSyncStatus` splits each into a request and a reply method.
Other callbacks can run in between. `pendingStarts` and `statusPending` record that a
reply follows a request. An EventSource that was closed and an interval that was cleared
dispatch nothing, so `OnMessage` and `Tick` name the handle that fires, and they do
nothing for a dead handle.

Behaviour of the code worth knowing:

- `handleStartSync` has no `isUploading` guard. The only guard is the disabled button
  (`PressStartButton`), and a direct second start is modelled as it runs (scenario
  `DoubleStart`). Even then only one stream and one timer are live (`AtMostOneStreamAndTimer`).
- The sync code schedules no clear of its error. The create and edit handlers' 3-second
  timer clears whatever error is showing, a sync error included. The delete handler
  schedules none.
- A transport error on the stream only logs. It sets no error and stops nothing. When the
  browser abandons the connection for good (a status other than 200, or a content type
  other than `text/event-stream`), no message ever arrives again, yet `isUploading` stays
  true, the start button stays disabled and the timer keeps running, with no error shown.
- `isUploading` is not always true exactly while a stream is open: a start request that fails after the mount-time
  status reply resumed a job clears `isUploading` while the resumed stream still runs
  (scenario `StartFailsWhileResumed`). Between a start and its reply, `isUploading` is
  true with no stream. The model states `StreamOpen() <==> TimerActive()` in its place.
- Elapsed time can be negative when `startedAt` lies ahead of the client clock, and
  `formatTime` then prints a negative minute count, e.g. `-1m -5s` (`FormatTimeNegativeExamples`).
- The start reply and every stream message copy `totalPages` with no `|| 1` fallback, so
  a 0 there leaves the Next button enabled on page 1 (`NextEnabledPastLastPage`).
- A status or start reply that arrives after the page is disposed still opens a stream
  and a timer (scenario `StatusReplyAfterDispose`).
- `handleDeleteConfirm` uses the length of `customers`. While a sync runs, that list can
  hold the stream's preview rows instead of the page.

## Model

| member | source | states |
|---|---|---|
| TimeFormat.NatToString | src/pages/CustomerDashboard.tsx:71 | an integer is printed as a non-empty string of decimal digits, one digit exactly below 10, with no leading zero otherwise |
| TimeFormat.NatToStringRoundTrip | src/pages/CustomerDashboard.tsx:71 | the printed digits read back to the same number |
| TimeFormat.IntToString | src/pages/CustomerDashboard.tsx:71 | an integer prints with a leading minus exactly when it is negative, followed by the numeral of its magnitude |
| TimeFormat.JsRem60 | src/pages/CustomerDashboard.tsx:70 | `seconds % 60` has the sign of `seconds`, lies within 60 of 0, and differs from `seconds` by a multiple of 60 |
| TimeFormat.FormatTime | src/pages/CustomerDashboard.tsx:68-72 | for seconds ≥ 0 the text is the minutes, "m ", the seconds below 60 and "s"; a negative count prints with a leading minus |
| TimeFormat.FormatTimeRoundTrip | src/pages/CustomerDashboard.tsx:68-72 | for seconds ≥ 0 the text is "{s/60}m {s%60}s" and parses back to the same count |
| TimeFormat.FormatTimeInjective | src/pages/CustomerDashboard.tsx:68-72 | distinct non-negative durations print differently |
| TimeFormat.FormatTimeExamples | src/pages/CustomerDashboard.tsx:68-72 | 0 → "0m 0s", 65 → "1m 5s", 3600 → "60m 0s" |
| TimeFormat.FormatTimeNegativeExamples | src/pages/CustomerDashboard.tsx:68-72 | with JavaScript's floor division and truncating remainder, -5 → "-1m -5s" and -60 → "-1m 0s" |
| SyncProgress.ElapsedSeconds | src/pages/CustomerDashboard.tsx:81-83 | elapsed is floor((now − start)/1000): the whole seconds since the start, rounded down |
| SyncProgress.EtaSeconds | src/pages/CustomerDashboard.tsx:110-113 | the ETA is never negative, is 0 exactly when less than a second remains, and otherwise is the remaining whole seconds rounded down |
| SyncProgress.StartErrorMessage | src/pages/CustomerDashboard.tsx:163-167 | a failed start shows the server message when it is a non-empty string, else "Failed to start sync"; never empty |
| SyncProgress.ResumableJob | src/pages/CustomerDashboard.tsx:305-306 | a status reply resumes a job exactly when a job was received and its status is pending or processing |
| SyncProgress.ApplyEvent | src/pages/CustomerDashboard.tsx:103-134 | a message copies processedRows, totalRows, totalPages and progress; recomputes a non-negative ETA only when estimatedCompletion is present; replaces customers only by non-empty recentRows; a terminal status clears isUploading, others keep it; only "failed" sets the error, to "Sync failed"; elapsed untouched |
| SyncProgress.ReplayShowsLatestCounters | src/pages/CustomerDashboard.tsx:103-106 | after a stream the counters shown are those of its last message |
| SyncProgress.ReplayTerminalStops | src/pages/CustomerDashboard.tsx:121-126 | after a stream isUploading is on exactly when it was on and no message was terminal |
| SyncProgress.ReplayErrorOnlyOnFailure | src/pages/CustomerDashboard.tsx:131-133 | after a stream the error is "Sync failed" if some message failed, and is unchanged if none did |
| SyncProgress.ReplayKeepsFailure | src/pages/CustomerDashboard.tsx:131-133 | no message clears a "Sync failed" error |
| SyncProgress.ReplayProcessedMonotone | src/pages/CustomerDashboard.tsx:103 | when processedRows never decreases along the stream, starting from a shown value no larger than the first message's, the processed value shown never decreases |
| Handles.Close | src/pages/CustomerDashboard.tsx:327-332 | closing through the ref kills exactly the handle it points at, if any |
| Handles.Reopen | src/pages/CustomerDashboard.tsx:91-98 | closing through the ref kills the handle it points at and adds one new live handle |
| Handles.AtMostOneLive | src/pages/CustomerDashboard.tsx:75-98 | when the ref owns every live handle at most one is live, and one is live exactly when the ref's handle is |
| Handles.CloseOwnedLeavesNoneLive | src/pages/CustomerDashboard.tsx:325-333 | closing the owned handle leaves none live, and closing again changes nothing |
| Handles.ReopenOwned | src/pages/CustomerDashboard.tsx:90-98 | closing before opening keeps ownership and leaves exactly one live handle |
| SyncControl.SyncController.constructor | src/pages/CustomerDashboard.tsx:15-34 | the page mounts with progress 0, totalRows 2000000, totalPages 1, not uploading, no error, no handles, and the status request in flight |
| SyncControl.SyncController.Valid | src/pages/CustomerDashboard.tsx:75-98 | the invariant every callback keeps: the refs own every live handle, a stream not yet closed by the page is live exactly when a timer is active, and a running timer has a start time |
| SyncControl.SyncController.AtMostOneStreamAndTimer | src/pages/CustomerDashboard.tsx:75-98 | in every reachable state at most one stream and one timer are live, and they are live together |
| SyncControl.SyncController.ConnectToSSE | src/pages/CustomerDashboard.tsx:90-98 | the previous stream is closed before a new one is opened and stored in the ref |
| SyncControl.SyncController.StartElapsedTimer | src/pages/CustomerDashboard.tsx:75-87 | the previous interval is cleared before a new one is started and stored in the ref |
| SyncControl.SyncController.OpenStreamAndTimer | src/pages/CustomerDashboard.tsx:159-160 | afterwards one stream and one timer are live, the previous ones closed |
| SyncControl.SyncController.StartSync | src/pages/CustomerDashboard.tsx:146-156 | clears the error, sets isUploading, zeroes processed, progress, elapsed and eta, records start = now, keeps totalRows, and opens nothing until the reply |
| SyncControl.SyncController.PressStartButton | src/components/UploadProgress.tsx:51-54 | a click while uploading changes nothing; otherwise it starts a sync |
| SyncControl.SyncController.OnStartReply | src/pages/CustomerDashboard.tsx:156-168 | success copies totalRows and totalPages and opens one stream and one timer, closing earlier ones; failure clears isUploading, sets the server message or the fallback, and opens nothing |
| SyncControl.SyncController.OnMessage | src/pages/CustomerDashboard.tsx:100-139 | a decoded message on the open stream updates the snapshot as ApplyEvent says; a terminal one also closes the stream and clears the timer; a malformed message or a closed stream changes nothing |
| SyncControl.SyncController.CopyProgress | src/pages/CustomerDashboard.tsx:103-119 | counters copied, ETA recomputed only when present, customers replaced only by non-empty rows |
| SyncControl.SyncController.EndStream | src/pages/CustomerDashboard.tsx:121-134 | a terminal status clears isUploading, closes the stream, clears the timer, and sets "Sync failed" only on failure |
| SyncControl.SyncController.OnTransportError | src/pages/CustomerDashboard.tsx:141-143 | a transport error changes no state and leaves the stream not closed by the page |
| SyncControl.SyncController.Tick | src/pages/CustomerDashboard.tsx:79-86 | a live interval sets elapsed to the whole seconds since the recorded start; with no live timer elapsed stays frozen |
| SyncControl.SyncController.OnStatusReply | src/pages/CustomerDashboard.tsx:299-322 | a pending or processing job is resumed; any other reply, failures included, changes nothing and sets no error |
| SyncControl.SyncController.ResumeJob | src/pages/CustomerDashboard.tsx:306-316 | resuming sets isUploading, seeds processed, totalRows and progress, sets start = startedAt or now, and opens one stream and one timer |
| SyncControl.SyncController.OnCustomersReply | src/pages/CustomerDashboard.tsx:50-60 | a fetched page replaces customers and sets totalPages to totalPages or 1; a failed fetch changes nothing |
| SyncControl.SyncController.Dispose | src/pages/CustomerDashboard.tsx:325-333 | afterwards no stream and no timer is live; with nothing live it changes nothing |
| Pagination.TotalPagesOrOne | src/pages/CustomerDashboard.tsx:56 | an absent or zero page count becomes 1, any other value is kept, so the result is never 0 |
| Pagination.PageAfterDelete | src/pages/CustomerDashboard.tsx:280-285 | the page drops by one exactly when the page listed one customer and was not the first; otherwise it stays |
| Pagination.PageAfterDeleteInRange | src/pages/CustomerDashboard.tsx:280-285 | from a valid page the page after a delete is valid and not later |
| CustomerTable.Click | src/components/CustomerTable.tsx:136-154 | a click is delivered exactly when the button is enabled, and asks for currentPage − 1 or + 1 |
| CustomerTable.PreviousRule | src/components/CustomerTable.tsx:138-139 | Previous is disabled exactly on page 1, else asks for currentPage − 1 |
| CustomerTable.NextRule | src/components/CustomerTable.tsx:150-151 | Next is disabled exactly when currentPage equals totalPages, else asks for currentPage + 1 |
| CustomerTable.ClickStaysInRange | src/components/CustomerTable.tsx:136-154 | from a page in [1, totalPages] every enabled button asks for a page in [1, totalPages] |
| CustomerTable.NextEnabledPastLastPage | src/components/CustomerTable.tsx:151 | past the last page Next stays enabled and asks for a page further out |

## Left out

- HTTP calls (axios), the `EventSource` transport, `setInterval`/`setTimeout` scheduling and the React hooks are platform code. Their results are method parameters, and the order of callbacks is whatever order the caller invokes the methods in.
- `JSON.parse` and `Date` parsing are foreign calls. A message arrives decoded, or as `None` when parsing fails, and instants arrive as integer milliseconds. An unparsable date string, which gives `NaN` in JavaScript, is not modelled.
- A message that parses but lacks a numeric field would copy `undefined` into the snapshot. The decoded message always has every field.
- A failure body whose `message` is not a string, and an exception thrown inside the `try` after a successful reply, are not modelled.
- The network connection behind an `EventSource` is not modelled. The browser's automatic reconnection after a transport error is not modelled, and neither is a connection the browser abandons for good (a status other than 200, or a content type other than `text/event-stream`): both are modelled as a stream that is still open. `StreamOpen()` means "not yet closed by the page", so the rows of `Valid` and `OnTransportError`, and every mention of an open stream, describe the page's refs, not the connection. An `OnMessage` on such a stream is still delivered in the model, though in the browser an abandoned connection dispatches nothing more.
- React ignores state updates on an unmounted component. The model does not, so replies after `Dispose` still update the snapshot; the handles they open are modelled as the code opens them.
- The CRUD handlers (src/pages/CustomerDashboard.tsx:171-264), the delete request itself and its notifications, the modals and the notification components are form handling and rendering. Of `handleDeleteConfirm` only the page choice is modelled.
- `currentPage` and `handlePageChange` are not fields of the controller. The pager and delete rules take the current page as an input.
- The percentages and number formatting in src/components/UploadProgress.tsx:29-45 use floating point and locale formatting. `progress` is a `real` that is only copied.
- The customer record (src/interface/customer.ts) is only a type, so customers are values of a type parameter `C`.
- `totalPages` from the server is an integer; JavaScript's other falsy values for it (`NaN`, `null`) are folded into "absent".
- NatToString, IntToString: JavaScript prints a number of at least 10^21 in exponent form (`1e+21`). The model prints every integer in plain decimal digits, since elapsed seconds never come near that size.
- `error` is shared with the CRUD handlers and the error notification (src/pages/CustomerDashboard.tsx:174, 203-207, 224, 255-259, 289-291, 348). The form submits and the close button clear it, failed CRUD requests overwrite it, and the create and edit timers clear it 3 seconds later. The model's `error` changes only through the sync callbacks, so it does not capture a sync error being overwritten or cleared by them.
