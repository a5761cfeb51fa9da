# Verified model of the daemon toolkit

This project models the protocols and buffers of the toolkit in Dafny 4.11 and proves what they are for;
`dafny verify dfyconfig.toml` checks the whole of it.

What is modelled, one module per component:

- **Process manager** (`Lifecycle`, `LifecycleTheorems`, `LifecycleEndings`, `LifecycleRegistry`): Start, failStart,
  the waiters, StopProcess, forceKill, the registry, the health check and Shutdown as atomic steps of any number of
  threads over any number of processes. One inductive invariant gives the shutdown guarantees, the legal state edges
  and the counters; histories of whole runs give how a Start and its process end and where the registry leads.
- **Scheduler** (`Tasks`, `Scheduler`, `SchedulerTheorems`, `SchedulerHistory`, `Backoff`, `Int64`): Schedule, Cancel,
  the tick loop, deliveries and Stop as interleaved steps, with persistTask's snapshot and write as two steps;
  `SchedulerHistory` tells a task's status, attempts and due time from what happened to it in the run. `TaskStore` is
  the state manager over a file map that outlives it, and the restart; `TaskIds` the task IDs; `SchedulerStorage`
  joins the two: the storage operations a run of the scheduler issues, and what a restart gets back from them.
- **Wire protocol** (`Text`, `TextFacts`, `Base64`, `Frames`, `Commands`, `CommandRoundTrip`, `CommandChecks`,
  `Sanitizer`, `SanitizedText`, `Responses`, `ResponseRoundTrip`, `PlainResponses`): formatters, parsers, the
  byte-at-a-time frame reader and the message sanitiser, each round trip with the exact condition under which it
  holds. `Chunked` and `ChunkedClient` are the two ends of a chunked answer.
- **Subprocess router** (`Routes`, `RouteChecks`, `SubprocessConn`, `AutoRestart`, `AutoRestartStops`,
  `AutoRestartLife`, `AutoRestartOverlap`, `AutoRestartLimit`): patterns, registry, rebuilt table and lookup;
  exchanges over one connection; the automatic restart as interleaved steps.
- **Bounded buffers** (`RingBuffer`, `LineWriter`, `ScriptEntry`): array and index code against "the newest N of the
  history" and "split at newlines".
- **Process tree** (`Descendants`, `PidTracker`): the fixed-point walk, and what orphan and descendant cleanup may kill.
- **Reconnecting client** (`Reconnect`, `ReconnectLife`, `ReconnectPaths`, `ReconnectClosing`, `ReconnectRuns`):
  Connect, error reports, the reconnect loop, Close and the int64 backoff; what becomes of every connection opened;
  concrete runs.
- `Prelude` and `Counting` hold what several modules share.

An interleaved protocol is a datatype of states, a predicate `Enabled` and a function `Apply`: one step is one lock
section, atomic access, channel operation or map operation of the source. Its main results speak about every state
reached by a legal run. Objects whose methods change fields are classes whose contracts tie the new contents to the old.

Findings that the theorems make precise:

- A body that ends in `;` loses its frame; a code that sanitises to `--` becomes a data marker; line breaks around
  dashes turn into a data marker after the sanitiser's marker loop has run (`FrameReadsBack`, `ErrRoundTrip`,
  `SanitizedMarker`).
- The comment of persistTask (scheduler/scheduler.go:342-343) says that Cancel cannot be overtaken by a stale
  snapshot; the code releases the task's lock before the write, so it can, from every state in which a snapshot waits
  to be written, and the cancelled task stays on disk (`CancelOvertakes`, `StaleSnapshot`). `DiskAgrees` says exactly
  which tasks this affects.
- A user start may overlap an automatic restart at every moment but one: if it takes a ticket after the restart's
  drain (hub/router.go:1213) and before its count (hub/router.go:1223), the restart limit can be exceeded
  (`DrainedStep`, `BudgetKept`, `OverlapBreaksBudget`). From every state in which the budget invariant breaks, the
  limit can be exceeded (`CrowdedExceeds`).
- Connect closes the connection that it replaces (client/resilient.go:188-190); the reconnect loop closes the old one
  before it dials and does not look again when it publishes (client/resilient.go:471-473). If a Connect has published
  meanwhile, its connection is lost, unless the loop never comes to publish; and a Connect that publishes after a
  Close has returned leaves its connection open, unless a loop then closes it. `ClosedExactly` says exactly when
  everything is closed in the end; `LossRun`, `LateRun` and `HarmlessRun` are runs of each kind from the beginning.
- A command whose write failed part of the way leaves that part before the next command, because a failed write does
  not close the connection (hub/router.go:249-251); the next exchange then gets the answer to both run together
  (`Session`).
- A process that dies by itself between the waiter's compare-and-swap (process/lifecycle.go:267) and its store of
  Failed (process/lifecycle.go:274) may have been moved to Stopping by a stop in between; it ends as Failed all the
  same, because only what the waiter saw counts (`ProcessEnds`).
- A stopped subprocess can come back to life without a user, exactly when a start was already past its last look at
  the stop marker (hub/router.go:830-844), because that look and the store of Running are two steps (`Resurrects`).
- Task IDs repeat after the counter wraps around (`IssuedIsFresh`), retry and reconnect waits turn wrong when they
  leave int64 (`WaitsExact`, `ConfiguredDelays`).
- The corrections of the health check (process/manager.go:622-651) never fire once the start time and the Running
  state are published together (`HealthNeverFires`).

## Model

| member | source | states |
|---|---|---|
| Lifecycle.StepInv | process/lifecycle.go:16-309 | Every atomic step of Start, failStart, the waiters, StopProcess, forceKill, Register, RemoveByPath, the health check and Shutdown keeps the protocol's invariant: who holds which ticket, who owns which process, what is registered, what the counters owe |
| Lifecycle.PerformInv | process/lifecycle.go:22-166 | A step of Start or of its waiter keeps the invariant whatever the other threads are doing |
| Lifecycle.PerformScan | process/lifecycle.go:120-166 | No step of a Start or a waiter makes a registered process run that the scan has passed without a stopper |
| Lifecycle.VisitInv | process/manager.go:368-404 | Visiting one process in Shutdown's scan keeps the invariant: a registered process that runs has its stopper or is still to be visited |
| Lifecycle.ForceOnlyRunning | process/lifecycle.go:421-434 | The compare-and-swap loop of forceKill never moves a process that is Pending or Starting: its caller has seen Running and a process never goes back |
| Lifecycle.HealthNeverFires | process/manager.go:622-651 | The three corrections of the health check cannot fire: a process whose done channel is closed is terminal, and the start time and Running are published in one step (see Left out) |
| Lifecycle.ExecInv | process/lifecycle.go:16-309 | The invariant holds after every run, of any number of threads, processes and registry keys |
| LifecycleTheorems.NothingStartsAfterFlag | process/manager.go:347-350 | After the shutdown flag is set no run spawns an OS process, and the number of WaitGroup tickets only falls |
| LifecycleTheorems.NoSpawnedStarting | process/lifecycle.go:120-143 | With the flag set no spawned process is still Pending or Starting, so the scan cannot miss one |
| LifecycleTheorems.ScanMissesNothing | process/manager.go:368-404 | After the scan every registered process that still runs has a stopper |
| LifecycleTheorems.TicketsBalance | process/lifecycle.go:22-40 | The WaitGroup counter is always the number of threads holding a ticket plus the health loop's, never negative |
| LifecycleTheorems.GroupWaitMeansDone | process/manager.go:431-458 | When the group wait completes (rather than expires), every Start that returned nil has its done channel closed and its process terminal |
| LifecycleTheorems.OnlyEdges | process/process.go:198-205 | In every run a process follows only the edges Pending to Starting; Starting to Pending, Running, Failed; Running to Stopping, Stopped, Failed; Stopping to Stopped, Failed |
| LifecycleTheorems.TerminalAbsorbing | process/process.go:247-250 | A terminal state is never left |
| LifecycleTheorems.DoneClosedOnce | process/lifecycle.go:308 | The done channel is closed at most once, and only on a terminal process |
| LifecycleTheorems.OneStartPerProcess | process/lifecycle.go:43-52 | However many Starts are called on one process, at most one succeeds |
| LifecycleTheorems.ErrorReturn | process/lifecycle.go:169-177 | A Start that returned an error and still owns its process leaves it Failed, with done closed once and nothing spawned |
| LifecycleTheorems.CountersAtRest | process/manager.go:155-234 | With no counter update outstanding, totalFailed is the number of Failed processes and activeCount the size of the registry |
| LifecycleEndings.ProcessEnds | process/lifecycle.go:195-309 | In every run, with the system's answer to Wait and every stop kept as history: a started process that has ended has been waited for; a nil answer makes it Stopped; an error makes it Failed if and only if no stop had moved it to Stopping when the waiter looked, and Stopped otherwise |
| LifecycleEndings.StartEnds | process/lifecycle.go:16-166 | In every run a Start that has returned has returned an error if and only if something stood in its way: the flag at one of its checks, a process that was not Pending, a taken key, or an error of the operating system |
| LifecycleEndings.StartSucceeds | process/lifecycle.go:16-166 | An undisturbed Start with the flag unset, the key free and a system that says yes returns nil: its process is Running, registered and counted, its waiter has the ticket, nothing else has changed |
| LifecycleRegistry.FailedIsGone | process/lifecycle.go:169-177 | In every run: once a Start that had won its process has returned an error, no key of the registry leads to that process |
| LifecycleRegistry.StartedIsFound | process/lifecycle.go:48-52 | In every run without a removal by hand, a process whose Start succeeded is found under its key, while it runs and afterwards, whoever else asked for that key |
| Backoff.WaitExact | scheduler/scheduler.go:311 | One retry wait is its mathematical value exactly when that value fits in an int64 |
| Backoff.WaitsExact | scheduler/scheduler.go:311 | All waits of a task are exact and positive if and only if RetryDelay times 2^(MaxRetries-2) is at most the largest int64 |
| Backoff.WaitsSum | scheduler/scheduler.go:301-315 | The waits after n failed attempts add up to RetryDelay times (2^n - 1), if the last of them fits an int64 |
| Backoff.TotalBeforeFailure | scheduler/scheduler.go:301-315 | The waits before the last attempt add up to RetryDelay times (2^(MaxRetries-1) - 1); SchedulerHistory.FailedHasWaited says that a failed task of a run was put off by this |
| Scheduler.StepInv | scheduler/scheduler.go:207-439 | Every lock section, counter update, map operation and file operation of Schedule, Cancel, the tick loop, a delivery and Stop keeps the invariant: at most one delivery per task, what every task is still owed, and which disk copies are stale |
| Scheduler.ResolveInv | scheduler/scheduler.go:267-323 | The end of a delivery attempt (success, retry, failure, cancelled meanwhile, stopping) keeps the invariant |
| Scheduler.WorkInv | scheduler/scheduler.go:340-372 | Persisting, counting and removing keep the invariant, one operation at a time |
| Scheduler.CancelInv | scheduler/scheduler.go:419-439 | Cancel keeps the invariant, also while the task's delivery is in flight |
| SchedulerTheorems.OneDeliveryInFlight | scheduler/scheduler.go:242-263 | In every interleaving a task has at most one delivery in flight |
| SchedulerTheorems.TerminalStatusFinal | scheduler/scheduler.go:280-323 | A terminal status is never changed again, not even by a delivery that was in flight when the task was cancelled |
| SchedulerTheorems.Conservation | scheduler/scheduler.go:489-510 | At quiescence scheduled plus restored equals delivered plus failed plus cancelled plus pending, and the map holds exactly the pending tasks |
| SchedulerTheorems.NoDeliveryAfterStop | scheduler/scheduler.go:207-221 | After Stop returns no delivery is in flight and the loop has exited |
| SchedulerTheorems.DiskAgrees | scheduler/scheduler.go:340-372 | For every task of every run: at quiescence the disk holds it exactly as it is in memory if it is pending, and not at all otherwise, if and only if the last write of it was of its current version |
| SchedulerTheorems.CancelOvertakes | scheduler/scheduler.go:360-361 | From every reachable state in which a snapshot of a pending task waits to be written, Cancel can run to its end first, and the write then leaves the cancelled task on disk |
| SchedulerTheorems.StaleSnapshot | scheduler/scheduler.go:360-361 | A concrete run of that kind, from an empty scheduler to quiescence |
| SchedulerTheorems.FailsExactlyAtLimit | scheduler/scheduler.go:293-315 | A task scheduled with positive MaxRetries is Failed exactly when its counted attempts reach MaxRetries, and never counts more |
| SchedulerHistory.StatusDecided | scheduler/scheduler.go:267-439 | In every run, with the failures, successes and cancellations of a task kept as history: Delivered if a delivery succeeded before any cancellation, Cancelled if Cancel came first, Failed if a delivery failed and the attempts reached MaxRetries, Pending otherwise |
| SchedulerHistory.FailuresCounted | scheduler/scheduler.go:293-303 | In every run a task's attempts are its failed deliveries that count (not after a cancellation, not during Stop), and its last error is that of the last one |
| SchedulerHistory.DueAfterBackoff | scheduler/scheduler.go:301-315 | In every run a pending task is due when it was scheduled for, or, after its n-th failure, exactly RetryDelay * 2^(n-1) later than that failure, if that wait fits an int64 |
| SchedulerHistory.NeverEarly | scheduler/scheduler.go:242-263 | In every run a delivery in flight was taken up later than the time at which its task was due |
| SchedulerHistory.TakenWhenDue | scheduler/scheduler.go:242-263 | In every run the waiting loop takes up a task at a given time if and only if it is pending, has no delivery in flight, and was due before that time |
| SchedulerHistory.FailureSaved | scheduler/scheduler.go:285-315 | A failed delivery that leaves the task pending, put off or interrupted by Stop: the next two steps of its goroutine put the task as it then is on disk |
| SchedulerHistory.WaitedSoFar | scheduler/scheduler.go:301-315 | In every run the counted failures of a task scheduled in it, except one that failed it for good, have together put it off by the sum of the backoffs of its attempts |
| SchedulerHistory.FailedHasWaited | scheduler/scheduler.go:301-315 | In every run a task that exhausted its retries had MaxRetries counted failures, and all but the last put it off by RetryDelay times (2^(MaxRetries-1) - 1) in all, if its longest wait fits an int64 |
| TaskStore.SavedStored | scheduler/state.go:90-101 | Updating or appending in a project's file adds the task to what is stored and takes away only its earlier version |
| TaskStore.RemovedStored | scheduler/state.go:134-149 | Deleting in a project's file, and removing an empty file, takes away exactly that task |
| TaskStore.PutHas | scheduler/state.go:90-101 | The loop's result holds the new task and every task with another ID, and keeps IDs unique |
| TaskStore.DropHas | scheduler/state.go:134-140 | The loop's result holds exactly the tasks with another ID |
| TaskStore.PutInPlace | scheduler/state.go:90-101 | The search-and-replace loop computes that update |
| TaskStore.DropInPlace | scheduler/state.go:134-140 | The search-and-delete loop computes that removal |
| TaskStore.StateManager.SaveTask | scheduler/state.go:65-112 | Which saves succeed; a success replaces exactly the task's own entry and remembers the project; a failure changes nothing |
| TaskStore.StateManager.RemoveTask | scheduler/state.go:115-152 | Which removals succeed; a success removes exactly that task, and forgets the project when its file goes |
| TaskStore.StateManager.LoadTasks | scheduler/state.go:155-172 | The tasks of one file; a project with a file becomes known |
| TaskStore.StateManager.LoadAllTasks | scheduler/state.go:175-188 | Every task of the known projects, each exactly once, in whatever order the projects come |
| TaskStore.StateManager.ScanForProjects | scheduler/state.go:192-199 | Exactly the scanned projects that have a file become known |
| TaskStore.Perform | scheduler/scheduler.go:340-372 | Any sequence of well-formed saves and removals succeeds and does to what is stored what each does, in order |
| TaskStore.Restore | scheduler/scheduler.go:177-198 | A fresh scheduler's map holds the pending tasks it found, all of them when IDs are distinct; its counter issues the ID of none of the tasks it found until it wraps around |
| SchedulerStorage.EmitStep | scheduler/scheduler.go:340-372 | Each scheduler step: the storage operation it issues, if any, leads from the tasks on disk before it to those after it |
| SchedulerStorage.EmitRun | scheduler/scheduler.go:340-372 | Over every run: the operations it issues, performed in order on what was stored, give exactly what the reached state says is on disk, as long as the ID counter has not wrapped around |
| SchedulerStorage.NamedDistinct | scheduler/scheduler.go:395-400 | Restored and new tasks of a run never share an ID before the counter wraps around |
| SchedulerStorage.DiskIsPending | scheduler/scheduler.go:340-372 | At quiescence the disk holds exactly the set of pending tasks in memory, with equal fields, if and only if no copy on disk is stale |
| SchedulerStorage.Start | scheduler/scheduler.go:177-198 | Starting on restorable files fills the task map with exactly the stored tasks, each once, under a counter that issues none of their IDs |
| SchedulerStorage.RunAndRestart | scheduler/scheduler.go:177-198 | Start from any restorable files, any run, start again: the files hold what the run says, can be restored once more, and, if the run ended quiescent, the second start has exactly the pending tasks of the first if and only if no copy was stale |
| TaskIds.TaskIdParses | scheduler/scheduler.go:326-336 | Parsing an ID gives back the int64 it was made from, negative ones included |
| TaskIds.MaxIdBounds | scheduler/scheduler.go:183-197 | The restored counter is at least the number of every loaded ID |
| TaskIds.MaxIdLoaded | scheduler/scheduler.go:183-197 | The restored counter is the number of some loaded ID, or zero |
| TaskIds.IssuedIsFresh | scheduler/scheduler.go:396 | The k-th new ID differs from every loaded ID, whatever was loaded, exactly as long as the int64 counter has not wrapped around |
| TaskIds.IssuedDiffer | scheduler/scheduler.go:396 | Two new IDs differ, even across the wrap-around |
| Text.FieldsOfJoin | protocol/parser.go:205-212 | Splitting at white space undoes joining words with single spaces |
| Text.AtoiOfItoa | protocol/parser.go:258-262 | Parsing undoes printing a length |
| TextFacts.FieldsHas | protocol/parser.go:205-212 | The fields of a text are exactly the words that stand in it between white space or its ends |
| TextFacts.ItoaDecimal | protocol/parser.go:476-484 | A length is written with its decimal digits, the highest first, without a leading zero |
| Base64.RoundTrip | protocol/parser.go:272-277 | Decoding undoes encoding for every byte string (section 4 of RFC 4648) |
| Base64.Encode | protocol/parser.go:476-484 | The encoding is made of alphabet characters and padding only, so never of a semicolon or a space, and has the length the standard gives |
| Base64.EncodeSpells | protocol/parser.go:476-484 | Each four characters, valued by their ASCII codes as in table 1 of RFC 4648, spell the same 24 bits as the three bytes in their place, bytes beyond the end counting as zero |
| Base64.PaddingAt | protocol/parser.go:476-484 | Padding stands exactly where no byte reaches |
| Frames.Reader.ReadUntilTerminator | protocol/parser.go:294-329 | The byte loop returns the bytes before the first terminator and consumes just behind it; or reports a clean end, a broken stream, or a frame over the limit |
| Frames.FrameReadsBack | protocol/parser.go:321-326 | A frame is read back, whatever follows, exactly when its body neither contains the terminator nor ends in a semicolon and the frame fits the limit |
| Commands.VerbRegistry.RegisterVerb | protocol/parser.go:84-90 | The upper-cased verbs are added, nothing else changes |
| Commands.VerbRegistry.RegisterSubVerbForVerb | protocol/parser.go:93-103 | The upper-cased sub-verbs are added for that verb, nothing else changes |
| Commands.FormatCommand | protocol/parser.go:463-488 | The buffer built piece by piece is the joined tokens, the data part if there is data, and the terminator |
| CommandRoundTrip.DataPartRoundTrip | protocol/parser.go:248-283 | The data part carries every payload whose encoded length is representable |
| CommandRoundTrip.MarkAfter | protocol/parser.go:196-203 | In a formatted command the first data marker is the formatter's own |
| CommandRoundTrip.ParseBody | protocol/parser.go:181-244 | Parsing the body of a command of plain tokens recovers those tokens and the data part |
| CommandRoundTrip.BodyFrame | protocol/parser.go:463-488 | A validated command's frame is read back exactly when it fits the limit and, without data, its last token does not end in a semicolon |
| CommandRoundTrip.CommandRoundTrip | protocol/parser.go:404-488 | A validated command comes back identical, and exactly its frame is consumed, if and only if it is sendable: upper-case registered verb not starting like JSON, registered sub-verb or none with a first argument that is not one, frame within the limit, no semicolon at the end |
| CommandRoundTrip.ParsedCommand | protocol/parser.go:181-244 | Whatever the bytes, a parsed command has a registered upper-case verb, a sub-verb only if registered for it, and did not look like JSON |
| CommandRoundTrip.StreamRoundTrip | protocol/parser.go:181-329 | A concatenation of frames of sendable commands parses back to the same list |
| CommandChecks.TokenExact | protocol/parser.go:422-445 | The validator accepts a token if and only if it is not empty, has no two neighbouring semicolons, no CR or LF, no free-standing pair of dashes and, where no space is allowed, no white space: told from its characters |
| CommandChecks.CommandExact | protocol/parser.go:404-420 | It accepts a command if and only if its verb, its sub-verb if any, and its arguments are such tokens; the payload is free |
| CommandChecks.FrameSpelled | protocol/parser.go:463-488 | The frame of a command, spelled out: tokens, marker, encoded length, newline, encoding, terminator |
| CommandChecks.DataExact | protocol/parser.go:248-283 | A data part yields non-empty bytes if and only if it is a length, a newline and exactly that many characters that decode to them, with carriage returns at most at the end |
| CommandChecks.WrongLength | protocol/parser.go:273-275 | A length other than zero that is not the length of what follows is a mismatch error, whatever follows |
| CommandChecks.ZeroLength | protocol/parser.go:269-271 | Behind the length zero anything is ignored |
| CommandChecks.NoNewline | protocol/parser.go:249-256 | Without a newline only the length zero is accepted, as no data |
| CommandChecks.MarkerWithoutLength | protocol/parser.go:196-203 | A marker at the end of the line with nothing behind it is an error |
| CommandChecks.DamagedPayload | protocol/parser.go:181-283 | A sent command whose encoded payload was cut or stretched on the way is refused, never read as a command with other bytes |
| Sanitizer.TermsFall | protocol/responses.go:15-17 | Each terminator pass leaves fewer overlapping occurrences |
| Sanitizer.MarksFall | protocol/responses.go:18-20 | Each marker pass leaves fewer overlapping occurrences |
| Sanitizer.SanitizeMessage | protocol/responses.go:14-27 | The two loops terminate on every input and compute the settled, blanked text, which SanitizedOnce gives in one pass |
| Sanitizer.SanitizedClean | protocol/responses.go:14-27 | The result contains no terminator, CR or LF |
| Sanitizer.SanitizedMarker | protocol/responses.go:21-25 | The result contains a data marker exactly when the input has two dashes between white characters of which at least one is a line break; never for input without line breaks |
| Sanitizer.FramedMarker | protocol/responses.go:147-158 | Behind the formatter's own space the marker survives exactly when, besides, the message begins with dashes and a space |
| Sanitizer.SanitizedEnd | protocol/responses.go:14-27 | The result ends in a semicolon exactly when the message does |
| SanitizedText.SanitizedOnce | protocol/responses.go:14-27 | However often the loops run, the result is the message with one space between every two neighbouring semicolons, one between the dashes of every marker (overlapping ones included), and each CR or LF turned into a space |
| SanitizedText.TextKept | protocol/responses.go:14-27 | Apart from spaces and line breaks every message keeps its text |
| SanitizedText.Untouched | protocol/responses.go:14-27 | The sanitiser returns a message as it is if and only if it holds no terminator, no marker, no CR and no LF |
| Responses.SanitizeErrorCode | protocol/responses.go:29-41 | The builder keeps exactly the allowed characters, or "internal" when none is left |
| Responses.CodeKept | protocol/responses.go:29-41 | A code is kept as it is if and only if it is not empty and made of letters, digits, underscores and dashes |
| Responses.CodeDrops | protocol/responses.go:29-41 | Any other character is as good as absent, wherever it stands, and nothing becomes "internal"; with CodeKept this fixes the sanitised code of every string |
| ResponseRoundTrip.OkRoundTrip | protocol/responses.go:147-152 | For every message: an OK response arrives as the sanitised (see SanitizedOnce), right-trimmed message if and only if the frame fits, the message does not end in a semicolon, and no marker survives in it |
| ResponseRoundTrip.ErrRoundTrip | protocol/responses.go:156-158 | For every code and message: an ERR response arrives as its sanitised code and message if and only if, besides, the code is not reduced to two dashes before a visible message |
| ResponseRoundTrip.PayloadRoundTrip | protocol/responses.go:168-192 | DATA, JSON, CHUNK and STATUS arrive unchanged if and only if the frame fits |
| ResponseRoundTrip.BareRoundTrip | protocol/responses.go:162-198 | PONG and END arrive whatever follows |
| ResponseRoundTrip.ParseNamed | protocol/parser.go:338-394 | How the response parser splits a type name and its tail |
| ResponseRoundTrip.PayloadNeedsMarker | protocol/parser.go:338-394 | Whatever the bytes, nothing is parsed as DATA, JSON, CHUNK or STATUS without a data marker and something behind it |
| PlainResponses.PlainOk | protocol/responses.go:147-152 | On the message alone: an OK whose message has no terminator, marker or line break arrives as that message, right-trimmed, if and only if the frame fits 16 MiB, the message does not end in a semicolon and does not open with two dashes, a space and something visible |
| PlainResponses.PlainErr | protocol/responses.go:156-158 | The same for an ERR, whose code of letters, digits, underscores and dashes arrives unchanged; the only further exception is the code of two dashes before a visible message |
| PlainResponses.Spelled | protocol/responses.go:162-198 | The names and the payload frames, spelled out |
| Chunked.Connection.BeginDispatch | hub/connection.go:121-123 | A dispatch resets the flag and keeps the log orderly |
| Chunked.Connection.Write | hub/connection.go:244-374 | Which frames are sent; every one but a chunk sets the terminal flag, sent or not |
| Chunked.Connection.TryWriteStatus | hub/connection.go:335-350 | A status is sent exactly when the lock is free, the connection open and no terminal frame was written; so none ever stands between a terminal frame and the next dispatch |
| Chunked.ChunksFlatten | hub/handlers.go:88-102 | The pieces put together are the output |
| Chunked.ChunkSizes | hub/handlers.go:88-102 | Every chunk but the last has 65536 bytes, and the last at least one |
| Chunked.NoLateStatus | hub/connection.go:335-350 | In an orderly log no status follows an OK, ERR, DATA, JSON, END or PONG before the next request is dispatched |
| Chunked.SendOutput | hub/handlers.go:88-103 | With any status frames and any closing of the connection between the writes, a prefix of the full answer (every chunk in order, then END) is sent; the whole of it exactly when no write fails, which is so whenever nobody closes the connection |
| ChunkedClient.ExecuteChunked | client/conn.go:346-376 | The client's loop computes the collected outcome, leaves the rest unread, and drops the connection exactly on read and parse errors |
| ChunkedClient.TransferRoundTrip | client/conn.go:346-376 | Output of any length, cut, framed, encoded, interleaved with any statuses, arrives equal to the original, and nothing behind its END is consumed |
| ChunkedClient.CutTransferFails | client/conn.go:351-363 | Cut at any byte before the end, the answer is reported as an error and the connection is dropped |
| ChunkedClient.ClosedTransferFails | client/conn.go:351-363 | Whatever an interrupted transfer did send, the client reports an error and drops the connection |
| ChunkedClient.NoSuccessWithoutEnd | client/conn.go:370-371 | On any byte stream, success means that an END was read, and read last |
| ChunkedClient.HearPrefixFree | protocol/parser.go:294-329 | No proper prefix of a frame is taken for a frame |
| ChunkedClient.ReadResponse | client/conn.go:350-363 | One call of the response parser on the reader hears what the bytes say and leaves the rest unread |
| ChunkedClient.ErrorArrives | client/conn.go:371-372 | An error response at the start or behind any part of an answer is reported with its code and message; the connection is kept and nothing behind the error is read |
| ChunkedClient.StrangerReported | client/conn.go:373-374 | A response of a kind that has no place in an answer is reported, and the connection kept |
| RingBuffer.KeptAppend | process/ringbuf.go:11-12 | What is kept determines what will be kept: forgotten bytes never matter again |
| RingBuffer.Shifted | process/ringbuf.go:73-84 | Both ways of copying, with and without wrapping, shift the bytes into the age order |
| RingBuffer.HoldsAppend | process/ringbuf.go:54-84 | Shifting in the kept part of a write keeps the newest bytes of the history |
| RingBuffer.CountsWrite | process/ringbuf.go:55-87 | The counters stay right although a clipped write is counted at its clipped length, and they show exactly when something was lost |
| RingBuffer.SlotIsRemainder | process/ringbuf.go:63 | The slot reached by going round is the remainder the code computes |
| RingBuffer.RingBuffer.Write | process/ringbuf.go:44-90 | A write returns the input length and extends the history by the whole input |
| RingBuffer.RingBuffer.Snapshot | process/ringbuf.go:95-123 | The snapshot is the last min(history, capacity) bytes since the last reset; truncated exactly when the history is longer than the capacity |
| RingBuffer.RingBuffer.Len | process/ringbuf.go:126-132 | The length of that snapshot |
| RingBuffer.RingBuffer.Truncated | process/ringbuf.go:150-152 | True exactly when the history is longer than the capacity |
| RingBuffer.RingBuffer.Reset | process/ringbuf.go:140-147 | Forgets the history |
| RingBuffer.Replay | process/ringbuf.go:32-152 | Snapshot, length and flag after any sequence of writes and resets, for every capacity argument |
| ScriptEntry.HeldAppend | script/registry.go:183-193 | Appending to the line ring keeps the newest lines in order |
| ScriptEntry.HeldAt | script/registry.go:200-202 | The index arithmetic of the copy loop finds the i-th kept line |
| ScriptEntry.Entry.AppendOutput | script/registry.go:183-193 | One more line in the history |
| ScriptEntry.Entry.OutputLines | script/registry.go:196-204 | The last 2000 lines ever appended, oldest first |
| ScriptEntry.Entry.SetState | script/registry.go:139-151 | The state is stored, other callers may do any halves of their own transitions, then it is recorded: both histories grow by exactly that, the kept one is the last 100 recordings, and the state is the last recorded one exactly unless another caller stored a different one last |
| ScriptEntry.Entry.CompareAndSwapState | script/registry.go:121-136 | The swap succeeds exactly on the expected state, and only then is recorded, with any halves of other transitions in between |
| ScriptEntry.Entry.Meanwhile | script/registry.go:121-151 | Any interleaving of stores and recordings keeps the state the last one stored and the kept history the last 100 recorded |
| LineWriter.LineWriter.Write | process/linewriter.go:29-52 | The loop over the input delivers the split of held text and input, then applies the cap; the bytes also reach the ring buffer |
| LineWriter.LineWriter.Flush | process/linewriter.go:55-60 | Held text is delivered if there is any |
| LineWriter.RunKeepsAll | process/linewriter.go:29-60 | For any way of cutting the input, delivered lines and held text reassemble it, nothing lost or duplicated, and the held text stays below 64 KiB |
| LineWriter.CutsDoNotMatter | process/linewriter.go:29-60 | The lines after the flush are the newline split of the input for every way of cutting it, if and only if no terminated line reaches 64 KiB and the unterminated rest does not exceed it |
| LineWriter.CutInTwo | process/linewriter.go:41-49 | The cut that shows the other direction: one line too many is delivered |
| Descendants.FindAllDescendants | process/lifecycle_unix.go:196-222 | For every parent relation, cyclic ones included, the fixed-point loop ends and returns exactly the processes linked to the root by parent links, without the root, each once |
| PidTracker.DeleteMatching | process/pidtracker.go:135-140 | The loop that deletes in place from the end computes the filter |
| PidTracker.WithoutHas | process/pidtracker.go:135-140 | Exactly the entries with another ID or project remain |
| PidTracker.WithoutAppend | process/pidtracker.go:128-154 | Replacing an entry keeps at most one per ID and project |
| PidTracker.FilePIDTracker.Add | process/pidtracker.go:128-154 | The entry replaces any with its ID and project and starts without descendants |
| PidTracker.FilePIDTracker.Remove | process/pidtracker.go:157-172 | Exactly the entry with that ID and project goes |
| PidTracker.FilePIDTracker.UpdateDescendants | process/pidtracker.go:310-337 | The first entry with the PID gets the list and loses its identities |
| PidTracker.FilePIDTracker.GetVerifiedDescendants | process/pidtracker.go:397-418 | The verified descendants of the first entry with the PID; every one has, at this moment, the identity the scanner captured |
| PidTracker.VerifiedHas | process/pidtracker.go:405-412 | Verified are exactly the listed descendants with a recorded identity that the system reports at this moment, each with that identity |
| PidTracker.FilePIDTracker.ScanDescendants | process/pidtracker.go:443-470 | Each live entry gets exactly its descendants and their identities; identities are only ever captured for descendants of a live tracked parent |
| PidTracker.FilePIDTracker.CleanupOrphans | process/pidtracker.go:251-298 | What is killed, in order, is exactly what SweptExact says; afterwards the list is empty and the daemon PID is the new one; nothing is killed for the same daemon |
| PidTracker.SweptExact | process/pidtracker.go:268-291 | Turn by turn, whatever the system answers while processes die: a tracked process is killed if and only if it is alive at its turn and, when an identity was recorded, the system then reports that identity; before it exactly those of its descendants are killed that are alive at their own turn with the identity recorded for them; nobody else is killed |
| PidTracker.OnlyAuthorised | process/pidtracker.go:231-273 | Every single kill is of a tracked process that was alive with its recorded identity (if any) when its turn came, or of a listed descendant of one whose identity, just before the kill, was the one recorded for it |
| PidTracker.SweepTwice | process/pidtracker.go:251-298 | A second sweep by the same daemon kills nothing |
| PidTracker.MergeVerified | process/lifecycle.go:314-323 | The PIDs above 1 with an identity are appended in order and get that identity, the last one if there are several; every other process keeps the identity it had |
| PidTracker.KillStoredDescendants | process/lifecycle_unix.go:137-147 | The loop kills, in order, exactly the listed processes that are alive with their recorded identity at their turn |
| PidTracker.ListedExact | process/lifecycle_unix.go:137-147 | The same of any pass over listed processes, whatever was killed before it |
| PidTracker.ReapDescendants | process/lifecycle.go:207-232 | After a process was reaped: nothing is killed if Wait returned no error; otherwise exactly the processes of the snapshot and the verified descendants that are alive, at their turn, with the identity taken while the tree was alive |
| Routes.ClaimUpper | hub/router.go:350-362 | A pattern's words are upper-case words |
| Routes.FieldsTrim | hub/router.go:359-362 | The validator's and the rebuild's ways of splitting a pattern agree |
| Routes.Accepted | hub/router.go:345-391 | On any table, what validation accepts is routable, not the hub's, and claimed by nobody else in the table |
| RouteChecks.AcceptedExactly | hub/router.go:345-391 | On the table of the registered subprocesses, a list of patterns is accepted if and only if each that is not blank claims one or two words, the first not a verb of the hub, that no other subprocess claims, and no two of them claim the same |
| RouteChecks.ExactPattern | hub/router.go:350-362 | Words without a star claim exactly themselves, in capitals |
| RouteChecks.PrefixPattern | hub/router.go:350-362 | Words with a star behind them, with or without a space, claim every command that begins with them |
| Routes.TableUnique | hub/router.go:464-506 | The table is determined by the registered claims: it does not depend on map iteration order |
| Routes.LookupMostSpecific | hub/router.go:524-536 | The lookup returns the owner of the most specific matching claim (exact, then two-word prefix, then verb prefix), and nobody exactly when no claim matches |
| Routes.SubprocessRouter.ValidateRoutePatterns | hub/router.go:345-391 | The error of the first bad pattern, or none |
| Routes.SubprocessRouter.Register | hub/router.go:316-343 | Succeeds exactly on a new ID whose patterns validate; then the table is exactly the claims; on error nothing changes; no two registered subprocesses ever claim the same pattern of the same kind |
| Routes.SubprocessRouter.Delete | hub/router.go:430 | The entry goes while the table still names it, and the invariant holds |
| Routes.SubprocessRouter.RebuildRoutes | hub/router.go:464-506 | The rebuilt table is exactly the registered claims, and the parser knows every routed verb and sub-verb |
| Routes.SubprocessRouter.Route | hub/router.go:515-548 | A command reaches a registered subprocess with a best claim on it, or nobody claims it |
| Routes.AddClaims | hub/router.go:470-501 | One subprocess's patterns add exactly its claims to the table and the parser |
| SubprocessConn.SubprocessConn.SendCommandStream | hub/router.go:223-285 | Success exactly when write, reads and relays succeed, and then the handled frames are the answer to the frame the subprocess got; a read or relay failure closes the connection, a failed write does not; a closed one returns nothing |
| SubprocessConn.SubprocessConn.ReadAnswer | hub/router.go:255-284 | The loop ends at the frame that ends the answer or closes the connection |
| SubprocessConn.SubprocessConn.SendCommand | hub/router.go:212-219 | On success, which is exactly when the streaming form succeeds, the frame that ended that answer |
| SubprocessConn.Session | hub/router.go:223-285 | Over any run of exchanges with any failures: each success gets exactly the answer to its own command, unless the last write before it that sent anything sent only a part of a frame; then it gets the answer to that part and the command run together. After a failed read or relay no exchange returns a frame |
| AutoRestart.StepFlight | hub/router.go:1152-1264 | Every step keeps the wait group equal to the ticket holders and the flag equal to one restart in flight, overlapping starts included |
| AutoRestart.BudgetStep | hub/router.go:1152-1264 | The only step that breaks the budget invariant (whoever is past the budget check and not counted implies room in the budget) is the count of the last restart allowed while another thread is past the check |
| AutoRestart.DrainedStep | hub/router.go:1213-1223 | The only step after which a restart that is about to count no longer has every ticket drained is one that takes a ticket between that drain and that count |
| AutoRestart.RefillIsUserStart | hub/router.go:1213-1223 | Such a step is one of a user's start: the launch of its monitor or of its health loop |
| AutoRestart.StepInv | hub/router.go:1152-1264 | A step keeps the whole invariant if and only if it does not take a ticket between a restart's drain and its count |
| AutoRestart.NobodyElse | hub/router.go:1212-1223 | When a restart counts itself no other thread is between the budget check and the count |
| AutoRestart.OneRestart | hub/router.go:1171-1181 | In every run at most one restart loop is alive |
| AutoRestart.BudgetExact | hub/router.go:1152-1264 | Over every run, user starts at any moment included: the budget invariant (not only the limit itself) holds in all its states if and only if no restart uses up the budget while another thread is past the check |
| AutoRestart.BudgetKept | hub/router.go:1152-1264 | In every run in which no user start takes a ticket between a restart's drain and its count (user starts during the delay, the drain or the reconnect are allowed), restartCount never exceeds a positive MaxRestarts, and a restart counts only after all tickets drained |
| AutoRestartOverlap.OverlapBreaksBudget | hub/router.go:1213-1223 | A concrete run in which a user start takes a ticket at that one moment and restartCount then exceeds MaxRestarts: such a step can break the limit |
| AutoRestartLimit.CrowdedExceeds | hub/router.go:1139-1264 | From every reachable state: after a restart uses up the budget while a watcher is past its check, the run can go on to exceed MaxRestarts; so the budget invariant asks for no more than the limit needs |
| AutoRestartLimit.DrainAll | hub/router.go:1212-1213 | While a restart waits for the wait group, every health loop and monitor can be brought to its end, however many there are and wherever they stand |
| AutoRestartStops.OffNeverRestarts | hub/router.go:1153-1155 | With auto-restart off no run ever has a restart loop, sets its flag or counts a restart |
| AutoRestartStops.StopHolds | hub/router.go:782-848 | From a state with the stop marker set and until a user's start takes it back: nobody who was not already past his look at the marker cancels a lifecycle for a restart, resets or stamps the state, installs a lifecycle, connects or declares the subprocess running |
| AutoRestartStops.Resurrects | hub/router.go:830-844 | A subprocess that does not run and whose marker is set can come to run without a user taking the marker back if and only if some start is already past its last check |
| AutoRestartLife.FailureRestarts | hub/router.go:1139-1181 | A failed probe or an exit with an error of a running subprocess, with auto-restart on, room under the limit and no restart in flight, launches exactly one restart |
| AutoRestartLife.FailureAtLimit | hub/router.go:1157-1163 | With the limit used up it is marked Failed, and nothing is launched |
| AutoRestartLife.NotRestarted | hub/router.go:1165-1176 | Nothing is restarted from Pending, Starting, Stopping or Stopped, nor while a restart is in flight |
| AutoRestartLife.RestartCancels | hub/router.go:1187-1213 | An undisturbed restart cancels the lifecycle it replaces and then waits for the wait group |
| AutoRestartLife.RestartSucceeds | hub/router.go:1213-1245 | Once drained, an undisturbed restart that can connect counts itself once, installs a fresh lifecycle, runs the subprocess under new watchers and gives back the flag |
| AutoRestartLife.RestartFails | hub/router.go:1240-1264 | One that cannot connect leaves Failed, and another round follows exactly while the limit leaves room |
| AutoRestartLife.RestartGivesWay | hub/router.go:1196-1252 | A restart that finds the marker, or its lifecycle cancelled during the delay, leaves the state as it is and gives back the flag |
| AutoRestartLife.UserStartSucceeds | hub/router.go:751-855 | An undisturbed start by a user from Pending, Stopped or Failed takes back the marker and runs the subprocess under new watchers |
| AutoRestartLife.StartAborts | hub/router.go:800-842 | A start that finds the marker behind its new lifecycle, or at its last check that lifecycle cancelled, cancels the lifecycle and ends in Stopped |
| AutoRestartLife.StartRefused | hub/router.go:765-783 | A start of a subprocess that runs, starts or stops changes nothing |
| AutoRestartLife.StopMarks | hub/router.go:1013-1063 | A stop of a running or starting subprocess sets the marker, moves it to Stopping, cancels its lifecycle and then waits |
| AutoRestartLife.StopEnds | hub/router.go:1013-1063 | When the wait group is empty it is Stopped |
| AutoRestartLife.MonitorEnds | hub/router.go:980-1005 | An exit without an error leaves Stopped behind a running subprocess; an exit with one of a subprocess that was not running changes nothing; the ticket is given back |
| AutoRestartLife.HealthRound | hub/router.go:1066-1086 | The health loop ends, with its ticket, exactly when the lifecycle it watches is cancelled |
| Reconnect.DelayExact | client/resilient.go:426-519 | With both bounds below 2^62 the k-th wait, for k at least 1, is Min * 2^k if that is less than Max and Max otherwise |
| Reconnect.ConfiguredDelays | client/resilient.go:80-94 | For every configuration, all waits are that value if and only if neither bound was given as 2^62 or more |
| Reconnect.WaitsFollowDelay | client/resilient.go:426-519 | In every run a loop waiting after its n-th attempt waits the (n-1)-th delay |
| Reconnect.WaitsDouble | client/resilient.go:426-519 | In every run with bounds below 2^62, a loop waiting after its n-th failed attempt waits Min * 2^(n-1) if n is 1 or that is less than Max, and Max otherwise |
| Reconnect.GivesUpAtLimit | client/resilient.go:493-506 | In every run a loop gives up after exactly the configured number of failed attempts, and never without a limit |
| Reconnect.StepBasic | client/resilient.go:157-521 | Every step of Connect, error reports, the loop and Close keeps one loop, one lock holder and the loop's locals |
| Reconnect.OneLoop | client/resilient.go:400-420 | At most one reconnect loop runs |
| ReconnectLife.ReportStartsLoop | client/resilient.go:400-420 | An error report starts a loop, unless the connection was closed, has given up, or has a loop already |
| ReconnectLife.LimitGivesUp | client/resilient.go:493-506 | A failed attempt that reaches the limit ends the loop and marks the connection failed |
| ReconnectLife.GivenUpStays | client/resilient.go:400-404 | After that no report starts a loop and nothing is opened until Connect is called, in any run |
| ReconnectLife.NothingOpens | client/resilient.go:157-225 | After Close, once whoever was past its check is done, nothing is opened or published again, whatever is called |
| ReconnectLife.LoopEnds | client/resilient.go:423-519 | Once Close has signalled, a loop is gone after at most six more of its steps, in any run |
| ReconnectPaths.ReconnectSucceeds | client/resilient.go:423-487 | An undisturbed attempt that gets through closes the old connection, publishes an open new one, takes back an earlier failure and ends the loop |
| ReconnectPaths.AttemptFails | client/resilient.go:423-506 | An attempt whose dial fails is counted, and leads into the backoff or, at the limit, to giving up |
| ReconnectPaths.BackoffWaits | client/resilient.go:508-519 | In the backoff only the timer leads to the next attempt; a signal of Close ends the loop and gives back its flag; otherwise it waits |
| ReconnectPaths.LoopGivesWay | client/resilient.go:430-475 | A loop that finds the shutdown before an attempt makes none; one that finds it under the mutex closes what it has dialled |
| ReconnectPaths.ConnectSucceeds | client/resilient.go:157-194 | An undisturbed Connect takes back an earlier failure, publishes a fresh connection and closes the one it replaced |
| ReconnectPaths.WrongVersion | client/resilient.go:157-194 | With a server of another version the fresh connection is closed and nothing else is touched |
| ReconnectPaths.CloseCloses | client/resilient.go:197-225 | The first Close marks the shutdown, wakes the loop and closes the published connection; any later one does nothing |
| ReconnectClosing.StepInv | client/resilient.go:157-521 | Every step of Connect, error reports, the loop and Close, in any order, keeps every connection in at most one place (published, or held by one thread), keeps a dialled one open until it is handed on, and lets no loop publish after a Close has returned |
| ReconnectClosing.LossStep | client/resilient.go:465-473 | After a step some open connection is neither published nor in anyone's hands if and only if that was so before, or the step is a loop publishing over a published connection that is still open (Connect closes what it replaces, the loop does not) |
| ReconnectClosing.LostForever | client/resilient.go:197-225 | An open connection that is neither published nor in anyone's hands is never closed, whatever happens afterwards |
| ReconnectClosing.LossExact | client/resilient.go:157-521 | Over every run: a connection has been lost if and only if some loop published over an open one |
| ReconnectClosing.LateStep | client/resilient.go:182-190 | After a Close has returned, the published connection is open after a step if and only if Connect has just published it, or it was open before and the step is not a close of the published connection |
| ReconnectClosing.ClosedExactly | client/resilient.go:157-521 | For every run from the beginning that ends with a Close returned and no loop and no Connect left: every connection ever opened has been closed if and only if no loop published over an open connection, and no Connect published after a Close had returned without the published connection being closed again later |
| ReconnectClosing.EverythingClosed | client/resilient.go:197-225 | In particular so if no Connect publishes while a loop is between closing the old connection and publishing its own, or after a Close has returned |
| ReconnectRuns.IntrusionLoses | client/resilient.go:465-473 | From every reachable state in which Close has not been called, a Connect is about to publish and a loop waits to publish what it has dialled, the two can go on so that the connection of Connect is lost |
| ReconnectRuns.ReachBothDialled | client/resilient.go:157-473 | Such a state is reached from the beginning |
| ReconnectRuns.LossRun | client/resilient.go:157-521 | A concrete run from the beginning to a Close that has returned with no loop and no Connect left: of its three connections the second is open, and lost |
| ReconnectRuns.LateConnect | client/resilient.go:157-190 | From every reachable state in which a Close has returned and a Connect is about to publish, Connect can go on to its end and leave its connection open and published |
| ReconnectRuns.LateRun | client/resilient.go:157-225 | A concrete run from the beginning to that end: Connect has passed its shutdown check, a Close runs to its end, Connect dials and publishes |
| ReconnectRuns.HarmlessRun | client/resilient.go:157-521 | A concrete run in which Connect publishes while the loop dials and still every connection is closed, because that dial fails |

## Left out

- Lifecycle.HealthNeverFires: the stores of the start time, the PID and the Running state (process/lifecycle.go:140-143) are one step of the model; a Start that stays between them for more than the 30 seconds of process/manager.go:635 could be marked Failed, and clocks are not modelled.
- ReconnectClosing.EverythingClosed: the sufficient condition on Connect alone; ClosedExactly is the exact one.
- AutoRestart.BudgetKept: supposes that no user start takes a ticket between a restart's drain and its count, because such a step can break the limit (OverlapBreaksBudget); BudgetExact needs no such supposition.
- Lifecycle: registry keys are abstract numbers; output capture, the descendant snapshot and real signals are not part of the protocol.
- Scheduler: one Start to Stop cycle; Schedule and Cancel before or during Start, and persisted IDs shared between projects, are excluded (TaskStore.Restore states what happens with shared IDs).
- Scheduler: every save and removal succeeds, where the source ignores their errors; taking an ID from the counter (the number of tasks scheduled so far) and storing the task in the map are one step, so concurrent calls of Schedule store in the order of their IDs; the creation time is a parameter of Schedule.
- SchedulerStorage.RunAndRestart: supposes that the ID counter has not wrapped around, because IDs repeat afterwards (TaskIds.IssuedIsFresh), and that every project with a stored task is scanned.
- TaskStore: files are a lossless map from projects to task lists; JSON, corrupt-file recovery, fsync and path cleaning are not modelled.
- Text: a character stands for one byte; white space and letter case are ASCII, where Go's functions know Unicode.
- Frames: a read error other than the end of the stream is treated as the end of the stream.
- Chunked: write deadlines and transport errors other than a closed connection, and the mode without status ticker (negative interval), in which the terminal flag is not reset.
- ChunkedClient: the plain execute loop (client/conn.go:295-326), which skips STATUS frames and returns the next one.
- RingBuffer: the two int64 counters are unbounded; at one byte per nanosecond they would wrap after 292 years.
- ScriptEntry: Upsert, sessions and ownership are left out.
- LineWriter: the callback is an appended list; whether a newline ended a line is kept for the proofs and not passed on.
- Descendants: the table is one list of process and parent IDs; parsing /proc, the pgrep fallback and Windows job objects are left out.
- PidTracker: liveness and identity are functions of the kills made so far; time stamps and the tracking file's encoding are left out.
- PidTracker: signalProcessGroup and the group kills of a reaped root are left out; they are sequences of system calls.
- Routes: Unregister is its two observable steps, delete and rebuild; waiting and closing the transport are left out. The hub's own verbs are a parameter.
- SubprocessConn: an answer is a list of parsed frames that ends as the protocol says, fixed by the peer for each frame it receives, whole or run together; a closed transport refuses every write.
- AutoRestart: some adjacent accesses are one step: the exit monitor's load of Running and its store of Stopped; the load of the restart count and the store of Failed behind it; the loads of the stop marker and of the context in startCore's last check; a probe, its failure count and the load of Running behind it; connecting and the launch of the exit monitor; and, at the end of a restart, the launch of the health loop (or the last store of the state) and the release of the flag.
- AutoRestart: probing, failure counts and delays are choices of the environment; "stopped implies never Running" is false, because the last stop check and the store of Running are separate steps; Resurrects says exactly when.
- Reconnect: heartbeats and requests appear only as reports of an error. Requests that hold a replaced connection are left out.
- Sockets, pipes, dialling, auto-start, PID files, start-up locks, HTTP and command-line code, session bookkeeping, statistics and error wording: input and output, or shallow.
