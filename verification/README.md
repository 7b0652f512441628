# hermes: protocol models

A Dafny model of the concurrent and stateful cores of the hermes agent, with proofs of what they promise.
`dafny verify dfyconfig.toml` checks everything.

| file | models |
|---|---|
| `ProcessLifecycle.dfy`, `ProcessThreads.dfy` | one background-process record under spawn, reader, recovery, kill, cleanup and prune (`hermes/processes.py`) |
| `ProcessLog.dfy` | its rolling output log and a client that follows cursors |
| `StreamDelivery.dfy` | interruptible consumption of a model stream by two threads (`hermes/model_execution.py`) |
| `Fragments.dfy`, `StreamRenderer.dfy` | rebuilding a model turn from chunks, and the terminal renderer fed meanwhile |
| `AgentTools.dfy` | tool-error classification and one batch of tool calls (`hermes/agent_loop.py`) |
| `Steering.dfy`, `ErrorPolicy.dfy`, `ConversationLoop.dfy` | one conversation run: mailbox, error policy, iterations, persistence |
| `ResumeHistory.dfy` | the history check before resuming behind an approval |
| `RefMap.dfy`, `Snapshots.dfy` | the two accessibility-tree walks, and snapshot ids across pages |
| `WorkerQueue.dfy` | the browser worker's queue |
| `DeferredRelease.dfy` | the CLI controller's deferred release of sessions |
| `DelegateJobs.dfy` | the delegate job manager |
| `Common.dfy` | `Option`, number texts, small text functions |

## How concurrency is modelled

A lock section, or a single queue, event or stream operation, is one atomic step: a datatype value with a
total function `Apply` and a predicate `Enabled`. Invariants and the relations "what nobody undoes"
(`Keeps`) are proved for every step and, by induction, for every run. Code is a class whose section
methods equal `Apply`; between sections the thread methods call `Interfere`, whose contract allows any run
of steps by other threads that the caller's role does not exclude. Whatever the outside answers (process
handles, models, databases, hooks, cancel checks, clocks) is chosen freely.

## Where the code and its documentation differ

- `hermes/agent_loop.py:975` says the run-time state is reset by every `run()`; the tool-error counters are
  not. `AgentTools.LimitOutlivesTheRun` says exactly when earlier runs make a failure fatal, and
  `AgentTools.FatalInTheNextRun` runs into it.
- The classification comment calls a text that starts with `(error:` an error; without a status and a fatal
  marker it is counted as a success (`AgentTools.SuccessExactlyWhen`, `AgentTools.TextErrorClearsCounts`).
- EXITED does not imply that no signal was sent: `ProcessLifecycle.ExitedWithSignalExactlyWhen` gives the exact
  condition and `ProcessLifecycle.ExitedAfterSignal` a run.
- Not every way out of the stream consumer stops the daemon thread and asks for the close: a cancel checker that
  raises does neither (`StreamDelivery.StreamExecution.Consume`), and a thread in front of a full queue then
  tries again for ever (`StreamDelivery.StuckForever`, `StreamDelivery.StuckIsReached`).
- Session and page store the same snapshot id exactly when the formatter did not raise
  (`Snapshots.FormatterDecides`); `Snapshots.BrowserSession.PerformAll` holds all the same.
- An id that was rejected once may still be accepted when it was only guessed;
  `Snapshots.RejectedForGoodExactlyWhen` says exactly which ids are rejected for good.
- A delegate job does not always end: its status stays RUNNING, and its place is taken for good, exactly when the
  runner raises past `Exception` (`DelegateJobs.DelegateJobManager.Work`, `DelegateJobs.OrphanKeepsItsPlace`).
- Not every accepted browser request is answered: one is lost exactly when a target raises past `Exception`
  (`WorkerQueue.ResolvedWhenStopped`, `WorkerQueue.CrashLosesARequest`).
- Selecting a page without invalidation can revive an id; `Snapshots.SelectKeeps` gives the exact condition,
  which the one caller that does so excludes.
- A steer entry is lost when the cancel checker itself raises between injection and persistence
  (`ConversationLoop.RaisingCheckerLoses`); with a checker that cannot raise a run loses none
  (`ConversationLoop.ConversationAgentLoop.Run`).
- An empty reasoning text does not survive the stream; `Fragments.RoundTrip` and `Fragments.ChunkRoundTrip` hold exactly without one.

## Model

| member | source | states |
|---|---|---|
| ProcessLifecycle.SectionInv | hermes/processes.py:1703-1745 | every lock section of every thread keeps the record invariant: status against spawn progress, termination source, completion event, exit code, the handle's custody, the readings of the signal flag, and the termination lock: who found the startup event unset has registered its request before the lock is free |
| ProcessLifecycle.SectionKeeps | hermes/processes.py:1703-1731 | no section undoes what another thread may rely on: terminal statuses and exit codes stay, a marked failed start stays marked or ends in FAILED_START, closed stays closed, a pending-or-closed handle stays so, a settled record stays settled, table moves are one-way, and under the held termination lock nobody else touches its flag |
| ProcessLifecycle.HandleCustody | hermes/processes.py:1338-1374 | in every state any interleaving of spawn, reader, kill, cleanup and prune can reach, an attached handle is still in the running table, or was closed after its final output was committed |
| ProcessLifecycle.LifecycleSafety | hermes/processes.py:1656-1731 | between any two points of any run: terminal statuses absorb, the completion event is set iff the status is terminal, KILLED implies a sent signal, EXITED implies no termination source, a RUNNING record marked for failed-start cleanup can only end in FAILED_START |
| ProcessLifecycle.ExitedWithSignalExactlyWhen | hermes/processes.py:1533-1563 | over all runs: a record ends EXITED although a signal was sent iff the signal was marked after the deciding observer had read the flag and before it wrote the status |
| ProcessLifecycle.ExitedAfterSignal | hermes/processes.py:1533-1563 | such a run exists |
| ProcessThreads.ProcessRecord.MoveToFinished | hermes/processes.py:1733-1745 | a terminal, released record without pending cleanup has left the running table afterwards, whatever others do between the two sections; everything others rely on is kept |
| ProcessThreads.ProcessRecord.HandleClose | hermes/processes.py:1338-1374 | when it succeeds on a record that had a handle, the closed flag is up - and the flag is written only after the final output was committed |
| ProcessThreads.ProcessRecord.ReleaseConfirmedExit | hermes/processes.py:1626-1643 | success means EXITED or KILLED, the handle closed, and the record out of the running table |
| ProcessThreads.ProcessRecord.ReadExitFlags | hermes/processes.py:1533-1547 | after it the record is terminal or guarded: its handle is closed or pending, so nobody can move it out of the running table unreleased |
| ProcessThreads.ProcessRecord.CompleteObservedExit | hermes/processes.py:1533-1563 | ends terminal; `seen` is the record right after the flag was read: if this thread made the transition, the record was not terminal there and the flag it held there alone decides between KILLED and EXITED, with the observed code |
| ProcessThreads.ProcessRecord.FinishConfirmedExit | hermes/processes.py:1593-1624 | returns only a terminal status, which is the record's; on a launched record with a known code the record is terminal even when it raises |
| ProcessThreads.ProcessRecord.WaitForExitConfirmation | hermes/processes.py:2188-2219 | a confirmed wait always carries an exit code |
| ProcessThreads.ProcessRecord.CompleteFailedStart | hermes/processes.py:1816-1828 | success means FAILED_START and out of the running table; the record stays a failed start under recovery whatever else happens |
| ProcessThreads.ProcessRecord.AcquireTerminationLock | hermes/processes.py:1959-1960 | the lock is taken after some run of the others that leaves it free; nobody then owes a request or is inside a termination |
| ProcessThreads.ProcessRecord.BeginTermination | hermes/processes.py:1959-1960 | the lock is held with the in-progress flag up, and nothing others rely on is undone |
| ProcessThreads.ProcessRecord.EndTermination | hermes/processes.py:2067-2068 | flag and lock are given back on every way out; a LOST record stays released |
| ProcessThreads.ProcessRecord.TerminateRecord | hermes/processes.py:1950-2068 | returns normally only with a terminal status that is the record's, and a LOST record only with its handle released; otherwise raises; the lock and the flag are free again either way |
| ProcessThreads.ProcessRecord.TerminateFailedStart | hermes/processes.py:2070-2090 | returns only FAILED_START |
| ProcessThreads.ProcessRecord.TerminateConfirmedExit | hermes/processes.py:2092-2105 | returns the EXITED or KILLED status the record already had; a strict success has closed the handle and moved the record out of the running table |
| ProcessThreads.ProcessRecord.TerminateLost | hermes/processes.py:2107-2151 | returns only LOST with the handle released; when the cleanup was still pending in the section that writes the source, the record has left the running table, too |
| ProcessThreads.ProcessRecord.TerminateRunning | hermes/processes.py:2014-2066 | returns only a terminal status, which is the record's; raises only after the request was registered and the handle asked twice to signal, or when the record is terminal or a marked failed start |
| ProcessThreads.ProcessRecord.CleanUpLost | hermes/processes.py:2128-2151 | a successful cleanup of a LOST record ends released and out of the running table |
| ProcessThreads.ProcessRecord.AwaitStartup | hermes/processes.py:1983-2003 | an undecided wait means the startup event is set and the snapshot is not terminal; a RUNNING snapshot then has a handle |
| ProcessThreads.ProcessRecord.Kill | hermes/processes.py:804-819 | the contract of termination, for the kill source |
| ProcessThreads.ProcessRecord.FinishSpawn | hermes/processes.py:391-544 | the request of a terminator that found the startup event unset, or that was registered while the starter ran, is never lost: spawn then raises or reports a terminal status; a non-terminal report means launched with the startup event set; the handle is in custody on every way out |
| ProcessThreads.ProcessRecord.ReadRequestLocked | hermes/processes.py:531-535 | under the termination lock: a terminator that found the startup event unset has its request seen, or the record is terminal |
| ProcessThreads.ProcessRecord.FailStartWithHandle | hermes/processes.py:1839-1851 | every failed start with a handle is under recovery, whether or not it could be disposed of at once |
| ProcessThreads.ProcessRecord.DisposeFailedStartHandle | hermes/processes.py:1747-1767 | success means FAILED_START |
| ProcessThreads.ProcessRecord.ConfirmFailedStartStopped | hermes/processes.py:1769-1814 | a start counts as stopped only after the handle was asked to kill |
| ProcessThreads.ProcessRecord.HandleSignal | hermes/processes.py:1280-1324 | a signal that was really sent is recorded, unless the record is terminal by then |
| ProcessThreads.ProcessRecord.WriteLost | hermes/processes.py:1565-1591 | LOST is written unless the record is terminal, marked for failed-start cleanup or under termination; cleanup stays pending iff the handle is open |
| ProcessThreads.ProcessRecord.CompleteLost | hermes/processes.py:1565-1591 | success means LOST was written; if the handle was closed by then the record is out of the running table, else its cleanup is pending |
| ProcessThreads.ProcessRecord.ReaderLoop | hermes/processes.py:1431-1493 | a reader that has ended leaves a terminal record |
| ProcessThreads.ProcessRecord.FailedStartRecoveryLoop | hermes/processes.py:1899-1932 | a recovery thread that has ended leaves FAILED_START, or after a failed close a record that still is a failed start under recovery |
| ProcessThreads.ProcessRecord.FinishFailedStartRecovery | hermes/processes.py:1934-1948 | finished means FAILED_START |
| ProcessThreads.ProcessRecord.PruneRecord | hermes/processes.py:905-928 | a record is pruned only when terminal with its handle released, and an expired one that is terminal and has left the running table is |
| ProcessThreads.ProcessRecord.CleanupRecordCompleted | hermes/processes.py:893-903 | reports completed iff the record, as it is looked at, has no open handle and is out of the running table; what was completed stays so |
| ProcessThreads.CleanupRecords | hermes/processes.py:848-891 | the report holds every captured record once, completed and unresolved ones each in the order of capture; a record is listed as completed iff its termination returned and it was out of the running table with its handle released when looked at, and it then still is so at the end, although all records go on moving |
| ProcessLog.AppendedIsWellFormed | hermes/processes.py:1495-1517 | an append keeps the log a suffix of the stream, at most max characters long and free of discarded positions; base and history only grow |
| ProcessLog.AppendedKeepsAllItMay | hermes/processes.py:1495-1517 | the discarded positions come before the text, and the log gives up no more than it has to: it keeps the longest suffix that fits with none discarded in it |
| ProcessLog.OutputLog.AppendOutput | hermes/processes.py:1495-1517 | buffer and cursors hold exactly stream positions [base, end) afterwards |
| ProcessLog.OutputLog.ReadLog | hermes/processes.py:603-642 | returns the stream from the cursor - from the base when it is behind, nothing when it is past the end - cut at the limit, and reports truncation iff the cursor was behind the base; rejects limits out of range |
| ProcessLog.FollowerSeesTheStream | hermes/processes.py:603-642 | a client that follows next_cursor through any appends, discards and trims receives every position at most once, in order, with its own character, and a gap exactly when it is told of truncation |
| ProcessLog.UntruncatedIsComplete | hermes/processes.py:603-642 | a client never told of truncation holds the stream without a hole |
| ProcessLog.UntruncatedReachesTheEnd | hermes/processes.py:603-642 | what it holds reaches to the end of the last chunk |
| StreamDelivery.StepInv | hermes/model_execution.py:206-365 | every step of both threads keeps: what is delivered, in hand, queued and with the producer is in this order what the stream yielded; the outcome is reported once and only after everything was queued; close bookkeeping |
| StreamDelivery.DeliveredIsPrefix | hermes/model_execution.py:307-365 | under any interleaving the callback has got a prefix of the chunks produced, nothing after a stop, and the queue stays within its size |
| StreamDelivery.OutcomeComesLast | hermes/model_execution.py:329-346 | once the outcome is taken and the queue drained, everything the stream ever yields has been delivered, and the outcome is the stream's own end |
| StreamDelivery.ClosedExactlyOnce | hermes/model_execution.py:41-76 | for any interleaving of storing the stream with repeated close requests: never two closes, one as soon as both happened, one at the latest when the thread ends |
| StreamDelivery.StuckForever | hermes/model_execution.py:248-259 | with nobody stopping it, a thread in front of a full queue still holds its chunk after any run of its own, and the stream is never closed |
| StreamDelivery.StuckIsReached | hermes/model_execution.py:248-259 | the thread gets there by itself, with a queue of one and two chunks, so a checker that raises at once leaves it there |
| StreamDelivery.StreamExecution.AskForClose | hermes/model_execution.py:57-76 | one section: requests the close and starts it if there is a stream and none was started |
| StreamDelivery.StreamExecution.SetStream | hermes/model_execution.py:50-55 | stores the stream and repeats a close that was asked for too early |
| StreamDelivery.StreamExecution.StopAndClose | hermes/model_execution.py:276-280 | afterwards the thread is stopped and the close requested; nothing was delivered |
| StreamDelivery.StreamExecution.RaiseIfCancelled | hermes/model_execution.py:276-280 | asks the checker once: a cancellation has stopped the thread and asked for the close, a checker that raises has done neither, and only a clear answer lets the thread go on |
| StreamDelivery.StreamExecution.DeliverChunk | hermes/model_execution.py:307-316 | success appends exactly this chunk to what was delivered, with a look at the checker before and behind it; a failure is a cancellation or the callback's own, and has stopped the thread and asked for the close, or the checker's, and has not |
| StreamDelivery.StreamExecution.DrainAndFinish | hermes/model_execution.py:332-346 | a normal return or a producer error only after every chunk was delivered; any other way out as for a delivery |
| StreamDelivery.StreamExecution.AwaitChunk | hermes/model_execution.py:348-365 | times out iff the idle window, restarted by every delivery, has run out - unless a look at the checker ends the call first |
| StreamDelivery.StreamExecution.Round | hermes/model_execution.py:318-365 | a chunk that waits is delivered in this turn, an outcome that waits behind an empty queue ends the loop in this turn |
| StreamDelivery.StreamExecution.Consume | hermes/model_execution.py:318-365 | normal return: all chunks delivered in order, once; producer error: only after all earlier chunks; any other exit has stopped the thread and asked for the close iff it is not the cancel checker that raised; an idle timeout means that much time without a delivery; the checker is asked before every chunk, and its first answer that is not clear is how the call ends; the callback is called on until the first chunk it raises on, which is how the call then ends |
| StreamDelivery.StreamExecution.Enqueue | hermes/model_execution.py:248-259 | a chunk is put unless a stop was seen; the bounded queue is retried while full |
| StreamDelivery.StreamExecution.ReportAndLeave | hermes/model_execution.py:258-265 | the end is reported unless a stop was seen, and the thread ends with the close requested |
| StreamDelivery.StreamExecution.WorkerThread | hermes/model_execution.py:240-265 | over any stream: what was produced is a prefix of it, all of it unless stopped, the end is its end, and a stream that was made is closed exactly once by the time the thread is done |
| Fragments.RoundTrip | hermes/model_streaming.py:83-150 | however a message's text, reasoning and tool-call names and arguments are cut and its channels interleaved, the rebuilt message is the same - exactly when it carries no empty reasoning text |
| Fragments.ChunkRoundTrip | hermes/model_streaming.py:94-175 | however a message is spread over chunks, its call pieces addressed by an index of their own or by position, the rebuilt turn is that message - exactly when it carries no empty reasoning text - with the last finish reason and the last usage reported |
| Fragments.ChunkCarriesAll | hermes/model_streaming.py:152-175 | every message with identified calls can be sent in one chunk, its calls addressed by number or by position |
| Fragments.SentWhole | hermes/model_streaming.py:83-150 | every message with identified calls has at least one such cut |
| Fragments.InterleavingIsIrrelevant | hermes/model_streaming.py:94-150 | two streams with the same order within each channel rebuild the same turn, including finish reason and usage |
| Fragments.FallbackIdsAreDistinct | hermes/model_streaming.py:177-179 | ids made up for calls without one never clash within an attempt |
| Fragments.StreamAccumulator.AddChunk | hermes/model_streaming.py:94-125 | adds the chunk's pieces: its texts at the end, every tool-call piece to the call its delta numbers or, without a number, to the one at its position, and its reason and usage in place of earlier ones; reports the text and reasoning it adds |
| Fragments.StreamAccumulator.AddToolCallDelta | hermes/model_streaming.py:152-175 | one piece for the call the delta numbers, or for its position when the index is missing or unreadable; nothing else changes |
| Fragments.StreamAccumulator.Result | hermes/model_streaming.py:127-150 | the turn stands for everything seen; whatever chunks were added, it is the message they carry - exactly when that has no empty reasoning text - with the last reason and usage they report |
| Fragments.UnpackTexts | hermes/model_streaming.py:94-125 | what the accumulator reports for a chunk is the text that chunk contributes to the result |
| Fragments.UnpackParts | hermes/model_streaming.py:152-175 | the tool-call pieces of a chunk go to the calls its deltas address |
| Fragments.UnpackEnds | hermes/model_streaming.py:94-108 | a chunk speaks of finish reason and usage only when it carries them |
| Fragments.IdIsTheFirst | hermes/model_streaming.py:160-162 | the id of a call is the first one sent that is not empty |
| Fragments.KindIsTheLast | hermes/model_streaming.py:163-165 | the type of a call is the last one sent |
| Fragments.PiecesInOrder | hermes/model_streaming.py:170-175 | names and arguments are put together in the order they came |
| StreamRenderer.CompletedTextIsWhatWasSent | hermes/cli_streaming.py:39-112 | from any earlier state, with late events of other attempts in between, the completed text is what this attempt sent, and it counts as streamed for exactly the equal non-empty response |
| StreamRenderer.CLIStreamRenderer.HandleEvent | hermes/cli_streaming.py:39-60 | a start clears its own attempt and makes it current; late events and reasoning change nothing; text of the current attempt is added to what is shown; an end of it breaks the line iff something was shown, and only a completion of it is noted |
| StreamRenderer.CLIStreamRenderer.WasFinalResponseStreamed | hermes/cli_streaming.py:71-78 | true iff the last completed attempt is the current one and its non-empty text equals the response |
| StreamRenderer.CallModelStream | hermes/agent_loop.py:2037-2091 | completes iff neither the stream breaks nor a look at the cancel flag says so; then it returns the message its chunks carry with their last reason and usage, has announced start, every piece in order and the completion, and the renderer's completed text equals that turn's content; a stopped call has announced a beginning of the pieces and the interruption, exposes no turn and completes nothing |
| AgentTools.MarkerIsContained | hermes/agent_loop.py:341-354 | the detected marker is one of the list and occurs in the text; none is detected iff none occurs |
| AgentTools.FatalExactlyWhen | hermes/agent_loop.py:1385-1458 | an error is fatal iff the tool was blocked, a confirmed error's text holds a marker, or - unless the call itself failed - the object is flagged or of a fatal type; unconfirmed output never is |
| AgentTools.VerdictExactlyWhen | hermes/agent_loop.py:1385-1458 | a call that ran is cancelled iff its status or the type of its error says so, ends the run iff its error is fatal, succeeds iff there is no sign of an error, and counts as a failure otherwise |
| AgentTools.VerdictFollows | hermes/agent_loop.py:1873-1953 | a call that was answered asks for an approval iff its output requests one under an id of the right form for the very tool that was called, and is judged by its output otherwise; any other call never counts |
| AgentTools.TypeComesFrom | hermes/agent_loop.py:1385-1458 | where the reported error type is taken from |
| AgentTools.SuccessExactlyWhen | hermes/agent_loop.py:1411-1458 | output without status, or with an empty one, counts as success iff it is neither a structured error nor an announced error text with a marker |
| AgentTools.TextErrorClearsCounts | hermes/agent_loop.py:1426-1458 | a confirmed plain text error counts as success all the same |
| AgentTools.FailuresSplit | hermes/agent_loop.py:1954-1973 | failures of earlier runs count on until the tool succeeds in this run |
| AgentTools.FailuresAreCounted | hermes/agent_loop.py:1954-1973 | the counter of a tool and an error type is the number of such failures since the tool last succeeded |
| AgentTools.LimitOutlivesTheRun | hermes/agent_loop.py:975-983 | a failure ends the run iff it would by this run's own calls alone, or the tool has not yet succeeded in this run and earlier runs' failures make up the limit: `run()` does not reset the counters |
| AgentTools.FatalInTheNextRun | hermes/agent_loop.py:1470-1475 | two runs of one runner: two failures leave the first going, and the first failure of the second is fatal |
| AgentTools.ToolRunner.StartRun | hermes/agent_loop.py:1470-1475 | a run starts with no used tools, and with the counters as they are |
| AgentTools.ToolRunner.Record | hermes/agent_loop.py:1873-1973 | keeps the counters equal to the failures since each tool's last success over all runs, and the used tools equal to those called in this run; reports fatal iff the call is fatal or reaches the limit |
| AgentTools.ToolRunner.ClearToolErrorCounts | hermes/agent_loop.py:1999-2007 | forgets exactly this tool's counters |
| AgentTools.ToolRunner.StartCall | hermes/agent_loop.py:1801-1872 | a call is cancelled iff the batch was, or the check before it, behind its parsing or behind the hooks says so; it is skipped behind a failure and deferred behind a question; otherwise it is rejected, blocked or dispatched as parsing and hooks say, and its output is what they or the tool answered |
| AgentTools.ToolRunner.ProcessToolCalls | hermes/agent_loop.py:1777-1997 | one message per call, in order, with its id and its own output; nothing starts behind the first cancelled, fatal or approval call; cancelled iff a call or the last check was, awaiting iff a call asked for approval and nothing was cancelled - and then the request is that of the one call that ran and asked, with every later call deferred -, tool error iff a call was fatal or failed alike three times since that tool's last success and neither of the others holds; it ends in a tool error exactly behind a fatal call, with the type that call reports; every call goes as the calls of the batch before it and the answers from outside let it |
| Steering.SteerMailbox.Activate | hermes/steering.py:32-39 | only a new mailbox becomes active |
| Steering.SteerMailbox.Submit | hermes/steering.py:41-73 | accepts iff well formed, active and the id does not wait already; then the stripped entry is last |
| Common.StripSays | hermes/steering.py:62-66 | stripping takes the white space off both ends of a text and nothing else |
| Steering.SteerMailbox.Drain | hermes/steering.py:81-87 | hands over everything that waits and leaves nothing |
| Steering.SteerMailbox.RestoreFront | hermes/steering.py:94-126 | puts the entries back in front in their order, or refuses without any change when inactive or an id clashes |
| Steering.SteerMailbox.CloseAndDrain | hermes/steering.py:128-135 | closes for good and hands over everything that waits |
| ErrorPolicy.ActionsDoNotCompete | hermes/errors.py:36-97 | retry and fallback exclude each other and compression implies retry, so the order in which the handler asks does not matter; each is asked for exactly by its own statuses and texts |
| ErrorPolicy.FailureDecides | hermes/conversation.py:329-387 | after a failed call the run goes on iff the context is to be compressed, a retry is left for an error worth one, or the other model is; it switches models only when nothing else is left |
| ErrorPolicy.RequestTimeoutIsRetried | hermes/errors.py:28-33 | the loop's own timeout text is classified as a network error: retried while there are retries left, then by fallback |
| ConversationLoop.GroupedSum | hermes/conversation.py:449-460 | transcripts of complete groups append to transcripts of complete groups |
| ConversationLoop.CompleteGroup | hermes/conversation.py:449-460 | an assistant message with one result per call, in order, is a complete group |
| ConversationLoop.GuidanceOfBatch | hermes/agent_loop.py:1042-1073 | guidance put into the last result is exactly what the stored batch carries |
| ConversationLoop.GuidanceIsShown | hermes/agent_loop.py:1042-1073 | the text of a result with guidance starts with what the tool answered and holds the text of every entry |
| ConversationLoop.ContentIsPlain | hermes/agent_loop.py:1042-1073 | only guidance adds to the text of a result |
| ConversationLoop.OthersConserve | hermes/steering.py:41-73 | whatever other threads do to the mailbox, accepted entries are those gone, reclaimed and waiting, in order |
| ConversationLoop.CallLogged | hermes/conversation.py:329-361 | a failed call with fewer failures before it than the bound keeps every streak within the bound |
| ConversationLoop.ConversationAgentLoop.TryFallbackOrAbort | hermes/conversation.py:363-387 | switches iff a fallback is configured and not in use; then with a fresh retry count |
| ConversationLoop.ConversationAgentLoop.HandleModelError | hermes/conversation.py:329-361 | retries iff compression, a retry or the fallback is left, in the retry state each of them leaves; every answer but compression spends budget: failures before it stay below 2*(max_retries+1), or max_retries+1 without fallback |
| ConversationLoop.ConversationAgentLoop.ShouldContinue | hermes/conversation.py:405-417 | continues only a truncated answer, and at most max_continuations times in a row |
| ConversationLoop.ConversationAgentLoop.CallModel | hermes/agent_loop.py:1530-1546 | the request is the working list plus temporary hook context; unless something was compressed that list is the stored transcript |
| ConversationLoop.ConversationAgentLoop.InjectPendingSteer | hermes/agent_loop.py:1042-1073 | a batch that goes on takes everything that waits, in order, into its last result and empties the mailbox; any other batch takes nothing and changes nothing |
| ConversationLoop.ConversationAgentLoop.RestoreInjectedSteer | hermes/agent_loop.py:1075-1088 | undoes an injection: the entries wait in front again iff the mailbox takes them back, and stay with the loop otherwise; none is lost or doubled |
| ConversationLoop.ConversationAgentLoop.InjectAndCheck | hermes/agent_loop.py:1695-1705 | by the answer of the check: everything that waited is in hand, or undone, or in hand and lost |
| ConversationLoop.ConversationAgentLoop.InjectUnlessCancelled | hermes/agent_loop.py:1695-1705 | the same with other threads at the mailbox before and after the drain; entries are lost iff the cancel checker raises while some are in hand, and it must be one that can raise |
| ConversationLoop.ConversationAgentLoop.StoreBatch | hermes/conversation.py:449-460 | assistant and results are stored together or not at all; stored entries have landed |
| ConversationLoop.ConversationAgentLoop.RunBatch | hermes/agent_loop.py:1777-1997 | the batch ends the run iff a call of it was fatal, cancelled or asked for an approval, or the check behind it was positive - in the result that call leads to |
| ConversationLoop.ConversationAgentLoop.SettleBatch | hermes/agent_loop.py:1695-1733 | behind a stored batch of a run that goes on, everything that waited at the drain has landed; on every way out all of it has or none, the transcript is complete groups and the entries are accounted for; a batch that did not land entries has its results exactly as the tools gave them; a batch that ended the run does end it, in its own result unless storing fails or a cancellation comes in between, and lands nothing; what is stored is the assistant message and the results, but for the guidance in the last |
| ConversationLoop.ConversationAgentLoop.FinishBatch | hermes/agent_loop.py:1706-1733 | assistant and results are stored together or the run ends in a persistence error; a batch that ended the run ends it as it said |
| ConversationLoop.ConversationAgentLoop.RunToolTurn | hermes/agent_loop.py:1680-1733 | a tool turn leaves memory and database equal, or ends the run with the entries accounted for; when the run goes on, no call of the batch was fatal, cancelled or asked for approval and every entry that waited has landed unless a closer took it; it ends in a tool failure or an approval only as its own batch says; what is stored is the model's text, reasoning and calls as they came, and behind them the answer of the tools to each call; nothing is left out unless storing fails or a check or hook raises; a look at the cancel flag that says so, and anything that breaks, ends the run |
| ConversationLoop.ConversationAgentLoop.RunTextTurn | hermes/agent_loop.py:1735-1764 | a truncated text below the limit is stored with the request to continue it and the run goes on, or the run ends in a persistence error; any other text is stored and ends the run |
| ConversationLoop.ConversationAgentLoop.RunEmptyTurn | hermes/agent_loop.py:1619-1673 | an empty turn is taken back before the error policy decides; a truncated reasoning turn below the limit is stored and continued, any other ends the run unless the policy goes on |
| ConversationLoop.ConversationAgentLoop.Consume | hermes/agent_loop.py:1545-1580 | a call that timed out with a retry or a fallback left does not end the run unless it was cancelled meanwhile |
| ConversationLoop.ConversationAgentLoop.Iterate | hermes/agent_loop.py:1503-1764 | a run that goes on made exactly one model call, on the transcript and behind three looks at the cancel flag, and the transcript then grew by just what that call's reply says; a look that says cancel or anything that breaks ends the run, and every end has its ground |
| ConversationLoop.ConversationAgentLoop.RunInner | hermes/agent_loop.py:1495-1775 | ends for want of iterations only after max_iterations model calls, and otherwise on the ground an iteration gives; between two marks stands in the transcript what one model call made of it, in order |
| ConversationLoop.ConversationAgentLoop.FinalizeSteer | hermes/agent_loop.py:1004-1023 | hands back, in order, what the loop kept and what still waits |
| ConversationLoop.GuidedIsNoObject | hermes/agent_loop.py:1062-1069 | a result with guidance behind it does not end like an object, so it is no placeholder any more |
| ConversationLoop.ConversationAgentLoop.Run | hermes/agent_loop.py:1462-1493 | the stored transcript only grows and is a concatenation of complete groups; every model call was sent the transcript plus hook context unless something was compressed; every accepted steer entry is, in order, in one stored tool result, reclaimed by a closer, or handed back, and none is lost unless the cancel checker can raise and the run ended in an internal error; failure streaks are bounded; at most one fallback switch; a completed run ends with its stored answer; a run that awaits an approval has stored, as its last batch, that of the call that asked, and nothing behind that call asks again; no model call follows a batch with a fatal, cancelled or approval call, and a run ends in a tool failure or waits for an approval only as its last batch says; call by call the stored transcript is what the reply of the call says - the turn with the answers of its tools, the truncated text with the request to continue, or nothing; a run ends cancelled, broken, blocked or with a model error only if that was heard, and for want of iterations only after all of them |
| ConversationLoop.RaisingCheckerLoses | hermes/agent_loop.py:1695-1705 | one entry waits, the batch takes it, the checker raises: the entry is lost |
| ResumeHistory.CallIds | hermes/conversation.py:129-143 | the ids of a tool-call list, or none iff an entry is malformed or an id repeats |
| ResumeHistory.TargetAssistants | hermes/conversation.py:123-143 | all assistant messages that make the call, or none iff any list is malformed |
| ResumeHistory.ResultsByCall | hermes/conversation.py:149-157 | all result positions of each call, or none iff a placeholder of the approval is left |
| ResumeHistory.ValidateApprovalResumeHistory | hermes/conversation.py:114-163 | accepts iff every call list is well formed, one assistant makes the call, each of its calls has exactly one result and that comes later, and no placeholder of the approval is left |
| ResumeHistory.ResultsFollowTheirCalls | hermes/conversation.py:449-460 | in complete groups every result stands where its call puts it |
| ResumeHistory.LoopHistoryResumes | hermes/conversation.py:114-163 | on any transcript of complete groups with distinct call ids, any call can be resumed behind an approval iff no result still is its placeholder |
| ResumeHistory.ReplaceToolMessageContent | hermes/persistence/core.py:238-262 | replaces the result of the call iff there is exactly one; otherwise nothing changes |
| ResumeHistory.StoppedBatchResumes | hermes/conversation.py:114-163 | a history that ends with a batch stopped for an approval is rejected; with the asking call's result replaced it is accepted iff neither the new output nor any earlier result names that approval |
| ResumeHistory.RunAndApprove | hermes/cli_approval.py:41-47 | from the run itself: when it stops for an approval and its call ids differ, the validation refuses the stored history, the replacement finds the asking call's result, and the validation then accepts iff neither the output nor any earlier result names the approval |
| RefMap.RefNameIsInjective | browser/session.py:4435-4461 | different ref numbers have different names |
| RefMap.SnapshotFormatter.FormatNode | browser/accessibility.py:144-203 | prints the depth-first order of the unvisited part of the subtree, numbering interactive nodes from the shared counter |
| RefMap.RefWalker.WalkRefMap | browser/session.py:4435-4461 | enters exactly the numbered nodes of the same order, and leaves counter and visited set where the formatter does |
| RefMap.FormatSnapshot | browser/accessibility.py:206-236 | the first line is the root, outermost: the first rootWebArea, else node 0, else the first node; every other line stands one level below the line a reader takes for its parent, which has it as a child, siblings in the order of that list; no id is printed twice and every child of a printed node is printed, so with distinct ids the lines are exactly the reachable nodes; refs are counted down the page, one for each node to act on |
| RefMap.BuildRefMap | browser/session.py:4404-4432 | the whole ref map from the chosen root, or nothing for no nodes |
| RefMap.NumberingAgrees | browser/accessibility.py:163-176 | along any order, lines and refs agree: the same consecutive numbers, each carried by exactly one line, naming that line's node |
| RefMap.SnapshotAndRefs | browser/session.py:1162-1187 | snapshot and map of one tree, taken by the separate walks, use exactly e1..en, and each names the node of the one line that prints it |
| RefMap.WalkIsSound | browser/accessibility.py:144-203 | only reachable nodes are visited |
| RefMap.VisitsReachableExactlyOnce | browser/accessibility.py:144-236 | with distinct node ids every node reachable from the root is visited exactly once and no other, whatever cycles and shared children there are |
| RefMap.LinesShowTheVisits | browser/accessibility.py:144-203 | there is one line for every visit, at its depth, and the next ref exactly for the nodes to act on |
| RefMap.WalkIsLaid | browser/accessibility.py:192-203 | in the depth-first order every node stands right below a parent that lists it, siblings in the order of that list |
| RefMap.WalkShape | browser/accessibility.py:144-203 | a walk adds each id once, none visited before, and leaves no child of what it visited out |
| RefMap.RootIsRoot | browser/accessibility.py:219-231 | the root is the first rootWebArea, else the last node with id 0, else the first node |
| RefMap.IndexIsLatest | browser/accessibility.py:219-222 | when ids repeat the last node with an id counts |
| Snapshots.InvalidateKeeps | browser/session.py:764-772 | invalidation leaves no accepted id, and what is spent stays spent: a rejected id whose serial is used up or whose page is closed |
| Snapshots.SelectKeeps | browser/session.py:839-848 | the page is current afterwards; selecting with invalidation revives nothing; without, it takes over what the page stores, which revives an issued id iff that is one other than the accepted one, and the session stays consistent iff the page stores none or its latest snapshot |
| Snapshots.TakeSnapshotKeeps | browser/session.py:1162-1187 | a snapshot issues an id never issued before with its own refs, also when the formatter then raises; a failing query changes nothing |
| Snapshots.OpenPageKeeps | browser/session.py:774-796 | registering a page, new or known, made current or not, revives nothing; a new page gets a fresh number and stores nothing; it is current iff asked or there was none, a known one iff asked |
| Snapshots.PageGoneKeeps | browser/session.py:798-813 | when the current page goes its heir is current, with no snapshot accepted, or none is; another page's going changes nothing of the current one; nothing is revived and no page comes to store a snapshot by it |
| Snapshots.FormatterDecides | browser/session.py:1176-1187 | after an answered query page and session store the same id iff the formatter did not raise |
| Snapshots.OperationKeeps | browser/session.py:764-848 | no operation revives a spent id |
| Snapshots.OperationSays | browser/session.py:764-848 | interactions, page switches and closes of the current page end with the snapshot they take of what is current then, or with none accepted; a switch ends on its page, a closed page is gone, a click whose popup was unwanted ends on the page it started from if that is still there |
| Snapshots.EventsSay | browser/session.py:774-813 | every page callback that runs meanwhile has its effect: pages that went stay away, pages that opened count, and no snapshot is taken |
| Snapshots.GuessedIdIsAcceptedLater | browser/session.py:2116-2125 | any id that is not spent is accepted after some run of operations: pages are opened up to its number, its page is selected, snapshots are taken up to its serial |
| Snapshots.RejectedForGoodExactlyWhen | browser/session.py:2116-2125 | an id is rejected after every run of operations iff it is rejected now and its serial is used up or its page is closed |
| Snapshots.FormatterFailureLagsBehind | browser/session.py:1176-1187 | after such a failure a page can store an id that is rejected and that selecting it without invalidating it would bring back |
| Snapshots.BrowserSession.ValidateSnapshot | browser/session.py:2116-2125 | accepted iff it is the latest snapshot of the current page with no invalidation since, with the refs that snapshot built in force |
| Snapshots.BrowserSession.InvalidateSnapshot | browser/session.py:764-772 | clears the session's and the current page's id and refs |
| Snapshots.BrowserSession.SelectPage | browser/session.py:839-848 | takes over the page's id and refs, then invalidates if asked |
| Snapshots.BrowserSession.CaptureSnapshot | browser/session.py:1162-1187 | stores refs and a new id for session and page; nothing when the query fails; when the formatter raises, refs and the session's id are new and the page's id is the old one |
| Snapshots.BrowserSession.RegisterPage | browser/session.py:774-796 | a known page is selected with invalidation if asked; a new one gets a fresh number and is selected if asked or if there is none |
| Snapshots.BrowserSession.OnPageClosed | browser/session.py:798-813 | removes the page; an heir is selected with invalidation |
| Snapshots.BrowserSession.ClickNext | browser/session.py:1455-1580 | pagination, with a popup noticed before or after the observation behind the click, leaves the session the operation prescribes and revives nothing |
| Snapshots.BrowserSession.RecoverOriginal | browser/session.py:1349-1381 | closes what popped up, then selects the original page without invalidating it and observes it, if it is still there |
| Snapshots.RecoverKeeps | browser/session.py:1349-1381 | going back revives nothing, as the original page stores nothing or what is accepted |
| Snapshots.BrowserSession.SwitchPage | browser/session.py:2016-2035 | switching pages revives nothing |
| Snapshots.BrowserSession.ClosePage | browser/session.py:2049-2078 | closing a page revives nothing |
| Snapshots.BrowserSession.CloseResources | browser/session.py:710-738 | a restart revives nothing, as the counters survive |
| Snapshots.BrowserSession.PerformAll | browser/session.py:764-848 | any run of operations and page callbacks leaves the session they prescribe, and a rejected id whose serial is used up or whose page is closed stays rejected |
| WorkerQueue.StepInv | browser/runtime.py:257-466 | every step of callers, closers and the worker keeps: each accepted item in exactly one place, items before the sentinel, exact counters while open |
| WorkerQueue.ResolvedAtMostOnce | browser/runtime.py:375-424 | under any interleaving an accepted request is in exactly one place, so answered at most once |
| WorkerQueue.LostByCrashes | browser/runtime.py:397-409 | a run loses requests iff a target raised past Exception in it |
| WorkerQueue.ResolvedWhenStopped | browser/runtime.py:354-424 | when the thread has stopped and evictions are answered, every accepted request was answered exactly once iff no target raised past Exception during the run |
| WorkerQueue.CrashLosesARequest | browser/runtime.py:397-424 | a run with such a target whose one accepted request is never answered |
| WorkerQueue.IdleMeansAnswered | browser/runtime.py:340-352 | idle reclaim can say yes only when no accepted request is unanswered |
| WorkerQueue.JobsBeforeSentinel | browser/runtime.py:331-352 | no request ever stands behind the close sentinel, and a closed worker that still runs finds one |
| WorkerQueue.BrowserWorker.Call | browser/runtime.py:257-329 | accepts iff neither closed nor failed, busy or not, and then queues the item last |
| WorkerQueue.BrowserWorker.Close | browser/runtime.py:331-338 | one sentinel on the first close only |
| WorkerQueue.BrowserWorker.CloseIfIdle | browser/runtime.py:340-352 | closes iff idle and timed out; then everything accepted is answered |
| WorkerQueue.BrowserWorker.Evict | browser/runtime.py:444-466 | takes every queued request, in order, and leaves one sentinel |
| WorkerQueue.BrowserWorker.ServeOne | browser/runtime.py:379-406 | a taken request is answered before the thread waits again, unless its target raised past Exception and the request is lost |
| WorkerQueue.BrowserWorker.Drain | browser/runtime.py:410-424 | on the way out everything queued is rejected; a stopped thread is closed with every accepted request answered, lost to a crash, or with the invalidation that evicted it |
| WorkerQueue.BrowserWorker.RunThread | browser/runtime.py:354-424 | fails to come up iff the session does; a thread that has ended never came up and is failed, or is closed with every accepted request accounted for; it loses a request iff that one's target raised past Exception, and is then failed and closed |
| WorkerQueue.BrowserWorker.Invalidate | browser/runtime.py:444-466 | only the first failure evicts; then the worker is closed and everything evicted has been rejected; a later one changes nothing |
| DeferredRelease.StepInv | hermes/cli_state_machine.py:1021-1069 | every controller event and worker step keeps deque, set, flags, the outstanding task and the ledger consistent |
| DeferredRelease.DequeMatchesSet | hermes/cli_state_machine.py:1021-1069 | the deque lists each member of the set once, never the current session, nothing after shutdown began |
| DeferredRelease.SingleFlight | hermes/cli_state_machine.py:379-406 | never two worker tasks, counting results not yet read; both busy flags say exactly that |
| DeferredRelease.EachDeferralSettledOnce | hermes/cli_state_machine.py:1495-1583 | a deferral is open exactly while its session is queued or in flight, never both; every other one was settled once: released, become current, or dropped at shutdown |
| DeferredRelease.ReleasedExactlyWhenCompleted | hermes/cli_state_machine.py:1495-1583 | over all runs a session counts as released once for every cleanup of it that the worker completed and whose answer was read, and never otherwise |
| DeferredRelease.CleanupAnswerDecides | hermes/cli_state_machine.py:1495-1583 | whatever happens until the answer is read: a completed cleanup releases the deferred session for good, any other puts it back at the tail, or drops it if shutdown began |
| DeferredRelease.ResumeAnswerDecides | hermes/cli_state_machine.py:1585-1604 | a failed resume changes nothing; any other makes the target current, and the session left waits at the tail iff it could not be released and shutdown has not begun |
| DeferredRelease.TurnAnswerDecides | hermes/cli_state_machine.py:1585-1604 | the answer to any other task makes its session current, else one it created, and takes that one alone out of the deque |
| DeferredRelease.TickTakesTheFirst | hermes/cli_state_machine.py:1441-1493 | a tick that gets to the deque hands its first session to the worker, and back to the tail if the worker takes no more; with an empty deque it only looks after an idle current session |
| DeferredRelease.UserTaskIsTaken | hermes/cli_state_machine.py:1420-1439 | a task of the user goes to the worker iff nothing is outstanding, shutdown has not begun and the worker takes tasks |
| DeferredRelease.StoppedTakesNothing | hermes/cli_state_machine.py:379-415 | a worker told to stop is given no task any more, whatever happens |
| DeferredRelease.NoGiveUpArrives | hermes/cli_state_machine.py:648-674 | a maintenance result that would forget an unreleased session never reaches the controller |
| DeferredRelease.FairRetry | hermes/cli_state_machine.py:1047-1063 | a waiting session moves up with every maintenance take, so waits no more of them than its position |
| DeferredRelease.CLIWorker.Submit | hermes/cli_state_machine.py:379-386 | accepts iff accepting and not busy |
| DeferredRelease.CLIWorker.DrainResults | hermes/cli_state_machine.py:393-406 | hands over all results in order and frees the worker iff there was one |
| DeferredRelease.CLIWorker.RunOne | hermes/cli_state_machine.py:417-449 | every task yields exactly one result, with a retry for the deferred session when the task raised |
| DeferredRelease.CLIController.ForgetDeferredSession | hermes/cli_state_machine.py:1035-1045 | removes every occurrence from deque and set; says whether there was one |
| DeferredRelease.CLIController.DeferSessionRelease | hermes/cli_state_machine.py:1021-1033 | adds at the tail iff neither current nor a member |
| DeferredRelease.CLIController.TakeNextDeferredSession | hermes/cli_state_machine.py:1047-1058 | takes the first entry that is a member and not current |
| DeferredRelease.CLIController.SubmitTask | hermes/cli_state_machine.py:1420-1439 | submits iff idle, not shutting down and the worker accepts |
| DeferredRelease.CLIController.HandleMaintenanceTick | hermes/cli_state_machine.py:1441-1493 | takes at most one deferred session and puts it back at the tail when the worker refuses |
| DeferredRelease.CLIController.ApplySessionReleaseResult | hermes/cli_state_machine.py:1495-1583 | outside shutdown and for a session that is not current: a retry leaves it queued, at the tail unless it already waited, and a completed release leaves it in neither deque nor set; otherwise it is in neither; no other session is touched |
| DeferredRelease.CLIController.HandleWorkerResults | hermes/cli_state_machine.py:1585-1604 | applies every result in order and frees controller and worker |
| DeferredRelease.CLIController.ResetCurrentSession | hermes/cli_state_machine.py:1209-1248 | gives up the current session and its entry |
| DeferredRelease.CLIController.ShutDown | hermes/cli_state_machine.py:1752-1762 | drops every queued session once |
| DelegateJobs.SectionInv | hermes/delegate_jobs.py:168-393 | every lock section keeps the table consistent and the active jobs within the limit |
| DelegateJobs.SectionKeeps | hermes/delegate_jobs.py:168-393 | jobs move only queued, running, terminal; after shutdown no thread starts; a submission is decided by its own thread only |
| DelegateJobs.CapacityHolds | hermes/delegate_jobs.py:187-222 | in every reachable state active jobs are at most max_jobs, a rolled-back job never had a thread nor ran, a started job has begun iff it is no longer queued |
| DelegateJobs.DelegateJobManager.ReserveJob | hermes/delegate_jobs.py:187-222 | reserves iff accepting and below the limit |
| DelegateJobs.DelegateJobManager.LaunchJob | hermes/delegate_jobs.py:243-264 | starts the thread iff still accepting, else rolls back |
| DelegateJobs.DelegateJobManager.Submit | hermes/delegate_jobs.py:168-272 | submitted means listed and started; otherwise nothing is left that could ever run, and nothing is submitted after shutdown; it fails only when preparing or starting does |
| DelegateJobs.DelegateJobManager.CancelJob | hermes/delegate_jobs.py:293-319 | marks exactly an active listed job, and changes nothing else |
| DelegateJobs.DelegateJobManager.Work | hermes/delegate_jobs.py:359-393 | a started job ends in the status its runner leads to iff that raises nothing past Exception; otherwise it stays running; its thread is gone either way |
| DelegateJobs.OrphanKeepsItsPlace | hermes/delegate_jobs.py:187-222 | a job that stays running with its thread gone counts as active after every further run |
| DelegateJobs.DelegateJobManager.StopAcceptingJobs | hermes/delegate_jobs.py:331-343 | every active listed job is marked for cancelling; captures exactly the started threads other than the caller's |
| DelegateJobs.DelegateJobManager.Shutdown | hermes/delegate_jobs.py:321-355 | looks at exactly the workers started before it stopped acceptance, other than the caller's, returns exactly those alive when looked at; nothing starts afterwards and whoever is not returned is dead |

## Left out

- ProcessThreads.ProcessRecord.ReaderLoop: the source loops until it returns; here `rounds` bounds how long the thread is watched, so nothing is said about it ending.
- ProcessThreads.ProcessRecord.FailedStartRecoveryLoop: bounded by `rounds` in the same way.
- StreamDelivery.StreamExecution.Consume: the polling loop is watched for `rounds` turns and then reported as still waiting; progress is not claimed.
- StreamDelivery.StreamExecution.WorkerThread: a put that never finds room is watched for `retries` turns; the result then says nothing about the end.
- WorkerQueue.BrowserWorker.RunThread: the blocking queue is watched for `rounds` turns, so nothing is said about the thread ending.
- WorkerQueue.BrowserWorker.Call: the caller's wait for its answer; a timed-out wait is an invalidation at any point.
- ConversationLoop.ConversationAgentLoop.Run: when something was compressed, the sent messages are not related to the transcript, because compression may return anything.
- ConversationLoop.ConversationAgentLoop.HandleModelError: the backoff sleep and its jitter.
- AgentTools.ToolRunner.ProcessToolCalls: observations, durations and the counters of iterations, batches and calls.
- Fragments.StreamAccumulator.AddChunk: values that are not strings, which the source converts to text.
- StreamRenderer.CallModelStream: event sinks that raise, whose events the source drops; every event is delivered here.
- The handle lock of a process record: its sections are single handle operations, so leaving it out only allows more interleavings.
- Process limits, metadata validation, standard input, snapshots and waiting callers.
- Counters of failed log reads and cleanups, which nothing else reads.
- The reader thread object: a second start of it cannot be expressed.
- JSON parsing of tool outputs and placeholders: what a text parses to is an input beside it; only that guidance spoils an object is proved.
- ResumeHistory.RunAndApprove: call ids that repeat in a transcript, which the model may send; the validation itself is exact for them.
- Case folding and white space outside ASCII.
- Shared dictionaries: messages and ref tables are values, so an alias that is changed later is not seen; the one intended alias, the last tool message, is updated in both lists explicitly.
- The identity map from page objects to page ids, and which page takes over when the current one closes: any may.
- The printed text of snapshot lines beyond depth, node and ref: names, values, states, quoting.
- A cancelled history move in the browser and the history index.
- Page extraction, artifacts, downloads and the browser itself.
- Blank session ids and the user's message queue of the terminal controller, which may exceed its limit.
- The asynchronous agent loop, which repeats the same policy with awaits.
- Hook payloads and continuation requests of coding agents; hooks may block a call or add context.
- `run_interruptible_call`: the same protocol without chunks.
- Regex redaction, approval grants and configuration validation.
