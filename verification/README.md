# A verified model of msquic-h3

`msquic-h3` turns QUIC callbacks, which the native library runs on its worker
threads, into the poll-based transport that h3 expects. Callbacks and frontends
share a few small cells: terminal-cause slots, ordered event channels, a receive
budget, a rundown counter with a waker table, and ownership tokens. This project
models those cells and everything that races on them, and proves what the adapter
promises in every interleaving.

## How it is built

Each component is a state machine whose steps are the source's atomic actions: one
locked section, one atomic operation, one channel push or pop, or one native
downcall. A run is a sequence of labels; `After` gives the state it leads to, if
every step was enabled. Enabledness states the native contract and what a caller
must do; everything else is unrestricted. The main theorems speak about every state
that some run reaches.

Code that changes fields step by step is also given as classes with those fields.
Their methods are the source's functions and loops; between any two atomic actions
an `Interfere` method lets the other threads take any number of steps, and each
method is proved to follow a run of the state machine, so the theorems hold of it.

| component | files |
|---|---|
| terminal-cause slots | `Options.dfy`, `Terminals.dfy` |
| send half | `SendReducer.dfy`, `SendProtocol.dfy`, `SendInvariant.dfy`, `SendSteps.dfy`, `SendNotes.dfy`, `SendTheorems.dfy`, `SendRuns.dfy`, `SendFrontends.dfy` |
| one connection, all frontends | `Agreement.dfy`, `OpenAndAccept.dfy` |
| receive half | `ReceiveBudget.dfy`, `ReceiveProtocol.dfy`, `ReceiveTheorems.dfy`, `ReceiveFrontends.dfy` |
| registration rundown | `Rundown.dfy`, `RundownTheorems.dfy`, `RundownFrontends.dfy` |
| handle ownership under panics | `Ownership.dfy`, `OwnershipTheorems.dfy`, `CallbackGuard.dfy` |

`dafny verify dfyconfig.toml` checks everything.

## What was found to be false

Five expectations do not hold of the code as written. Each is kept as it is, with a
run that shows it and the exact condition under which it does hold.

* A caller that sends again without waiting for `poll_ready` can be handed the
  provisional abort marker (`SendRuns.UndisciplinedCallerSeesMarker`). A `poll_ready`
  hands it out only if it was called with a finish started, the marker in the slot and
  no connection cause (`SendTheorems.MarkerHandedOutOnlyIf`), and from every such state
  it can (`SendTheorems.MarkerHandedOutIf`). A caller that sends only on a fresh stream
  or after `poll_ready` returned Ok never sees it (`SendTheorems.MarkerStaysHidden`).
* Such a caller can also be told that a stream finished although an earlier send was
  cancelled (`SendRuns.UndisciplinedFinishHidesCancellation`). For any caller, a stream
  reported finished had a cancelled send exactly when FIN was decided by a poll that
  read the marker (`SendTheorems.FinishedOverCancellationIff`).
* A paused receive stream is not always re-armed: once the reader calls
  `stop_sending`, `poll_event` answers before it pops, so the outstanding pause is
  never completed, in any run (`ReceiveTheorems.StoppedPauseIsForever`,
  `ReceiveTheorems.StoppedPauseIsReached`). A live reader can re-arm a paused stream
  exactly when it has not called it (`ReceiveTheorems.RearmableIff`), and then every run
  that drains what is left does (`ReceiveTheorems.DrainingRearms`).
* The rundown unit of an accepted connection does not always outlive its handle, although
  docs/registration-lifecycle.md:66-68 promises Close before the decrement on the error
  path. When `set_configuration` fails, the guard is dropped with the closure that was not
  called, and only then does the error reach the native side, which closes the handle
  (`OwnershipTheorems.RefusalReleasesEarly`). The unit comes back early exactly when the
  configuration was refused, a panic struck between reservation and take, or one struck
  inside `Connection::attach` before handle and guard are wrapped in one struct: until
  then they are two parameters that unwinding drops in reverse order
  (`OwnershipTheorems.UnitComesBackEarlyIff`, `OwnershipTheorems.AttachPanicReleasesEarly`).
* Hence `wait_idle` can resolve while a native handle is open, with no panic anywhere
  (`RundownTheorems.IdleWithRefusedHandle`). The handles open at that moment are exactly
  those not closed yet whose guard was dropped early, or for which no callback had
  reserved a unit (`RundownTheorems.OpenWhenIdleIff`). If closing a listener waits for its
  callbacks, which is the native library's business, the listener's own unit covers what
  happens inside them, and only handles that a callback left to the native side remain
  (`RundownTheorems.WaitingCloseHidesCallbacks`).

Not every internal fault of the send half is dead. `SendInvariant.LiveFault` lists the
six that remain; `SendRuns.EveryLiveFaultIsTold` gives a run for each, and
`SendTheorems.FaultArmsAreDead` shows all others unreachable.

## Model

| member | source | states |
|---|---|---|
| `Terminals.WinnerIsFirstSpecific` | msquic-h3/src/terminal.rs:53-71 | the recording rule keeps the first specific cause, or LocalClose when only provisional ones were recorded |
| `Terminals.OperationsLead` | msquic-h3/src/terminal.rs:53-131 | record, observe and commit never lose or replace a specific or observed cause, and never freeze an empty slot |
| `Terminals.Publish` | msquic-h3/src/terminal.rs:165-185 | an authoritative cause stays; an authoritative candidate leaves an authoritative cause |
| `Terminals.SlotKeepsFirstAuthoritative` | msquic-h3/src/terminal.rs:165-185 | whatever order publishers come in, the slot ends with the first authoritative candidate, else the marker |
| `Terminals.ConnTerminalState.RecordCause` | msquic-h3/src/terminal.rs:53-71 | first writer wins, one provisional value may be refined, a frozen slot is untouched |
| `Terminals.ConnTerminalState.ObserveCause` | msquic-h3/src/terminal.rs:73-79 | freezes and returns what is there |
| `Terminals.ConnTerminalState.CommitCause` | msquic-h3/src/terminal.rs:124-131 | freezes only when a cause is delivered, otherwise changes nothing |
| `Terminals.ConnTerminalState.FailFast` | msquic-h3/src/connection.rs:618-624 | delivers and freezes exactly internal causes |
| `Terminals.SendTerminalCell.PublishSend` | msquic-h3/src/terminal.rs:165-185 | returns the winner that the cell then holds |
| `SendReducer.SendState.Apply` | msquic-h3/src/error.rs:525-876 | the six-flag update and the command are those of the pure transition relation, for all eight inputs |
| `SendReducer.SendState.ApplySubmitted` | msquic-h3/src/error.rs:534-599 | the three submission results |
| `SendReducer.SendState.ApplyPollReady` | msquic-h3/src/error.rs:671-760 | the ready poll |
| `SendReducer.SendState.ApplyPollFinish` | msquic-h3/src/error.rs:764-874 | the finish poll |
| `SendSteps.StepKeeps` | msquic-h3/src/stream.rs:783-966 | every step of caller, callback, connection and native side keeps the whole send invariant |
| `SendSteps.ReachableInv` | msquic-h3/src/stream.rs:783-1470 | the invariant holds in every reachable state |
| `SendSteps.OthersKeepFront` | msquic-h3/src/stream.rs:915-961 | nothing the callback or the connection does invalidates what a running frontend relies on |
| `SendTheorems.FaultArmsAreDead` | msquic-h3/src/error.rs:534-599 | no submission result without its reservation, no poll or reset during one, no completion without a send, no wake without a cause, no catch-all |
| `SendTheorems.AutomatonAcceptsLegal` | msquic-h3/src/error.rs:625-668 | the sending-state automaton of section 3.1 of RFC 9000 accepts only `send* (graceful reset?)?` and `send* reset` |
| `SendTheorems.VerbOrder` | msquic-h3/src/stream.rs:1245-1388 | whatever is issued on the native stream in a run is such a sequence with at most one abort of a recovered callback somewhere in it, there exactly once the callback recovers; no frontend verb follows a failed one or a reset, at most one send is outstanding |
| `SendTheorems.FinishedMeansDelivered` | msquic-h3/src/error.rs:764-874 | for a disciplined caller a finished stream had every accepted send complete uncancelled, exactly one FIN, reported graceful |
| `SendTheorems.FinishedOverCancellationIff` | msquic-h3/src/error.rs:764-874 | for any caller, a stream reported finished had a cancelled send exactly when FIN was decided by a poll that read the provisional marker |
| `SendTheorems.FinIgnoresCancellationIff` | msquic-h3/src/error.rs:814-866 | at the decision for FIN a send had been cancelled exactly when the slot just read holds the marker, and that is what is noted |
| `SendTheorems.NothingIsCancelledAfterFin` | msquic-h3/src/error.rs:814-866 | once FIN was decided no further send can be cancelled |
| `SendTheorems.OneGraceful` | msquic-h3/src/error.rs:814-866 | no accepted verb sequence holds two graceful shutdowns |
| `SendTheorems.FinNeedsNoOutstandingSend` | msquic-h3/src/error.rs:814-866 | FIN is submitted only with no send buffer outstanding and no completion unread |
| `SendTheorems.CauseIsFinal` | msquic-h3/src/terminal.rs:165-185 | no step of anyone replaces an authoritative send cause |
| `SendTheorems.SettledCallReportsCause` | msquic-h3/src/error.rs:601-650 | a call that starts after a cause was recorded issues no verb and reports that cause, or a finish that completed |
| `SendTheorems.MarkerStaysHidden` | msquic-h3/src/error.rs:714-757 | a disciplined caller never gets the marker, and a retained marker excludes a send and a finish in progress |
| `SendTheorems.MarkerHandedOutOnlyIf` | msquic-h3/src/stream.rs:1175-1184 | whoever got the marker made an undisciplined `poll_ready` with a finish started, the marker in the slot and no connection cause |
| `SendTheorems.MarkerHandedOutIf` | msquic-h3/src/stream.rs:1175-1184 | from every such state the call's own steps end in handing it out |
| `SendTheorems.FailureMasksNothing` | msquic-h3/src/error.rs:542-556 | a native failure is delivered only if neither slot held a cause when it was seen |
| `SendTheorems.BuffersAreConserved` | msquic-h3/src/stream.rs:105-130 | every buffer has exactly one fate; without a contained panic all are freed once the native side completed every accepted send |
| `SendTheorems.FrontSpends` | msquic-h3/src/stream.rs:1190-1224 | every frontend action lowers a bound over the in-progress and finish flags |
| `SendTheorems.CallsTerminate` | msquic-h3/src/stream.rs:1300-1342 | no other thread's step raises that bound, so every call ends |
| `SendTheorems.CallsAreShort` | msquic-h3/src/stream.rs:1364-1388 | a call takes at most six reducer steps |
| `SendTheorems.ParkedIsWoken` | msquic-h3/src/error.rs:748-758 | Pending rests on a pending channel read; until woken the waker is armed on an empty open channel; with a recorded cause it was woken or the publishing callback has still to signal |
| `SendTheorems.SignalWakes` | msquic-h3/src/stream.rs:915-931 | that signal wakes an armed poll |
| `SendTheorems.PoisonedHasCause` | msquic-h3/src/stream.rs:997-1030 | a stream whose callback recovered has a cause in its slot |
| `SendTheorems.OneVerbAfterCause` | msquic-h3/src/error.rs:601-650 | from any state with a cause in the slot, every run issues at most one further verb, the one a call still running had decided on; between calls none |
| `SendTheorems.VerbsOfStep` | msquic-h3/src/stream.rs:1245-1388 | no call issues two native verbs |
| `SendNotes.PendingNeedsPendingRead` | msquic-h3/src/error.rs:671-874 | the reducer answers Pending only to a poll that read a pending channel |
| `SendNotes.FinIsDecidedOnce` | msquic-h3/src/error.rs:525-876 | finishing begins only with a graceful submission, and never twice |
| `SendNotes.ReachableNotes` | msquic-h3/src/stream.rs:783-1470 | reads, FIN decisions, guard reads, aborts and the one verb per call are noted right in every reachable state |
| `SendTheorems.ClosedNeverParks` | msquic-h3/src/error.rs:857-866 | a call that starts after the channel closed does not return Pending |
| `SendTheorems.ShutdownCloses` | msquic-h3/src/stream.rs:932-966 | shutdown and recover close the channel |
| `SendTheorems.ClosedStaysClosed` | msquic-h3/src/stream.rs:997-1030 | and it stays closed |
| `SendRuns.UndisciplinedCallerSeesMarker` | msquic-h3/src/stream.rs:1175-1184 | a run in which an undisciplined caller is handed the marker |
| `SendRuns.UndisciplinedFinishHidesCancellation` | msquic-h3/src/error.rs:814-866 | a run in which an undisciplined caller is told Ok over a cancelled send |
| `SendRuns.EveryLiveFaultIsTold` | msquic-h3/src/error.rs:671-874 | each fault not shown dead is returned in some run |
| `SendFrontends.H3SendStream.PollReady` | msquic-h3/src/stream.rs:1165-1225 | the loop follows the protocol, ends, leaves no reservation and never takes the catch-all |
| `SendFrontends.H3SendStream.FinishGuard` | msquic-h3/src/stream.rs:1175-1184 | the non-consuming guard follows the protocol |
| `SendFrontends.H3SendStream.SendDataBytes` | msquic-h3/src/stream.rs:1231-1284 | as above, for `send_data` |
| `SendFrontends.H3SendStream.PollFinish` | msquic-h3/src/stream.rs:1291-1343 | as above, for `poll_finish` |
| `SendFrontends.H3SendStream.ResetStream` | msquic-h3/src/stream.rs:1349-1389 | as above, for `reset` with its clamped code |
| `SendFrontends.H3SendStream.PollSendChannel` | msquic-h3/src/stream.rs:1404-1411 | one event, closed, or pending with the waker armed |
| `SendFrontends.H3SendStream.ResolveTerminal` | msquic-h3/src/stream.rs:1437-1449 | the winner of both slots as read one after the other, freezing neither |
| `SendFrontends.H3SendStream.CommitSendWinner` | msquic-h3/src/stream.rs:1460-1467 | a connection cause is frozen as it is delivered |
| `SendFrontends.H3SendStream.SubmitOwnedSend` | msquic-h3/src/stream.rs:105-130 | an accepted buffer becomes outstanding, a refused one is freed on the spot |
| `SendFrontends.CallEnds` | msquic-h3/src/stream.rs:1190-1388 | a finished call leaves a reachable state with all reservations clear |
| `Agreement.AllFrontendsAgree` | msquic-h3/src/terminal.rs:53-131 | all connection causes handed out by accept, open, receive and send are one value: the first specific cause recorded before the first delivery, or LocalClose |
| `Agreement.FallbacksAreDead` | msquic-h3/src/stream.rs:1523-1531 | the slot is never frozen empty, and where a connection marker is in flight the slot holds a cause |
| `Agreement.EveryStreamFollowsProtocol` | msquic-h3/src/stream.rs:951-961 | both halves of every stream of a connection stay in reachable states of the send and the receive protocol, whatever its siblings and the connection callback do |
| `Agreement.ClosedAcceptHasCause` | msquic-h3/src/connection.rs:186-230 | whenever an accept sender is gone, a cause is in the shared slot |
| `Agreement.MoveKeeps` | msquic-h3/src/stream.rs:1437-1467 | every move of any party keeps slot, log, streams, connection callback and accept queues in agreement, and the slot only moves forward |
| `Agreement.StreamRidesAlong` | msquic-h3/src/terminal.rs:53-131 | both halves of a stream stay reachable when somebody else moves the shared slot |
| `Agreement.JointStep` | msquic-h3/src/stream.rs:932-1030 | a shutdown or a recovery runs on both halves in step: the receive half's part is always possible and records the same cause |
| `Agreement.SiteOnSlot` | msquic-h3/src/connection.rs:284-383 | the connection callback moves the shared slot exactly by recording the causes it records |
| `Agreement.FrontOnSlot` | msquic-h3/src/stream.rs:1460-1467 | a frontend's action touches the shared slot only to freeze the cause it delivers |
| `OpenAndAccept.Frontends.PollOpen` | msquic-h3/src/opener.rs:125-184 | a connection cause is the shared frozen one; a native failure is reported only if the slot was empty after it; an opening stream is kept exactly while pending; at most one native open |
| `OpenAndAccept.Frontends.AwaitStart` | msquic-h3/src/opener.rs:158-184 | the start one-shot and the 62-bit identity check |
| `OpenAndAccept.Frontends.FailedOpen` | msquic-h3/src/opener.rs:193-229 | a cause recorded meanwhile is preferred |
| `OpenAndAccept.Frontends.PollAccept` | msquic-h3/src/connection.rs:668-703 | an internal cause overtakes queued streams; any other is told only once the queue is empty and its sender gone; streams leave in order and were delivered by the callback; the answer without a reason is never given |
| `OpenAndAccept.Frontends.ReadQueue` | msquic-h3/src/connection.rs:679-684 | a delivered stream, pending with the sender in place, or the frozen shared cause |
| `OpenAndAccept.Frontends.PopStream` | msquic-h3/src/connection.rs:679-702 | the first delivered stream of that direction leaves its queue |
| `OpenAndAccept.Frontends.AskCause` | msquic-h3/src/connection.rs:636-643 | delivered, frozen and logged, or nothing happened |
| `OpenAndAccept.Frontends.Close` | msquic-h3/src/opener.rs:98-106 | a cause is recorded before the shutdown, with a 62-bit code |
| `ReceiveBudget.PendStaysExact` | msquic-h3/src/stream.rs:349-425 | a pause is outstanding exactly while a budget is used up, across admit, rollback and drain |
| `ReceiveBudget.RecvBudget.AdmitIndication` | msquic-h3/src/stream.rs:349-390 | one locked transition, rolled back whole when publishing fails |
| `ReceiveBudget.RecvBudget.OnDrained` | msquic-h3/src/stream.rs:397-425 | accounts one chunk and hands back a freed pause's full length |
| `ReceiveBudget.CopyIndication` | msquic-h3/src/stream.rs:834-868 | the whole indication is copied in order and its length is the sum |
| `ReceiveProtocol.StepKeeps` | msquic-h3/src/stream.rs:834-966 | every step of callback, reader and native side keeps the receive invariant |
| `ReceiveProtocol.RunKeeps` | msquic-h3/src/stream.rs:834-966 | it holds after every run, for all non-zero caps |
| `ReceiveTheorems.AccountingIsExact` | msquic-h3/src/stream.rs:349-425 | counters are queued bytes and events plus the popped chunk, no subtraction saturates, and the pause is exact |
| `ReceiveTheorems.MemoryIsBounded` | msquic-h3/src/stream.rs:349-425 | when PENDING is honoured, fewer bytes than the cap plus one indication and at most the unit cap, peaks included |
| `ReceiveTheorems.OneRearmPerPause` | msquic-h3/src/stream.rs:1567-1584 | completions are, in order, the full lengths of the paused indications, one behind exactly while a pause is outstanding or being completed |
| `ReceiveTheorems.BytesInOrder` | msquic-h3/src/stream.rs:1505-1584 | bytes handed out are a prefix of the bytes accepted, at most one terminal and it is last, clean end only after every byte |
| `ReceiveTheorems.StoredIsFinal` | msquic-h3/src/stream.rs:1551-1560 | a stored terminal stays and no byte follows it |
| `ReceiveTheorems.ToldCauseIsShared` | msquic-h3/src/stream.rs:1523-1531 | a connection cause told by a poll is the shared one, frozen; the carried fallback is never needed |
| `ReceiveTheorems.PausedHasData` | msquic-h3/src/stream.rs:397-425 | a paused stream has data left to drain |
| `ReceiveTheorems.PausedPollPops` | msquic-h3/src/stream.rs:1505-1550 | a poll of a paused stream pops data exactly when the reader has not called `stop_sending` |
| `ReceiveTheorems.AccountingDrains` | msquic-h3/src/stream.rs:1567-1584 | accounting for the last chunk re-arms |
| `ReceiveTheorems.DrainingRearms` | msquic-h3/src/stream.rs:1567-1584 | from every paused state without `stop_sending`, every PENDING-honouring run that accounts for what is left to drain re-arms the stream with the paused indication's full length |
| `ReceiveTheorems.StoppedPauseIsForever` | msquic-h3/src/stream.rs:1505-1517 | after `stop_sending` no run ever completes an outstanding pause |
| `ReceiveTheorems.StoppedPauseIsReached` | msquic-h3/src/stream.rs:1591-1602 | such a state is reached with any budget |
| `ReceiveTheorems.RearmableIff` | msquic-h3/src/stream.rs:1505-1584 | a live reader of a paused stream can have it re-armed exactly when it has not called `stop_sending` |
| `ReceiveTheorems.ShutdownCloses` | msquic-h3/src/stream.rs:932-966 | shutdown and recover close the receive channel and resolve the start one-shot |
| `ReceiveTheorems.ClosedNeverPends` | msquic-h3/src/stream.rs:997-1030 | after that no data or start poll is pending again |
| `ReceiveTheorems.UnitsInRuns` | docs/receive-and-send.md:40-47 | with indications of at least F bytes the units stay within the byte budget divided by F |
| `ReceiveTheorems.UnitCapNeverBinds` | docs/receive-and-send.md:40-47 | if that quotient is below the unit cap, the unit cap never binds |
| `ReceiveTheorems.DefaultsBindOnBytes` | docs/receive-and-send.md:40-47 | the 1 MiB / 16384 defaults satisfy it for F = 128, with at most 8192 units |
| `ReceiveFrontends.H3RecvStream.PollData` | msquic-h3/src/stream.rs:1567-1584 | exactly one pop, then accounting, then at most one completion; the answer is what was handed out |
| `ReceiveFrontends.H3RecvStream.PollEvent` | msquic-h3/src/stream.rs:1505-1550 | local end, sticky terminal, then the channel |
| `ReceiveFrontends.H3RecvStream.NextEvent` | msquic-h3/src/stream.rs:1521-1549 | data is popped; a connection marker freezes the shared cell and stores its cause; other terminals are stored as they are |
| `ReceiveFrontends.H3RecvStream.ShutdownCallback` | msquic-h3/src/stream.rs:932-966 | a connection cause is classified and recorded before it is marked, then sender and start one-shot go |
| `ReceiveFrontends.H3RecvStream.ReceiveCallback` | msquic-h3/src/stream.rs:834-905 | admits the indication, then a FIN; answers PENDING exactly when a pause was recorded |
| `ReceiveFrontends.H3RecvStream.AdmitBuffers` | msquic-h3/src/stream.rs:869-904 | copy, charge and publish under the budget lock |
| `ReceiveFrontends.H3RecvStream.PublishReceiveTerminal` | msquic-h3/src/stream.rs:1038-1047 | the first terminal wins and takes the sender with it |
| `ReceiveFrontends.SideFrame` | msquic-h3/src/stream.rs:783-966 | reader and callback never write each other's fields, and the rest of the connection neither's |
| `Rundown.StepKeeps` | msquic-h3/src/registration.rs:46-187 | every step of any guard or waiter keeps count, table and wake invariants |
| `Rundown.GuardFrame` | msquic-h3/src/registration.rs:52-70 | a guard's step disturbs no other guard's drain or batch |
| `RundownTheorems.NoLostWakeup` | msquic-h3/src/registration.rs:139-187 | a parked, unwoken waiter has its current waker in the table while the count is up or a drain is due, or in a batch being woken |
| `RundownTheorems.NobodySleepsOn` | msquic-h3/src/registration.rs:52-70 | when no guard has a step left, every parked waiter was woken |
| `RundownTheorems.DropsRunOut` | msquic-h3/src/registration.rs:52-70 | the guards' own steps are bounded, in any order |
| `RundownTheorems.IdleIffAllReleased` | msquic-h3/src/registration.rs:150-181 | a poll finds idle exactly when no guard holds a unit |
| `RundownTheorems.OpenWhenIdleIff` | msquic-h3/src/listener.rs:202-249 | a handle is open when a poll finds idle exactly if it is not closed yet and its guard was dropped while the handle was borrowed or a separate value, or no unit was reserved for it |
| `RundownTheorems.IdleWithRefusedHandle` | msquic-h3/src/listener.rs:170-184 | a run without a panic, and with a Close that waits, in which a refused connection's handle is |
| `RundownTheorems.IdleWithOpenHandle` | msquic-h3/src/connection.rs:535-560 | a run in which unwinding out of attach leaves one open |
| `RundownTheorems.WaitingCloseHidesCallbacks` | msquic-h3/src/listener.rs:309-325 | if no Close returns before the callbacks of what it closes, every callback is over when a poll finds idle, and the open handles are exactly those left to the native side and not closed yet |
| `RundownTheorems.CountNeverUnderflows` | msquic-h3/src/registration.rs:46-57 | a release always finds a positive count |
| `RundownTheorems.TableHoldsOnlyLiveWaiters` | msquic-h3/src/registration.rs:139-145 | each entry belongs to exactly one waiter, which is neither finished nor dropped |
| `RundownFrontends.RundownState.NewGuard` | msquic-h3/src/registration.rs:46-49 | a guard takes its unit at once |
| `RundownFrontends.RundownState.NewGuardFor` | msquic-h3/src/listener.rs:207-209 | a listener callback reserves the unit of a connection whose handle is already open |
| `RundownFrontends.RundownState.DropGuard` | msquic-h3/src/registration.rs:52-70 | gives the unit back and, on reaching zero, drains and wakes everyone |
| `RundownFrontends.RundownState.WakeAll` | msquic-h3/src/registration.rs:61-67 | the wake loop, in any order, outside the lock |
| `RundownFrontends.RundownState.Poll` | msquic-h3/src/registration.rs:150-181 | load, register, load again, deregister: exactly those operations, parked or ready |
| `RundownFrontends.RundownState.RegisterOrRefresh` | msquic-h3/src/registration.rs:157-171 | a kept key is refreshed, a new one is taken from the counter |
| `RundownFrontends.RundownState.RemoveOwnKey` | msquic-h3/src/registration.rs:139-145 | removes the waiter's entry and key |
| `Ownership.StepKeeps` | msquic-h3/src/callback.rs:113-129 | every step of any invocation keeps the ownership invariant |
| `OwnershipTheorems.RejectsIffNeverTaken` | msquic-h3/src/connection.rs:419-450 | a handed-over handle is answered with an error exactly when the adapter never took it |
| `OwnershipTheorems.NeverClosedTwice` | msquic-h3/src/listener.rs:202-249 | no handle is closed twice or by both sides |
| `OwnershipTheorems.ClosedExactlyOnce` | msquic-h3/src/listener.rs:109-135 | when nothing is left to happen it was closed exactly once, by the side the answer names, and its rundown unit is back |
| `OwnershipTheorems.InvocationsEnd` | msquic-h3/src/callback.rs:113-129 | each invocation and its handle take a bounded number of steps |
| `OwnershipTheorems.PoisonLeavesNobodyWaiting` | msquic-h3/src/connection.rs:419-450 | a poisoned connection has resolved connect, both accepts and shutdown, recorded a cause and was forced down; a poisoned listener has resolved shutdown and queued one end marker, which ends one accept: its accept sender stays, so an accept made after the marker was read waits |
| `OwnershipTheorems.WokenAcceptorsFindACause` | msquic-h3/src/connection.rs:204-232 | between any two single actions of refusals, teardown and recover, a missing accept sender means a recorded cause |
| `OwnershipTheorems.PoisonRefusesHandles` | msquic-h3/src/connection.rs:396-401 | poison is permanent and later handles are rejected untouched |
| `OwnershipTheorems.UnitComesBackEarlyIff` | msquic-h3/src/listener.rs:202-249 | for every reserved unit: it comes back before Close exactly when the configuration was refused, a panic struck before the handle was taken, or one struck inside attach before handle and guard were wrapped |
| `OwnershipTheorems.RefusalReleasesEarly` | msquic-h3/src/listener.rs:170-184 | a run without a panic in which it does |
| `OwnershipTheorems.AttachPanicReleasesEarly` | msquic-h3/src/connection.rs:535-568 | a run with a panic inside attach in which it does |
| `CallbackGuard.CallbackSite.GuardCallback` | msquic-h3/src/callback.rs:113-129 | always answers, with an error for a handed-over handle exactly when it was never taken |
| `CallbackGuard.CallbackSite.ValidateTakeDeliver` | msquic-h3/src/connection.rs:316-359 | validate while borrowed, then take, attach, deliver or discard, with a panic before any step |
| `CallbackGuard.CallbackSite.NewConnection` | msquic-h3/src/listener.rs:202-249 | as above, after reserving the rundown unit |
| `CallbackGuard.CallbackSite.AskNative` | msquic-h3/src/connection.rs:204-232 | a failed or out-of-range stream id refuses the handle and leaves its own fault to be recorded before the acceptors are woken |
| `CallbackGuard.CallbackSite.TakeActions` | msquic-h3/src/connection.rs:204-232 | record and sender takes one by one, others and panics in between |
| `CallbackGuard.CallbackSite.OtherEvent` | msquic-h3/src/connection.rs:285-380 | the other events' actions in source order, with a panic possible before each |
| `CallbackGuard.CallbackSite.UnwindAndRecover` | msquic-h3/src/connection.rs:419-450 | a caught panic drops what the frames own; recover forces the connection down, records and wakes one by one, poisons last and answers by the token |

## Left out

- `stream.rs` and `error.rs` conversion tables into h3 error types, `Display` texts and error structs: one-branch mappings; internal-fault messages are an enumeration here.
- `config.rs` and `buffer.rs`: validation and length classification; caps are taken as non-zero, and a payload arrives classified as empty, too large or sendable.
- The native library, TLS, sockets and configurations: only their contract appears, as enabledness of steps. Each accepted buffer is completed at most once, a graceful finish is reported only after an accepted FIN, callbacks of one stream are serial, and the caller serialises calls on one half. A native side that ignores PENDING is allowed, and the bounds then say so.
- Raw pointers and boxed buffers: a buffer is a token with one owner. A SendComplete with a null context publishes its internal fault and reclaims nothing.
- Memory orderings and fences: all steps are sequentially consistent. Integer wrap-around of the rundown count, of waker keys and of the byte counters is not modelled.
- Wakers and channel internals: a queue with a closed flag and an armed bit; a waker in the rundown is a ticket naming one poll of one waiter.
- SendTheorems.FinishedMeansDelivered: needs a caller that sends only on a fresh stream or after `poll_ready` returned Ok; for other callers it is false, and FinishedOverCancellationIff is exact for all.
- SendTheorems.MarkerStaysHidden: the same condition on the caller; MarkerHandedOutOnlyIf and MarkerHandedOutIf are exact for all callers.
- Agreement.AllFrontendsAgree: covers causes read from the shared slot; the fixed internal errors of an open that found no cause or an invalid local id are not causes and are kept apart.
- Agreement.JointStep: the three takes that end a stream's shutdown (receive sender, send sender, start one-shot) are one joint step of the two halves.
- RundownTheorems.WaitingCloseHidesCallbacks: that closing a listener waits for its callbacks is a property of the native library; it is a condition on the run here and nothing else relies on it.
- OwnershipTheorems.PoisonLeavesNobodyWaiting: promises no end to a listener accept made after the one end marker was read, because the source keeps that sender.
- A panic inside a recover function or inside a destructor that runs while unwinding: the first is not contained by the source, the second ends the process.
- The listener's accept poll and shutdown future, the connect future, `split`, stream ids of the halves, tracing and test seams: easy members or no behaviour to prove.
- ReceiveProtocol.StepKeeps: the callback's copy, charge and publish of one indication are one step, because publishing happens under the budget lock and the other fields belong to the serial callback.
