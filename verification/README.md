# Splitscreen, verified models of its core

Splitscreen's gateway takes messages from chat surfaces and hands them to agent
runners, one turn at a time per thread. This project models the parts where that
is hard to get right and proves what they keep, in Dafny 4.11. `dafny verify
dfyconfig.toml` checks all of it.

| files | what they model |
|---|---|
| `Scheduler`, `SchedulerInvariant`, `SchedulerTheorems`, `SchedulerAttempts`, `SchedulerSlots`, `SchedulerSends`, `SchedulerSweep`, `SchedulerDrain`, `SchedulerOutcomes`, `SchedulerMarking`, `SchedulerOverlap`, `SchedulerTwice` | the turn scheduler as a step system on values: parked lists, per-runner waiting lists, offline rows, live turns, and the recursion that dispatches the next message when a turn ends |
| `Gateway` | the same handlers in place, on the gateway's own fields, each equal to its step |
| `Composition`, `CompositionTheorems`, `CompositionOutcomes`, `CompositionRuns` | gateway and runners together, over channels that lose and reorder frames |
| `RunnerSessions` | the runner's session handlers in place, each equal to its step |
| `SessionCap`, `SessionStart`, `MakeRoom` | the cap on resident harness processes: all interleavings of starts, and one start's loops |
| `Requests`, `RequestTable` | the runner's request table under all interleavings of callers, reader and reconnects, and its loops in place |
| `Stream`, `StreamTheorems`, `StreamTicks`, `StreamWindow`, `GatewayStream` | a turn's output stream: spec, theorems over runs with any failures, and the code in place |
| `SlackPlan`, `SlackCards` | task cards of a Slack plan |
| `Permissions`, `PermissionAnswers`, `GatewayPermissions` | permission requests, prompts, clicks and session grants |
| `Bundles`, `BundleSends` | versions and digests of pushed configuration, hub registration |
| `Chunks`, `BlobReceiver` | chunk frames, cutting a file into chunks, multiplexed reception |
| `Config`, `Validation` | bundle inheritance, its validation, routing |
| `YamlEdit`, `YamlStripped` | in-place edits of the configuration document on a heap tree |

State is modelled by the fields the code keeps. Fields that no code keeps
(`arrivals`, `place`, `sent`, `leaked`, `log`, `journal`, `responses`, `landed` and the like)
record history that the claims are about. What the hub, the store, the disk and
the surfaces answer is a parameter, so that every theorem holds for all answers.

## Where the code falls short of the ideal

Each of these is proved: an exact condition, a concrete run, or both.

- A refused or unstartable message keeps its thread for ever: nothing is sent for
  that thread again (`LeakIsForever`). An event does that to a thread exactly if one
  of the dispatch attempts it sets off, for that thread, finds 25 waiting or cannot
  be started (`EventLeaks`, `RunLeaks`); `StuckThread` is such a run.
- A report for a turn that still waits in the offline queue, and a sent row that is
  not deleted, are exactly what breaks the scheduler's invariant (`Exactly`).
- Queueing a turn inserts its row before it marks the turn. What comes between the
  two breaks the invariant exactly if it would anyway, or ships that row, or ends
  that turn (`MarkedExactly`). A drain in between leaves a running turn that no sweep
  ends, a reconcile leaves a row whose turn has ended (`ShippedTooEarly`,
  `EndedTooEarly`, `BothHappen`). Before the insert, from the opening of the turn on,
  it breaks exactly if it would anyway or ends that turn (`OpenedExactly`,
  `RowOfEndedTurn`).
- A Done looks its turn up first and removes it last. An event in between breaks the
  invariant exactly if it ends the same turn and the thread is by then neither idle
  nor leaked to leak again (`DoneExactly`, `EndedTwiceExactly`): the next message
  then runs on a thread that counts as free (`DoneFreesTheNext`).
- A runner's counter and its live turns part exactly by the turns opened past the
  gate, less the slots taken for turns that were not opened and the releases at zero
  (`RunDrift`, `BalancedExactly`); one attempt keeps them together exactly if it waits,
  or opens a turn just when it is gated (`AttemptExactly`). So turns sent by a drain,
  which took no slot, let more turns than the cap run (`OfflineTurnsTakeNoSlot`).
- The reader of a closed harness process checks the session's busy flag, not its own
  process: it can report a newer turn as failed while that turn goes on
  (`LingeringReader`, `LateExitBreaks`; `LateExitHappens` is a run from the start). A failed send leaves the session busy with
  nothing to wait for (`FailedSendBreaks`). Together with a sweep that reaches a turn
  whose input is still with the runner, and rows that stay, these are all the steps
  that break per-thread serialization (`StepExactly`).
- A step that changes while an update is being sent is cleared unsent: exactly if
  the events in between filed a step that was not so before (`LostBetween`), for one
  event exactly if it is a start, note, non-blank thought or demotion that files
  something new, or an end that changes its step (`OneIsLost`); text never is
  (`TextIsNotLost`).
- A refused start may have closed every idle session first (`Runner.MakeRoom`).
- A version can come to name two contents (`VersionRenamed`,
  `OneVersionTwoContents`).
- A configuration is built before the lock is taken under which it is pushed. The
  runner comes to have the configuration in force exactly if the last push to land
  was built from it (`CurrentExactly`); a reload between a build and its push can
  leave the runner with the old one for good (`StaleBuildWins`).
- A push is sent and noted after the lock is released. Of overlapping pushes the one
  the live connection took last decides what the runner comes to have, whatever was
  recorded or noted last (`LastSentExactly`); two that cross leave it with the old
  configuration while the gateway sees nothing left to send (`CrossedForGood`).
- Two transfers of one name in one thread share a file. A transfer that is intact is
  harmed exactly by another that begins under the name once something was received,
  writes other bytes into the file, or fails under the name (`SpoiledExactly`); what
  is then handed over is all that was written under the name, laid over each other
  (`HandedOver`, `SamePathClobbers`).
- A bundle whose definition is empty makes validation itself panic exactly if a
  defined bundle leads to it (`CrashNeedsHollowBase`, `ValidateBundles`).
- A step called "overflow" shares its card with the overflow steps
  (`OwnCardsAreOwn`); deleting a repeated key uncovers the next one
  (`DeleteIsComplete`).

## Model

| member | source | states |
|---|---|---|
| SchedulerTheorems.Exactly | internal/gateway/inbound.go:205-375 | From any state the scheduler reaches, whatever threads other handlers are still settling, an event keeps the whole invariant (every message in exactly the collection its history names, one occupant per thread, rows and queued turns matching, order) if and only if it is faithful: no report for a queued turn, no sent row left undeleted |
| SchedulerTheorems.RunKeeps | internal/gateway/inbound.go:190-581 | The invariant holds after every run of faithful events, whatever hub and store answer |
| SchedulerTheorems.Conserved | internal/gateway/inbound.go:196-375 | Conservation: an accepted message is in exactly one of parked, runner-waiting, live, offline-queued and ended; a turn is queued exactly if a row carries it, and only one row does |
| SchedulerTheorems.OneTurnPerThread | internal/gateway/inbound.go:536-581 | A thread has at most one occupant; it is active exactly if occupied or leaked, never both; messages are parked only behind an active thread; it is leaked exactly if one of its messages was refused or not started |
| SchedulerTheorems.ThreadIsSettled | internal/gateway/inbound.go:205-344 | When a handler and its cascade return, every thread is occupied, or free with nothing parked, or leaked |
| SchedulerTheorems.SentInOrder | internal/gateway/inbound.go:347-375 | Per-thread order over direct sends, parked lists, waiting lists and drains: frames follow the order of arrival, none twice, and nothing older is still waiting |
| SchedulerTheorems.QueuedStays | internal/gateway/dispatch.go:396-422 | No message, report, sweep or reconcile touches a queued turn; only its own row's shipment does |
| SchedulerTheorems.EndIsFinal | internal/gateway/dispatch.go:608-674 | An ended message stays ended the way it ended, and never has a turn again |
| SchedulerTheorems.LeakIsForever | internal/gateway/inbound.go:423-459 | After a refusal or a failed turn insert nothing is ever sent for that thread again; later messages only pile up |
| SchedulerAttempts.RunAsks | internal/gateway/inbound.go:205-295 | The attempts listed for a run are all of them: each answer of hub and store is the answer to one |
| SchedulerAttempts.TryLeaks | internal/gateway/inbound.go:423-459 | One attempt leaks its thread exactly if it is gated, finds no slot and 25 waiting, or passes and cannot be started |
| SchedulerAttempts.EndThreadLeaks | internal/gateway/inbound.go:562-581 | An ended thread's cascade leaks a thread exactly if one of its attempts does |
| SchedulerAttempts.SlotFreedLeaks | internal/gateway/inbound.go:464-490 | So does a freed slot's dispatch |
| SchedulerAttempts.ArriveLeaks | internal/gateway/inbound.go:190-201 | And an arrival |
| SchedulerAttempts.EventLeaks | internal/gateway/inbound.go:239-245 | An event leaks a thread if and only if one of its attempts for that thread finds the list full or cannot be started |
| SchedulerAttempts.RunLeaks | internal/gateway/inbound.go:423-459 | A thread is leaked after a run exactly if some attempt in it leaked it |
| SchedulerAttempts.StuckThread | internal/gateway/inbound.go:239-245 | From the start, one failed turn insert and one more message: whatever follows, the second stays parked and nothing is ever sent for the thread |
| SchedulerInvariant.EndThreadKeeps | internal/gateway/inbound.go:562-581 | The cascade of an ended thread, which consumes its parked list through abandoned heads, settles the thread and restores the invariant |
| SchedulerInvariant.TryAdmittedKeeps | internal/gateway/inbound.go:205-215 | One attempt behind the concurrency gate files the message in hand and leaves a hole only if the message was abandoned |
| SchedulerInvariant.SlotFreedKeeps | internal/gateway/inbound.go:464-490 | Handing a freed slot to the waiting head keeps the invariant and leaves unsettled threads as they were |
| SchedulerInvariant.FinishKeeps | internal/gateway/dispatch.go:646-674 | Ending a sent turn with everything it sets off keeps the invariant |
| SchedulerInvariant.ArriveKeeps | internal/gateway/inbound.go:190-201 | So does an arriving message, parked or dispatched |
| SchedulerInvariant.ShipKeeps | internal/store/store.go:509-515 | So does a sent and deleted offline row |
| SchedulerSlots.RunBounded | internal/gateway/inbound.go:423-490 | For fixed caps, in every run: 0 <= active <= cap, at most 25 waiting, and somebody waits only while all slots are taken |
| SchedulerSlots.MovesUp | internal/gateway/inbound.go:464-490 | The item at position i of a waiting list is at position i - k after k releases, whatever arrives meanwhile |
| SchedulerSlots.HeadStarts | internal/gateway/inbound.go:464-490 | The next release takes the head off the list and dispatches it |
| SchedulerSlots.ServedInTurn | internal/gateway/inbound.go:464-490 | The item at position i of a waiting list stays on it through exactly i releases, and is dispatched by release i + 1 |
| SchedulerSlots.AttemptExactly | internal/gateway/inbound.go:205-295 | One attempt keeps active equal to the number of live turns if and only if it is gated and must wait, or opens a turn exactly if it is gated; being sent and being queued both count as opened |
| SchedulerSlots.EventDrift | internal/gateway/dispatch.go:642-674 | One event changes live turns minus active by its turns opened past the gate, less slots taken for nothing, less a release at zero |
| SchedulerSlots.RunDrift | internal/gateway/inbound.go:464-490 | So does every run, for every runner |
| SchedulerSlots.BalancedExactly | internal/gateway/inbound.go:423-490 | active equals the live turns after a run if and only if those three add up to nothing |
| SchedulerSlots.RunBalanced | internal/gateway/inbound.go:205-295 | It does so throughout if every attempt for the runner is square in the sense of AttemptExactly, whatever other runners do |
| SchedulerSlots.StaysOnline | internal/gateway/inbound.go:205-295 | So it does while a limited runner is online when asked and nothing that got a slot is abandoned or fails to start, whether its send succeeds or it is queued |
| SchedulerSlots.WithinLimit | internal/gateway/gateway.go:80-101 | In every run a runner has at most its limit of live turns, and those opened past the gate |
| SchedulerSlots.OfflineTurnsTakeNoSlot | internal/gateway/inbound.go:347-375 | A run with an offline period after which a runner with one slot has two live turns |
| SchedulerSends.EventSends | internal/gateway/inbound.go:217-295 | Whatever a handler sends is a live, unqueued turn when the handler returns |
| SchedulerSends.EventOthers | internal/gateway/dispatch.go:340-422 | A live turn stays live through an event exactly if the event does not end it, and is out of the map if it does |
| SchedulerSends.SentOnce | internal/gateway/inbound.go:289-293 | No message is sent twice |
| SchedulerSends.ReportEnds | internal/gateway/dispatch.go:608-674 | A Done or Error for a live turn takes it out of the map and ends its message as completed or as failed, whatever is dispatched on the way |
| SchedulerSweep.VisitsEndWhatTheyShould | internal/gateway/dispatch.go:340-422 | A sweep or reconcile ends exactly the live turns it is meant for; all others stay live, whatever it dispatches on the way |
| SchedulerSweep.SweepIsMeant | internal/gateway/dispatch.go:396-422 | The sweep is meant for the visited turns that were silent too long |
| SchedulerSweep.ReconcileIsMeant | internal/gateway/dispatch.go:340-370 | The reconcile is meant for the visited turns of the dropped runner |
| SchedulerSweep.DrainDelivers | internal/gateway/inbound.go:347-375 | A drain that is not cut short sends the runner's oldest rows in order, makes their turns live, and removes exactly those rows |
| SchedulerDrain.DrainTakesTheOldest | internal/store/store.go:488-507 | Counted on the store: a drain of which so many sends succeed hands over the runner's rows that fewer older ones of it precede than that, and fewer than 1000, in order and each once; all other rows, its own and others', are left as they were and in order |
| SchedulerDrain.DrainedDry | internal/gateway/inbound.go:347-375 | So a drain that is not cut short leaves nothing stored for a runner with at most 1000 rows, hands over every message they held, and takes nobody else's |
| SchedulerOutcomes.AttemptMade | internal/gateway/inbound.go:205-334 | The whole effect of one attempt, by the answers of hub and store: refused at 25 waiting, waiting if slots are asked for and none is free or somebody waits, not started, sent if reachable and taken, stored unless the runner's rows are at the limit or the row cannot be written, else abandoned; a slot is taken exactly if the gate let it through; nothing else changes |
| SchedulerOutcomes.ArrivalMade | internal/gateway/inbound.go:190-201 | A message for a busy thread is parked last; one for an idle thread meets that fate at once, and the thread is busy from then on exactly if the message was not abandoned |
| SchedulerOutcomes.HeadIsTried | internal/gateway/inbound.go:562-581 | When a thread ends, the head of its parked list meets that fate; the next one is tried exactly if it was abandoned |
| SchedulerMarking.MarkedExactly | internal/gateway/inbound.go:314-319 | For any event between a row's insert and the marking of its turn: the invariant holds after the mark if and only if the event is faithful, does not ship that row, and does not visit or report that turn |
| SchedulerMarking.ShippedTooEarly | internal/gateway/inbound.go:347-375 | A drain in between leaves a running turn marked queued without a row, which no sweep or reconcile ends |
| SchedulerMarking.EndedTooEarly | internal/gateway/dispatch.go:340-370 | A reconcile in between ends the turn and leaves its row, which a later drain sends |
| SchedulerMarking.BothHappen | internal/gateway/inbound.go:314-319 | Both from the start, with one message |
| SchedulerMarking.MarkedInTime | internal/gateway/inbound.go:314-319 | Any run of events that do neither may come between: the mark makes of it what they would have made of the marked turn |
| SchedulerOverlap.DeferredDelete | internal/gateway/dispatch.go:613 | Deleting a finished turn only after all it set off comes to the same as deleting it first |
| SchedulerOverlap.OpenedExactly | internal/gateway/inbound.go:246-319 | For any event between the opening of a turn and the insert of its row, whatever threads other handlers are settling: once the row is inserted and the turn marked, the invariant holds if and only if the event is faithful and does not visit or report that turn |
| SchedulerOverlap.RowOfEndedTurn | internal/gateway/dispatch.go:340-370 | A reconcile in that window ends the turn, and the insert then leaves a row for it |
| SchedulerTwice.DoneExactly | internal/gateway/dispatch.go:608-644 | For any faithful event between a Done's lookup and the rest of it: the invariant holds in the end if and only if the event does not end the same turn, or ending it again is harmless |
| SchedulerTwice.EndedTwiceExactly | internal/gateway/dispatch.go:340-422 | Whoever comes second, ending a turn again keeps the invariant if and only if, once its slot was freed again, its thread is idle, or was leaked and leaks again |
| SchedulerTwice.EndThreadExactly | internal/gateway/inbound.go:562-581 | The same for ending any thread that nobody is settling |
| SchedulerTwice.DoneFreesTheNext | internal/gateway/dispatch.go:396-422 | From the start, one message running and one parked: a sweep during the first one's Done leaves the second running on a thread marked idle |
| GatewayScheduler.Gateway.OnMessage | internal/gateway/inbound.go:190-201 | In place: the state becomes that of an arrival, and stays sound |
| GatewayScheduler.Gateway.BeginThreadTurn | internal/gateway/inbound.go:536-557 | Claims a free thread or parks the message; tells which |
| GatewayScheduler.Gateway.DispatchAdmitted | internal/gateway/inbound.go:205-215 | Gates only an online runner with a limit, and ends as the step says |
| GatewayScheduler.Gateway.Admit | internal/gateway/inbound.go:423-459 | Takes a slot, waits in line, or refuses when 25 wait |
| GatewayScheduler.Gateway.DispatchTurn | internal/gateway/inbound.go:221-295 | Opens the turn, sends it, or falls back to the offline queue |
| GatewayScheduler.Gateway.QueueMessage | internal/gateway/inbound.go:300-334 | Stores the message as the newest row of a queued turn, or abandons it with the cascade that follows |
| GatewayScheduler.Gateway.AbandonTurn | internal/gateway/inbound.go:338-344 | Drops the turn and ends its thread |
| GatewayScheduler.Gateway.EndThreadTurn | internal/gateway/inbound.go:562-581 | Frees the thread or dispatches its next message; terminates with the parked list |
| GatewayScheduler.Gateway.TurnSlotFreed | internal/gateway/inbound.go:464-490 | Gives the slot back or hands it on |
| GatewayScheduler.Gateway.OnDone | internal/gateway/dispatch.go:608-644 | A Done ends its live turn like the step, and keeps the state sound if the turn was not queued |
| GatewayScheduler.Gateway.OnRunnerError | internal/gateway/dispatch.go:646-674 | So does an Error frame |
| GatewayScheduler.Gateway.SweepStrandedOnce | internal/gateway/dispatch.go:396-422 | The loop over the turn map equals the run of its visits, in any order of the map |
| GatewayScheduler.Gateway.ReconcileTurns | internal/gateway/dispatch.go:340-370 | The same for a runner that is gone past its grace |
| GatewayScheduler.Gateway.DrainQueue | internal/gateway/inbound.go:347-375 | The drain loop equals the run of its shipments up to the first send that fails |
| Composition.AtMostOne | internal/gateway/inbound.go:190-195 | In every safe state a thread has at most one of: message on its way down, input with the runner or harness, terminal frame on its way up for a live turn; and it is that of the thread's occupant |
| Composition.NeverOverwritten | internal/runner/session.go:34-48 | When a handler is about to set the session's turn, the session is between turns |
| Composition.RightlyAttributed | internal/runner/session.go:338-351 | A Done or Error is sent under the turn whose input it answers |
| CompositionTheorems.StepExactly | internal/runner/session.go:233-381 | A step of gateway, channel, handler, harness or reader keeps safety if and only if it is allowed: no visit to a turn still with a runner, no undeleted row, no failed send, no exit of an outlived reader that finds a newer turn |
| CompositionTheorems.TraceKeeps | internal/runner/session.go:233-381 | So every run of allowed steps is safe, with any losses, reordering, session starts, closes and crashes |
| CompositionTheorems.AlwaysOne | internal/gateway/inbound.go:190-198 | From the start: in every such run a thread has at most one message, input or terminal frame outstanding |
| CompositionTheorems.DeliverKeeps | internal/gateway/dispatch.go:608-674 | Any terminal frame in flight may be delivered, at any time and in any order |
| CompositionTheorems.LateExitBreaks | internal/runner/session.go:361-380 | A reader whose process was closed reports a live turn as failed while its input is in hand elsewhere |
| CompositionTheorems.LingeringReader | internal/runner/session.go:89-161 | Whenever a thread's process is closed just before its next message, allowed steps lead there |
| CompositionRuns.LateExitHappens | internal/runner/session.go:361-380 | From the start: a turn, the next message, and the process closed just before it is handled; all steps are allowed, and then the old reader reports the running turn as failed |
| CompositionTheorems.FailedSendBreaks | internal/runner/session.go:270-273 | A send that fails leaves the session busy although nothing is in hand |
| CompositionOutcomes.RefusedSendFails | internal/runner/session.go:270-286 | A send that the harness refuses, or that finds no process, adds one frame, an Error for the turn, and nothing else; whatever else is in flight, delivering it takes the turn out of the gateway's map and ends it as failed |
| CompositionOutcomes.NoProcessFails | internal/runner/session.go:246-250 | So does a process that cannot be started |
| CompositionOutcomes.AnswerEnds | internal/runner/session.go:338-359 | A terminal event of the process that has the input adds one frame for its turn, as what it is, leaves the session idle, and its delivery ends the turn as completed or failed |
| CompositionOutcomes.ExitFails | internal/runner/session.go:361-380 | A reader whose process ended with the running turn's input adds one Error for that turn, which ends it as failed |
| CompositionOutcomes.DownTheLine | internal/runner/session.go:233-286 | A message that arrives and whose handler runs through is, once, with the session's process, the one there was or a new one; the session is busy with it and nothing was reported |
| RunnerSessions.Runner.SessionFor | internal/runner/session.go:89-161 | Keeps a running process, starts one, or reports that none could be started |
| RunnerSessions.Runner.SetTurn | internal/runner/session.go:42-48 | Points the session at the turn and marks it busy |
| RunnerSessions.Runner.SendInput | internal/runner/session.go:270-286 | Hands the input to the session's process, or reports the failure and leaves the session busy |
| RunnerSessions.Runner.OnTerminal | internal/runner/session.go:338-359 | Reports the turn the session is set to and marks the session idle |
| RunnerSessions.Runner.PumpEnds | internal/runner/session.go:361-380 | A reader whose process ended reports whatever turn the busy session points at |
| RunnerSessions.Runner.CloseSession | internal/runner/session.go:385-400 | Takes the process away; its reader lingers |
| SessionCap.NeverOverCap | internal/runner/session.go:97-106 | Under every interleaving of starts, scans, missed locks, evictions, turns and deaths, resident processes plus granted starts never exceed the cap |
| SessionCap.StepKeeps | internal/runner/session.go:431-485 | The invariant behind it: a start has counted, or will still look at, every session that was locked before it |
| SessionCap.WithinCap | internal/runner/session.go:455-457 | So the latest start has counted all others, and was granted with fewer than the cap |
| SessionStart.StartsWithRoom | internal/runner/session.go:97-161 | A start with nobody else starting, below the cap: it is granted, its process runs if it can be started, and no other session is touched |
| SessionStart.StartsByEviction | internal/runner/session.go:419-486 | At the cap: it closes exactly as many idle sessions as needed and starts, or, if there are not enough, closes them all and starts nothing; a session in a turn is never touched |
| MakeRoom.Runner.Scan | internal/runner/session.go:429-453 | The scan counts exactly the other sessions that are resident or locked, and lists exactly the idle unlocked ones |
| MakeRoom.SortSorts | internal/runner/session.go:459 | The candidates in order of idle time, none lost or added |
| MakeRoom.Runner.CloseLongestIdle | internal/runner/session.go:460-481 | Of the candidates, in their order, closes the first that are still idle and unlocked, as many as needed or there are; passes over those that changed since the scan |
| MakeRoom.OpenAre | internal/runner/session.go:463-476 | The candidates that can be closed are those that are alive, out of turn and unlocked by then, in the order of the list |
| MakeRoom.Runner.MakeRoom | internal/runner/session.go:419-486 | Counting the other sessions that are alive or locked: grants without closing while they are below the cap; otherwise closes exactly as many of the longest-idle ones as needed and grants, or closes all idle ones and refuses; a grant leaves them below the cap, and no busy or locked session is touched |
| MakeRoom.RoomIsMade | internal/runner/session.go:410-418 | A granted start leaves one place free, and busy or locked sessions untouched |
| Requests.NoOrphans | internal/runner/runner.go:393-421 | Under every interleaving: a call gets at most one value; a waiter's value is there, in the reader's hand, or still to come through its entry; after a dropped connection was failed, every waiter that wrote to it has its value; no entry outlives its call |
| Requests.StepKeeps | internal/runner/runner.go:198-206 | The invariant behind it holds through registering, writing, replies, drops, failing one by one, and reconnects |
| Requests.ReplyIsDelivered | internal/runner/runner.go:381-392 | A reply the reader claims is in the caller's channel even if the write has not returned yet |
| Requests.HandedOver | internal/runner/runner.go:370-379 | A claimed waiter that moves on meanwhile still gets its reply |
| Requests.ValueStays | internal/runner/runner.go:402-407 | A value stays in the channel until its caller takes it |
| Requests.FailsOnlyItsOwn | internal/runner/runner.go:412-421 | Failing a connection fails no waiter that wrote to another |
| Requests.AnswersAreReal | internal/runner/runner.go:370-421 | In every run a caller is answered with a reply only if the reader read that reply for this very call, hears that the connection is lost only if its entry was failed, and reports a failed write or a timeout only after its own |
| Requests.FailedHearsLost | internal/runner/runner.go:412-421 | An entry that is failed leaves its caller the word that the connection is lost, and nothing else |
| Requests.RoundTrip | internal/runner/runner.go:381-410 | An undisturbed call returns exactly the reply read for it and leaves nothing behind |
| Requests.FailedWrite | internal/runner/runner.go:393-401 | A write that fails or finds no connection takes the entry away again |
| Requests.GivesUp | internal/runner/runner.go:402-410 | So does a caller that gives up |
| RequestTable.Table.Add | internal/runner/runner.go:393-396 | In place: the waiter is listed before anything is written |
| RequestTable.Table.ResolvePending | internal/runner/runner.go:370-379 | In place: claims the waiter and hands it the reply, if it is still listed |
| RequestTable.Table.FailPending | internal/runner/runner.go:412-421 | The loop over the table equals failing its entries one by one, in any order, and empties it |
| RequestTable.DropLeavesNobody | internal/runner/runner.go:198-206 | Once a drop has been handled the table is empty, every entry it listed has been told that the connection is lost, every other call is as it was, and every waiter that wrote to that connection has its value |
| RequestTable.DropAndReturn | internal/runner/runner.go:198-206 | A connection that drops is failed over with the table empty, and the next one is open under a new number |
| Stream.Play | internal/gateway/stream.go:228-243 | In every run what was sent is at most the body, and every listed step exists, so taking and rendering cannot go out of range |
| StreamTheorems.TicksDoNotMatter | internal/gateway/stream.go:290-412 | If a streaming surface accepts every call, the text and steps it shows after the close are those of a fold over the events alone, for any placement of flushes |
| StreamTheorems.AnswerArrives | internal/gateway/stream.go:290-481 | With any call failing at any time: a surface that is there gets a non-blank answer whole in the last call made, so it arrived exactly if that call was accepted; an accepted native close leaves text and steps complete |
| StreamTheorems.PlayKeeps | internal/gateway/stream.go:337-458 | In every run at most one stream is opened, a stream that refused is never written or edited again, edits go only to posted messages, and the shown steps are in step with all that are not marked changed |
| StreamTheorems.PendingIsTheAnswer | internal/gateway/stream.go:97-226 | What is pending is the text since the last demoting event; all text if activity is hidden |
| StreamTheorems.PlayStory | internal/gateway/stream.go:97-226 | Flushes do not change what the events build up |
| StreamTheorems.FinishLands | internal/gateway/stream.go:375-412 | The native close carries the whole answer and every step the surface was missing |
| StreamTheorems.EditLands | internal/gateway/stream.go:414-458 | The final post or edit carries the trimmed answer |
| StreamTicks.TickReaches | internal/gateway/stream.go:290-335 | A tick with something new to show makes the call that shows it, with any call failing: an increment after which the stream shows every step as it is, or, once streaming is given up, a post or an edit of the posted message with the rendering; if refused it stays to be sent |
| StreamTicks.TickShows | internal/gateway/stream.go:290-412 | If a streaming surface accepts every call, after every tick it shows exactly the steps that the events so far build up |
| StreamTicks.TickDisplays | internal/gateway/stream.go:290-458 | If a surface that cannot stream accepts every call, after every tick it shows the rendering of the events so far, in one message that was posted once and edited since |
| StreamTicks.RenderLists | internal/gateway/stream.go:249-288 | A rendering is, trimmed, the body and below it the last twelve steps, or all if fewer, in order, each with title and detail, a failed one marked and with its output; no steps if activity is hidden, nor at the close unless it is kept in full |
| StreamTicks.UpdateCarries | internal/gateway/stream.go:229-237 | An update carries the body from where the last ended and exactly the changed steps, in the order of filing |
| StreamTicks.TrimIs | internal/gateway/stream.go:271 | Trimming takes the space off both ends and nothing else |
| StreamWindow.LostBetween | internal/gateway/stream.go:373-412 | With any events between taking and committing, the surface shows the steps as they are if and only if each step those events filed was in the end filed as it had been |
| StreamWindow.HearAllWrites | internal/gateway/stream.go:109-226 | The steps events file: none if activity is hidden or for text, narration before a start, a note or a thought, the ended step for an end |
| StreamWindow.HearOrder | internal/gateway/stream.go:109-226 | What an event files stands after what was filed before, in the order of filing; a step filed again keeps its place |
| StreamWindow.OneIsLost | internal/gateway/stream.go:373-412 | For one event: its step is lost if and only if it is a start, note or non-blank thought that files something new or demotes prose to something new, or an end that changes its step |
| StreamWindow.TextIsNotLost | internal/gateway/stream.go:99-107 | Text, ignored events and hidden activity lose nothing |
| StreamWindow.EndIsLost | internal/gateway/stream.go:184-205 | A tool that ends in between stays running on the surface and is not marked for sending |
| GatewayStream.Output.AppendText | internal/gateway/stream.go:99-107 | Holds prose back |
| GatewayStream.Output.DemoteLocked | internal/gateway/stream.go:113-126 | Makes pending prose a finished step, or drops blank prose |
| GatewayStream.Output.Think | internal/gateway/stream.go:129-147 | Records a thought as a finished step after demoting |
| GatewayStream.Output.Begin | internal/gateway/stream.go:162-180 | Starts a step under its id after demoting |
| GatewayStream.Output.End | internal/gateway/stream.go:184-205 | Ends a step, known or not, without demoting |
| GatewayStream.Output.Note | internal/gateway/stream.go:209-226 | Notes a step after demoting |
| GatewayStream.Output.Collect | internal/gateway/stream.go:229-237 | Collects the unsent text and the changed steps in order |
| GatewayStream.Output.Compose | internal/gateway/stream.go:249-272 | Renders body and the last twelve steps as the display mode says |
| GatewayStream.Output.OpenNative | internal/gateway/stream.go:339-371 | Opens the stream or latches the fallback |
| GatewayStream.Output.Push | internal/gateway/stream.go:375-412 | Sends one increment and commits it, or gives the stream up |
| GatewayStream.Output.PushPost | internal/gateway/stream.go:414-458 | Posts or edits the message, and retries later if that fails |
| GatewayStream.Output.FlushWith | internal/gateway/stream.go:290-335 | One flush, native first, equal to its specification |
| GatewayStream.Output.Close | internal/gateway/stream.go:461-481 | The final flush, once |
| SlackPlan.AtMostFifty | internal/surface/slackx/stream.go:26-33 | However many steps, at most 50 distinct task ids are sent |
| SlackPlan.CardIsForLife | internal/surface/slackx/stream.go:210-223 | A step never changes card |
| SlackPlan.Partition | internal/surface/slackx/stream.go:116-124 | Own cards and the overflow card divide all steps; a step overflows only once 49 cards are taken |
| SlackPlan.OverflowError | internal/surface/slackx/stream.go:226-249 | The overflow card is an error exactly if some step in it last failed |
| SlackPlan.LastIsLast | internal/surface/slackx/stream.go:203-206 | The status counted for a step is that of its last report |
| SlackPlan.OwnCardsAreOwn | internal/surface/slackx/stream.go:32-33 | Two steps share a card only if both overflow, or one of them is called "overflow" |
| SlackPlan.CardsAreSent | internal/surface/slackx/stream.go:203-208 | The cards of an update are those the whole history calls for |
| SlackCards.FirstsHaveCards | internal/surface/slackx/stream.go:212-223 | Exactly the steps before whose first report fewer than 49 others were reported have a card of their own |
| SlackCards.CardSays | internal/surface/slackx/stream.go:212-295 | An own card has its step's title and status; the overflow card counts the steps beyond the first 49 and is in error exactly if one of them last failed, in progress if none did but one last ran, else complete |
| SlackCards.UpdateSays | internal/surface/slackx/stream.go:189-208 | An update is sent as its prose if any, the provisional title with the first steps of all, and one card per report, in order, made when it came in |
| SlackCards.TitleSays | internal/surface/slackx/stream.go:261-282 | The closing title counts the ids reported, each once, and those whose last report is a failure; none if no step was shown |
| SlackCards.DecimalReads | internal/surface/slackx/stream.go:228-229 | Numbers in titles and step ids read back as themselves |
| SlackPlan.Plan.TaskChunkLocked | internal/surface/slackx/stream.go:212-256 | One step's card, with the overflow card's count and aggregate status |
| SlackPlan.Plan.ChunksLocked | internal/surface/slackx/stream.go:189-208 | An update's chunks: prose, the provisional title before the first card, then the cards |
| SlackPlan.Plan.FinalTitleLocked | internal/surface/slackx/stream.go:261-282 | The closing title counts distinct steps and those that last failed |
| SlackPlan.Plan.Append | internal/surface/slackx/stream.go:131-147 | Sends nothing for an empty update and nothing after the close |
| SlackPlan.Plan.Close | internal/surface/slackx/stream.go:149-182 | Closes once; a refused close is followed by one with the title alone and still reported |
| Permissions.NothingUnjustified | internal/gateway/dispatch.go:130-307 | In every run a response other than deny is for a request no deny rule covered on arrival, and rests on an allow rule, unattended mode, an approver's answer, or an approver's grant for that thread and tool not cleared since; rules and approvers are those of the last reload before the request arrived, or before the click |
| Permissions.OneResponse | internal/gateway/dispatch.go:258-262 | A request gets at most one response, however clicks, disconnects and prompts interleave |
| Permissions.ApplyKeeps | internal/gateway/dispatch.go:130-330 | The invariant behind both, for requests, prompts, both halves of a click, disconnects, clears and reloads |
| Permissions.ClearForgets | internal/gateway/grants.go:61-69 | After a clear no earlier grant lets the thread's next request through |
| PermissionAnswers.AnsweredExactly | internal/gateway/dispatch.go:130-223 | After any run, what a new request gets: deny, if it has no live turn or a deny rule covers it; else allow, if an allow rule covers it, the runner runs unattended, or the journal has an approver's grant of the tool for the thread with no clear since; else a prompt, or deny without a surface; the rules are those of the last reload |
| PermissionAnswers.RunHeld | internal/gateway/grants.go:37-69 | In every run a grant is held exactly if the journal has an approver's answer for the session for that thread and tool and no clear of the thread since |
| PermissionAnswers.PostedExactly | internal/gateway/dispatch.go:205-223 | A prompt that is up can be clicked; one that could not be put up is one denial |
| PermissionAnswers.ClickDecides | internal/gateway/dispatch.go:236-296 | An approver's click on a prompt that is up gives one response, the decision clicked, takes the prompt away, and grants the tool exactly if the decision was for the session; any other click changes nothing |
| PermissionAnswers.SecondClaimIsVoid | internal/gateway/dispatch.go:258-262 | Of two clicks on one prompt the second to claim does nothing |
| PermissionAnswers.GrantWavesThrough | internal/gateway/dispatch.go:183-189 | After an answer for the session the next request for the tool on that thread is allowed, by whatever runner, unless a deny rule covers it |
| PermissionAnswers.DropWithdraws | internal/gateway/dispatch.go:312-330 | A runner that drops takes its own prompts with it and nothing else |
| GatewayPermissions.Permits.OnPermissionRequest | internal/gateway/dispatch.go:130-223 | Deny rules, then grants, then static policy, then a prompt |
| GatewayPermissions.Permits.OnPrompted | internal/gateway/dispatch.go:215-233 | A prompt that could not be posted is denied |
| GatewayPermissions.Permits.BeginDecision | internal/gateway/dispatch.go:236-256 | Only an approver's click goes on |
| GatewayPermissions.Permits.EndDecision | internal/gateway/dispatch.go:258-296 | The first to claim the prompt decides, and grants if asked to |
| GatewayPermissions.Permits.MatchDeny | internal/gateway/policy.go:24-32 | Whether any rule covers the call |
| GatewayPermissions.Permits.IsApprover | internal/gateway/inbound.go:665-675 | Anybody if no approvers are listed, otherwise only those |
| GatewayPermissions.Permits.AddGrant | internal/gateway/grants.go:37-47 | One grant per thread and tool, the latest |
| GatewayPermissions.Permits.ClearGrants | internal/gateway/grants.go:63-69 | Drops and counts a thread's grants |
| GatewayPermissions.Permits.FailPending | internal/gateway/dispatch.go:312-330 | Withdraws exactly the dropped runner's prompts |
| Bundles.Converges | internal/gateway/bundle.go:258-330 | After any run of reloads, reconnects, reboots and restarts whose applies succeed, once what follows a build for the live connection is applied, the runner has the digest that was built |
| Bundles.SyncedExactly | internal/runner/bundle.go:149-160 | What the gateway believes stays true exactly if an apply succeeds, or a later push or the same content makes up for it |
| Bundles.SentExactly | internal/gateway/bundle.go:293-312 | A push is sent exactly if the connection is live, takes it, and is not believed to have the content; then it is what the connection is believed to have |
| Bundles.NothingTwice | internal/gateway/bundle.go:293-312 | In every run no connection is sent the same content twice in a row |
| Bundles.VersionsClimb | internal/gateway/bundle.go:293-305 | In every run, with pushes for replaced connections too, recorded and materialized versions only climb; new content gets a version above all that exist; content the runner lost keeps its version |
| Bundles.VersionRenamed | internal/gateway/bundle.go:276-291 | A version changes its content exactly if the runner has what was built, at no higher version, while something else was recorded |
| Bundles.OneVersionTwoContents | internal/gateway/bundle.go:276-304 | A run in which one version is sent for two contents |
| Bundles.CurrentExactly | internal/gateway/bundle.go:262-268 | After any run in which builds, reloads and pushes overlap: once everything in flight is applied, the runner has the configuration in force if and only if the last push to land was of a build from when that was the configuration; in particular if no reload came since |
| Bundles.StaleBuildWins | internal/gateway/gateway.go:232-237 | A run in which a reload falls between a build and its push, nothing is left to push or apply, and the runner has the configuration from before |
| BundleSends.StraightIsPush | internal/gateway/bundle.go:262-312 | Undisturbed, deciding, sending and noting are the one push of `Bundles` |
| BundleSends.LastSentExactly | internal/gateway/bundle.go:304-312 | However deciding, sending and noting of pushes interleave with each other, reloads and reconnects: once everything in flight is applied, the runner has the configuration in force if and only if the push the live connection took last was of a build from when that was the configuration |
| BundleSends.CrossedForGood | internal/gateway/bundle.go:304-312 | A run in which two pushes recorded and noted in order are sent the other way round: the gateway records and notes the configuration in force, the runner has the one before, and pushing again sends nothing |
| Bundles.Gateway.PushTo | internal/gateway/bundle.go:262-312 | In place: records, sends or skips as specified, and leaves other runners alone |
| Bundles.Gateway.Register | internal/gateway/hub.go:37-43 | The newest connection takes the runner's place |
| Bundles.Gateway.Unregister | internal/gateway/hub.go:46-52 | A displaced connection removes nobody else |
| Bundles.Materialized.ApplyBundle | internal/runner/bundle.go:144-160 | The materialized state becomes the push, or stays on an error |
| Chunks.DecodeInvertsEncode | protocol/blob.go:38-93 | What is encoded is decoded, given a header codec that round-trips |
| Chunks.EncodeInvertsDecode | protocol/blob.go:65-93 | What is decoded obeys the encoder's limits, and is the encoder's frame exactly if the header is spelled its way |
| Chunks.EncodesExactly | protocol/blob.go:38-61 | A chunk is encoded exactly if it names a transfer, has 1 to 262144 payload bytes and a header of at most 4096; the frame is the header's length, highest byte first, header and payload |
| Chunks.AcceptsExactly | protocol/blob.go:65-93 | A frame is decoded exactly if its lengths are within those limits and its header can be read and names a transfer |
| Chunks.EncodeChunk | protocol/blob.go:38-61 | Fills one buffer with length, header and payload, or says which limit was broken |
| Chunks.NumberOfBigEndian | protocol/blob.go:57 | Lengths survive their four bytes |
| Chunks.RelayChunks | internal/gateway/blobs.go:62-96 | Chunks are numbered, within limits, and their payloads are a front part of the file; the relay ends without a closing frame exactly if the connection refuses a chunk; the transfer is vouched for exactly if the file was read to its end within the size cap, and its chunks are then the file |
| BlobReceiver.AsIfAlone | internal/runner/requests.go:250-341 | Under any interleaving and whatever the destinations, a transfer is received, fails and completes as if it were alone |
| BlobReceiver.SpoiledExactly | internal/runner/requests.go:250-314 | What another transfer does leaves an intact one intact if and only if it does not begin under its name once something was received, write other bytes into its file, or fail under its name |
| BlobReceiver.HandedOverIntact | internal/runner/requests.go:318-341 | A turn is handed a file only after the sender vouched for what was received; the file holds exactly that if nothing spoiled it between its beginning and its claim |
| BlobReceiver.RefusedIsNotHandedOver | internal/runner/requests.go:270-341 | A transfer of which a chunk could not be written, or whose end said that it failed or named another checksum, is never handed over, whatever follows |
| BlobReceiver.PrivateIsUnspoiled | internal/runner/requests.go:250-268 | So it is enough that nobody else uses the name in that time; before and after, others may |
| BlobReceiver.HandedOver | internal/runner/requests.go:270-341 | Spoiled or not, a turn is handed all that was written under the name since it was last begun, each write at the place its own transfer had reached |
| BlobReceiver.RelayArrives | internal/runner/requests.go:270-314 | What the relay sends arrives, byte for byte, if nothing spoils it |
| BlobReceiver.SamePathClobbers | internal/runner/requests.go:250-268 | Two transfers to one destination at once, of any contents: both turns are handed the second laid over the first; right for the one exactly if the second begins the first, for the other exactly if the first is no longer |
| BlobReceiver.Uploads.BlobBegins | internal/runner/requests.go:250-268 | Truncates the destination and opens a fresh entry |
| BlobReceiver.Uploads.ChunkArrives | internal/runner/requests.go:270-287 | Writes and hashes a chunk, or fails the transfer for good |
| BlobReceiver.Uploads.BlobEnds | internal/runner/requests.go:289-314 | Completes a verified transfer; removes any other |
| BlobReceiver.Uploads.TakeBlob | internal/runner/requests.go:318-341 | Hands over a complete transfer once, leaves an unfinished one in place |
| Config.ResolvesExactly | config/config.go:397-411 | Resolution fails exactly if the extends chain comes back to one of its names, leads to a missing name, or to one with nothing behind it; otherwise the chain ends |
| Config.ResolveBundle | config/config.go:397-423 | The loops return the base-first sum of the chain's layers, and terminate within the number of bundles |
| Config.BaseFirst | config/config.go:389-421 | In every list what a bundle extends comes before the bundle's own entries |
| Config.OwnLayer | config/config.go:413-421 | A bundle's own layer is its own lists, nothing less and nothing more |
| Config.MostSpecificWins | config/config.go:412-416 | The strict flag is that of the most specific layer that has one, or true |
| Config.Layers | config/config.go:412-421 | Adds the layers up, base first |
| Validation.ValidateBundles | config/validate.go:172-202 | Validation panics exactly if some bundle leads to an empty definition; otherwise it finds no problem exactly if every bundle, also one with the name "", is defined, well named, extends a known one and resolves |
| Validation.CrashNeedsHollowBase | config/validate.go:177-188 | The panic needs an empty base behind a defined bundle |
| Validation.ValidateRunners | config/validate.go:115-119 | No problem exactly if every runner's bundle exists |
| Validation.ValidateRoutes | config/validate.go:228-274 | No problem exactly if every route is well formed, no channel is claimed twice and there is one DM route at most |
| Validation.ValidBundlesResolve | config/validate.go:62-84 | In a configuration without problems every runner's bundle resolves to the sum of a finished chain |
| Validation.RoutingIsUnambiguous | config/config.go:326-336 | Then the runner found for a message is configured, and the same for every permutation of the routes |
| Validation.RunnerFor | config/config.go:326-336 | The runner of the first DM route for a direct message, of the first route that names the channel otherwise; none exactly if there is no such route |
| YamlEdit.SetPath | cmd/splitscreen/runners.go:415-447 | On a heap tree that shares nothing: writes the path as specified, with new sections where there are none, or fails and leaves every node as it was |
| YamlEdit.SetIsRead | cmd/splitscreen/runners.go:421-438 | What was written is read back as a scalar; a field that was a string stays one |
| YamlEdit.SetKeepsOthers | cmd/splitscreen/runners.go:415-447 | Every path that is neither prefix nor extension of it reads as before |
| YamlEdit.SetFails | cmd/splitscreen/runners.go:417-428 | It fails exactly if the path leads through a non-section or to a non-scalar |
| YamlEdit.DeleteKey | cmd/splitscreen/runners.go:489-497 | Removes the first pair with the key, tells whether there was one |
| YamlEdit.DeleteKeepsOthers | cmd/splitscreen/runners.go:489-497 | Other keys keep their values |
| YamlEdit.DeleteIsComplete | cmd/splitscreen/runners.go:489-497 | The key is gone exactly if it stood there once |
| YamlEdit.CloneNode | cmd/splitscreen/runners.go:466-476 | A copy that reads the same and shares no node with the original |
| YamlEdit.AddRunner | cmd/splitscreen/runners.go:178-211 | The template's block is copied, stripped, overridden and appended; the template's own nodes are untouched, and on an error nothing is appended |
| YamlEdit.OthersKeepTheirBlocks | cmd/splitscreen/runners.go:209 | Every runner that was there reads as before |
| YamlEdit.OverridesAreRead | cmd/splitscreen/runners.go:196-200 | What an override wrote is read in the end as a scalar with its text, unless a later one touches its path |
| YamlEdit.OverridesKeepTheRest | cmd/splitscreen/runners.go:196-200 | What no override touches is read as in the block |
| YamlEdit.NewRunnerReads | cmd/splitscreen/runners.go:186-209 | Under the new runner's name, each override is read that no later one touches, and the rest as in the template without what identifies it |
| YamlStripped.StrippedReads | cmd/splitscreen/runners.go:189-191 | A key stripped as often as it stands there is gone, and all under other keys is read as before |
| YamlStripped.MadeExactly | cmd/splitscreen/runners.go:178-211 | A runner is made exactly if the template is there and is a section, and each override leads only through sections, and to nothing but a scalar, in what the ones before it left |
| YamlStripped.NewRunnerIsAnother | cmd/splitscreen/runners.go:186-209 | What no override touches is read under the new name as under the template, and what identifies the template is not there |
| YamlEdit.FindKey | cmd/splitscreen/route.go:409-416 | The first value under a key |
| YamlEdit.DropRoutes | cmd/splitscreen/runners.go:303-315 | The filter that overwrites the buffer it reads equals the pure filter, and reports the dropped targets |
| YamlEdit.OnlyItsRoutesGo | cmd/splitscreen/runners.go:303-315 | No route to the removed runner is left, every other one is, as often as before and in order |
| YamlEdit.EveryDropIsReported | cmd/splitscreen/runners.go:305-312 | Kept and reported routes add up |
| YamlStripped.TargetsAre | cmd/splitscreen/runners.go:304-309 | Every dropped route is reported once, in order, by its channel, or as "<dm>" without one |
| YamlStripped.FieldReads | cmd/splitscreen/route.go:418-427 | A field's text is what stands under its key, or nothing |

## Left out

- A gateway restart and the removal of a runner from the configuration: they empty memory or end turns while the map is visited; conservation and order are not claimed across them.
- The gateway's handlers are one step each; `SchedulerMarking`, `SchedulerOverlap` and `SchedulerTwice` look inside where a turn is opened, queued and ended.
- Commands, thread binding, files held for an offline runner, notices, personas, working indicators, usage and prices, wake-ups and the web page.
- SchedulerSlots.RunBounded: the caps do not change during a run; the code reads the cap again from the configuration of the day for each arriving message.
- The choice of runner for a message is an input of the scheduler; so is the order in which a Go map yields its keys.
- Composition: the handlers of one message are separate steps, but a gateway handler is one step; frames other than messages and terminal frames are not modelled. `Close` stands for eviction, the idle reaper, a fresh start and a crash at any time.
- SessionCap: the interleaved cap is a step system on values only, since its claim is about goroutines between their steps; `MakeRoom` has the loops in place.
- SessionCap: looking at a session and closing it under its lock are each one step; a message may still reach a session between being handed it and marking it busy, which `Composition` covers.
- MakeRoom.Runner.MakeRoom: sorting is stable here; the code's sort orders equal idle times arbitrarily.
- Requests: the gateway's side is any reply to any request at any time.
- StreamTheorems.AnswerArrives: a flush is one step, as is the close; `LostBetween` says what changes when it is not.
- SlackPlan.Plan.TaskChunkLocked: a card's details and output, and their truncation.
- How free text becomes a step's title and detail, truncation of titles and details, and conversion of markdown.
- Permissions.NothingUnjustified: request ids are fresh; rule matching is an abstract predicate on rule, tool and input; deny rules are those of the runner's policy on arrival, none if the runner is not configured.
- The store's decision records and audit log, and the messages shown for a resolved prompt.
- Bundles: one runner's state; a push is one step from its lock to noting what the connection has (`BundleSends` takes it apart); building, hashing and materializing files are the digest and the success of an apply; marking threads stale is left out.
- Chunks.DecodeInvertsEncode: the JSON text of a chunk header is an abstract codec that round-trips; file names are not sanitized, a destination is a path.
- BlobReceiver: a write to a file that fails is taken to have written nothing of its chunk.
- The gateway's own reception of files from a runner, which mirrors the runner's.
- Validation: checks of names, plugins and marketplaces are abstract; the remaining checks of runners, gateway settings and MCP servers would only add easy members.
- YamlEdit.SetPath: the loop along the path is a recursion on its rest, so that each node's footprint is updated on the way back; comments, styles and aliases are not modelled, and the resolved tag of an unquoted value is a function.
- YamlEdit.AddRunner: the wake block's machine and the generated comment.
