# The authoritative server's protocols

This project models the stateful protocols of a war-game server and proves what they promise.

- **The durable event log** (`EventLog`): four generations of a log file, a rotation made of staged renames with
  rollback, a checkpoint that guards the oldest generation, and a reader that insists on contiguous numbers. The disk
  is a map from names to lines; each rename, removal and write may fail, and one that fails changes nothing.
- **The strict task set** (`StrictTasks`): tasks with exclusive seats and targets, limits per side, eviction of closed
  tasks, and a chain of stages with one loop.
- **The message bus and reachability** (`Reachability`, `MessageBus`, `StateProjector`, `Agreement`): directed
  range-limited search, acknowledgements, retries, a bounded memory of delivered ids, and a second, cached
  implementation of reachability with a traversal of its own.
- **The scripted demonstration** (`DemoWorkflow`): seventeen actions guarded by revisions, a bounded memory of action
  ids, a target script applied step by step, and a saved form that is checked when it is read back.
- **The room operations of the account service** (`RoomOperations`): requests that become pending, and acknowledgements
  that commit them.
- **The intelligence history** (`IntelHistory`): a numbered list that keeps its newest entries and is read by pages.
- **The room** (`RoomModel`, `RoomInvariants`, `RoomRollback`, `RoomSafety`, `RoomRuns`, `RoomRoster`,
  `RoomPlacement`, `RoomSingleSide`, `RoomSharedUnits`, `RoomPlays`, `AuthoritativeRoom`): seats, transfers, phases,
  the opponent's roster and its placement, the single-side mode with its automated seats, the units of a scenario that
  seats are bound to, and the saved form an operation falls back on when it gives up.

Each component is a class whose methods change its fields step by step. A method's contract ties the new state to a
function of the old one, and the lemmas prove what the source promises about these functions: invariants over every
run, round trips, exactness of rollback, agreement of two implementations. `Options`, `Listings` and `Xorshift` hold
what several modules share. Orders in which a hash table lists its keys, random choices, clock readings and failures
are parameters, so every statement holds for all of them.

The room is looked at in two regimes. `Sound(Any, r)` is what every room keeps: nobody sits twice, transfers and
waiting seats match, winner and phase go together, the memory is bounded and listed once, and in the single-side mode
nobody sits on the blue side. `Sound(Standard, r)` says more of a standard room, one that is bound to no scenario and
never enters the single-side mode: its units are distinct and its seats can be read back as they are. Every public
method of the class `AuthoritativeRoom` keeps `Valid()`, which is `Sound(Any, State())`; reading a saved form from
outside is the exception.

Some properties turned out to hold only under a condition, which the project states exactly:

- Blocking or unblocking a strict task does not ask whether the task is still open. It keeps the set safe if and only
  if the task is open or could be created now (`StrictTasks.ReopenIsSafeIff`), and
  `StrictTasks.BlockingAFinishedTaskBreaksExclusivity` gives a run after which it does not.
- A saved demonstration is accepted if and only if its recorded times are finite
  (`DemoWorkflow.SavedStateIsRestoredExactly`). What is accepted from elsewhere is all that a run keeps if and only if
  it is completed whenever its last action is done and has no more reports and archived runs than are kept
  (`DemoWorkflow.AcceptedIsSoundIff`); `DemoWorkflow.UnfinishedPastTheEndIsAccepted` and
  `DemoWorkflow.TooMuchIsAccepted` give saved forms that are not, and are accepted.
- The cached reachability is right for every topology whose fingerprint no other topology has
  (`StateProjector.Projector.DirectedReachable`).
- Rolling a standard room back restores everything but the list of departed users, which is not saved
  (`RoomRollback.SavedRoomIsRestored`). In any room it does so up to the bindings of its seats, if and only if each seat
  would be accepted by itself; else nothing is rolled back (`RoomRollback.SavedRoomIsRead`). For a refused change of
  mode, a refused claim and a failed deployment this says what is left behind (`RoomRoster.FailedModeChangeIsUndoneIff`,
  `RoomRoster.FailedClaimIsUndoneIff`, `RoomPlacement.OpponentIsPlacedOrGivenUp`), and
  `RoomPlays.RefusedModeChangeStandsInARun` is a run with a promotion after which a change of mode reports a failure
  and yet stands.
- Redeploying a room gives no two seats the same unit if and only if no two were bound to one unit of the scenario
  before (`RoomSharedUnits.RedeployingKeepsUnitsApartIff`). In `RoomPlays.UnitsCollideInARun` two are: a person moves on
  and takes the unit along, and somebody else claims the place.
- Binding seats to a scenario comes to an end if and only if no side has a command post too many
  (`RoomSingleSide.BindingEndsIff`; `RoomSingleSide.TwoCommandPostsNeverEnd` gives two that are). The server supplies
  only scenarios with one on each side (`server/game/GameServer.cpp:728`), and the method asks for an end.
- A scenario's units have one place each after binding if and only if no two seats were bound to the same unit before
  (`RoomSingleSide.EveryUnitHasItsPlace`).

## Model

| member | source | states |
|---|---|---|
| `EventLog.RecoveryLosesNothing` | server/game/RoomPersistence.cpp:722-930 | Over every run of appends, checkpoints, rotations and injected step failures whose rollback works, reading after the checkpoint gives exactly the later events, in order and without a gap; every generation stays below twice the size limit |
| `EventLog.RunIsSafe` | server/game/RoomPersistence.cpp:722-880 | At every point of such a run the four generations hold one contiguous range that starts no later than the event after the checkpoint and ends at the last event appended |
| `EventLog.StepIsSafe` | server/game/RoomPersistence.cpp:722-880 | Every single append or checkpoint, with whatever step failing, keeps that |
| `EventLog.DropKeeps` | server/game/RoomPersistence.cpp:767-791 | What the checkpoint guard lets a rotation drop is covered by the checkpoint |
| `EventLog.NothingLost` | server/game/RoomPersistence.cpp:798-862 | However far a rotation has got, each generation is on disk, unchanged, at the place its progress says |
| `EventLog.InstalledIsRotated` | server/game/RoomPersistence.cpp:857-862 | Once three generations are installed, removing the staged oldest one leaves exactly the rotated log |
| `EventLog.RoomPersistence.Rotate` | server/game/RoomPersistence.cpp:792-862 | A rotation shifts every generation by one and drops only the oldest, or else leaves every file at a known place; it puts the four generations exactly back whenever the rollback meets no failure, and succeeds when no step fails |
| `EventLog.RoomPersistence.RestoreRotation` | server/game/RoomPersistence.cpp:798-827 | A rollback whose own renames work restores the disk exactly, and it reports success only when it has |
| `EventLog.RoomPersistence.UninstallAll` | server/game/RoomPersistence.cpp:800-809 | Installed files go back to their staged names, whichever renames fail |
| `EventLog.RoomPersistence.UnstageAll` | server/game/RoomPersistence.cpp:810-825 | Staged files go back to their own names, whichever renames fail |
| `EventLog.RoomPersistence.StageAll` | server/game/RoomPersistence.cpp:841-847 | Every generation that exists is renamed out of the way, up to the first failure |
| `EventLog.RoomPersistence.Install` | server/game/RoomPersistence.cpp:848-856 | One staged file takes the next generation's name, or nothing changes |
| `EventLog.RoomPersistence.Rename` | server/game/RoomPersistence.cpp:148-156 | A rename moves one file to a free name or changes nothing |
| `EventLog.RoomPersistence.HighestEventSequence` | server/game/RoomPersistence.cpp:119-146 | The highest sequence number of a file, refused exactly when some line has none |
| `EventLog.RoomPersistence.AppendEvent` | server/game/RoomPersistence.cpp:722-880 | What one append may do to the disk, failure by failure, and that it asks for a checkpoint only when the oldest generation is not covered |
| `EventLog.RoomPersistence.SaveCheckpoint` | server/game/RoomPersistence.cpp:644-685 | The new checkpoint is stored whole, or the old one stays |
| `EventLog.RoomPersistence.ReadFile` | server/game/RoomPersistence.cpp:895-927 | One file is read on from what was read before, stopping at the first line that is refused |
| `EventLog.RoomPersistence.EventsAfter` | server/game/RoomPersistence.cpp:882-930 | The events after a sequence number in order; an error exactly when a line is unreadable or the numbers are not contiguous |
| `StrictTasks.RunIsConsistent` | server/game/StrictVmfTask.cpp:219-317 | Over every run, with blocking applied where it is safe, open tasks share no seat and no target, each side has at most 16 of them, the set at most 100 tasks, its order list is a permutation of its keys, and every task has walked the chain to its stage |
| `StrictTasks.CompletedTaskWalkedTheChain` | server/game/StrictVmfTask.cpp:127-191 | A completed task went through the whole chain by the seats bound to it, with one strike round more than it had negative assessments |
| `StrictTasks.AtMostOncePerRevision` | server/game/StrictVmfTask.cpp:267-293 | At most one command takes effect for each expected revision of a task |
| `StrictTasks.RevisionsGrow` | server/game/StrictVmfTask.cpp:193-217 | Over every stretch of a run the revision of a task rises by at least the number of commands to it that take effect, and never falls |
| `StrictTasks.SomethingIsRemovable` | server/game/StrictVmfTask.cpp:248-259 | With at most 32 open tasks, a set over its limit holds one that may be evicted |
| `StrictTasks.EvictionIsSafe` | server/game/StrictVmfTask.cpp:248-259 | Eviction brings the set to its limit and never removes an open task |
| `StrictTasks.CreateIsSafe` | server/game/StrictVmfTask.cpp:219-265 | Creating a task keeps the set safe, whether it is refused, added, or added after evictions |
| `StrictTasks.ReopenIsSafeIff` | server/game/StrictVmfTask.cpp:294-309 | Blocking or unblocking a task keeps the set safe if and only if the task is open, or could be created now |
| `StrictTasks.BlockingAFinishedTaskBreaksExclusivity` | server/game/StrictVmfTask.cpp:294-309 | A run, without any blocking, at whose end blocking the finished task leaves two open tasks with the same seats and target |
| `StrictTasks.ChainStep` | server/game/StrictVmfTask.cpp:127-171 | Every permitted action extends the walked chain by one, through the one loop for a failed strike |
| `StrictTasks.StrictVmfTaskSet.CreateTask` | server/game/StrictVmfTask.cpp:219-265 | Creates, refuses or evicts as specified |
| `StrictTasks.StrictVmfTaskSet.Survey` | server/game/StrictVmfTask.cpp:230-240 | Whether the resources are taken, and how many tasks of the side are open |
| `StrictTasks.StrictVmfTaskSet.FindRemovable` | server/game/StrictVmfTask.cpp:249-257 | The first closed task of the order list |
| `StrictTasks.StrictVmfTaskSet.Evict` | server/game/StrictVmfTask.cpp:248-259 | Evicts closed tasks, oldest first, until the limit is met |
| `StrictTasks.StrictVmfTaskSet.ApplyAction` | server/game/StrictVmfTask.cpp:267-293 | A stage action by its seat at its revision, held for a human at a placeholder, refused otherwise |
| `StrictTasks.StrictVmfTaskSet.SetBlocked` | server/game/StrictVmfTask.cpp:294-302 | Blocks the task, open or not |
| `StrictTasks.StrictVmfTaskSet.ClearBlocked` | server/game/StrictVmfTask.cpp:303-309 | Unblocks the task, open or not |
| `StrictTasks.StrictVmfTaskSet.CompleteReturnLeg` | server/game/StrictVmfTask.cpp:311-317 | Closes a returning task |
| `Reachability.Search` | src/core/MessageBus.cpp:83-101 | The breadth-first search meets its target if and only if a chain of active units of one side, each within its predecessor's range, leads there |
| `Reachability.Expand` | src/core/MessageBus.cpp:87-100 | One unit is expanded: everything it links to has been visited |
| `Reachability.ClosedSetTraps` | src/core/MessageBus.cpp:87-100 | No chain leaves a set that is closed under hops |
| `MessageBus.MessageBus.CanCommunicate` | src/core/MessageBus.cpp:70-102 | True if and only if such a chain exists |
| `MessageBus.AtMostOncePerMemory` | src/core/MessageBus.cpp:149-199 | Over every run, a message with automatic acknowledgement is handed to a recipient at most once, and once more for each time the bounded memory has dropped its id |
| `MessageBus.RememberedIsNotRedelivered` | src/core/MessageBus.cpp:149-207 | While its id is remembered, a message is not handed to anybody again |
| `MessageBus.RunIsSound` | src/core/MessageBus.cpp:104-253 | Over every run the memory lists its ids once and within 4096, and pending entries are filed under their own ids |
| `MessageBus.UnicastDispatch` | src/core/MessageBus.cpp:149-221 | A unicast dispatch with a reachable receiver delivers and settles within the call, and otherwise leaves the entry pending |
| `MessageBus.UnicastSettlesWhenReachable` | src/core/MessageBus.cpp:104-221 | The same for the first sending: settled in that call if and only if the receiver is reachable |
| `MessageBus.RetrySettlesWhenReachable` | src/core/MessageBus.cpp:228-253 | The same for a retry |
| `MessageBus.UnansweredMessageIsGivenUpOnTime` | src/core/MessageBus.cpp:104-253 | From its first sending on, a message nobody acknowledges is dispatched exactly R+1 times in all and given up between (R+1)T, up to the slack, and (R+1)(T+d) after it was sent, once and for all; it is never pending later than that |
| `MessageBus.DispatchEffect` | src/core/MessageBus.cpp:149-221 | One dispatch keeps the bus sound and settles the message if anybody is reachable |
| `MessageBus.SendEffect` | src/core/MessageBus.cpp:104-147 | One sending does too |
| `MessageBus.MessageBus.SendMessage` | src/core/MessageBus.cpp:104-147 | Completes, notes and dispatches the message |
| `MessageBus.MessageBus.Prepare` | src/core/MessageBus.cpp:104-140 | Gives an id and flags, notes the pending entry, and settles the message an acknowledgement replies to |
| `MessageBus.MessageBus.DispatchMessage` | src/core/MessageBus.cpp:149-199 | Delivers to the audience, or only acknowledges again when the id is remembered |
| `MessageBus.MessageBus.PickAudience` | src/core/MessageBus.cpp:152-198 | Nobody, the reachable receiver, or every reachable handler but the sender |
| `MessageBus.MessageBus.RememberAutomaticMessageId` | src/core/MessageBus.cpp:201-208 | Remembers an id, forgetting the oldest beyond 4096 |
| `MessageBus.MessageBus.MaybeAutoAck` | src/core/MessageBus.cpp:210-221 | Sends the acknowledgement, when one is due, like any other message |
| `MessageBus.MessageBus.Deliver` | src/core/MessageBus.cpp:398-408 | Hands the message to the recipient |
| `MessageBus.MessageBus.AdvanceSimulationTime` | src/core/MessageBus.cpp:228-253 | Moves the clock and runs every pending timer |
| `MessageBus.MessageBus.RetryPending` | src/core/MessageBus.cpp:233-252 | Retries an entry whose time is up, or gives it up after the last retry |
| `MessageBus.MessageBus.SetAckPolicy` | src/core/MessageBus.cpp:255-261 | Sets the policy with its lower bounds |
| `StateProjector.ImplementationsAgree` | server/game/StateProjector.cpp:49-161 | With the bus mirroring the engine's units, both reachability relations are the same |
| `StateProjector.Projector.DirectedReachable` | server/game/StateProjector.cpp:130-161 | Through the cache, after any earlier queries, the answer for distinct units is the reachability of the current topology, provided no other topology has its fingerprint |
| `Agreement.AskBoth` | server/game/StateProjector.cpp:49-161 | Asked about two different units, bus and projector give the same answer, whatever was asked, cached and evicted before, if the bus mirrors the engine and no other topology has its fingerprint |
| `StateProjector.HopsAreLinks` | server/game/StateProjector.cpp:49-55 | The projector's own test of one hop agrees with the bus's on every pair of units |
| `StateProjector.Projector.ExpandUnit` | server/game/StateProjector.cpp:107-119 | Expanding one unit meets every unit of the side within its directed range |
| `StateProjector.Projector.Traverse` | server/game/StateProjector.cpp:98-123 | The projector's traversal from one unit meets exactly what a chain leads to |
| `StateProjector.Projector.BuildTable` | server/game/StateProjector.cpp:90-128 | One traversal for each unit of the side gives what each reaches |
| `StateProjector.Projector.Lookup` | server/game/StateProjector.cpp:148-159 | The cached table is used exactly while both its revision and its fingerprint are the current ones, else the current topology's is made and takes its place |
| `StateProjector.Projector.Touch` | server/game/StateProjector.cpp:142-147 | The engine becomes the most recently used; of the others the last fifteen stay, in their order, and only their tables do |
| `StateProjector.Projector.Evict` | server/game/StateProjector.cpp:144-146 | Engines go from the front of the order until sixteen are left, and their tables with them |
| `DemoWorkflow.PersistedRunIsRestored` | server/game/VmfDemoWorkflow.cpp:315-815 | From every state that actions, controls and cancellation at finite times can bring about, reading back what was saved succeeds and gives that state; the remembered ids are those of the history, each once |
| `DemoWorkflow.SavedStateIsRestoredExactly` | server/game/VmfDemoWorkflow.cpp:656-815 | What is saved of a sound workflow is accepted if and only if every recorded time is finite, and is then the same workflow |
| `DemoWorkflow.AcceptedIsSoundIff` | server/game/VmfDemoWorkflow.cpp:681-815 | Whatever is read back is in step with its script, remembers each action once and has finite times; it is all that a run keeps if and only if it is completed whenever its last action is done and has at most 128 reports and 20 archived runs, none of which is checked |
| `DemoWorkflow.AcceptedAgain` | server/game/VmfDemoWorkflow.cpp:656-815 | What was accepted once is accepted again, unchanged, even where no run leads to it |
| `DemoWorkflow.TooMuchIsAccepted` | server/game/VmfDemoWorkflow.cpp:681-815 | A saved form with any number of reports and archived runs is accepted; the next action that takes effect brings the reports back to their bound |
| `DemoWorkflow.AppliesOrChangesNothing` | server/game/VmfDemoWorkflow.cpp:315-512 | A command is accepted as more than a repetition if and only if it passes every check, and then does the work and moves on; else it leaves everything as it was |
| `DemoWorkflow.UnfinishedPastTheEndIsAccepted` | server/game/VmfDemoWorkflow.cpp:681-815 | A concrete saved form with an unfinished status past the last action is accepted, and from it every action and a new start are refused |
| `DemoWorkflow.IncrementalScriptEqualsRecompute` | server/game/VmfDemoWorkflow.cpp:246-284 | In every reachable state, after jumps, resets, new scripts and the way back, cursor and target state are what a recomputation gives, and exactly the cues whose phase has come have been applied; the last action is done if and only if the status is completed |
| `DemoWorkflow.ContinuingIsReplaying` | server/game/VmfDemoWorkflow.cpp:268-284 | Going on from the cursor gives what starting the script over would give |
| `DemoWorkflow.ExactlyTheDueCuesAreApplied` | server/game/VmfDemoWorkflow.cpp:268-284 | In a valid script a cue has been applied if and only if its phase has come |
| `DemoWorkflow.CommandsApplyAtMostOnce` | server/game/VmfDemoWorkflow.cpp:315-512 | No two commands that take effect in one run were written for the same revision, whatever has been forgotten or reset in between |
| `DemoWorkflow.RevisionTellsEffect` | server/game/VmfDemoWorkflow.cpp:286-595 | A call that takes effect raises the revision by one, and every other call changes nothing |
| `DemoWorkflow.RepetitionIsRecognised` | server/game/VmfDemoWorkflow.cpp:296-313 | A command sent again while its id is remembered changes nothing, and is a repetition if and only if action and seat agree |
| `DemoWorkflow.CompletedRunStruckOncePerFailurePlusOne` | server/game/VmfDemoWorkflow.cpp:315-512 | Without jumps, a completed generation has made one strike more than it had confirmations that the target was not destroyed |
| `DemoWorkflow.EveryCallIsSound` | server/game/VmfDemoWorkflow.cpp:315-595 | Every action, control and passage of time keeps the workflow sound |
| `DemoWorkflow.ForgettingKeeps` | server/game/VmfDemoWorkflow.cpp:484-496 | Forgetting the oldest actions keeps the remembered ids equal to those of the history |
| `DemoWorkflow.KnownNamesAreTheTables` | server/game/VmfDemoWorkflow.cpp:762-773 | The action and seat names accepted in a saved history are exactly those of the action table |
| `DemoWorkflow.VmfDemoWorkflow.ApplyAction` | server/game/VmfDemoWorkflow.cpp:315-512 | An action as specified, with the checks in their order |
| `DemoWorkflow.VmfDemoWorkflow.Check` | server/game/VmfDemoWorkflow.cpp:320-424 | The first check that a command fails, if any |
| `DemoWorkflow.VmfDemoWorkflow.Work` | server/game/VmfDemoWorkflow.cpp:355-446 | What each action writes into the task |
| `DemoWorkflow.VmfDemoWorkflow.Log` | server/game/VmfDemoWorkflow.cpp:448-497 | Report, trace and history entry, each within its limit |
| `DemoWorkflow.VmfDemoWorkflow.MoveOn` | server/game/VmfDemoWorkflow.cpp:498-511 | The next action, or the way back with the script started over |
| `DemoWorkflow.VmfDemoWorkflow.DuplicateActionResult` | server/game/VmfDemoWorkflow.cpp:296-313 | The answer for a remembered id, from the newest entry under it |
| `DemoWorkflow.VmfDemoWorkflow.RememberAction` | server/game/VmfDemoWorkflow.cpp:484-497 | The newest 4096 actions and their ids |
| `DemoWorkflow.VmfDemoWorkflow.AppendReport` | server/game/VmfDemoWorkflow.cpp:230-234 | The newest 128 reports |
| `DemoWorkflow.VmfDemoWorkflow.ArchiveGeneration` | server/game/VmfDemoWorkflow.cpp:236-244 | The newest 20 archived generations |
| `DemoWorkflow.VmfDemoWorkflow.ApplyScriptForCurrentPhase` | server/game/VmfDemoWorkflow.cpp:268-284 | Applies the cues up to the first that is still to come |
| `DemoWorkflow.VmfDemoWorkflow.RebuildTargetStateForCurrentPhase` | server/game/VmfDemoWorkflow.cpp:246-255 | Starts the script over for the current action |
| `DemoWorkflow.VmfDemoWorkflow.ResetWorkflow` | server/game/VmfDemoWorkflow.cpp:203-215 | Back to the first action of a new task |
| `DemoWorkflow.VmfDemoWorkflow.ApplyControl` | server/game/VmfDemoWorkflow.cpp:514-585 | Each control as specified |
| `DemoWorkflow.VmfDemoWorkflow.FindFirst` | server/game/VmfDemoWorkflow.cpp:554-564 | The first action of a phase |
| `DemoWorkflow.VmfDemoWorkflow.AdvanceCancellation` | server/game/VmfDemoWorkflow.cpp:587-595 | Archives and resets once the cancellation is over |
| `DemoWorkflow.VmfDemoWorkflow.ValidateTargetScript` | server/game/VmfDemoWorkflow.cpp:152-194 | Accepts exactly the valid scripts |
| `DemoWorkflow.VmfDemoWorkflow.ToJson` | server/game/VmfDemoWorkflow.cpp:656-679 | The saved form, naming each remembered id once |
| `DemoWorkflow.VmfDemoWorkflow.Restore` | server/game/VmfDemoWorkflow.cpp:681-815 | Accepts or refuses as specified, and changes nothing when it refuses |
| `DemoWorkflow.VmfDemoWorkflow.CheckSeen` | server/game/VmfDemoWorkflow.cpp:752-757 | Accepts exactly the lists of valid ids without a repetition |
| `DemoWorkflow.VmfDemoWorkflow.CheckHistory` | server/game/VmfDemoWorkflow.cpp:758-777 | Accepts exactly the histories with known, finite and distinct entries |
| `RoomOperations.RunIsSafe` | server/account/app.py:2426-2510 | Under any order, repetition and delay of requests, heartbeats and acknowledgements, each room has at most one pending operation, and its status still permits it |
| `RoomOperations.OnlyATakenIdClashes` | server/account/app.py:2484-2493 | The uniqueness check at the insertion can fail only because the random id is taken |
| `RoomOperations.FinishedOperationsStayPut` | server/account/app.py:2782-2824 | Once acknowledged, failed or superseded, an operation never changes again |
| `RoomOperations.LaterAcknowledgementsChangeNothing` | server/account/app.py:2793-2802 | After an operation has been settled, every further acknowledgement of it changes nothing, and is recognised if and only if its result is the same |
| `RoomOperations.OperationsSettleAtMostOnce` | server/account/app.py:2782-2824 | No finished or superseded operation is settled again |
| `RoomOperations.PendingOperationFreezesTheRoom` | server/account/app.py:2735-2824 | While one operation stays pending, its room's status, winner and reason stand still |
| `RoomOperations.OnlyTheOwnAcknowledgementCommits` | server/account/app.py:2752-2824 | A room's lifecycle changes only by the acknowledgement of its own pending operation, or by a heartbeat while none is pending |
| `RoomOperations.CommitsAreLegalTransitions` | server/account/app.py:2457-2471 | Whatever is committed was permitted from the status it replaces, commits that verb's status, and at a revision after the requested one |
| `RoomOperations.AccountService.RoomAction` | server/account/app.py:2426-2510 | A request is refused, supersedes, or becomes pending; a refusal commits nothing |
| `RoomOperations.AccountService.Insert` | server/account/app.py:2484-2493 | Inserts the operation unless its id is taken or its room has a pending one |
| `RoomOperations.AccountService.FindPending` | server/account/app.py:2442-2446 | The pending operation of a room |
| `RoomOperations.AccountService.RoomStatusReport` | server/account/app.py:2735-2773 | A heartbeat sets the lifecycle unless an operation is pending |
| `RoomOperations.AccountService.RoomOperationAck` | server/account/app.py:2776-2827 | An acknowledgement settles its operation and its room, is recognised again, or is refused |
| `IntelHistory.HistoryIsTheNewest` | server/game/IntelLedger.cpp:143-148 | Whatever is recorded, the history is the last min(256, n) entries with consecutive numbers ending at n |
| `IntelHistory.PagingIsComplete` | server/game/IntelLedger.cpp:455-502 | Following the cursor with a fixed query yields every matching entry once, in order, and ends |
| `IntelHistory.PagesAreFull` | server/game/IntelLedger.cpp:466-500 | Every page but the last is full |
| `IntelHistory.CursorSkips` | server/game/IntelLedger.cpp:473-500 | The next cursor leaves exactly the entries after the page |
| `IntelHistory.NothingIsReadTwice` | server/game/IntelLedger.cpp:455-502 | With entries recorded between the pages, what is read on a later page has a greater number than anything on an earlier one, each page is in order, and all of it was recorded and matches |
| `IntelHistory.ReadingIsBounded` | server/game/IntelLedger.cpp:455-502 | However the history grows meanwhile, a reading has no more pages than entries after its first cursor, and one |
| `IntelHistory.OnlyDroppedEntriesAreMissed` | server/game/IntelLedger.cpp:455-502 | A reading that has ended has missed only entries the history no longer holds |
| `IntelHistory.IntelLedger.Record` | server/game/IntelLedger.cpp:143-148 | Appends under the next number and drops the oldest beyond 256 |
| `IntelHistory.IntelLedger.EnsureSeat` | server/game/IntelLedger.cpp:114-116 | A seat without a ledger gets an empty one |
| `IntelHistory.IntelLedger.HistoryPage` | server/game/IntelLedger.cpp:455-502 | The page at the query's cursor, and an empty page for an unknown seat |
| `IntelHistory.IntelLedger.Scan` | server/game/IntelLedger.cpp:469-501 | The first matching entries after the cursor, whether there are more, and the cursor after them |
| `RoomRuns.RunIsSound` | server/game/AuthoritativeRoom.cpp:56-1245 | Through any calls in any order, with seats bound to a scenario or not and in the single-side mode or not, every room of a run is sound; and as a standard room, if it is bound to none and never enters that mode |
| `RoomRuns.SeatsAndUnitsAreDistinct` | server/game/AuthoritativeRoom.cpp:234-271 | At every point of any run nobody holds two seats; and in a standard room no two seats have the same unit, through claims, takeovers, transfers, promotion, redeployment and rollback |
| `RoomRuns.TransfersMatchTheWaitingSeats` | server/game/AuthoritativeRoom.cpp:739-855 | At every point of any run the seats waiting for a transfer are exactly those of the people who have one, none is a commander's, and each transfer leads to a place on its owner's side |
| `RoomRuns.ResultAndMemoryAreConsistent` | server/game/AuthoritativeRoom.cpp:1105-1231 | At every point of any run there is a winner if and only if the match is over, and at most 256 operations are remembered, each once and in order |
| `RoomRuns.ResultStandsUntilReset` | server/game/AuthoritativeRoom.cpp:1105-1231 | In any run, once a match is over nothing but a reset or a redeployment of the room changes its winner |
| `RoomRuns.SingleSideIsOneSided` | server/game/AuthoritativeRoom.cpp:86-116 | At every point of any run in the single-side mode there is no opponent and nobody in person on the blue side |
| `RoomRuns.EveryRoomIsRestored` | server/game/AuthoritativeRoom.cpp:1326-1498 | Every room of a standard run is read back from its saved form unchanged, up to the departed users |
| `RoomRuns.EveryRoomIsReadOrRefused` | server/game/AuthoritativeRoom.cpp:1326-1498 | Every room of any run is read back with its seats as reading leaves them, or refused without a trace; refused if and only if one of its seats is not acceptable |
| `RoomRollback.SavedRoomIsRead` | server/game/AuthoritativeRoom.cpp:1326-1498 | The same for every sound room, in whatever order seats and transfers are written |
| `RoomRollback.PromotedIsReadableIff` | server/game/AuthoritativeRoom.cpp:857-905 | While preparing outside the single-side mode, a promotion leaves a room whose saved form is accepted if and only if the unit the successor comes to be bound to, if any, is a command post of that side |
| `RoomRollback.SavedRoomIsRestored` | server/game/AuthoritativeRoom.cpp:1326-1498 | For every sound standard room saving and reading back is the identity, up to the departed users |
| `RoomRollback.RollingBackIsExact` | server/game/AuthoritativeRoom.cpp:1355-1498 | In a standard room, reading back what was saved undoes whatever was done in between |
| `RoomRollback.RollingBackIsSound` | server/game/AuthoritativeRoom.cpp:1355-1498 | In any room, a rollback leaves a sound room, whether it succeeds or is itself refused |
| `RoomSingleSide.SyncedSidesAreExact` | server/game/AuthoritativeRoom.cpp:335-375 | The roster of the single-side mode is brought about if and only if every seat it needs can be had; the blue side is then exactly the bound targets, each automated kind has a red seat, and no red seat that was there has changed |
| `RoomSingleSide.SyncingSidesTwice` | server/game/AuthoritativeRoom.cpp:335-375 | A second synchronisation of that roster is accepted and changes nothing |
| `RoomSingleSide.InstallingTargets` | server/game/AuthoritativeRoom.cpp:342-351 | Going through the bound places installs every target, or fails at one that cannot be had, and leaves every other place alone |
| `RoomSingleSide.InstallingKinds` | server/game/AuthoritativeRoom.cpp:360-372 | Every automated kind is staffed in the end, if and only if it was or has a template; whatever came is automated |
| `RoomSingleSide.EveryUnitHasItsPlace` | server/game/AuthoritativeRoom.cpp:184-215 | Binding gives every unit of the scenario a place of its side and type, and one only, if and only if no two seats were bound to the same unit before |
| `RoomSharedUnits.RedeployingKeepsUnitsApartIff` | server/game/AuthoritativeRoom.cpp:1123-1231 | After an operation that redeploys a room, bound or not, no two seats have the same unit, if and only if no two seats were bound to one unit of the scenario before |
| `RoomSharedUnits.ClearingKeepsUnitsApartIff` | server/game/AuthoritativeRoom.cpp:1123-1134 | The same for taking all deployments back, in whatever order the seats are gone through |
| `RoomSharedUnits.EachIsRenewed` | server/game/AuthoritativeRoom.cpp:1123-1134 | Each seat gone through gets the unit it is bound to, or else one under a new number of its own |
| `RoomSharedUnits.SharedUnitsCollide` | server/game/AuthoritativeRoom.cpp:1123-1134 | Two seats bound to one unit both get that unit |
| `RoomSharedUnits.PermittedCallsShareAUnit` | server/game/AuthoritativeRoom.cpp:652-855 | In every room in preparation, when a person bound to the unit of their place asks for another place, the commander grants it and somebody else claims the place left behind, all three calls are accepted and both seats are bound to that unit |
| `RoomSharedUnits.TransferAndClaimShareAUnit` | server/game/AuthoritativeRoom.cpp:698-702 | The same for the seats themselves: a moved seat keeps its unit, and the place it left gives it again |
| `RoomPlays.UnitsCollideInARun` | server/game/AuthoritativeRoom.cpp:158-1231 | Ten calls of which there is a run, starting with limits, templates and a scenario such as the server supplies, after which two seats have the same unit, in whatever orders seats are gone through |
| `RoomPlays.RefusedModeChangeStandsInARun` | server/game/AuthoritativeRoom.cpp:56-1498 | Eight such calls after which a promoted scout's seat is not acceptable: what is saved is refused when read back, and turning to a match against the opponent reports a failure while the mode stays changed |
| `RoomSingleSide.BindingEndsIff` | server/game/AuthoritativeRoom.cpp:202-215 | The search for free places ends if and only if each side has at most one command post without a place, and none when its place is taken |
| `RoomSingleSide.TwoCommandPostsNeverEnd` | server/game/AuthoritativeRoom.cpp:202-215 | Two command posts of one side, for which the search never ends |
| `RoomRoster.SyncedRosterIsExact` | server/game/AuthoritativeRoom.cpp:400-435 | The roster is brought up to date if and only if every seat it needs is valid and not taken, and is then exactly the blue commander and the mirrors of the people on the red side |
| `RoomRoster.SyncingTwiceIsSyncingOnce` | server/game/AuthoritativeRoom.cpp:400-435 | In every room a second synchronisation is accepted and changes nothing |
| `RoomRoster.FailedModeChangeIsUndoneIff` | server/game/AuthoritativeRoom.cpp:56-84 | In any room, turning to a match against the opponent fails if and only if that roster is impossible; the mode is then what it was before, and with it the room, up to the bindings of its seats, if and only if each of its seats would be accepted when read back |
| `RoomRoster.FailedClaimIsUndoneIff` | server/game/AuthoritativeRoom.cpp:652-737 | In any room, a claim that is refused leaves the room alone or is given up; the person is then out of the seat again if and only if each seat would be accepted when read back |
| `RoomRoster.FailedModeChangeChangesNothing` | server/game/AuthoritativeRoom.cpp:56-84 | In a standard room, turning to a match against the opponent fails if and only if that roster is impossible, and then leaves the room as it was |
| `RoomRoster.FailedClaimChangesNothing` | server/game/AuthoritativeRoom.cpp:652-737 | In a standard room a refused claim leaves the room as it was, up to the departed users |
| `RoomRoster.InstallingAll` | server/game/AuthoritativeRoom.cpp:412-422 | Going through the seats installs every mirror, or fails at one that cannot be had, and touches nobody else's seat |
| `RoomPlacement.OpponentIsPlacedOrGivenUp` | server/game/AuthoritativeRoom.cpp:494-563 | In any room, a successful deployment puts every seat of the opponent on the map, at least 80 metres from every other one and from every other deployed seat; a failed one is taken back, up to the bindings of the seats, if each seat would be accepted when read back, and else may leave some of the opponent's seats placed, and nobody else's |
| `RoomPlacement.OpponentIsPlacedOrNobodyMoved` | server/game/AuthoritativeRoom.cpp:494-563 | In a standard room, a successful deployment puts every seat of the opponent on the map, at least 80 metres from every other one and from every other deployed seat; a failed one changes nothing |
| `RoomPlacement.DeployingEach` | server/game/AuthoritativeRoom.cpp:532-561 | Each seat gone through is well placed, and they are spaced |
| `Xorshift.NeverZero` | server/game/AuthoritativeRoom.cpp:958-962 | The generator never reaches zero, so a saved room is never refused for it |
| `RoomSafety.SetModeIsSound` | server/game/AuthoritativeRoom.cpp:56-84 | Changing the mode keeps a room sound, as a standard one or as any |
| `RoomSafety.SetVmfSingleSideIsSound` | server/game/AuthoritativeRoom.cpp:86-116 | Entering and leaving the single-side mode does |
| `RoomSafety.SetScenarioUnitsIsSound` | server/game/AuthoritativeRoom.cpp:158-232 | Binding the seats to a scenario does |
| `RoomInvariants.SyncingVmfIsSound` | server/game/AuthoritativeRoom.cpp:335-375 | Synchronising the roster of the single-side mode does |
| `RoomSafety.ConvertingIsSound` | server/game/AuthoritativeRoom.cpp:377-398 | Automating a person's seat does, with the transfer that was waiting there |
| `RoomInvariants.LimitsAreSound` | server/game/AuthoritativeRoom.cpp:118-156 | Changing the limits does |
| `RoomInvariants.CatalogIsSound` | server/game/AuthoritativeRoom.cpp:573-588 | Changing the catalog does |
| `RoomInvariants.SyncingIsSound` | server/game/AuthoritativeRoom.cpp:400-435 | Synchronising the roster does |
| `RoomSafety.InstallPlaceholdersIsSound` | server/game/AuthoritativeRoom.cpp:437-477 | Filling up with placeholders does |
| `RoomSafety.RemovePlaceholdersIsSound` | server/game/AuthoritativeRoom.cpp:479-492 | Taking them away does |
| `RoomSafety.DeployAiSeatsIsSound` | server/game/AuthoritativeRoom.cpp:509-563 | Placing the opponent does |
| `RoomSafety.ClaimSeatIsSound` | server/game/AuthoritativeRoom.cpp:652-737 | Claiming a seat does |
| `RoomSafety.RequestTransferIsSound` | server/game/AuthoritativeRoom.cpp:739-773 | Asking for a transfer does |
| `RoomSafety.CancelTransferIsSound` | server/game/AuthoritativeRoom.cpp:783-791 | Cancelling one does |
| `RoomSafety.RejectTransferIsSound` | server/game/AuthoritativeRoom.cpp:793-810 | Rejecting one does |
| `RoomSafety.ApproveTransferIsSound` | server/game/AuthoritativeRoom.cpp:812-855 | Approving one does |
| `RoomSafety.PromoteIsSound` | server/game/AuthoritativeRoom.cpp:857-904 | Promoting a successor does |
| `RoomSafety.LeaveIsSound` | server/game/AuthoritativeRoom.cpp:906-925 | Leaving a seat does |
| `RoomSafety.LeaveRoomIsSound` | server/game/AuthoritativeRoom.cpp:927-946 | Leaving the room does |
| `RoomSafety.DisconnectIsSound` | server/game/AuthoritativeRoom.cpp:965-996 | Losing the connection does |
| `RoomSafety.RemoveUserIsSound` | server/game/AuthoritativeRoom.cpp:1233-1245 | Removing somebody does |
| `RoomSafety.RedeployIsSound` | server/game/AuthoritativeRoom.cpp:1158-1185 | Taking a deployment back does |
| `RoomSafety.ApplyOperationIsSound` | server/game/AuthoritativeRoom.cpp:1196-1231 | Resetting and redeploying the room do |
| `AuthoritativeRoom.AuthoritativeRoom.SetMode` | server/game/AuthoritativeRoom.cpp:56-84 | The mode, with the roster or the rollback that goes with it |
| `AuthoritativeRoom.AuthoritativeRoom.SetVmfSingleSide` | server/game/AuthoritativeRoom.cpp:86-116 | The single-side mode, with its roster |
| `AuthoritativeRoom.AuthoritativeRoom.SetSeatLimits` | server/game/AuthoritativeRoom.cpp:118-156 | The limits, if they are valid and every seat fits |
| `AuthoritativeRoom.AuthoritativeRoom.SetScenarioUnits` | server/game/AuthoritativeRoom.cpp:158-232 | The bindings, if no seat stands in their way; the seats get the units they are bound to |
| `AuthoritativeRoom.AuthoritativeRoom.ReadSources` | server/game/AuthoritativeRoom.cpp:162-172 | The units seats can be bound to, refused for a blank or repeated id or an unknown side |
| `AuthoritativeRoom.AuthoritativeRoom.KeepBindings` | server/game/AuthoritativeRoom.cpp:177-201 | The seats that stay bound, or nothing when one stands in the way |
| `AuthoritativeRoom.AuthoritativeRoom.BindBucket` | server/game/AuthoritativeRoom.cpp:204-214 | The units of one side and type, bound to the first free places |
| `AuthoritativeRoom.AuthoritativeRoom.BindSeats` | server/game/AuthoritativeRoom.cpp:219-230 | The seats whose unit is gone go, and the others get the units they are bound to |
| `AuthoritativeRoom.AuthoritativeRoom.InstallVmfSeat` | server/game/AuthoritativeRoom.cpp:284-333 | One seat of the single-side mode |
| `AuthoritativeRoom.AuthoritativeRoom.SyncVmfRoster` | server/game/AuthoritativeRoom.cpp:335-375 | The whole synchronisation of the single-side mode |
| `AuthoritativeRoom.AuthoritativeRoom.InstallTargets` | server/game/AuthoritativeRoom.cpp:342-351 | The targets, in the order given, up to the first failure |
| `AuthoritativeRoom.AuthoritativeRoom.RemoveStrays` | server/game/AuthoritativeRoom.cpp:352-358 | The blue seats that are no targets go |
| `AuthoritativeRoom.AuthoritativeRoom.InstallAutomated` | server/game/AuthoritativeRoom.cpp:360-372 | An automated seat for each kind that has none |
| `AuthoritativeRoom.AuthoritativeRoom.ConvertToVmfAutomation` | server/game/AuthoritativeRoom.cpp:377-398 | A person's seat automated |
| `AuthoritativeRoom.AuthoritativeRoom.InstallAiSeat` | server/game/AuthoritativeRoom.cpp:234-271 | One seat of the opponent |
| `AuthoritativeRoom.AuthoritativeRoom.InstallMirrors` | server/game/AuthoritativeRoom.cpp:411-422 | The mirrors, in the order given, up to the first failure |
| `AuthoritativeRoom.AuthoritativeRoom.RemoveStaleAiSeats` | server/game/AuthoritativeRoom.cpp:423-429 | The seats the opponent should no longer hold go |
| `AuthoritativeRoom.AuthoritativeRoom.SyncAiRoster` | server/game/AuthoritativeRoom.cpp:400-435 | The whole synchronisation |
| `AuthoritativeRoom.AuthoritativeRoom.InstallPlaceholdersForMissing` | server/game/AuthoritativeRoom.cpp:437-477 | Placeholders for every seat within the limits that is empty |
| `AuthoritativeRoom.AuthoritativeRoom.RemovePlaceholders` | server/game/AuthoritativeRoom.cpp:479-492 | No placeholder is left |
| `AuthoritativeRoom.AuthoritativeRoom.ValidAiPosition` | server/game/AuthoritativeRoom.cpp:494-507 | On the map and clear of every placement |
| `AuthoritativeRoom.AuthoritativeRoom.FindPosition` | server/game/AuthoritativeRoom.cpp:534-552 | The template's position, or the first valid one of 64 drawn |
| `AuthoritativeRoom.AuthoritativeRoom.DeployAiSeats` | server/game/AuthoritativeRoom.cpp:509-563 | Places the opponent or rolls back |
| `AuthoritativeRoom.AuthoritativeRoom.SetTemplateCatalog` | server/game/AuthoritativeRoom.cpp:573-588 | The catalog, if it is complete |
| `AuthoritativeRoom.AuthoritativeRoom.SeatForUser` | server/game/AuthoritativeRoom.cpp:599-607 | The seat somebody holds |
| `AuthoritativeRoom.AuthoritativeRoom.CheckClaim` | server/game/AuthoritativeRoom.cpp:656-691 | The first objection to a claim, if any |
| `AuthoritativeRoom.AuthoritativeRoom.ClaimSeat` | server/game/AuthoritativeRoom.cpp:652-737 | Claims a seat, with the roster or the rollback that goes with it |
| `AuthoritativeRoom.AuthoritativeRoom.RequestTransfer` | server/game/AuthoritativeRoom.cpp:739-773 | Asks for a transfer |
| `AuthoritativeRoom.AuthoritativeRoom.InvalidateTransfer` | server/game/AuthoritativeRoom.cpp:775-781 | Drops a transfer and the waiting that goes with it |
| `AuthoritativeRoom.AuthoritativeRoom.CancelTransfer` | server/game/AuthoritativeRoom.cpp:783-791 | Cancels a transfer of the given revision |
| `AuthoritativeRoom.AuthoritativeRoom.RejectTransfer` | server/game/AuthoritativeRoom.cpp:793-810 | Rejects a transfer, by the commander |
| `AuthoritativeRoom.AuthoritativeRoom.ApproveTransfer` | server/game/AuthoritativeRoom.cpp:812-855 | Approves a transfer, by the commander |
| `AuthoritativeRoom.AuthoritativeRoom.Promote` | server/game/AuthoritativeRoom.cpp:857-904 | The successor takes the commander's place |
| `AuthoritativeRoom.AuthoritativeRoom.Leave` | server/game/AuthoritativeRoom.cpp:906-925 | Gives up a seat, which the single-side mode automates after the preparation |
| `AuthoritativeRoom.AuthoritativeRoom.LeaveRoom` | server/game/AuthoritativeRoom.cpp:927-946 | Gives up a seat, to a chosen successor if need be |
| `AuthoritativeRoom.AuthoritativeRoom.ChooseSuccessor` | server/game/AuthoritativeRoom.cpp:948-963 | One of the connected people of the side, by the generator |
| `AuthoritativeRoom.AuthoritativeRoom.Disconnect` | server/game/AuthoritativeRoom.cpp:965-996 | A lost connection: a successor, an empty seat, or a forfeit |
| `AuthoritativeRoom.AuthoritativeRoom.Deploy` | server/game/AuthoritativeRoom.cpp:998-1015 | Places a seat of the own side |
| `AuthoritativeRoom.AuthoritativeRoom.DeployInitial` | server/game/AuthoritativeRoom.cpp:1017-1030 | Places a seat during the preparation |
| `AuthoritativeRoom.AuthoritativeRoom.SetReady` | server/game/AuthoritativeRoom.cpp:1032-1051 | Readiness, which a commander gives last |
| `AuthoritativeRoom.AuthoritativeRoom.SetUnitName` | server/game/AuthoritativeRoom.cpp:1053-1065 | Names a unit |
| `AuthoritativeRoom.AuthoritativeRoom.Readiness` | server/game/AuthoritativeRoom.cpp:1067-1088 | The commanders present, the red one ready in person, and every seat deployed and ready |
| `AuthoritativeRoom.AuthoritativeRoom.Start` | server/game/AuthoritativeRoom.cpp:1090-1097 | Starts or resumes the match |
| `AuthoritativeRoom.AuthoritativeRoom.Pause` | server/game/AuthoritativeRoom.cpp:1099-1103 | Pauses it |
| `AuthoritativeRoom.AuthoritativeRoom.Finish` | server/game/AuthoritativeRoom.cpp:1105-1121 | Ends it with one winner |
| `AuthoritativeRoom.AuthoritativeRoom.ClearDeployment` | server/game/AuthoritativeRoom.cpp:1123-1134 | Gives every seat a unit that is not deployed: the one it is bound to, or a new one |
| `AuthoritativeRoom.AuthoritativeRoom.RequestRedeploy` | server/game/AuthoritativeRoom.cpp:1145-1156 | Asks for a redeployment |
| `AuthoritativeRoom.AuthoritativeRoom.Redeploy` | server/game/AuthoritativeRoom.cpp:1158-1185 | Takes one deployment back |
| `AuthoritativeRoom.AuthoritativeRoom.ClearReadiness` | server/game/AuthoritativeRoom.cpp:1187-1194 | Nobody is ready any more, except placeholders in the single-side mode |
| `AuthoritativeRoom.AuthoritativeRoom.ApplyOperation` | server/game/AuthoritativeRoom.cpp:1196-1231 | Resets or redeploys the room once for each operation id |
| `AuthoritativeRoom.AuthoritativeRoom.RemoveUser` | server/game/AuthoritativeRoom.cpp:1233-1245 | Removes somebody |
| `AuthoritativeRoom.AuthoritativeRoom.ToJson` | server/game/AuthoritativeRoom.cpp:1326-1353 | The saved form |
| `AuthoritativeRoom.AuthoritativeRoom.ReadSeat` | server/game/AuthoritativeRoom.cpp:1387-1460 | One saved seat, as it is taken over, or refused |
| `AuthoritativeRoom.AuthoritativeRoom.Restore` | server/game/AuthoritativeRoom.cpp:1355-1498 | Reads a saved form, or refuses it |

## Left out

- AppendEvent: one fault in each step of one append; torn writes, several faults during a rollback, fsync, path and symbolic-link checks are not modelled.
- EventsAfter: a line is its size and what reading it yields; the JSON text is not modelled, nor are the checkpoint's fields other than the event number.
- Search: ranges and coordinates are real numbers, so rounding is not modelled.
- DirectedReachable: says nothing about two topologies with the same fingerprint; that a hash is free of collisions is a condition, not a claim.
- SendMessage: the encoder of the VMF profile and its failure, the wire form of a message, its correlation and trace ids and the order of state-change signals are not modelled; handlers only log, and do not send from within a delivery.
- Deliver: the bus's log takes every message handed to a recipient, whether or not the recipient has handlers that look at it.
- AtMostOncePerMemory: restoring the bus's pending entries and remembered ids from a checkpoint is left out, and registering units is one step that sets them at will.
- UnansweredMessageIsGivenUpOnTime: the policy stays fixed while the message is pending, as the bound is stated for a fixed policy.
- CreateTask: task routes are bounded lists of coordinates without their own validation; tasks restored from foreign JSON are left out.
- ApplyAction: in the demonstration a trace is its identifiers, its acknowledgement flag and an opaque rest; the projection returned with each answer is left out.
- Restore: in the demonstration the migration of the first schema, a missing or wrongly typed JSON field and an empty script object are left out; letters in identifiers are those of ASCII. In the room, the defaults for fields an old save lacks are left out.
- RoomAction: waiting for the next monitor snapshot is the readiness parameter, authentication, presence and kick lists are left out, and deleting a room, which is refused for the hosted one, is too.
- RoomOperationAck: the model name is taken as already trimmed.
- Record: the callers that observe, share and age contacts are not modelled one by one; histories grow only through this method, and the statements hold for any sequence of calls.
- HistoryPage: matching folds the letters of ASCII only, and entries restored with foreign history ids are left out.
- SetTemplateCatalog: runs of a standard room start once its unit templates have been supplied, as the server does first; template positions, unit positions and map sizes are finite.
- SeatsAndUnitsAreDistinct: leaves out the units of rooms that are bound to a scenario or have been in the single-side mode, where they need not be distinct (UnitsCollideInARun); of these rooms RedeployingKeepsUnitsApartIff says exactly when a redeployment leaves them distinct, and the units that single claims, bindings and rollbacks hand out there are not compared.
- EveryRoomIsRestored: for rooms that are bound to a scenario or in the single-side mode EveryRoomIsReadOrRefused says what reading back gives, which need not be the saved room (RefusedModeChangeStandsInARun).
- ClaimSeat: seat ids are a side, a type and a number; spellings of an id other than the canonical one are left out, and so are the connected flag, which is always set in rooms that no foreign JSON has been read into, and the controller's id, which follows from the controller and the seat.
- DeployAiSeats: the hash of the controller's id and the match from which a seat's draws start is a parameter; the draws themselves are the generator's.
- SetScenarioUnits: the order in which units of one side and type are bound is a parameter rather than the order of their ids, and so is the order of the bound places that the single-side mode goes through.
- SetUnitName: blanks are those of ASCII.
- Integers are unbounded: the 64-bit widths of revisions, counters and sequence numbers and the casts between them are left out, except for the generator.
- Permissions, sockets, HTTP, the data distribution service, the language-model connection, the web shell and database migrations.
- The guided-strike workflow, the rules of the opponent's play, field projection and redaction, map tiles and the simulation engine.
