# Commit protocols of the codex-remote Host, in Dafny

The Host keeps Codex sessions in memory, in SQLite and in the eyes of connected
clients, and moves all three forward with small commit protocols. A commit can
succeed, be rolled back, or end with an unknown outcome; the process can crash
between any two writes; watchers, agents, requests and restarts interleave. This
project models those protocols and proves what every run of them keeps.

How the models are built:

- Each protocol is a value state, a step function per critical section, and `Run`, the fold of the
  steps over any sequence of actions. What the environment decides (did a commit land, did a reload
  succeed, was there room in a queue, which token was drawn, did the process crash) is an argument of
  the action. An action whose guard fails changes nothing, so a run is any sequence of actions.
- History fields (the durable log of events, who was refused, which requests ran) record what happened
  and steer nothing. The properties are about them.
- Code that updates fields in place has a class beside the step functions. Its methods follow the
  source statement by statement and promise exactly the step function's result.
- SQLite transactions are atomic updates of maps, Go channels bounded sequences, mutexes the
  boundaries of steps, random tokens fresh values. The size of a message is an arbitrary function.

| file | protocol |
|---|---|
| `Common.dfy` | options and write outcomes |
| `Activity.dfy`, `ActivityProofs.dfy`, `DeletedLogs.dfy`, `ActivityStore.dfy`, `EventTables.dfy` | event log, replay buffer and watchers of one Codex, and streams that outlive a deleted log |
| `Connection.dfy`, `Gateway.dfy`, `EndToEnd.dfy` | watches on one client connection, under every interleaving of handlers and forwarders, and together with the event stream |
| `Workspace.dfy`, `WorkspaceService.dfy`, `WorkspaceCommit.dfy`, `WorkspaceJoint.dfy`, `Mutation.dfy`, `MutationRace.dfy` | workspace quiescence, its state sink, both interleaved with Restore and forgetting, and file mutations, one at a time and interleaved |
| `Lease.dfy`, `LeaseProofs.dfy`, `LeaseManager.dfy` | management lease |
| `Dedup.dfy`, `Dispatcher.dfy` | request deduplication |
| `Owners.dfy`, `SessionOwners.dfy` | logical owners across forget, import, replacement and restart |
| `Collab.dfy`, `ChildTracker.dfy` | child agents reported by live events |
| `Utf8.dfy`, `ItemText.dfy`, `TextLife.dfy` | UTF-8 cutting, text deltas, and the life of a text item under deltas and view passes |
| `Budget.dfy`, `Shrink.dfy`, `FrameBudget.dfy`, `FrameLimits.dfy`, `MessageBudget.dfy`, `ViewBudget.dfy`, `SharedMessages.dfy`, `Answers.dfy` | frame budget, messages shared by event and view, and answering bounded requests |

## Where the code falls short of a simple promise

Each of these has a lemma with the exact condition, and most a concrete run that shows it.

- A watcher that stays registered through an unknown commit that landed misses that event
  (`HiddenCommitIsMissed`). Its events are a gap-free stretch of the log exactly when no such commit
  happened after its cursor (`WatcherSeesLog`, `VisibleContiguousIff`).
- A deletion that lands although it reports an error leaves the stream of the deleted log in memory, and
  the next row write brings the Codex back under it with its numbers starting again. A watch can then be
  RESUMED with deleted events (`DeletedLogIsReplayed`). A row write keeps buffer, watchers and log in
  agreement exactly when there is a row, or no stream in memory holds events of the deleted log or has a
  watcher that was given any (`RowWriteKeepsIff`). Reading the row again repairs it unless there is such a
  watcher (`ReloadRepairsIff`), a restart always does (`RestartRepairs`).
- The number of the CodexForgotten event is given out again exactly when the destruction of the
  durable state did not land, or the row was written again and the deleted log had no events
  (`ForgetNumberReused`).
- The workspace sink can refuse a state that is already durable, and the service then rolls it back. It
  does so exactly when the state was durable before the call and either the Codex is not loaded, or no
  newer generation stood, the sink could not confirm by a read that it had been adopted, and the publish
  was rolled back (`UnjustifiedRollbackIff`, `RefusedThoughDurable`).
- A Restore that takes up an offered access state between the sink's refusal and the service's rollback
  leaves view and database ahead of the service, with no write in doubt (`RestoreStrands`). Settling a
  verdict keeps the three in agreement exactly when that has not happened (`SettlingAgreesIff`).
- One warning per lease deadline needs a warning window shorter than the lease; with a longer one a
  sweep, a renewal and a sweep in one millisecond warn twice (`WindowMustBeShorter`). It also needs that
  the workspace sink does not adopt a stored view whose deadline was warned about while the marker in
  memory is for another one (`AdoptionIsSafeIff`, `AdoptionWarnsTwice`).
- An unmanaged Codex stays unmanaged until a turn starts exactly when its stored view is unmanaged too;
  otherwise adopting that view manages it again (`OnlyRunningRevivesIff`, `AdoptionRevives`).
- Memory and lease columns part without the Host reporting itself degraded exactly by a renewal, a
  manual unmanaging or a sweep outside the sweeper whose row write is reported as failed although it
  landed, or by adopting a stored view that differs from the columns (`PartsIff`, `RenewalParts`).
- A child agent named by an item of another Codex while it is active is counted for the wrong Codex
  (`ReparentedIsMiscounted`); the count is right exactly when no item does that (`ItemKeepsIff`). A late
  copy of a resumeAgent item revives a child that another item reported ended in between
  (`LateResumeRevives`).
- A text item that a view pass has cut below the content budget takes up later deltas after the gap,
  with no failure anywhere (`ViewPassOpensGap`). The text stays a beginning of what arrived, whatever
  arrives next, exactly when it is whole or full now (`StaysAPrefixIff`).
- A user-input request in a bounded view carries its own flag exactly when it was flagged before or was
  over its share in one of the passes (`RequestFlaggedIff`); otherwise it can lose its texts with only
  the view saying so (`SilentlyMinimized`).
- A pending request is one message shared by the view and the event that announces it, so bounding the
  view can cut an event that fitted. The event is published shrunk and without any flag exactly when it
  fitted its own budget, carried no flag, and the view pass cuts the request without flagging it
  (`ShrunkInSilenceIff`, `ShrunkInSilence`). An approval can only be cut in silence, and is exactly when
  the view is over budget, the approval is over its share or the view comes to minimising, and it has a
  text of two bytes or a second argument to lose (`ApprovalCutIff`). Items always carry a flag
  (`SharedItemIsOpen`).
- The files of a failed or refused mutation are undone after it has let the next one in, and the undo can
  wipe a write that was accepted (`AcceptedWriteIsUndone`). An accepted write survives exactly when no
  call on its target still had its files to undo as it was admitted (`SurvivesIff`).

## Model

| member | source | states |
|---|---|---|
| `ActivityProofs.StepKeeps` | internal/activity/store.go:73-385 | every publish, watch, cancel, read, reload, forget, row write and restart, except a row write that mixes two logs, keeps: the buffer is the last entries of the log up to head, no hidden commit lies inside it, and each channel holds exactly what it was sent of its log |
| `ActivityProofs.RowWriteKeepsIff` | internal/persistence/store.go:319-324 | a row write keeps that invariant iff it does not bring a deleted Codex back under a ready stream with a head other than 0, or under a watcher with a cursor or events of the deleted log |
| `ActivityProofs.RunKeeps` | internal/activity/store.go:109-257 | the invariant holds after every run without such a row write, from any durable log, whatever commits, loads and deletions fail |
| `ActivityProofs.ReplayAvailableExact` | internal/activity/store.go:347-365 | on a contiguous buffer the early exits of the scan are exact: available iff the buffer reaches back to the cursor |
| `ActivityProofs.WatchDecision` | internal/activity/store.go:309-345 | RESUMED iff the cursor is given, not below the safe floor of an unsafe stream, at most head, and head minus cursor is at most the buffered count; then the replay is the log after the cursor and hides no commit |
| `ActivityProofs.ResumedWatchReplaysLog` | internal/activity/store.go:277-345 | in every reachable state a RESUMED watch replays exactly the log after its cursor, and a RESET replays nothing and shows its head; the log is the durable one whenever there is a row, and the deleted one otherwise |
| `ActivityProofs.ResetShowsDurableView` | internal/activity/store.go:259-273 | a RESET hands out the stored CurrentView with the head number, unless the manager rewrote the row since the last load |
| `ActivityProofs.VisibleContiguousIff` | internal/activity/store.go:135-141 | the broadcast entries after a cursor are the whole log stretch iff no unknown commit landed there |
| `ActivityProofs.WatcherSeesLog` | internal/activity/store.go:157-164 | for every watcher, departed or not, replay plus live events are a prefix of what was broadcast of its log after the cursor, strictly increasing; a registered watcher has the gap-free stretch iff no commit was hidden since, and its log is the durable one whenever there is a row; read plus queued is what was sent |
| `ActivityProofs.HiddenCommitIsMissed` | internal/activity/store.go:135-141 | a run in which a registered watcher is never offered a committed event |
| `ActivityProofs.ClosedOnceForever` | internal/activity/store.go:193-210 | a watcher that left had exactly one of its channels closed once, and for the rest of the process nothing is sent to it or closed again |
| `ActivityProofs.DeliverTerminalKeeps` | internal/activity/store.go:193-210 | the terminal event is delivered last, and costs the oldest queued event iff the channel was full |
| `DeletedLogs.ForgetNumberReused` | internal/activity/store.go:171-216 | the next commit, with or without a row write before it, reuses the terminal event's number iff the deletion did not land, or the row was written again over an empty log |
| `DeletedLogs.DeletedLogIsReplayed` | internal/activity/store.go:211-214 | a run in which a watch is RESUMED with a deleted event and a new one of the same number |
| `DeletedLogs.ReloadRepairsIff` | internal/activity/store.go:237-257 | after a row write that mixes logs, reading the row again restores the invariant iff no watcher follows the deleted log |
| `DeletedLogs.RestartRepairs` | internal/activity/store.go:73-105 | after every run at all, mixed logs included, the durable state is one a new process can start from |
| `ActivityStore.StreamStore.Ensure` | internal/activity/store.go:73-105 | loads or reloads the stream from the row, or fails and changes nothing |
| `ActivityStore.StreamStore.Publish` | internal/activity/store.go:109-166 | the in-place publish keeps the invariant and equals the step |
| `ActivityStore.StreamStore.ReloadUnsafe` | internal/activity/store.go:223-232 | drops the buffer and reloads, or leaves the stream marked for reload |
| `ActivityStore.StreamStore.ReloadDurable` | internal/activity/store.go:237-257 | keeps the invariant and equals the step, with or without a stream |
| `ActivityStore.StreamStore.WatchLocked` | internal/activity/store.go:293-345 | registers a watcher with exactly the specified mode, replay and floor |
| `ActivityStore.StreamStore.Watch` | internal/activity/store.go:277-291 | keeps the invariant and equals the step |
| `ActivityStore.StreamStore.BroadcastToWatchers` | internal/activity/store.go:157-164 | every registered watcher with room gets the event, every full one is dropped and closed, no other channel changes |
| `ActivityStore.StreamStore.Forget` | internal/activity/store.go:171-216 | keeps the invariant and equals the step; forgotten iff destroy succeeded on an existing row; a deletion that landed behind an error keeps the stream |
| `ActivityStore.StreamStore.PersistState` | internal/persistence/store.go:319-324 | equals the row write, and keeps the invariant iff it mixes no logs |
| `ActivityStore.SendTerminal` | internal/activity/store.go:193-210 | the send loop ends and evicts at most the oldest queued event |
| `ActivityStore.ContinuousReplayAvailable` | internal/activity/store.go:347-365 | the loop computes the specified scan |
| `ActivityStore.CollectReplay` | internal/activity/store.go:333-337 | the loop selects the buffered events in range, in order |
| `EventTables.Tables.CommitEvent` | internal/persistence/store.go:554-596 | number and view advance together or not at all; a sequence is returned iff nothing failed, an unknown outcome iff only the commit failed; other Codexes are untouched |
| `EventTables.Tables.DeleteCodex` | internal/persistence/store.go:380-403 | row and event head go together or not at all, also when the deletion lands and reports an error |
| `EventTables.Tables.UpsertCodex` | internal/persistence/store.go:319-324 | the row is written and its event head left alone; a deleted row starts again at 0 |
| `Connection.StepKeeps` | internal/gateway/server.go:293-417 | every action of handlers, forwarders and channels keeps: queued events belong to the watch last announced, and are a prefix of that watch's replay and live events |
| `Connection.EventsFollowTheirResponse` | internal/gateway/server.go:293-417 | under every interleaving a queued event follows the Watch Response of its own watch, with no Watch or Unwatch Response for its Codex in between |
| `Connection.QueuedIsPrefix` | internal/gateway/server.go:338-395 | the events queued for a watch are a prefix of its replay followed by its live events |
| `Gateway.AnsweredIsRun` | internal/gateway/server.go:338-360 | the uninterrupted answer of a watch is a run of the single-frame steps, whatever room the queue has |
| `Gateway.ClientConnection.HandleWatch` | internal/gateway/server.go:293-360 | replaces the old watch, queues response and replay as far as there is room, and ends with a forwarder or a closing connection |
| `Gateway.ClientConnection.HandleUnwatch` | internal/gateway/server.go:397-417 | cancels the watch before the response is queued |
| `Gateway.ClientConnection.ForwardWatch` | internal/gateway/server.go:362-395 | forwards only while the watch is current, and stops otherwise |
| `Gateway.ClientConnection.QueueFrames` | internal/gateway/server.go:339-353 | the loop queues exactly the frames that fit, response first |
| `EndToEnd.StepKeeps` | internal/gateway/server.go:293-417 | one state of event stream and connection: every action of either side that mixes no logs keeps each watch linked to its own channel, so that what the connection took is what the channel's consumer read |
| `EndToEnd.ClientSeesLog` | internal/gateway/server.go:362-395 | over every run of stream and connection together that mixes no logs, what a client is sent for a watch is a prefix of what was broadcast of its log after its cursor, and a gap-free stretch of it if no commit was hidden; of a forgotten Codex it is that prefix with at most the one evicted event missing, then the terminal event |
| `Workspace.StepKeeps` | internal/workspace/service.go:97-360 | every admission, sink verdict, restore and register, in any order, keeps the workspace invariant |
| `Workspace.AccessDescribesAgents` | internal/workspace/service.go:238-360 | the published count is the number of agents, BUSY iff there is one, token empty iff BUSY, and at most one transition is pending |
| `Workspace.WritesAreQuiescent` | internal/workspace/service.go:197-236 | a mutation in its filesystem phase has no registered agent and nothing pending, and nobody else can change the access state until it lets go |
| `Workspace.RollbackIsExact` | internal/workspace/service.go:687-693 | a refusal restores state and agents from before the admission if nothing cut in; otherwise a strictly newer generation stands and stays |
| `Workspace.TokenAdmitsOnce` | internal/workspace/service.go:904-911 | two mutations that were not refused presented different tokens |
| `Workspace.SpentTokenIsRefused` | internal/workspace/service.go:904-911 | the token of a mutation that was not refused opens no further one |
| `WorkspaceService.WorkspaceState.constructor` | internal/workspace/service.go:97-138 | the first register builds the specified state and establishes the invariant |
| `WorkspaceService.WorkspaceState.AgentStarted` | internal/workspace/service.go:238-281 | equals the admission step; admitted iff the agent is named and new |
| `WorkspaceService.WorkspaceState.AgentStopped` | internal/workspace/service.go:315-360 | equals the admission step; admitted iff the agent is registered |
| `WorkspaceService.WorkspaceState.RestoreAgent` | internal/workspace/service.go:286-313 | equals the step that cuts past a pending sink; the agent is registered afterwards |
| `WorkspaceService.WorkspaceState.Register` | internal/workspace/service.go:97-138 | adopts the persisted state only if newer; the generation never falls |
| `WorkspaceService.WorkspaceState.AdvanceMutation` | internal/workspace/service.go:680-686 | one new generation and a new token, as a pending transition |
| `WorkspaceService.WorkspaceState.RollbackState` | internal/workspace/service.go:687-693 | rolls back iff the state is still the offered one |
| `WorkspaceService.WorkspaceState.FinishPending` | internal/workspace/service.go:229-236 | ends the transition, and clears the pending marker only if it is its own |
| `WorkspaceCommit.VerdictsAreSound` | internal/codex/workspace.go:225-308 | accepted means durable or overtaken by a newer generation; a delayed older one changes nothing; refused means nothing durable moved; refused after an unknown publish means another state was read; unknown means degraded with the offered state kept |
| `WorkspaceCommit.UnjustifiedRollbackIff` | internal/codex/workspace.go:225-308 | a state is refused although durable iff it was durable before and the Codex is not loaded, or no newer generation stood, adoption could not be confirmed by a read and the publish was rolled back |
| `WorkspaceCommit.RefusedThoughDurable` | internal/codex/workspace.go:225-308 | the unjustified rollback exists |
| `WorkspaceCommit.MemoryIsDurable` | internal/workspace/service.go:267-277 | over any sequence of uninterleaved transitions service, view and database agree unless an unknown outcome is outstanding, and then the Host is degraded |
| `WorkspaceJoint.StepKeeps` | internal/codex/workspace.go:204-308 | admissions, the sink's commit, the service's settling and finishing, the steps of a Restore, row writes, forgetting and unregistering, in any order, keep the agreement of service, view and database, except settling a refusal after a Restore took up the offered state |
| `WorkspaceJoint.RunAgrees` | internal/codex/manager.go:197-262 | over every interleaving without such a step, with any failures: when nothing waits and no outcome is in doubt, service, view and database hold the same access state; a Codex that was forgotten has no row |
| `WorkspaceJoint.SettlingAgreesIff` | internal/workspace/service.go:267-277 | settling keeps the agreement iff it is not such a step |
| `WorkspaceJoint.RestoreStrands` | internal/workspace/service.go:283-313 | a run that ends at rest, with no write in doubt, and the database ahead of the service |
| `WorkspaceCommit.Manager.CommitWorkspaceState` | internal/codex/workspace.go:225-308 | the in-place sink equals the specified verdict and state |
| `Mutation.TargetAcceptedIff` | internal/workspace/service.go:913-961 | a write is let through iff the caller's expectation of the target (absent, or a file at this revision) is right for its condition |
| `Mutation.MutableWorkspace.StageTarget` | internal/workspace/service.go:1006-1019 | moves an existing target to the backup name, or fails and changes nothing |
| `Mutation.MutableWorkspace.Build` | internal/workspace/service.go:977-998 | the target appears complete or not at all; the temporary name is cleaned up |
| `Mutation.MutableWorkspace.Rollback` | internal/workspace/service.go:1021-1032 | restores the staged node; a failed rollback leaves it at the backup name |
| `Mutation.MutableWorkspace.Mutate` | internal/workspace/service.go:473-611 | success changes only the target, leaves no staging entry and advances the generation by one; any other outcome leaves files and access state as they were; the replaced node is never lost |
| `Mutation.MutableWorkspace.WriteText` | internal/workspace/service.go:473-538 | all-or-nothing, and done only if the expected revision was the current one |
| `Mutation.MutableWorkspace.Upload` | internal/workspace/service.go:540-611 | all-or-nothing for a file or an extracted tree, never onto a special file |
| `MutationRace.StepKeeps` | internal/workspace/service.go:473-538 | staging, failing, advancing, settling, finishing and undoing of any number of calls, with agents and registering in between, keep: a call at work holds the coordinator or the one pending transition |
| `MutationRace.SurvivesIff` | internal/workspace/service.go:524-536 | in every run, an accepted or unknown write stands once its target is at rest and nobody else wrote there, iff no call on the target still had its files to undo at its admission |
| `MutationRace.AcceptedWriteIsUndone` | internal/workspace/service.go:524-536 | a run of two calls in which the undo of the refused one removes the accepted file |
| `LeaseProofs.StepKeeps` | internal/codex/manager.go:1026-1209 | renewals, sweeps, manual unmanaging, turns, other activity, workspace events with adoption of the stored view, restores and crashes, with row writes that may err after landing, keep every deadline consistent with its management state |
| `LeaseProofs.WarnedAtMostOnce` | internal/codex/manager.go:1124-1209 | after any run no deadline was warned about twice, if every adopted view is harmless: its deadline was not warned about or the marker is for it |
| `LeaseProofs.AdoptionIsSafeIff` | internal/codex/workspace.go:268-306 | adopting the stored view is safe for all later runs iff it is harmless |
| `LeaseProofs.AdoptionWarnsTwice` | internal/codex/workspace.go:268-306 | a run in which adoption makes one deadline be warned about twice |
| `LeaseProofs.AlignedWhileRowWritesHold` | internal/codex/manager.go:1456-1523 | if no row write reports an error, memory, columns and stored view carry the same lease after any run, adoptions and crashes included, and no deadline is warned about twice |
| `LeaseProofs.WindowMustBeShorter` | internal/codex/manager.go:1124-1209 | a warning window not shorter than the lease lets one deadline be warned about twice |
| `LeaseProofs.SyncedOrDegraded` | internal/codex/manager.go:1456-1523 | after any run without a parting step, management state, deadline and marker in memory equal the columns, or the Host is degraded; and every parting step breaks that |
| `LeaseProofs.PartsIff` | internal/codex/manager.go:1091-1107 | a call leaves memory and columns apart without a degradation iff it is one of four named steps |
| `LeaseProofs.RenewalParts` | internal/codex/manager.go:1026-1066 | one renewal whose row write errs after landing is enough |
| `LeaseProofs.DeadlineMatchesManagement` | internal/codex/manager.go:1026-1151 | after any run a deadline is positive while managed and 0 when unmanaged, in memory, in the columns and in the stored view |
| `LeaseProofs.AutomaticUnmanageIsSafe` | internal/codex/manager.go:1013-1015 | a sweep unmanages only an expired, idle Codex without turn or pending request |
| `LeaseProofs.OnlyRunningRevivesIff` | internal/codex/workspace.go:268-306 | an unmanaged Codex stays unmanaged through every run that starts no turn iff its stored view is unmanaged |
| `LeaseProofs.AdoptionRevives` | internal/codex/workspace.go:268-306 | a run in which adoption manages a Codex again without a turn |
| `LeaseProofs.RunningRevives` | internal/codex/manager.go:1534-1595 | starting a turn manages the Codex with a full lease, whatever write fails |
| `LeaseManager.Manager.RenewLease` | internal/codex/manager.go:1026-1066 | the in-place renewal equals the step under every failure |
| `LeaseManager.Manager.UnmanageCodex` | internal/codex/manager.go:849-894 | equals the step; a busy Codex is left alone |
| `LeaseManager.Manager.SweepLease` | internal/codex/manager.go:1124-1209 | equals the step under every failure |
| `LeaseManager.Manager.SweepAndNote` | internal/codex/manager.go:1091-1107 | the sweeper notes a failed sweep as a degradation |
| `LeaseManager.Manager.CommitWorkspaceState` | internal/codex/workspace.go:225-308 | the sink's effect on the lease view equals the step, adoption included |
| `LeaseManager.Manager.SetRunning` | internal/codex/manager.go:1534-1595 | equals the step; never rolls back |
| `LeaseManager.Manager.RollbackLifecycleState` | internal/codex/manager.go:1478-1499 | restores memory and row, or notes a degradation |
| `LeaseManager.Manager.PreserveLifecycleState` | internal/codex/manager.go:1501-1523 | keeps the new state and notes a degradation |
| `Dedup.StepKeeps` | internal/gateway/dispatcher.go:69-126 | arrivals, executions, completions and crashes keep: one reservation per id, one execution per reservation, answers that agree with it; rows only grow |
| `Dedup.ExecutedAtMostOnce` | internal/gateway/dispatcher.go:69-126 | over any interleaving, retry, failed write and crash the backend is called at most once per request id |
| `Dedup.AnswersComeFromTheExecution` | internal/gateway/dispatcher.go:106-126 | every outcome given is the response of the one execution of the same payload under that id, up to the deduplicated flag |
| `Dedup.OtherPayloadConflicts` | internal/persistence/store.go:270-302 | a used id with another payload is answered with a conflict at every later time and changes nothing |
| `Dedup.UnknownOutcomeIsNeverRetried` | internal/persistence/store.go:270-302 | a request left in progress stays so for good and is never executed afterwards |
| `Dedup.FingerprintIgnoresEnvelope` | internal/gateway/dispatcher.go:87-95 | fingerprints agree iff the payloads do; id, send time and deadline do not matter |
| `Dedup.MarkSetsOnlyTheFlag` | internal/gateway/dispatcher.go:317-344 | replaying sets the flag on exactly the answers of side-effecting requests, leaves errors alone and is idempotent |
| `Dispatcher.Dispatcher.BeginRequest` | internal/persistence/store.go:270-302 | the in-place reservation equals the step |
| `Dispatcher.Dispatcher.CompleteRequest` | internal/persistence/store.go:304-317 | completes only a row in progress |
| `Dispatcher.Dispatcher.Dispatch` | internal/gateway/dispatcher.go:69-126 | an undisturbed dispatch is three steps of the protocol, gives one answer, and executes nothing when it replays or refuses |
| `Dispatcher.RetryIsReplayed` | internal/gateway/dispatcher.go:69-126 | a completed request sent again is answered with the first response and the flag, without another backend call |
| `Owners.LiveOwnerIsRecorded` | internal/persistence/store.go:446-480 | from any database, after any run: the owner table is write-once and every Codex in memory has the owner of its native session |
| `Owners.StepKeeps` | internal/codex/manager.go:303-346 | create, import, forget, persist, restore, replacement and crash keep owners, records and lineages consistent, and no Codex changes owner |
| `Owners.OwnerIsTheLineage` | internal/codex/manager.go:557-653 | after any run two sessions have the same owner iff the Host moved a lineage between them: lineages never split and never merge |
| `Owners.CodexKeepsOwner` | internal/codex/manager.go:934-968 | a Codex never changes owner, though its native session may |
| `Owners.MoveConflictsOrCarries` | internal/persistence/store.go:464-480 | taking over a lineage succeeds iff the new session had no owner or this one; otherwise the table is as before |
| `SessionOwners.SessionHost.EnsureLogicalOwner` | internal/persistence/store.go:446-459 | the in-place insert-then-read equals the step |
| `SessionOwners.SessionHost.BindLogicalOwner` | internal/persistence/store.go:464-480 | the in-place insert-then-compare equals the step |
| `SessionOwners.ForgetThenImport` | internal/codex/manager.go:557-653 | round trip: a forgotten session that is imported comes back as a new Codex with the owner it had, even under another native thread, and its forgotten record is gone |
| `SessionOwners.SessionHost.CreateCodex` | internal/codex/manager.go:528-555 | an uninterrupted create equals the two steps in a row |
| `SessionOwners.SessionHost.ImportSession` | internal/codex/manager.go:557-653 | an uninterrupted import equals the steps in a row, under every failure |
| `SessionOwners.SessionHost.SaveCodex` | internal/codex/manager.go:1329-1370 | the Codex is in memory iff its row was written |
| `SessionOwners.SessionHost.ForgetCodex` | internal/codex/manager.go:934-997 | remembers the owner before the rows go; equals the step under every failure |
| `SessionOwners.SessionHost.ReplaceUnmaterializedCodex` | internal/codex/manager.go:303-346 | the replacement thread gets the owner or the call fails |
| `SessionOwners.SessionHost.RestoreCodex` | internal/codex/manager.go:133-266 | binds the row's owner, then registers, replacing the thread when asked |
| `Collab.AnyOrder` | internal/codex/workspace.go:83-138 | going through an item's children in any order gives the same state |
| `Collab.ItemKeepsIff` | internal/codex/workspace.go:61-140 | an item keeps agents equal to the active children iff it claims no active child of another Codex |
| `Collab.StepKeepsIff` | internal/codex/workspace.go:61-140 | any event keeps agents equal to the active children of their Codexes iff it claims no active child of another Codex |
| `Collab.AgentsAreTheActiveChildren` | internal/codex/workspace.go:61-140 | after any events of any number of Codexes without such a claim, a child is an agent of its Codex, and of no other, iff its observation exists and is not terminal |
| `Collab.RevivedIffResumed` | internal/codex/workspace.go:108-124 | an ended child becomes active again iff a resumeAgent item other than the recorded one reports it active |
| `Collab.StaysEnded` | internal/codex/manager.go:1621-1650 | an ended child stays ended through any events without such a resumeAgent item |
| `Collab.DuplicateIsNoOp` | internal/codex/workspace.go:61-140 | a repeated item changes nothing |
| `Collab.LateResumeRevives` | internal/codex/workspace.go:108-124 | a late copy of a resumeAgent item revives a child another item ended |
| `Collab.ReparentedIsMiscounted` | internal/codex/workspace.go:61-140 | two items after which one Codex keeps an agent that is not its child and the other lacks one |
| `ChildTracker.UniqueChildren` | internal/codex/workspace.go:83-93 | the named children, each once |
| `ChildTracker.Tracker.ObserveChild` | internal/codex/workspace.go:99-124 | one turn of the loop equals the child step and reports the agent call it owes |
| `ChildTracker.Tracker.ApplyCollabAgentItem` | internal/codex/workspace.go:61-140 | both loops together equal the whole-item step |
| `ChildTracker.Tracker.EndChildTurn` | internal/codex/manager.go:1632-1643 | equals the end-of-turn step |
| `Utf8.ValidConcat` | internal/codex/manager.go:2169-2181 | valid text stays valid under appending exactly valid text (section 4 of RFC 3629) |
| `Utf8.ValidUtf8Prefix` | internal/codex/manager.go:2169-2181 | the longest valid prefix within the budget; on valid text it loses at most three bytes of it |
| `Utf8.BoundStringFacts` | internal/codex/manager.go:2159-2167 | a prefix within the budget, cut iff it says so |
| `Utf8.DeltasAreAccounted` | internal/codex/manager.go:2068-2098 | over any deltas the text stays valid and within budget, kept plus dropped bytes add up, and the item becomes flagged iff a byte was dropped |
| `TextLife.LifeIsAccounted` | internal/codex/manager.go:2068-2112 | over the whole life of an item, deltas, replacements and view passes in any order: the text is valid UTF-8 within budget, and flagged iff shorter than all that arrived or touched by a view pass, since it was last replaced |
| `TextLife.UnflaggedIsWhole` | internal/codex/manager.go:2068-2098 | an unflagged text is everything that arrived |
| `TextLife.StaysAPrefixIff` | internal/codex/manager.go:2086-2098 | the text is a beginning of what arrived while every delta finds it whole or full; it stays one whatever arrives next iff it is whole or full now |
| `TextLife.ViewPassOpensGap` | internal/codex/manager.go:1773-1774 | a full text cut by the view pass takes the next delta after a gap |
| `TextLife.ViewPassIsLife` | internal/codex/manager.go:2428-2474 | what bounding a view does to each text item of the turn is such a stretch of life |
| `ItemText.TurnSnapshot.ApplyItemDelta` | internal/codex/manager.go:2068-2112 | the delta goes to the first item with its id or makes a new one; the event text is a valid prefix of the delta |
| `ItemText.OtherItemsKept` | internal/codex/manager.go:2068-2098 | a delta changes no other item |
| `Budget.BoundedProtoPrefix` | internal/codex/budget.go:239-257 | the binary search ends with a prefix at least as long as the minimum |
| `Budget.FittingPrefixIsBest` | internal/codex/budget.go:239-257 | the result fits or is the forced minimum, and is the longest fitting prefix if fitting is downward closed |
| `Shrink.BoundItemKeeps` | internal/codex/budget.go:74-133 | identity, kind and status kept, texts prefixes, lists keep their first entry; flagged iff it did not fit |
| `Shrink.BoundItemFitsOrLeast` | internal/codex/budget.go:74-133 | a bounded item fits, or every list is down to one entry and every text to its share |
| `Shrink.MinimizeItemKeeps` | internal/codex/manager.go:2497-2544 | as much kept, always flagged |
| `Shrink.BoundPendingKeeps` | internal/codex/budget.go:137-192 | every id, decision, question, option and answer kept, texts prefixes; a flagged completeness comes back iff it did not fit, and a user-input request carries it |
| `Shrink.BoundPendingFitsOrLeast` | internal/codex/budget.go:137-192 | a bounded request fits, or only identities, decisions, and labels and answers of bounded length are left |
| `Shrink.MinimizePendingKeeps` | internal/codex/manager.go:2476-2495 | as much kept; a user-input request's own completeness is untouched |
| `FrameBudget.BoundWarningKeeps` | internal/codex/budget.go:194-207 | code kept, message and metadata values prefixes, flagged if touched |
| `FrameBudget.BoundCodexKeeps` | internal/codex/budget.go:221-234 | id kept, title a prefix, warnings bounded or all dropped, flagged if touched |
| `FrameBudget.EventIsBoundedOpenly` | internal/codex/budget.go:16-72 | for any size function and budget a bounded event is about the same things, loses only tails, and is flagged if it changed |
| `FrameLimits.EventIsCutDown` | internal/codex/budget.go:16-72 | an event over budget is cut to its target, and if it still does not fit, to a quarter of the budget where its kind allows |
| `MessageBudget.ItemMessage.Bound` | internal/codex/budget.go:74-133 | the in-place shrinking of an item, loops and prefix search included, equals the specified one |
| `MessageBudget.PendingMessage.Bound` | internal/codex/budget.go:137-192 | the same for a pending request |
| `MessageBudget.EventMessage.BoundCanonicalEvent` | internal/codex/budget.go:16-72 | the two passes over an event equal the specified event and completeness; what changed is within the original and flagged |
| `FrameBudget.ViewIsBoundedOpenly` | internal/codex/manager.go:2428-2474 | for any size function and budget a bounded view keeps every item and request under its identity, and flags the view, the turn and each item that changed |
| `FrameLimits.ViewFitsOrIsLean` | internal/codex/manager.go:2428-2474 | a bounded view fits; or its items are down to identity and kind, its requests to what answering needs, its title to its share, and only budget warnings are left |
| `SharedMessages.RequestFlaggedIff` | internal/codex/manager.go:2444-2458 | a user-input request of a bounded view flags itself iff it was flagged or over its share in a pass the view goes through |
| `SharedMessages.SilentlyMinimized` | internal/codex/manager.go:2454-2458 | a crowded view, sized additively, whose small request loses its header without a flag of its own |
| `SharedMessages.ShrunkInSilenceIff` | internal/codex/manager.go:1748-1773 | with the request shared by event and view, both tell the same of it, and the event is published shrunk and unflagged iff it fitted, was not flagged, the view is over budget, and the request is an approval to cut or a user-input request within its share with words to minimise |
| `SharedMessages.ApprovalCutIff` | internal/codex/budget.go:137-160 | the view pass changes an approval iff the view is over budget, the approval over its share or the view comes to minimising, and it has more than one-byte texts and one argument |
| `SharedMessages.ShrunkInSilence` | internal/codex/manager.go:1748-1773 | such an event exists |
| `SharedMessages.SharedItemIsOpen` | internal/codex/manager.go:1710-1773 | with the item shared by event and view, both tell the same of it, and it carries its own flag if anything changed |
| `ViewBudget.CurrentView.BoundCurrentView` | internal/codex/manager.go:2428-2474 | the in-place passes equal the specified view, which fits or has nothing left to lose and flags what it lost |
| `ViewBudget.ShrinkItems` | internal/codex/manager.go:2436-2443 | the loop over the items equals the specified shrinking and merging |
| `ViewBudget.ShrinkRequests` | internal/codex/manager.go:2444-2458 | the loops over the requests equal the specified shrinking and merging |
| `Answers.OptionIdNamesPosition` | internal/codex/manager.go:1886-1888 | equal option ids name the same position, whatever the labels and the encoder |
| `Answers.ShrunkOptionAnswers` | internal/codex/manager.go:1287-1315 | with unique question ids, an option of any shrunk form resolves to its full original label |
| `Answers.BoundedOptionAnswers` | internal/codex/manager.go:2428-2474 | the same for every option of every request in a bounded view |
| `Answers.PickedOptionsAnswer` | internal/codex/manager.go:1287-1315 | for any sequence of answers to a shrunk request, each question's full original labels and free-form texts reach the app-server in order, and nothing for a question without any |
| `Answers.LookUpOption` | internal/codex/manager.go:1299-1308 | the loop finds the first option with the id |
| `Answers.RespondUserInput` | internal/codex/manager.go:1287-1315 | the loops build the specified answers, or refuse an unknown question or option |

## Left out

- Tailnet, WebSocket handshake and heartbeat, `writeLoop`, process supervision and the app-server client: input and output.
- ProtoJSON, SQL text and migrations, SHA-256, base64, image and ZIP bytes: an arbitrary size function, atomic maps, an injective fingerprint, an arbitrary encoder and an opaque tree stand for them.
- `internal/codex/translate.go` beyond what creates a text item, and title, turn and status translation: shape guessing with no crisp specification.
- Audit journaling and export: it never gates an event.
- Turn mutual exclusion of `StartTurn`: the check and the act are not one step in the source, so nothing is claimed.
- Capability setters, directory listing, session discovery, history paging: they would only add easy members.
- Integer widths: sequence numbers, generations and sizes are unbounded here, 64-bit or 32-bit in the source.
- `restoreLocked` against the app-server: only its effect on owners, lease, workspace registration and the event row is modelled; legacy rows without a management state are not.
- Nil sub-messages in events and views are taken to be present, and the budgeted messages carry only the fields the shrinkers and clients read.
- MessageBudget.ItemMessage.Bound: repeated fields and sub-messages are values inside one message object; what an event and a view share is put together in `SharedMessages`.
- MessageBudget.PendingMessage.Bound: the same value semantics for sub-messages as `ItemMessage.Bound`.
- Owners.OwnerIsTheLineage: starts from an empty database; records written before logical owners existed have none to carry. `Owners.LiveOwnerIsRecorded` starts from any database.
- Workspace.StepKeeps: a persisted snapshot handed to `Register` is one a Host wrote, so a token seen before in this process stands at its own generation.
- WorkspaceCommit.MemoryIsDurable: is about transitions with nothing cutting in; interleavings are `WorkspaceJoint.RunAgrees`.
- Mutation.MutableWorkspace.Mutate: is about a call nothing interleaves with, in one directory of canonical names; interleaved calls are `MutationRace.SurvivesIff`. Symbolic links, a partly removed tree left by a failed recursive removal, and a crash in mid-call are not modelled.
- Mutation.MutableWorkspace.WriteText: the same uninterleaved scope as `Mutate`.
- Mutation.MutableWorkspace.Upload: the same uninterleaved scope as `Mutate`.
- Mutation.MutableWorkspace.Rollback: removes a tree as a whole or not at all.
- MutationRace.SurvivesIff: staging and building a file are one step, and undoing its files does not fail; the failures of single calls are in `Mutation`.
- Collab.AgentsAreTheActiveChildren: the calls that start and stop agents succeed; agents that carry turn ids instead of child ids are not part of this model, nor is the rebuilding of child agents at restart.
- ActivityStore.StreamStore.BroadcastToWatchers: goes through the watchers in an arbitrary order, as the source's map iteration does.
