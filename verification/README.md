# Odd Jobs: a verified model

This project models the parts of the Odd Jobs daemon and command line where a mistake loses or
repeats work, or changes what a user wrote, and proves what they promise.

* **Storage and recovery.** `Wal` is the write-ahead log, as a class whose methods are tied to
  functions on a log value; `EventBus` the bus in front of it. `Protocol` puts senders, the reader,
  the engine loop, the executor's and the listeners' early applications, what the runtime writes to the
  state without an event, the checkpoint task and crash/restart into one transition system whose log
  steps are those same functions.
  `ProtocolInvariant` keeps an invariant over every step; `ProtocolTheorems` draws the conclusions
  about delivery: no lost wakeup, nothing needed is truncated. `Traces` shows that in every run the
  state is the fold of what was applied, in the order in which that happened; `Collapse` and `Weaving`
  say which orders every idempotent transition function takes for the same, `Commuting` what more is
  harmless for one under which events may trade places; `Recovery`, `Restart`, `Emission` and `Steady`
  say from that, with conditions in both directions, when a snapshot, a restart or an early application
  leaves the state the log stands for. `Runs` puts runs together from pieces and `DaemonRuns` carries
  all this to the daemon's own transition function, with concrete runs. `RetryCounts`, `RetryRuns` and
  `RunAttempts` say what becomes of the counts that the runtime keeps in the state without events.
* **State.** `State` is the transition function of the event-sourced state, event by event and table
  by table; `StateLaws` and `Clocks` prove that it is idempotent and that clock readings stay in the
  fields that hold them, `Tables`, `JobTables` and `Independence` which tables and records an event uses
  and so which events commute, `StateInvariant` and `StateReferences` what every event keeps true inside
  the tables and between them. What a whole history makes of each record is told, apart from the
  transition function, from the events about that record: `JobStories` for jobs, `QueueItems` for queue
  items and their order, `RecordStories` for workspaces, workers, crons, sessions, runbooks, project
  roots and agent runs, `Endings` for the workers' lists and open decisions; `Effects` says what one event
  does to agents, decisions and signals.
* **Engine.** `Engine` drains a log whose entries may fail; `Scheduler`, `TimerIds`,
  `TimerCleanup`, `Actions`, `Jobs` and `Retries` are the timer table, the identifiers packed into
  strings, which timers a deleted job takes along, and the retry bookkeeping.
* **Text and bytes.** `Calendar` and `Timestamps`; `ArgSpec`, `ArgParser`, `Usage`, `UsageRoundTrip`,
  `ArgSplit` and `ArgBinding` for argument specifications; `UsageLog` and `Rotation` for the usage
  metrics; `Env`, `Wire` and `Names` for the small codecs; `Help` and `Shades` for colored help and what a
  terminal shows of it.

Clock readings, the outcome of handling an entry, the order in which a hash map is walked, what a crash leaves behind
and what a JSON line says are parameters or arbitrary choices.

## Where the code does less than it says

The model follows the code. In these places the code and its own documentation differ; each has a
lemma with the exact condition or a concrete run.

* crates/daemon/src/lifecycle/mod.rs:154-157 and crates/daemon/src/listener/crons.rs:109-111 say that
  applying an event early and once more from the log is harmless, because applying is idempotent.
  Re-applying the *last* event is (`DaemonRuns.Reapply`), but a handler that emits two different
  events has them applied as `x y x y`. `Emission.EarlyHarmlessIff` says exactly when one handling is
  harmless for every idempotent transition function, and `Emission.LifeSettlesIff` and
  `Emission.LifeTellsIff` when a whole life without a crash is, whatever handlers emit, drop or count and
  whatever the handlers of emitted events emit in turn: everything a handler applies must repeat the
  entry it handles and then the entry handled next. For the daemon's own transition function it is enough
  that what is applied early comes up again among the entries handled and is independent of those in
  between (`DaemonRuns.DaemonLives`). `DaemonRuns.EarlyCanDiverge` runs one failing command, after which a
  step counts as entered twice that the log enters once.
  Early events that are never sent, because the handler fails or drops them
  (crates/engine/src/runtime/job.rs:328-334), are in the state until the next restart, and after it only
  if the snapshot had captured them (`Recovery.RecoveryIsTrace`).
* crates/core/src/job.rs:282-285 and crates/daemon/src/listener/query.rs:68 present the retries of a job as
  a total over its life. The runtime counts attempts and retries in the state without an event
  (crates/engine/src/runtime/mod.rs:129, crates/engine/src/runtime/monitor.rs:257 and 365-369,
  crates/engine/src/runtime/agent_run.rs:345 and 433-437), so the log does not have them: a restart keeps
  exactly the counts captured by the snapshot, with attempts cleared where a replayed event clears them
  (`RetryRuns.RestartCounts`, `RunAttempts.RestartRuns`), and forgets exactly what was counted since
  (`RetryRuns.RetriesLost`). `RetryRuns.AttemptForgotten` is a run that forgets two attempts and a retry.
* A checkpoint taken between a handler's emissions and the mark recovers the log for every idempotent
  transition function only if the handler emitted nothing but the entry it handles
  (`Emission.CaptureInHandlingIff`).
* docs/arch/04-storage.md:252 says that replaying the same entries gives an identical state. After a
  restart the entries above the snapshot are replayed and then delivered again.
  `Restart.RestartRepeats` says what comes out; `Restart.RestartHarmlessIff` and
  `Restart.RestartTellsIff` that this is the log's state for every idempotent transition function
  exactly if those entries are all the same event, so that one is harmless; `DaemonRuns.DaemonRecovers`
  that for the daemon's own they may also be independent of one another; and
  `DaemonRuns.RestartCanDiverge` gives three events after which a step counts as visited twice as often
  as it was.
* crates/storage/src/wal.rs:182-195 uses byte offset 0 both as "not found yet" and as a position. A
  file whose first entry is unprocessed is read from the second entry on (`WalLaws.OpenCursorIff`,
  `ProtocolTheorems.RestartPassesOverFirst`).
* docs/arch/04-storage.md:251 says that sequence numbers never repeat. After damage at the start of
  the file they restart below the snapshot's number, and the events so numbered are not replayed
  (`WalLaws.NextNumberAboveSnapshotIff`).
* crates/storage/src/wal.rs:424 renames the truncated file into place without syncing the directory, as
  crates/storage/src/checkpoint.rs does for the snapshot. If a power failure undoes the rename, exactly the
  entries flushed since are lost (`WalLaws.RenameUndone`).
* Truncating while the engine holds an entry moves the cursor back over it, and it is delivered twice
  (`ProtocolTheorems.HeldEntryComesBack`; `Runs.EntryComesBack` is such a run).
* A session log line that is not UTF-8 stops the token count for good (`UsageLog.LeftBehindIff`). A
  blank or non-UTF-8 line in the write-ahead log stops its reader until the next truncation
  (`WalLaws.StuckReader`); that drops a blank line, and a non-UTF-8 line together with everything
  behind it (`WalLaws.TruncationFrees`, `WalLaws.FreedIff`).
* The owner of a cooldown timer is misread if the job id is `ar` or contains a colon
  (`TimerIds.OwnerReadIff`). Deleting a job cancels the cooldowns of every job whose id begins with its
  id, because the prefix lacks the closing colon; ids of one length, as UUIDs are, avoid that
  (`TimerCleanup.CleanupSweepsIff`).

## Model

| member | source | states |
|---|---|---|
| ProtocolInvariant.NextInv | crates/daemon/src/event_bus.rs:55-115 | every step of senders, reader, flush, checkpoint, truncation and crash keeps the invariant: entries numbered without gaps, the mark behind the cursor, every surviving snapshot covered by the file, deliveries in order, and a sleeping reader with unread entries about to be woken |
| ProtocolInvariant.RunInv | crates/daemon/src/event_bus.rs:55-115 | the invariant holds at every moment of every run |
| ProtocolInvariant.TruncateInv | crates/storage/src/wal.rs:356-440 | truncation at the durable snapshot's number keeps the invariant, wherever the reader is |
| ProtocolInvariant.CrashInv | crates/daemon/src/lifecycle/mod.rs:321-346 | a crash at any point (any prefix of the buffer written, a torn last line, any snapshot that may be visible) and the restart keep the invariant |
| ProtocolTheorems.NoLostWakeup | crates/daemon/src/event_bus.rs:41-106 | in every run: if the reader sleeps, no token waits and no sender is between append and wake, then every event sent has been delivered in order, once unless a truncation rewound the cursor, and marked |
| ProtocolTheorems.InSequence | crates/daemon/src/event_bus.rs:90-106 | in every run deliveries follow the log from the start of the life without gaps, and without repeats if nothing was rewound |
| ProtocolTheorems.NothingNeededIsTruncated | crates/daemon/src/main.rs:349-413 | whatever a crash leaves, and the rename of a truncation once done being durable, recovery finds every event above its snapshot, in order, including all that was on disk |
| ProtocolTheorems.RestartPassesOverFirst | crates/storage/src/wal.rs:161-214 | a restart delivers from right above its snapshot, except that without a snapshot exactly the first entry is passed over |
| ProtocolTheorems.TruncateMovesCursorIff | crates/storage/src/wal.rs:356-440 | truncating moves the cursor exactly if it was not right behind the mark |
| ProtocolTheorems.HeldEntryComesBack | crates/daemon/src/main.rs:389-391 | if an entry is held while the log is truncated, it is handled, marked and then delivered again |
| Runs.EntryComesBack | crates/daemon/src/main.rs:389-391 | a run from the first start in which that happens: two events, the second delivered twice |
| Traces.StateIsTrace | crates/daemon/src/lifecycle/mod.rs:153-165 | in every run, whatever is applied early, whatever the runtime writes without an event and whenever a crash strikes, the state is the fold of the events applied to it in that order, up to what clock readings and such writes change |
| Collapse.SameState | crates/storage/src/state.rs:264-287 | orders of application that agree without consecutive repetitions lead every idempotent transition function to the same state |
| Collapse.RecorderTells | crates/storage/src/state.rs:264-287 | one idempotent transition function tells all others apart, so that the conditions below cannot be weakened |
| Collapse.RepeatIff | crates/daemon/src/lifecycle/mod.rs:154-157 | going through the last events once more is harmless exactly if they are all the same one |
| Collapse.FitsIff | crates/daemon/src/lifecycle/mod.rs:154-157 | what is applied between an event and those that follow makes no difference exactly if it repeats that event, and, if there is a next one, then that |
| Weaving.WovenIff | crates/daemon/src/lifecycle/mod.rs:154-157 | a log with other events applied behind every entry amounts to the log exactly if each of them fits where it is applied |
| Commuting.AllOnce | crates/daemon/src/lifecycle/mod.rs:154-157 | for a given idempotent transition function, events applied early leave no trace if each comes up again later and commutes with what comes before it there |
| Commuting.WovenAbsorbed | crates/daemon/src/lifecycle/mod.rs:154-157 | so it is for a whole log with events applied behind every entry |
| Emission.EarlyHarmlessIff | crates/engine/src/executor.rs:108-118 | handling an entry on a settled state, with what its handler emits, drops or counts and with the emitted events applied again from the log behind what waits, settles exactly if what is applied fits between the entry and the next one |
| Emission.EarlyKeepsState | crates/daemon/src/lifecycle/mod.rs:153-177 | then every idempotent transition function ends in the fold of the log, up to clock readings and what the runtime writes without an event |
| Emission.EarlyTellsIff | crates/daemon/src/lifecycle/mod.rs:153-177 | and one ends in the fold of the log only then |
| Emission.EarlyAbsorbed | crates/daemon/src/lifecycle/mod.rs:153-177 | a transition function under which the applied events are absorbed by what waits and what is emitted ends in the fold too |
| Emission.LifeSettlesIff | crates/daemon/src/lifecycle/mod.rs:153-177 | over any life without a crash, whatever comes in and whatever handlers emit, drop or count, handlers of emitted events included, the state amounts to the entries handled exactly if what each handler applied fits between its entry and the next one |
| Emission.LifeTellsIff | crates/daemon/src/lifecycle/mod.rs:153-177 | one idempotent transition function ends such a life in the fold of the entries handled only then |
| Emission.LifeAbsorbed | crates/daemon/src/lifecycle/mod.rs:153-177 | and a given one does so if what handlers apply is absorbed by the entries handled later |
| Emission.CaptureInHandlingIff | crates/daemon/src/main.rs:362-372 | a snapshot taken between a handler's emissions and the mark recovers the log exactly if the handler emitted nothing but the entry it handles |
| Emission.SettledIsCovered | crates/daemon/src/main.rs:362-372 | a checkpoint taken when the loop is settled captures events of the log |
| Recovery.RecoveryIsTrace | crates/daemon/src/lifecycle/mod.rs:321-346 | after any run and any crash the recovered state is the fold of what the snapshot holds and of the surviving events above its number, up to clock readings and what the runtime writes without an event |
| Recovery.RecoveryIsFold | crates/daemon/src/lifecycle/mod.rs:321-346 | if whatever a checkpoint captured stood for events of the log on disk, alike above the mark, that is, up to the same, the fold of every event that survived, through any number of crashes and early applications |
| Recovery.SnapshotGoodIff | crates/daemon/src/lifecycle/mod.rs:321-346 | a snapshot that stands for more events than its number recovers the log exactly if those in between are all the same |
| Steady.StateIsFold | crates/daemon/src/listener/crons.rs:107-115 | in a run whose early applications keep pace with the log, right behind a send as a listener's or right before one as the executor's, and whose checkpoints and restarts find at most one event repeated above the mark, the state is at every moment the fold of the events of the log applied so far and of those about to be sent, and its checkpoints recover the log |
| Restart.RestartRepeats | crates/daemon/src/lifecycle/mod.rs:339-346 | after any crash the log can be drained, and then the state is, up to clock readings and what the runtime writes without an event, the fold of what was recovered and, behind it, of every entry above the base once more |
| Restart.RestartHarmlessIff | crates/daemon/src/lifecycle/mod.rs:339-346 | that stands for the log exactly if the entries above the base are all the same event |
| Restart.RestartKeepsState | crates/daemon/src/lifecycle/mod.rs:339-346 | then every idempotent transition function ends in the fold of every event that survived, up to clock readings and what the runtime writes without an event; and so does one under which those entries commute |
| Restart.RestartTellsIff | crates/daemon/src/lifecycle/mod.rs:339-346 | and one ends in it only then |
| DaemonRuns.Reapply | crates/storage/src/state.rs:264-287 | applying any event again at once, at any later clock reading, changes clock readings only |
| DaemonRuns.DaemonRecovers | crates/daemon/src/lifecycle/mod.rs:321-346 | with the daemon's transition function, up to clock readings and the attempts and retries counted without events: if the checkpoints captured events of the log, recovery gives the fold of every event that survived, and draining keeps it if the entries above the base are repetitions or independent of one another |
| DaemonRuns.DaemonLives | crates/daemon/src/lifecycle/mod.rs:153-177 | up to the same, a life without a crash ends in the fold of the entries handled if all that handlers apply early comes up again among them and is independent of those in between |
| DaemonRuns.RestartCanDiverge | crates/daemon/src/lifecycle/mod.rs:339-346 | a run whose restart recovers the right state and then, by draining the log, ends in one that differs by more than clock readings and retry counts |
| DaemonRuns.EarlyCanDiverge | crates/engine/src/steps.rs:34-51 | a run without a crash: one failing command whose handler emits three events leaves a state that differs from the log's by more than clock readings and retry counts |
| RetryCounts.CountsStep | crates/storage/src/state.rs:441-506 | on the whole state, a job's attempts and retries after any event: none for a new job, attempts cleared where the job goes on from a step that has not failed, and else as they were |
| RetryRuns.RestartCounts | crates/daemon/src/lifecycle/mod.rs:321-346 | a job that a crash leaves has the counts its snapshot captured, unless an event above the snapshot's number made it anew or cleared its attempts |
| RetryRuns.LifeRetries | crates/core/src/job.rs:415-423 | over a life in which no event makes or deletes the job, its retries grow by exactly what the runtime counts |
| RetryRuns.RetriesLost | crates/engine/src/runtime/monitor.rs:365-369 | a crash forgets exactly the retries counted since the snapshot was captured |
| RetryRuns.DrainedRetries | crates/daemon/src/lifecycle/mod.rs:339-346 | and draining the log brings none back |
| RetryRuns.AttemptForgotten | crates/engine/src/runtime/monitor.rs:365-369 | a run with a checkpoint: two attempts, one of them a retry, and none after the crash |
| RunAttempts.RunCountsStep | crates/storage/src/state.rs:1076-1160 | on the whole state, no event but the one that makes an agent run touches its attempts |
| RunAttempts.RestartRuns | crates/engine/src/runtime/agent_run.rs:433-437 | an agent run that a crash leaves has the attempts its snapshot captured, or none if it was made since |
| EventBus.Bus.Send | crates/daemon/src/event_bus.rs:55-63 | a send appends its event with the next number and leaves a token in the wake channel |
| EventBus.Bus.Recv | crates/daemon/src/event_bus.rs:90-106 | the receiving loop does what the function `Received` says about log, token and outcome, a failing flush included |
| EventBus.BlocksIff | crates/daemon/src/event_bus.rs:90-106 | on a sound log a receive fails exactly if the disk does not take the buffer, blocks exactly if everything was delivered, and otherwise delivers the next event |
| Wal.Scan | crates/storage/src/wal.rs:161-214 | the scan finds the largest number, whether a line does not parse, and the cursor, offset 0 included |
| Wal.Wal.Open | crates/storage/src/wal.rs:88-155 | opening keeps the readable records before the first damaged line and takes up number, mark and cursor |
| Wal.Wal.Append | crates/storage/src/wal.rs:254-261 | the event is buffered under the next number |
| Wal.Wal.Flush | crates/storage/src/wal.rs:274-287 | the buffered lines reach the file in order as far as the disk accepts them; the rest is lost |
| Wal.Wal.NextUnprocessed | crates/storage/src/wal.rs:292-332 | flushes, then reads the line at the cursor: an entry, nothing at the end or at a bad line, an error if the flush failed |
| Wal.Wal.TruncateBefore | crates/storage/src/wal.rs:356-440 | keeps the readable entries from the number on and puts the cursor at the first one above the mark |
| Wal.Wal.EntriesAfter | crates/storage/src/wal.rs:441-490 | lists the readable entries above the number |
| WalLaws.OpenTwice | crates/storage/src/wal.rs:88-155 | opening an opened log changes nothing |
| WalLaws.OpenCursorIff | crates/storage/src/wal.rs:182-195 | the cursor is at the first unprocessed entry exactly if that is not the first line of the file |
| WalLaws.OpenPassesOver | crates/storage/src/wal.rs:182-195 | an unprocessed entry is passed over on opening exactly if it is the first line |
| WalLaws.NextNumberIsNew | crates/storage/src/wal.rs:254-261 | the next number is larger than any in the opened file |
| WalLaws.NextNumberAboveSnapshotIff | crates/storage/src/wal.rs:88-155 | the next number lies above the snapshot's exactly if a readable entry reaches it; otherwise the event is not replayed |
| WalLaws.FlushedSurvives | crates/storage/src/wal.rs:274-287 | reopening finds exactly the lines that were written, and the buffer keeps none of the others |
| WalLaws.TruncateKeepsIff | crates/storage/src/wal.rs:365-396 | an entry from the number on survives truncation exactly if a copy stands before the first damaged line |
| WalLaws.StuckReader | crates/storage/src/wal.rs:301-312 | a blank or non-UTF-8 line at the cursor is not passed, whatever is written, flushed, read or marked, until the log is truncated |
| WalLaws.TruncationFrees | crates/storage/src/wal.rs:356-440 | truncation leaves nothing a reader could stop at, and of the unmarked entries from the number on exactly those come up again that stand before the first damaged line |
| WalLaws.FreedIff | crates/storage/src/wal.rs:356-440 | after a truncation the reader finds an entry exactly if there is such an entry |
| WalLaws.RenameUndone | crates/storage/src/wal.rs:423-424 | if the rename of a truncation is undone by a power failure, recovery misses exactly the entries flushed since that lie above the snapshot's number |
| WalLaws.ReadsEverything | crates/storage/src/wal.rs:292-332 | over entries and unparseable lines, repeated reads return every record once, in order |
| StateLaws.ApplyTwiceSameClock | crates/storage/src/state.rs:287-1192 | for every state and every event, applying it twice at one clock reading equals applying it once |
| JobStories.JobTold | crates/storage/src/state.rs:287-711 | over every history, for any job and between any other events: the job is there exactly if it was made and not deleted since; and its step, status, error, step records with their outcomes and agents, step visits, merged variables, cancelling mark, session and workspace are what the events about it since it was made say, for success and failure of shell, step and agent events, each terminal step, waiting and resuming |
| JobStories.Step | crates/storage/src/state.rs:287-1192 | on the whole state, an event about the job, its agent, its workspace or a decision of it changes its record, and any other event leaves it as it was but for a signal of its agent |
| RecordStories.WorkspaceTold | crates/storage/src/state.rs:650-703 | over every history a workspace is there exactly if it was made and not deleted since, as it was made, with the status last said of it |
| RecordStories.WorkerTold | crates/storage/src/state.rs:745-822 | over every history a worker is as it was last started, stopped if it was stopped since, and as large as was last said |
| RecordStories.CronTold | crates/storage/src/state.rs:935-1002 | over every history a cron is as it was last started, stopped if it was stopped since, and has fired if it did while it was there, restarts included |
| RecordStories.RunTold | crates/storage/src/state.rs:1076-1160 | over every history an agent run is as it was made, with the status last said, started or waiting for a decision, the last reason, the last agent and the last session not deleted |
| RecordStories.SessionsTold | crates/storage/src/state.rs:591-648 | over every history a session is there with the job it was last made for, until it is deleted |
| RecordStories.RunbooksTold | crates/storage/src/state.rs:425-439 | over every history a runbook is as it was first loaded |
| RecordStories.RootsTold | crates/storage/src/state.rs:1162-1171 | over every history a namespace has the project root last named by a command, a worker or a cron |
| Effects.AgentIs | crates/storage/src/state.rs:287-376 | in any state, what any event makes of any agent: starting with its step or run where its owner works, its status and session, and that it goes with its owner |
| Effects.DecisionIs | crates/storage/src/state.rs:1004-1075 | in any state, what any event makes of any decision: asked for once, taken, replaced by the next of its owner, and dropped with its job, with the end of its job or of its agent run if open |
| Effects.SignalIsKept | crates/storage/src/state.rs:713-743 | in any state, a signal goes to one agent run of the agent, or else to one job of it, and nothing else changes; a signal to continue goes nowhere |
| Clocks.ApplyClock | crates/storage/src/state.rs:287-1192 | the clock reading of an event and the clock fields of the state influence nothing but clock fields |
| Clocks.ApplyForget | crates/storage/src/state.rs:287-1192 | nor do the attempts and retries counted influence anything but themselves |
| Tables.Frame | crates/storage/src/state.rs:287-1192 | every event leaves the tables alone that it does not use |
| Tables.Locality | crates/storage/src/state.rs:287-1192 | and what it makes of the tables it uses depends on no other |
| Independence.IndependentCommute | crates/storage/src/state.rs:287-1192 | events that use different tables, or are about the records of different jobs or about different queues, may trade places in any state |
| StateInvariant.ApplyOk | crates/storage/src/state.rs:287-1192 | every event keeps jobs under their ids, only the last step record open, step visits equal to step records, queue items and worker jobs without duplicates |
| StateInvariant.AdvanceOk | crates/storage/src/state.rs:441-506 | advancing a job keeps its records consistent; it does nothing if the job stands on the step, and else closes the open record, keeps all others, and opens and counts exactly one for a step that is not terminal |
| StateInvariant.FoldOk | crates/storage/src/state.rs:287-1192 | every state that folding a history leads to is consistent in this way |
| StateReferences.ApplyKeepsReferences | crates/storage/src/state.rs:287-1192 | every event keeps the sessions that jobs, agent runs and agents refer to in the session table, and no owner with two open decisions |
| StateReferences.FoldKeepsReferences | crates/storage/src/state.rs:287-1192 | so does every state that folding a history leads to |
| Endings.HeldIff | crates/storage/src/state.rs:780-822 | after every history a worker's list has a job exactly if it was dispatched to that worker and since then neither ended nor the worker was deleted; deleting the job does not take it from the list |
| Endings.UndecidedIff | crates/storage/src/state.rs:1004-1075 | after every history a decision of a job is open exactly if it was asked for and since then neither taken nor replaced by another of its owner nor dropped with its job or agent run |
| Endings.EndedLeavesNothing | crates/storage/src/state.rs:491-504 | once a job has ended, no worker's list has it and no decision of it is open, until it is dispatched or asked about again |
| Endings.DeletedLeavesNothing | crates/storage/src/state.rs:582-589 | once a job is deleted, it has no record, no decision and no agent, until it is made or asked about again |
| QueueItems.ItemStep | crates/storage/src/state.rs:824-932 | on the whole state, an event about another item, queue or table leaves an item as it was; a push adds it if it is missing, a drop takes it away, any other event changes its record |
| QueueItems.FailuresCounted | crates/storage/src/state.rs:824-932 | over every history, for any queue and item and between any other events: the item is there exactly if it was pushed and not dropped since, its status is that of its last event, and its failure count is the number of times it turned to failed since it was last pushed or retried |
| QueueItems.ItemHolds | crates/storage/src/state.rs:824-932 | over every history an item holds what was pushed, and names the worker that took it last unless it was put back |
| QueueItems.QueueOrder | crates/storage/src/state.rs:824-932 | over every history a queue has the items that were pushed and not dropped, in the order of their pushes |
| Engine.Answer | crates/daemon/src/main.rs:212-250 | an entry is marked whatever happens; a failing one that carries a job and is neither a failure nor a resume is answered by `JobAdvanced(job, "failed")` for that job, and no other one is answered |
| Engine.Drain | crates/daemon/src/main.rs:206-261 | draining terminates; what was unread and the failures it leads to are marked once each, in order, and nothing else, and the log gains just these failures, in order |
| Engine.FailuresAre | crates/daemon/src/main.rs:235-246 | which entries those are: exactly the failing ones that carry a job and are neither a failure nor a resume lead to a failure of that job, one each, in the order of the entries |
| Engine.JobIdIs | crates/core/src/event.rs:970-1020 | which job an event names: its own if it is about a job, a step, a command, a resume or a dispatch; the job that a cron fires unless it is an agent run, that a session is made for, or for which a decision is asked, if a job owns it; and no other |
| Engine.ChangesItsJob | crates/core/src/event.rs:970-1020 | an event about a job or a step changes the record of no other job than the one it names |
| Engine.WorkIsClosed | crates/daemon/src/main.rs:235-246 | failure events lead to no further events, so at most twice the unread entries are handled |
| Calendar.Epoch | crates/engine/src/time_fmt.rs:34-46 | day 0 is 1 January 1970 |
| Calendar.CivilValid | crates/engine/src/time_fmt.rs:34-46 | every day number, also before the epoch, gives a date that exists |
| Calendar.CivilSuccessor | crates/engine/src/breadcrumb.rs:206-218 | the next day number gives the next date of the Gregorian calendar |
| Calendar.NumberOfCivil | crates/engine/src/usage_metrics.rs:494-504 | counting years, months and days of the computed date gives the day number back |
| Calendar.CivilOfNumber | crates/engine/src/time_fmt.rs:34-46 | every existing date is computed for its day number |
| Calendar.CivilOrders | crates/engine/src/time_fmt.rs:34-46 | day numbers and dates are ordered alike |
| Calendar.YearOfEraLemma | crates/engine/src/time_fmt.rs:37-40 | the division by 1460, 36524, 146096 and 365 finds the year of the era that contains the day |
| Timestamps.StampsSort | crates/engine/src/time_fmt.rs:9-29 | before the year 10000, timestamps sort as strings exactly as the seconds do |
| Timestamps.BoundIsSharp | crates/engine/src/time_fmt.rs:25-28 | the first timestamp of the year 10000 sorts before the last one of 9999 |
| Timestamps.StampRoundTrip | crates/engine/src/time_fmt.rs:9-29 | reading the columns of a timestamp gives back its seconds |
| ArgSpec.AcceptedIsWellFormed | crates/runbook/src/command.rs:92-258 | whatever text is accepted, all names differ and no required positional follows an optional one |
| ArgSpec.ClosingIff | crates/runbook/src/command.rs:158-170 | the bracket that ends an item is the one behind a text whose own brackets are balanced, if there is one |
| ArgSpec.AliasIff | crates/runbook/src/command.rs:318-368 | over all texts, which alias and which name the text of a flag or option gives: the alias stands before the only slash behind one dash, or is the name itself |
| ArgSpec.ItemConsistent | crates/runbook/src/command.rs:113-254 | every item the scanning loop reads keeps the name set, the order and the optional mark consistent |
| ArgParser.TakeAngled | crates/runbook/src/command.rs:115-155 | the branch for angle brackets, with its errors in the source's order, as the function of the text |
| ArgParser.TakeOptional | crates/runbook/src/command.rs:156-210 | the branch for square brackets with nesting and ellipsis, as the function of the text |
| ArgParser.TakeDashed | crates/runbook/src/command.rs:211-243 | the branch for dashes with a following value, as the function of the text |
| ArgParser.PeekEllipsis | crates/runbook/src/command.rs:271-284 | three dots are consumed exactly if they are next |
| ArgParser.ParseArgSpec | crates/runbook/src/command.rs:92-258 | the scanning loop computes the parse of the text |
| Usage.BuildUsageLine | crates/runbook/src/command.rs:372-399 | the loops over positionals, variadic, options and flags print the parts in that order |
| Usage.PartParses | crates/runbook/src/command.rs:113-254 | a printed part, its alias included, is read as itself wherever it stands in a line, and refused for the first reason in the order of the source: behind a variadic, a required one behind an optional one, a name given twice |
| Usage.DotsBehind | crates/runbook/src/command.rs:127-132 | a variadic may have its dots behind its brackets, whatever follows |
| Usage.DotsRefused | crates/runbook/src/command.rs:178-187 | dots behind a bracketed flag or option are refused |
| Usage.BareFlag | crates/runbook/src/command.rs:211-243 | a flag may stand without brackets; unless a value follows, what follows is read on its own |
| UsageRoundTrip.WrittenIff | crates/runbook/src/command.rs:92-258 | for parts written in any order: the text is accepted exactly if nothing is wrong with any of them, and gives what they make; otherwise the error is that of the first with which something is wrong |
| UsageRoundTrip.DefinitionRoundTrip | crates/runbook/src/command.rs:92-258 | parsing the definition of a well-formed specification, written with its short aliases, gives it back with them |
| UsageRoundTrip.UsageRoundTrip | crates/runbook/src/command.rs:372-399 | parsing the usage line gives the specification back without short aliases |
| UsageRoundTrip.RoundTripIff | crates/runbook/src/command.rs:372-399 | among specifications with names free of the delimiters of their position, exactly the well-formed ones survive |
| ArgSplit.SplitRawArgs | crates/runbook/src/command.rs:413-473 | the loop over the raw arguments computes the split |
| ArgSplit.SplitAppend | crates/runbook/src/command.rs:413-473 | splitting is compositional where the first part has come to an end; behind `--` the rest is positional, and a dangling option takes the next argument |
| ArgSplit.FlagPosition | crates/runbook/src/command.rs:406-412 | an argument that gives a flag of the specification, put where the arguments before it have come to an end, changes that flag's entry and nothing else |
| ArgSplit.FirstArgument | crates/runbook/src/command.rs:413-473 | argument by argument, over the names and aliases of the specification: `--` ends the scan, an option takes the argument behind it or stays positional without one, a flag is set, and anything else stays positional |
| ArgSplit.ClassifyIs | crates/runbook/src/command.rs:425-465 | what an argument is: behind two dashes the name of an option, else of a flag; behind one dash the alias of the first option that has it, else of the first flag |
| ArgSplit.EndedIff | crates/runbook/src/command.rs:413-473 | arguments have come to an end exactly if they are, one after the other, plain arguments, flags, and options with their values |
| ArgBinding.ValidateArgs | crates/runbook/src/command.rs:611-680 | validation succeeds exactly if all names are known, every required positional, option and variadic has a value and no positional is left over without a variadic; and it reports an unknown name if there is one, else the first problem in the source's order |
| ArgBinding.ProblemIs | crates/runbook/src/command.rs:634-680 | the reported problem is a real one of its kind, with nothing missing before it in the order of the definitions |
| ArgBinding.ParseArgs | crates/runbook/src/command.rs:683-713 | binding puts defaults, positionals, variadic and named arguments over one another in that order |
| ArgBinding.SplitIsKnown | crates/runbook/src/command.rs:626-632 | after splitting, validation never meets an unknown option |
| ArgBinding.PositionalBound | crates/runbook/src/command.rs:683-713 | whatever is given, a positional is bound to its named value, else the argument in its place, else its default, and a required one is bound if validation succeeds |
| ArgBinding.OptionBound | crates/runbook/src/command.rs:683-713 | an option is bound to its value, else its default, and exactly if one is given; a required one if validation succeeds |
| ArgBinding.VariadicBound | crates/runbook/src/command.rs:697-710 | the variadic is bound to its named value, else the remaining arguments joined, else its default, and exactly if there is one; a required one if validation succeeds |
| ArgBinding.ValidatedIsBound | crates/runbook/src/command.rs:611-713 | from the specification text and the raw command line: if validation succeeds, every required name is bound |
| UsageLog.ParseSessionUsage | crates/engine/src/usage_metrics.rs:95-193 | the reading loop counts what one pass over the complete lines from the offset counts, and ends where it ends |
| UsageLog.ScanTotals | crates/engine/src/usage_metrics.rs:136-190 | each of the four counts of a pass is the arithmetic sum of that count over the complete lines before the first that is not text, and the model is that of the last of those lines that names one |
| UsageLog.ReadsTotal | crates/engine/src/usage_metrics.rs:288-312 | so are the totals of any schedule of reads on a growing log |
| UsageLog.CollectedTotal | crates/engine/src/usage_metrics.rs:288-313 | and those of each session over any number of collection cycles in which it is found at most once each |
| UsageLog.IncrementalIsOneShot | crates/engine/src/usage_metrics.rs:288-312 | whatever the schedule of reads on a growing log, totals and offset are those of one pass over the log as last seen |
| UsageLog.ScanCounts | crates/engine/src/usage_metrics.rs:136-190 | each complete line before the first that is not text is counted once, and no other |
| UsageLog.OffsetEndsLine | crates/engine/src/usage_metrics.rs:141-145 | the saved offset is always the start of a line |
| UsageLog.LeftBehindIff | crates/engine/src/usage_metrics.rs:136-190 | complete lines stay uncounted exactly if the first of them is not text, and then for good |
| UsageLog.Collector.CollectOnce | crates/engine/src/usage_metrics.rs:288-313 | a cycle feeds the sessions of the logs found, in order |
| UsageLog.CollectsEach | crates/engine/src/usage_metrics.rs:288-313 | a cycle feeds each session its own log once and leaves the others alone |
| Rotation.Logs.Rotate | crates/daemon/src/main.rs:466-487 | the renames, oldest first, move every file up by one |
| Rotation.RotationKeepsLatest | crates/engine/src/usage_metrics.rs:407-417 | rotation keeps the latest contents, newest first, and gives up the oldest only when all places are taken |
| TimerIds.OwnerReadIff | crates/core/src/timer.rs:156-213 | the owner read from an owner-based timer id is the owner it was made for, exactly under the stated condition on its id |
| TimerIds.NoOwner | crates/core/src/timer.rs:156-213 | cron, queue-retry and queue-poll timers have no owner |
| TimerIds.IdInjective | crates/core/src/timer.rs:24-153 | timers whose names are free of the delimiters of their position have different ids, even with colons in the trigger |
| TimerCleanup.CancelJobTimers | crates/engine/src/runtime/handlers/lifecycle.rs:273-285 | the handler's cancellations change the table as the function `CleanedUp` says |
| TimerCleanup.CleanupSweepsIff | crates/engine/src/runtime/handlers/lifecycle.rs:273-285 | for a job id without colons, a timer goes exactly if it is the job's own, the cooldown of a job whose id begins with that id, or an agent run's cooldown if the id is a prefix of `ar`; the others keep their deadlines. Among ids of one length these are the job's own |
| TimerCleanup.ColonWouldSuffice | crates/engine/src/runtime/handlers/lifecycle.rs:284 | with the closing colon the prefix would match that job's cooldowns alone, and those of agent runs for a job called `ar` |
| Scheduler.Scheduler.FiredTimers | crates/engine/src/scheduler.rs:45-63 | returns each due id once and removes exactly those |
| Scheduler.Scheduler.CancelTimersWithPrefix | crates/engine/src/scheduler.rs:40-42 | removes exactly the ids with the prefix |
| Scheduler.Scheduler.NextDeadline | crates/engine/src/scheduler.rs:66-68 | the least deadline, or none exactly if there are no timers |
| Scheduler.TableIsLive | crates/engine/src/scheduler.rs:29-63 | after any operations a timer is in the table, with its deadline, exactly if its latest set was not replaced, cancelled or fired |
| Scheduler.FiresIff | crates/engine/src/scheduler.rs:45-63 | firing reports an id exactly if such a set of it is due |
| Scheduler.FiresOnce | crates/engine/src/scheduler.rs:45-63 | no set fires twice or before its deadline |
| Scheduler.FiresAtFirst | crates/engine/src/scheduler.rs:45-63 | a set that is left alone fires at the first firing that reaches its deadline |
| Scheduler.FiresIffDeadline | crates/engine/src/scheduler.rs:45-68 | something fires exactly if the next deadline has come |
| Actions.ActionTracker.IncrementActionAttempt | crates/core/src/action_tracker.rs:43-48 | the count under the key goes up by one and is returned |
| Actions.KeyInjective | crates/core/src/action_tracker.rs:38-40 | a key determines trigger and position, whatever the trigger contains |
| Jobs.JobRecord.IncrementActionAttempt | crates/core/src/job.rs:415-423 | an attempt after the first one counts as a retry |
| Jobs.JobRecord.FinalizeCurrentStep | crates/core/src/job.rs:346-353 | the last record is closed if it was open |
| Jobs.JobRecord.RecordStepVisit | crates/core/src/job.rs:441-445 | the step's visits go up by one and are returned |
| Retries.CountsByPair | crates/core/src/action_tracker.rs:43-61 | over any run of increments and resets the string-keyed counts are those of a table keyed by pairs |
| Retries.RetriesConserved | crates/core/src/job.rs:415-433 | total retries are the increments less one for every pair and epoch attempted |
| Names.SplitOfScopedIff | crates/core/src/namespace.rs:83-99 | splitting undoes scoping exactly if the namespace has no slash and an unscoped name has none |
| Names.ScopedOfSplitIff | crates/core/src/namespace.rs:83-99 | scoping undoes splitting exactly if the text does not begin with a slash |
| Env.ParseEnv | crates/engine/src/env.rs:33-49 | the loop over the lines computes the parse, later lines winning |
| Env.RoundTripIff | crates/engine/src/env.rs:33-71 | writing and reading gives back exactly the maps with good keys and values, in whatever order the keys are printed |
| Env.EntryIff | crates/engine/src/env.rs:37-46 | over all lines, which of them set a key to a value: the key is what stands before the first equals sign less surrounding blanks, and is neither empty nor behind a `#`; the value is what stands behind it, less blanks at the end of the line |
| Env.SetsNothingIff | crates/engine/src/env.rs:37-46 | over all lines, exactly comments, lines without an equals sign and lines with nothing before it set nothing |
| Env.LastLineWins | crates/engine/src/env.rs:33-49 | a key has the value of the last line that sets it, and no other key has one |
| Text.FirstLine | crates/engine/src/env.rs:35 | a line ends at the first line feed, less one carriage return before it |
| Env.NormalForm | crates/engine/src/env.rs:33-71 | writing what was read from any file and reading again changes nothing |
| Env.LoadMergedEnv | crates/engine/src/env.rs:75-91 | the project's variables override the global ones, and count only with a namespace |
| Wire.Stream.ReadMessage | crates/daemon/src/protocol_wire.rs:63-88 | a read takes one frame off the stream or reports why it cannot |
| Wire.Stream.WriteMessage | crates/daemon/src/protocol_wire.rs:91-107 | a write appends one frame, or nothing if the message is too large |
| Wire.StreamRoundTrip | crates/daemon/src/protocol_wire.rs:63-107 | messages written are read back one by one, then the connection is found closed, also if a length prefix was cut off |
| Wire.ReadOneOfFrame | crates/daemon/src/protocol_wire.rs:91-107 | below the limit the cast to 32 bits loses nothing and a frame is read back as its message |
| Wire.BigEndianOrders | crates/daemon/src/protocol_wire.rs:63-107 | length prefixes are ordered, byte by byte from the first, as the lengths are |
| Wire.CutOff | crates/daemon/src/protocol_wire.rs:63-88 | a stream cut off inside a frame gives the messages before it, and then a closed connection or a read error, as the prefix or the payload is cut off |
| Wire.OversizeRefused | crates/daemon/src/protocol_wire.rs:75-82 | a length above the limit is refused after the messages before it |
| Help.ColorizeHelp | crates/cli/src/help.rs:143-187 | the loop over the lines computes the colored text |
| Help.ColorizeFlags | crates/cli/src/help.rs:306-337 | the scanning loop terminates and colors flags and placeholders piece by piece |
| Help.ColorizeOptionDescription | crates/cli/src/help.rs:340-371 | the scanning loop terminates and colors bracketed parts with their nesting |
| Help.FindDescriptionStart | crates/cli/src/help.rs:277-302 | the scan finds where the description begins |
| Help.ColoringPreservesText | crates/cli/src/help.rs:143-187 | without its escape sequences the colored help is the lines of the text again |
| Help.LinePreservedIff | crates/cli/src/help.rs:211-233 | a line keeps its text exactly if it is not a command line indented by other white space |
| Help.SpacesSuffice | crates/cli/src/help.rs:211-233 | indentation by spaces alone is always kept |
| Shades.HeadingShown | crates/cli/src/help.rs:143-187 | a terminal shows a heading in the header color, whole |
| Shades.UsageShown | crates/cli/src/help.rs:143-187 | and of a usage line what comes before the first space |
| Shades.CommandShown | crates/cli/src/help.rs:211-233 | of a command line the name, up to the gap of two spaces, in the literal color and the rest uncolored |
| Shades.OptionShown | crates/cli/src/help.rs:234-371 | of an option line the flags with their placeholders and the description with its brackets, character by character in the color of their place |
| Shades.EscapedKept | crates/cli/src/help.rs:146-151 | a line that has an escape sequence already is left alone |
| Shades.OthersShown | crates/cli/src/help.rs:143-187 | and every other line uncolored |
| Shades.DescriptionStartIs | crates/cli/src/help.rs:277-302 | where the description begins: at the first gap of two spaces behind the flags |

## Left out

- State.Apply: the transition function is modelled on values, one function per table and record, not as updates in place; the job and tracker records are also modelled as classes. A scan of a hash map for a matching record meets the same one first as long as the set of matches is the same.
- Recovery.RecoveryIsFold: asks that the checkpoints captured events of the log, because it is false otherwise (`Recovery.SnapshotGoodIff`, `Emission.CaptureInHandlingIff`); `Recovery.RecoveryIsTrace` covers all other runs.
- DaemonRuns.DaemonLives: the condition is sufficient, not necessary; events that repeat the entry handled (`Collapse.FitsIff`) and events about one record that happen to commute are harmless too.
- ProtocolTheorems.NothingNeededIsTruncated: takes the rename that ends a truncation (crates/storage/src/wal.rs:424) as durable, although the directory is not synced; `WalLaws.RenameUndone` says what is lost if it is undone.
- RetryRuns.RetriesLost: the snapshot was captured in the life that crashes; `RetryRuns.RestartCounts` covers older ones.
- TimerCleanup.CleanupSweepsIff: job ids without colons, as the UUIDs the daemon makes.
- Protocol.Next: flush errors are modelled in `Wal.Wal.Flush` and `EventBus.Bus.Recv` but not as steps; a torn write that lacks only its line feed, and a crash while a damaged log is being rewritten, are not modelled; nor are the shutdown checkpoint and three more fields written without an event: the cleaning status that the executor puts on a workspace (crates/engine/src/executor.rs:305-311), and the log size at idle and the time of the last nudge of jobs and agent runs (crates/core/src/job.rs:296-300), which are not fields of the model.
- Wal.Wal.Open: a file is a sequence of lines, and the byte offset of a line start is the index of the line; backup copies are not modelled.
- Wal.Wal.Flush: a failing write stops between lines, so a line written in part, which the next flush would continue, is not modelled; nor is an fsync that fails behind complete writes.
- Timestamps.Stamp: seconds are natural numbers; the cast of a day number to i64 loses nothing for 64-bit seconds.
- Help.ColorizeHelp: characters are of one byte; text outside ASCII is not modelled.
- UsageLog.ParseSessionUsage: counts are unbounded, and what a JSON line counts is a parameter.
- Actions.ActionTracker.IncrementActionAttempt: counts are unbounded; the overflow of 32-bit counters is not modelled.
- Usage.PartParses: the conditions on names and aliases are sufficient; a bracket as the alias of a required option would also survive.
- Engine.Drain: handling an entry emits nothing but the failure event; the runtime's handlers are not modelled.
- Job circuit breakers, attempt limits, subprocesses, tmux, git, sockets and adapters: input and output outside the modelled logic.
- Breadcrumb files, metrics records, ghost session detection and health reports: output without a law of their own.
- Help output of commands, table printing and decision texts: user interface.
