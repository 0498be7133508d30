# Nephila: event log, session turns and supervision, verified

A Dafny model of the parts of Nephila whose correctness does not follow from reading one
function: the event log and its live subscriptions, the protocol by which a session's tasks
deliver prompts and record their outcome, the supervision that drives it, and three data
structures.

**The event log** (`EventStore`, `WriterThread`, `Subscription`, `RetryBudget`, `Snapshots`,
`SnapshotRuns`, `SecondRetention`, `ReplayAgreement`, `Sessions`). One writer thread numbers each
aggregate's events. `EventStore` is the simple writer, which recomputes `MAX(sequence) + 1` from
the table for every row; `WriterThread.Writer` is the code's writer, with its lazy cache, its per-batch maxima and its
rollbacks, and its loop is proved to answer and leave behind exactly what the simple one does.
`Subscription` interleaves the writer, its publishing, the clock and one resilient subscriber
over a bounded broadcast. `Snapshots` and `SnapshotRuns` relate stored snapshots and retention
to the full replay of the `Session` reducer, whose fields are given meanings over the event
history alone in `Sessions`. `ReplayAgreement` says for every history and every cut when the
events after the cut replay to the state of the whole, which decides what a second retention
(`SecondRetention`) and a load racing a prune (`SnapshotRuns`) store.

**The turn protocol** (`TurnProtocol`, `TurnSafety`, `TurnTheorems`, `PromptOrder`,
`TurnAccounting`, `FrameReader`, `FrameHistory`, `Coalescing`, `Supervisor`, `ClosedLoop`,
`SecondSender`, `RestartTracking`, `Respawn`). The writer task, the reader task and one shutdown
call are interleaved step by step over one log, `TurnState` and the shutdown flag, with every
append free to fail. `PromptOrder` says whose prompts the log holds, and in which order.
`TurnAccounting` is a conservation law over those runs: where every turn ever sent is, and so
how many terminal events it gets. `FrameReader` is what the reader does with one frame, and
`FrameHistory` and `Coalescing` tell from the frames alone what a run of them logs. `Supervisor`
is the autonomy loop, and `ClosedLoop` puts the two together: the supervisor reads the log the
tasks write, its prompts are the turns they deliver, and an operator may send too;
`SecondSender` says exactly which of the operator's sends are safe. `RestartTracking` is the
crash window. `Respawn` is the registry's three-phase crash deduplication, with the crash-watch
tasks its callers run on.

**Data structures** (`Channels`, `Objectives`, `Editor`). Checkpoint channel merging, the
objective tree builder and the session pane's line buffer.

Code that updates fields is a class whose methods are proved against a function on values
(`Writer`, `RetryState`, `SessionStore`, `Coalescer`, `FrameHandler`, `PerSessionLoop`,
`RestartTracker`, `RespawnState`, `Search`, `InputState`). Concurrent code is a state machine:
`Enabled` and `Do` give one atomic step, what happens between two awaits, and `Exec` a run.

Verify with `dafny verify dfyconfig.toml`.

## Where the code and its documentation differ

The model follows the code.

- `crates/connector/src/session.rs:1202` promises exactly one of `TurnCompleted`, `TurnAborted`
  and `PromptDeliveryFailed` for every queued turn. The code gives some turns two
  (`TurnTheorems.AbortThenDeliveryFailed`) and some none, ever
  (`TurnAccounting.PipelinedTurnNeverEnds`). `TurnAccounting.TerminalEventsExactly` says how many
  each turn gets once both tasks are done.
- `crates/connector/src/session.rs:1195-1200` publishes a turn only after its delivery is in the
  log. A `Result` read in between completes nothing and leaves the turn open
  (`TurnTheorems.EarlyResultCompletesNothing`).
- `crates/lifecycle/src/session_supervisor.rs:127-129` says that `PromptDeliveryFailed` closes the
  awaited turn; `handle_event` only logs it. On logs the two tasks write the difference cannot
  show (`TurnAccounting.DeliveredNeverFails`).
- `crates/store/src/retention.rs:22` describes pruning below `last_seq - RETENTION_TAIL`; the code
  prunes below one more than that and so keeps exactly 200 events.
- `crates/connector/src/session.rs:897-905` records a malformed checkpoint id as `SessionCrashed`,
  but the reader goes on reading, and the events it drops may carry assistant text that was
  already taken out of the buffer (`FrameReader.MalformedCheckpointDropsText`).
  `FrameHistory.TextIsConserved` says for which messages that happens.
- `crates/core/src/session.rs:111-118` asserts that no two turns are open. A second sender, which
  the public `send_turn` allows, can break that (`SecondSender.SecondSenderTripsTheAssertion`);
  `SecondSender.SendTripsExactly` says by which sends.
- A second retention of a session replays a log that has lost its start, and so can store a state
  that is not the session's (`SecondRetention.SecondRetentionExactly` says when, and
  `SnapshotRuns.SecondRetentionStoresABadSnapshot` runs into it from an empty log).
- `bin/src/session_registry.rs:335` runs `on_crash` on the crash-watch task, and lines 421-424
  abort the registered crash-watch, so the first crash it reports can end its own respawn and
  then blocks every later one (`Respawn.FirstCrashMayBeTheLast`); lines 401-404 promise a retry
  at the next sequence.

## Model

| member | source | states |
|---|---|---|
| WriterThread.Writer.WriterLoop | crates/store/src/writer.rs:160-232 | over every command sequence with any faults, the cached writer gives the same replies, rows and published envelopes as the writer that recomputes MAX for each row, and the UNIQUE constraint holds |
| WriterThread.Writer.HandleAppend | crates/store/src/writer.rs:235-338 | a batch commits whole with the uncached numbering or leaves rows and cache untouched, and a UNIQUE violation is never the reason |
| WriterThread.Writer.StageRows | crates/store/src/writer.rs:259-318 | the cache, the batch maximum and the table lookup always agree on the next sequence, and no staged row conflicts |
| WriterThread.Writer.HandlePrune | crates/store/src/writer.rs:208-228 | deletes exactly the aggregate's rows below the bound, counts them, and keeps every remaining cache entry equal to the durable maximum |
| WriterThread.StageStep | crates/store/src/writer.rs:265-300 | one more row keeps the batch maxima tracking the staged table and gets a free sequence |
| EventStore.StampKeepsAscending | crates/store/src/writer.rs:259-300 | stamping any batch of mixed aggregates keeps each aggregate's rows in strictly ascending, unique sequence order |
| EventStore.BatchIsContiguous | crates/store/src/writer.rs:259-300 | each aggregate's rows in a batch are numbered MAX + 1, MAX + 2, ... in input order |
| EventStore.StampExtendsDense | crates/store/src/writer.rs:259-337 | a gap-free log stays gap-free and only grows at its end |
| EventStore.RunGrowsDenseLog | crates/store/src/writer.rs:160-232 | over any run that never prunes an aggregate its log only grows, without gaps, and its broadcast carried exactly what was committed |
| EventStore.AppendReply | crates/store/src/writer.rs:171-187 | over every command sequence, a batch without a fault is answered with the sequences of the rows it added: the aggregate's maximum, plus its share of the batch so far, plus one; the table and the broadcast grow by exactly these rows, and any fault leaves both as they were |
| EventStore.HeadReply | crates/store/src/writer.rs:190-207 | a head bounds every row of its aggregate and, unless 0, is one of them |
| EventStore.PruneReply | crates/store/src/writer.rs:208-228 | a prune answers how many of the aggregate's rows were below the bound, and exactly those are gone |
| EventStore.SelectIsSorted | crates/store/src/domain_event.rs:354-391 | a range read is in ascending sequence order |
| EventStore.BackfillIsSlice | crates/store/src/domain_event.rs:354-391 | on a gap-free log a range read returns exactly the events of that range |
| EventStore.PruneToTail | crates/store/src/retention.rs:55-65 | pruning a gap-free log to a tail keeps exactly that tail and the head |
| Subscription.ExactlyOnce | crates/store/src/resilient_subscribe.rs:110-175 | in every interleaving of appends, failed commits, overflow and re-subscription, what was forwarded is exactly the committed events after `since` up to `last_seq`, in order, no gap and no duplicate |
| Subscription.BackfillAndLiveJoin | crates/store/src/domain_event.rs:222-273 | up to the first `Lagged`, every event comes from exactly one of disk (at or below the head) and broadcast (above it), wherever appends fall between attach, head read and backfill |
| Subscription.ReadHeadKeepsInv | crates/store/src/writer.rs:190-207 | the head the writer answers covers everything committed and published before it, so nothing falls between backfill and live events |
| Subscription.RunKeepsInv | crates/store/src/domain_event.rs:526-572 | the join invariant holds in every run, overflow and restarts included |
| Subscription.QuiescentSubscriptionCatchesUp | crates/store/src/resilient_subscribe.rs:122-171 | from any reachable moment at which the client is about to subscribe and the writer is idle, one undisturbed subscription delivers the whole rest of the log |
| Subscription.PersistentLagAtTheLimit | crates/store/src/resilient_subscribe.rs:141-163 | `PersistentLag` is raised exactly when the sticky counter reaches `max(1, hard_limit)` |
| Subscription.LagExactlyOnOverflow | crates/store/src/domain_event.rs:526-572 | a poll reports a lag exactly when the backfill is used up and the broadcast is more than its capacity ahead, and then forwards nothing |
| Subscription.BoundedResubscription | crates/store/src/resilient_subscribe.rs:66-91 | with no quiet gap between clean receives at most `max(1, hard_limit)` subscriptions are ever opened, however often the window rolls over |
| RetryBudget.ResetMeaning | crates/store/src/resilient_subscribe.rs:66-83 | a receipt resets the lag counter exactly when it ends a quiet gap |
| RetryBudget.WindowMeaning | crates/store/src/resilient_subscribe.rs:66-83 | the window starts anew exactly at a receipt that ends a quiet gap and at a lag more than a window after its start |
| RetryBudget.CounterMeaning | crates/store/src/resilient_subscribe.rs:66-83 | the counter is the number of lags since the last quiet gap; the retry window never resets it |
| RetryBudget.RetryState.Lagged | crates/store/src/resilient_subscribe.rs:77-83 | the counter object steps as the value-level counter does |
| RetryBudget.RetryState.CleanRecv | crates/store/src/resilient_subscribe.rs:66-75 | the counter object steps as the value-level counter does on a clean receive |
| Sessions.ReplaySplits | crates/core/src/session.rs:61-70 | replaying a history in two parts is replaying it at once |
| Sessions.OpenTurnMeaning | crates/core/src/session.rs:97-178 | `open_turn` is the one turn queued, before the session ended, after which no other was queued, it was not closed and nothing crashed |
| Sessions.CheckpointMeaning | crates/core/src/session.rs:129-137 | for every history, ended or not, the recorded checkpoint is the last one before the session's first end, placed at the sequence of the event before it, and there is none exactly when no checkpoint was reached before that end |
| Sessions.WaitingMeaning | crates/core/src/session.rs:129-165 | a session waits for a human exactly while it has not ended and a human-input checkpoint stands that no restart, crash, pause checkpoint or interrupted completion has withdrawn |
| Sessions.PhaseMeaning | crates/core/src/session.rs:97-178 | the phase is the one the last start, crash, human or pause checkpoint or interrupted completion decides, a turn completed after a crash or a pause makes it running again, an end is final, and before any of these it is starting |
| ReplayAgreement.IdMeaning | crates/core/src/session.rs:101-109 | the ids are those of the last start before the session's end |
| Sessions.EndedIsAbsorbing | crates/core/src/session.rs:97-100 | after the end only `last_seq` moves |
| Sessions.ReplayLoop | crates/store/src/domain_event.rs:498-512 | the replay loop computes the fold and the last sequence |
| Snapshots.SessionStore.RunSessionSnapshotTask | crates/store/src/domain_event.rs:479-523 | extends the latest snapshot exactly when the head has drifted a whole interval, and stores the replay of everything up to the head |
| Snapshots.SessionStore.LoadLatestSnapshot | crates/store/src/domain_event.rs:163-192 | returns the stored snapshot with the highest sequence, or the default state when there is none |
| Snapshots.SessionStore.SaveTerminalSnapshot | crates/connector/src/session.rs:1287-1316 | stores the replay of the whole log at the head, nothing for an empty log |
| Snapshots.SessionStore.ApplySessionRetention | crates/store/src/retention.rs:25-66 | on a gap-free log 1..n stores the final state, keeps exactly the last min(n, 200) events, returns max(n - 200, 0), and the next append still gets n + 1 although the cache entry is gone |
| ReplayAgreement.ReplaysMeet | crates/core/src/session.rs:61-178 | two live states replay the same events to the same state if and only if each of ids, phase, open turn and checkpoint is decided by those events or agrees already |
| ReplayAgreement.CutReplaysExactly | crates/core/src/session.rs:61-178 | for every history and every cut, the events after the cut replay to the whole history's state if and only if they decide every field the events before it have changed; and if those have already ended the session, if and only if it ends again with the same last start, the same turn left open and the same last checkpoint before that end |
| SecondRetention.SecondRetentionExactly | crates/store/src/retention.rs:35-44 | replaying what a first retention kept gives the session's state back if and only if the kept tail tells again every field the dropped events have changed, as it always does for a history no longer than the tail |
| SecondRetention.SecondRetentionForgetsTheSession | crates/store/src/retention.rs:35-44 | a session launched once and longer than the tail is not given back |
| SecondRetention.ResumeTellsTheSessionAgain | crates/connector/src/session.rs:387-409 | one that was resumed within the tail, with nothing but tool events and messages otherwise, is |
| SnapshotRuns.SnapshotsAgreeWithReplay | crates/store/src/domain_event.rs:479-523 | with any number of subscribe-time, shutdown and retention tasks interleaved with appends, each finding the first row it needs when it loads, every snapshot equals the replay up to its sequence, and the latest one plus the remaining later events replays to the whole history's state |
| SnapshotRuns.NeverPrunedRunsAgree | crates/store/src/domain_event.rs:479-523 | so in every run without retention |
| SnapshotRuns.FirstRetentionsAgree | crates/store/src/retention.rs:25-66 | and in every run whose retentions load before the first prune and whose prunes wait for the subscribe-time loads under way |
| SnapshotRuns.HarmlessRunsAgree | crates/store/src/domain_event.rs:479-523 | the same for every run in which the rows each load finds decide whatever the pruned ones have changed |
| SnapshotRuns.LoadIsGoodExactly | crates/store/src/domain_event.rs:479-523 | what a task has loaded replays to the right snapshot if and only if the rows it still finds decide every field the pruned ones have changed |
| SnapshotRuns.HarmfulLoadStoresABadSnapshot | crates/connector/src/session.rs:1287-1316 | a task that loads without them stores a snapshot that is not the replay |
| SnapshotRuns.SecondRetentionStoresABadSnapshot | crates/store/src/retention.rs:25-66 | from an empty log, a session launched once and longer than the tail comes to that by being retained twice: the only snapshot left is not its replay |
| SnapshotRuns.LatestRecovers | crates/store/src/retention.rs:25-66 | recovery from the latest snapshot is right even after the prune |
| SnapshotRuns.UndisturbedSubscribeTask | crates/store/src/domain_event.rs:479-523 | an undisturbed subscribe-time task stores the replay up to its head if that is 1000 events past the latest snapshot, and does nothing otherwise |
| TurnTheorems.AtMostOneEnd | crates/connector/src/session.rs:1176-1222 | in every interleaving, pipelined and human turns included, a turn id gets at most one of `TurnCompleted` and `TurnAborted` |
| TurnTheorems.AtMostOneTerminalEvent | crates/connector/src/session.rs:1083-1096 | the same with `PromptDeliveryFailed`, for every turn but one taken out of `pending` by the crashing reader |
| TurnTheorems.CompletedFollowsDelivered | crates/connector/src/session.rs:932-941 | `TurnCompleted(t)` never precedes `*PromptDelivered(t)`, unless exactly that append was lost |
| TurnTheorems.CrashIsTheReadersLastWord | crates/connector/src/session.rs:1067-1125 | `TurnAborted` and `SessionCrashed` of a crash are neighbours and no reader event follows them |
| TurnTheorems.CrashAbortsTheOpenTurn | crates/connector/src/session.rs:1083-1112 | a crash with an open or pending turn aborts exactly that turn, whatever the other tasks do meanwhile |
| TurnTheorems.FlagSilencesTheReader | crates/connector/src/session.rs:1077-1081 | once the shutdown flag is up before the terminal check, no crash is ever logged |
| TurnTheorems.SessionEndedIsLast | crates/connector/src/session.rs:499-549 | a shutdown's `SessionEnded` follows every event of both tasks, which have finished |
| TurnTheorems.UndisturbedTurn | crates/connector/src/session.rs:1127-1235 | an undisturbed turn, with whatever frames come before its `Result`, is queued, delivered and completed, in that order and with the frames' events between, and leaves the session as it was |
| PromptOrder.TurnsStayInOrder | crates/connector/src/session.rs:1127-1143 | over every run the channel holds the turns sent and not yet received, in order, and the writer works on the one it received last |
| PromptOrder.ChannelHoldsSixteen | crates/connector/src/session.rs:460-485 | the channel never holds more than 16 turns and takes a new one exactly while it holds fewer and the writer has not finished |
| PromptOrder.WriterWritesTheTurnsSent | crates/connector/src/session.rs:1127-1235 | the writer's log entries are, one for one and in the order the turns were sent, those its successful appends should have made: human turns as human prompts and agent turns as agent prompts, under their own id and text |
| PromptOrder.EveryPromptWasSent | crates/connector/src/session.rs:1145-1230 | every prompt in a reached log, queued, delivered or failed, is of a turn that was sent, a human one if and only if a human sent it |
| PromptOrder.FailedHandOver | crates/connector/src/session.rs:1160-1233 | a turn that cannot be serialised or flushed is given up and the writer goes on, one that cannot be written ends it; `pending` is clear either way |
| TurnTheorems.PipelinedTurnsOpenTwice | crates/connector/src/session.rs:460-485 | two turns sent one after the other put two prompts in the log with no end between them |
| TurnTheorems.AbortThenDeliveryFailed | crates/connector/src/session.rs:1202-1230 | from any quiet state a schedule gives one turn both `TurnAborted` and `PromptDeliveryFailed` |
| TurnTheorems.EarlyResultCompletesNothing | crates/connector/src/session.rs:1202-1222 | from any quiet state a schedule reads the `Result` before the turn is published, which logs no end and leaves the turn open |
| TurnAccounting.LaunchBalances | crates/connector/src/session.rs:1067-1235 | in every reachable state every turn ever sent is in exactly one of channel, writer's hand, `open`, reader's hand, ended, failed, overwritten or unrecorded, but for one taken out of `pending` by the crashing reader, which is in one place on each side |
| TurnAccounting.TerminalEventsExactly | crates/connector/src/session.rs:1202-1222 | once both tasks are done a turn has one terminal event unless it was left in the channel or in `open`, was overwritten by a later turn or lost its append; and one taken out of `pending` has one for its recorded abort and one for its recorded failure |
| TurnAccounting.ExactlyOneTerminalEventIff | crates/connector/src/session.rs:1202-1222 | exactly when a turn meets the promise of exactly one terminal event |
| TurnAccounting.OverwrittenTurnNeverEnds | crates/connector/src/session.rs:1212-1222 | a turn still open when the next one is published has no terminal event in any continuation |
| TurnAccounting.PipelinedTurnNeverEnds | crates/connector/src/session.rs:460-485 | such a turn is reached from launch by sending two turns one after the other |
| TurnAccounting.DeliveredNeverFails | crates/lifecycle/src/session_supervisor.rs:127-129 | no turn of a reachable log is both delivered and recorded as not delivered |
| TurnAccounting.CrashIsReportedOnce | crates/connector/src/session.rs:1083-1125 | a crash goes to the log or to the fallback channel, at most once, never to both |
| TurnAccounting.CrashIsReportedExactly | crates/connector/src/session.rs:1067-1125 | every crash the reader comes to report is in the log or was signalled over the fallback channel, never both and never neither |
| FrameReader.Coalescer.PushDelta | crates/connector/src/stream.rs:42-64 | a delta is buffered, or flushed with everything pending at five deltas, 200 KiB or 250 ms |
| FrameReader.Coalescer.Tick | crates/connector/src/stream.rs:76-85 | in whatever order the map yields its buffers, exactly those with text that have waited 250 ms are flushed, and every message's ledger is kept |
| Coalescing.CoalescesExactly | crates/connector/src/stream.rs:42-64 | a message's deltas are logged in exactly the pieces told from their texts and times alone, numbered from 0, and exactly the rest waits |
| FrameReader.ByteLenMeaning | crates/connector/src/stream.rs:55 | text is measured in UTF-8 bytes, every character taking the fewest that can carry it |
| Coalescing.FewDeltasWait | crates/connector/src/stream.rs:42-100 | over every run of frames a message's buffer holds the deltas pushed since its last flush, fewer than five of them and less than 200 KiB |
| FrameReader.FrameKeepsCover | crates/connector/src/session.rs:828-922 | the list of active message ids covers every buffer after every frame |
| FrameReader.FramesObeyTheTurnProtocol | crates/connector/src/session.rs:805-954 | every frame's batch is one the turn protocol allows, with one blob per spilled result and each checkpoint right behind its successful result |
| FrameHistory.NamesMeaning | crates/connector/src/session.rs:956-964 | over every run of frames the tool-name map holds, for each use id, the tool of the latest call with that id which nothing has answered |
| FrameHistory.CheckpointExactlyWhen | crates/connector/src/session.rs:857-909 | over every run the logged checkpoints are, in order, those of the successful MCP results that answer the latest unanswered call of `serialize_and_persist` or `request_human_input` with an id that parses; a present id that does not parse logs a crash instead and clears the checkpoints before it in its frame |
| FrameHistory.TextIsConserved | crates/connector/src/stream.rs:40-100 | over every run a message's logged deltas followed by its pending text are what was pushed, if and only if no block of any frame met a malformed checkpoint id while the frame's events held text of that message |
| FrameHistory.WellFormedRunsLoseNothing | crates/connector/src/session.rs:897-905 | a run none of whose blocks is a successful answer to a checkpointing tool with a malformed id drops no event |
| FrameHistory.DeltasAreNumbered | crates/connector/src/stream.rs:88-100 | a message's logged deltas are numbered 0, 1, 2, ... up to each final one, with the buffer going on from there, if and only if no block dropped a delta of that message; and every waiting buffer is below both limits |
| FrameHistory.ResultFlushesEverything | crates/connector/src/session.rs:923-945 | a `Result` frame closes every buffer before `TurnCompleted`, which comes last; for each message by itself the whole text pushed is then in the log, and numbered through, if and only if no block dropped any of it |
| FrameHistory.StopClosesTheMessage | crates/connector/src/session.rs:911-921 | a frame that ends its message closes it, with the whole text pushed in the log and numbered through if and only if no block dropped any of it |
| FrameReader.CheckpointAsksExactlyWhen | crates/connector/src/session.rs:1019-1054 | a derived checkpoint carries a question exactly for a human-input tool whose content has a text question, with that question and exactly the texts among its options, in order |
| FrameReader.ToolEventsAreConserved | crates/connector/src/session.rs:837-909 | every tool call and result of a frame is logged once, in block order, except those a malformed checkpoint id dropped |
| FrameReader.MalformedCheckpointDropsText | crates/connector/src/session.rs:897-905 | text flushed in a frame with a malformed checkpoint id is neither logged nor pending |
| FrameReader.FrameHandler.ProcessFrame | crates/connector/src/session.rs:805-954 | the frame handler's field updates and batch are those of the value-level frame step the theorems speak about |
| Supervisor.PerSessionLoop.HandleEvent | crates/lifecycle/src/session_supervisor.rs:175-280 | the loop object's new state, driver calls and action are those of the value-level step; a crash is counted in the crash window and a session end clears it |
| Supervisor.DriverCallsAreDecidedByHistory | crates/lifecycle/src/session_supervisor.rs:193-222 | a driver call happens exactly at a `TurnCompleted` of the latest unclosed delivery while nothing has stopped the loop: a prompt if the last checkpoint since the previous matched close asks for nothing, a pause if for a pause, a shutdown if for the end, and none if it asks a human |
| Supervisor.PhaseIsDecidedByHistory | crates/lifecycle/src/session_supervisor.rs:193-332 | a completion that asks a human leaves the loop waiting, one that asks for a pause or the end leaves it paused or ended, a prompt leaves the phase alone, a failed call, a crash and an end are final, and nothing else moves it |
| Supervisor.ActionIsDecidedByHistory | crates/lifecycle/src/session_supervisor.rs:175-280 | the action reported for an event, from the history alone |
| Supervisor.NoCallAfterStop | crates/lifecycle/src/session_supervisor.rs:175-332 | nothing is called after a crash, an end, a shutdown or a driver error |
| Supervisor.CallsNeverExceedDeliveries | crates/lifecycle/src/session_supervisor.rs:175-332 | over any history there are at most as many driver calls as deliveries |
| ClosedLoop.TwoOpenTurnsNeverHappen | crates/core/src/session.rs:111-118 | with writer, reader, supervisor, shutdown and an operator who sends whenever that is safe interleaved on a first launch, appends failing or not, no prompt is queued while the replayed session has an open turn, so the reducer's assertion cannot fire |
| ClosedLoop.PromptFindsNothingAlive | crates/lifecycle/src/session_supervisor.rs:193-222 | unless the writer is closing, the supervisor prompts only at the completion of the turn sent last, and then no turn sent so far can still be queued, is open in the replayed session, or can lead to another prompt |
| ClosedLoop.AppendClosesOnly | crates/core/src/session.rs:97-178 | a batch without prompts opens no turn, and a `TurnCompleted` anywhere in it closes its own |
| ClosedLoop.CompletedTurnLeadsToNextPrompt | crates/lifecycle/src/session_supervisor.rs:282-296 | consuming a turn's events, with any number of frame events and non-interrupting checkpoints between delivery and completion, makes the supervisor send exactly one next prompt |
| SecondSender.SendTripsExactly | crates/core/src/session.rs:111-118 | in every state of the loop, a turn sent by somebody else can make the reducer's assertion fire in some continuation if and only if the writer still takes turns up and a turn sent before may still be queued, is open in the replayed session, or may still make the supervisor prompt |
| SecondSender.QuiescentIsSafe | crates/connector/src/session.rs:460-485 | so a send is safe when the log replays to no open turn, no task holds one and no completion is left to read, whatever else is unread |
| SecondSender.SecondSenderTripsTheAssertion | crates/core/src/session.rs:111-118 | with a second sender there is a reachable log on which the assertion fails |
| SecondSender.SendingRegardlessTrips | crates/connector/src/session.rs:460-485 | in every state of the loop whose log has a turn open, a turn sent while the writer is free trips the assertion when it is queued |
| SecondSender.OpenTurnIsReached | crates/connector/src/session.rs:460-485 | such a state is reached from the first launch |
| RestartTracking.RestartTracker.RecordRestart | crates/lifecycle/src/supervisor.rs:34-60 | a restart is granted exactly when fewer than the limit were granted in the window ending now, although only the deque's front is pruned |
| RestartTracking.WindowBound | crates/lifecycle/src/supervisor.rs:34-60 | grants spaced a window apart by index put at most the limit in any closed interval of a window's length |
| RestartTracking.RestartTracker.NoWindowOverflows | crates/lifecycle/src/supervisor.rs:34-64 | at any point of any run on a monotone clock every closed interval no longer than the window holds at most `max_restarts` grants |
| Respawn.RespawnState.Decide | bin/src/session_registry.rs:359-395 | the decision under the lock grants exactly when nothing is in flight, the crash is newer and, for a fallback, the dedup window has passed |
| Respawn.GrantedExactly | bin/src/session_registry.rs:359-395 | over every run a caller at the lock is granted its respawn exactly when no other is between decision and commit and its crash is newer than the last one committed or, for a fallback, two seconds have passed since the last attempt |
| Respawn.AbortedWatchesNeverCall | bin/src/session_registry.rs:421-424 | no call waits for the lock on behalf of a crash-watch that has ended or was aborted |
| Respawn.RefusedCallerGivesUp | bin/src/session_registry.rs:359-388 | a caller that is not granted its respawn ends its crash-watch and leaves the agent's state as it was |
| Respawn.AtMostOneRespawn | bin/src/session_registry.rs:359-416 | over any interleaving of concurrent callers at most one is respawning |
| Respawn.NoCrashRespawnedTwice | bin/src/session_registry.rs:359-416 | between successful fallback commits the committed sequences strictly increase |
| Respawn.FallbackWaitsOutTheWindow | bin/src/session_registry.rs:366-386 | a fallback is granted only 2 seconds after every attempt's commit, failed ones included |
| Respawn.AbortedRespawnBlocksForever | bin/src/session_registry.rs:421-424 | after a respawn is aborted between decision and commit no continuation grants another |
| Respawn.FirstCrashMayBeTheLast | bin/src/session_registry.rs:333-337 | the first crash of an agent, reported by its registered crash-watch, aborts its own respawn and from then on nothing is ever granted |
| Respawn.RespawnsGoOnExactly | bin/src/session_registry.rs:359-416 | in every reachable state and for every crash, some continuation grants it a respawn if and only if no caller was aborted between decision and commit |
| Respawn.FallbackForgetsTheCrash | bin/src/session_registry.rs:398-416 | after a fallback commit the same crash can be respawned again |
| Respawn.UndisturbedRespawn | bin/src/session_registry.rs:359-424 | a granted crash reported by the fallback listener, or by a crash-watch other than the registered one, is committed and registers a new crash-watch when nothing disturbs it |
| Respawn.FailedRespawn | bin/src/session_registry.rs:398-416 | a respawn that fails leaves no session registered, the old crash-watch aborted, and only the attempt on record |
| Respawn.EndedSessionStaysEnded | bin/src/session_registry.rs:338-342 | after a session's end no crash signal brings a session back until an id is recorded again |
| Channels.MergeChannels | crates/core/src/channel.rs:14-25 | the result maps exactly the keys that occur along the ancestry, each to the fold of its own entries, in whatever order a node yields its keys |
| Channels.ApplyReducer | crates/core/src/channel.rs:27-64 | the in-place reducer computes the fold step |
| Channels.OverwriteKeepsLast | crates/core/src/channel.rs:33 | overwriting entries merge to the last value |
| Channels.AppendConcatenates | crates/core/src/channel.rs:34-43 | appending entries merge to the concatenation of their arrays |
| Channels.SetUnionIsDistinct | crates/core/src/channel.rs:44-57 | set-union entries merge to the first occurrences of all their items |
| Channels.DistinctMeaning | crates/core/src/channel.rs:49-55 | that union has the same members, none twice, in the order of their first occurrence |
| Channels.SumIsTotal | crates/core/src/channel.rs:58-62 | summing entries merge to their left-to-right sum |
| Channels.CollapsedEntries | crates/core/src/channel.rs:14-64 | one entry holding a merged value stands for what it was merged from, whatever follows, exactly when its reducer leaves that value alone |
| Channels.CollapsedPrefix | crates/core/src/channel.rs:14-64 | with one reducer per key any prefix of the ancestry can be replaced by one node holding its merge |
| Channels.CollapsedNodeIsValid | crates/core/src/channel.rs:66-93 | such a node passes validation again |
| Channels.ValidateChannels | crates/core/src/channel.rs:66-93 | no error exactly on a node with all four required channels whose appending and uniting entries hold arrays and whose summing entries hold numbers; otherwise the first missing name, and only if none is missing the first badly typed entry |
| Objectives.BuildTree | crates/store/src/objective.rs:151-165 | the map-filling loops and the search compute the value-level tree of the rows |
| Objectives.Search.BuildSubtree | crates/store/src/objective.rs:167-181 | the in-place search ends, cycles or not, and takes from the map exactly what the value-level search takes |
| Objectives.BuildConserves | crates/store/src/objective.rs:167-181 | every node is in the tree exactly once, unaltered, or still in the map |
| Objectives.BuildPlaces | crates/store/src/objective.rs:167-181 | every node taken carries all its recorded children in list order, the root alone passed over, and takes its whole family along |
| Objectives.TreeOfRows | crates/store/src/objective.rs:151-181 | for rows with unique ids the tree holds exactly the rows whose parent links lead to the root, each once, under its recorded parent |
| Objectives.ListsAreChildIds | crates/store/src/objective.rs:155-159 | the child lists are the ids recorded under a parent, in row order |
| Objectives.LaterRowWins | crates/store/src/objective.rs:160-163 | were two rows to share an id, the later one would stand |
| Editor.InputState.HandleKey | crates/tui/src/panels/session_pane/input.rs:83-154 | every key does to the shown text what a flat editor with one offset does, keeps the cursor in bounds and keeps rows free of line breaks |
| Editor.CursorKeys | crates/tui/src/panels/session_pane/input.rs:124-147 | in a box without literal breaks Up and Down keep the column as far as the line allows, Home and End go to the ends of the line, Left and Right one column on |
| Editor.RightsStepForward | crates/tui/src/panels/session_pane/input.rs:218-226 | any number of Rights moves the offset on by as many |
| Editor.LeftsStepBack | crates/tui/src/panels/session_pane/input.rs:209-216 | any number of Lefts moves it back by as many |
| Editor.ModeKeys | crates/tui/src/panels/session_pane/input.rs:90-115 | which keys scroll, close, go back, submit and change the mode, and that no key edits in Normal mode |
| Editor.InputState.InsertChar | crates/tui/src/panels/session_pane/input.rs:162-169 | typing inserts the character at the offset |
| Editor.InputState.InsertNewline | crates/tui/src/panels/session_pane/input.rs:171-183 | Enter inserts a line break at the offset |
| Editor.InputState.EraseBack | crates/tui/src/panels/session_pane/input.rs:185-207 | Backspace deletes the character before the offset, joining lines at column 0 |
| Editor.InputState.MoveLeft | crates/tui/src/panels/session_pane/input.rs:209-216 | Left moves the offset back by one, clamped at the start |
| Editor.InputState.MoveRight | crates/tui/src/panels/session_pane/input.rs:218-226 | Right moves the offset on by one, clamped at the end |
| Editor.UpIsFlatUp | crates/tui/src/panels/session_pane/input.rs:228-233 | Up goes to the same column of the flat line above, clamped |
| Editor.DownIsFlatDown | crates/tui/src/panels/session_pane/input.rs:235-240 | Down goes to the same column of the flat line below, clamped |
| Editor.RowIsLine | crates/tui/src/panels/session_pane/input.rs:140-147 | the cursor's row is the flat line around the offset, which is where Home and End go |
| Editor.TypingInserts | crates/tui/src/panels/session_pane/input.rs:116-152 | typing a text of any length inserts exactly that text |
| Editor.BackspacesUndoTyping | crates/tui/src/panels/session_pane/input.rs:120-123 | as many Backspaces as typed characters restore text and cursor |
| Editor.SubmitReturnsWhatWasTyped | crates/tui/src/panels/session_pane/input.rs:110-115 | Ctrl+Enter submits exactly what was typed and leaves an empty box in Normal mode |
| Editor.FlatDeterminesBox | crates/tui/src/panels/session_pane/input.rs:33-39 | boxes showing the same text at the same offset are the same box |

## Left out

- SQLite, the connection pool and SQL text: the table is a sequence of rows with atomic commit; a read sees committed rows only.
- Concurrent Rust loops (`resilient_subscribe`, `build_stream`, `writer_task`, `reader_task`, `on_crash`, the supervisor's `run`): modelled as step functions of a state machine rather than as methods with loops, because their state is shared with other tasks between any two awaits.
- Prunes of the subscribed aggregate: a subscription and a prune of the same log are not interleaved; the code promises nothing there.
- The soft limit's cooldown sleep of `resilient_subscribe`: a delay that changes no state.
- Delivery of old events to a supervisor loop or crash watch attached after a respawn, which starts again from sequence 0.
- ClosedLoop.TwoOpenTurnsNeverHappen: an operator's turn is sent only when that is safe, because every other send can make the property false (SecondSender.SendTripsExactly).
- Concurrent double shutdown, dropping a session without shutdown, process spawning, signals, pipes and stderr.
- Blob rows: a spilled result is a flag on the event and a blob name beside the batch; hashes and snippets are not modelled.
- FrameHistory.TextIsConserved: speaks of the batches the frames make; a batch whose append fails is lost as a whole, and that loss is in `TurnProtocol` only.
- JSON and UUID parsing: frames and contents are typed values, a content carries its serialized size, and the id parser is a parameter.
- Integer widths of sequences and counters: natural numbers.
- Channels.SumIsTotal: reals for `f64`, so rounding and the not-a-number cases are not modelled.
- Editor.InputState.HandleKey: columns count characters, not bytes, and Up, Down, Home and End are tied to the flat text only while no literal newline character has been typed into a row.
- Generic writer closures are taken not to touch the event table; the envelope's own primary key, trace id and timestamps are not modelled.
- The recursive query of `get_tree`: the rows it returns are the input of `BuildTree`.
- `Objectives.TreeOfRows`: the row ids are unique, as the primary key makes them.
- MCP server and tools, search, metrics, configuration, rendering, hotkeys and the agent command tables: wrappers and small finite cases.
