# Agent connector: a Dafny model of its task protocol

This project models the parts of the agent connector where correctness depends on how
several pieces work together, and proves properties of the model for every input, every
run or every schedule.

- **The task protocol.** Any number of invocations, cancel calls and input calls act on
  shared tasks. Each reads a snapshot, decides, and later commits with a compare-and-set.
  `Core` is that system as interleaved steps, with an arbitrary driver, arbitrary store
  faults before a call takes effect, timeouts that drop the worker's driver loop at any
  await point, and four kinds of permits. `Lifecycle` is the simple system it refines: one
  log per task and operations that read, decide and write in one step. `CoreSteps` says what
  one write leaves in the store; `CoreCommands`, `CoreLimits` and `CoreDriver` say, event by
  event, what each call and each driver message records in any reachable state.
- **The worker on its own.** `Worker` runs the driver loop on the store object and is
  proved equal to a function from what the driver does (it refuses, sends events and
  closes, or sends events until the time is up) to the final log. `CoreWorker` proves that a
  worker of the interleaved system which no other call disturbs reaches exactly that log.
- **The reliable stream.** `ReliableStream` is the object that turns a lossy live channel and
  a paged durable log into one stream; `StreamWorld` puts it among writers that commit and
  publish late, never or out of order, a channel that lags and closes, reads that fail, and
  retention, and `StreamCalls` ties its steps back to the object's `next`. `StreamOrder`
  and `StreamEnd` hold for every schedule, `StreamDrain` is what happens after the close,
  `StreamGaps` is what the raw subscription misses and what the stream skips for good. `StreamLive`,
  `StreamBehind`, `StreamWaits` and `StreamLoss` are about a writer that publishes each
  event directly after its commit, and `CoreStreams` about logs the core has written.
- **The stores.** `MemoryStore` (four maps), `SqliteStore` (three tables), the exact
  condition under which they answer alike (`StoreAgreement`) and the proof that every run of
  the core meets it (`CoreStores`), lease exclusion over whole runs of either store
  (`Leases`), and runs with any number of cleanups (`Retention`).
- **Drivers and files.** The ACP poll loop and content blocks (`Acp`), A2A dialect probing
  and its single retry with interleaved calls of drivers and clones (`A2a`), told from the
  fields of the answers by `A2aAnswers`, ANP capability lists, negotiation and connection
  states (`Anp`), and the `.env` writer and loader (`EnvFile`).

Objects whose methods update fields are classes whose methods are proved against functions
on values; runs are sequences of actions applied by a total step function, so every theorem
about `Run` quantifies over all schedules. Clocks, identifiers, drivers, servers and child
processes are parameters.

Four places where the code does less than its comments or its purpose suggest are kept as
they are, each with the exact condition and an input on which it fails:

- The comment in `subscribe` (crates/adapter-core/src/lib.rs:292-304) says nothing is lost
  between reading the history and opening the receiver. A number is in neither part exactly
  when it lay outside the 500 the read returned and is not published after the opening
  (`StreamGaps.RawSubscriptionMissesExactly`; inputs: `StreamGaps.CrossingEventIsMissed`,
  `StreamLoss.BacklogIsMissed`). As long as gap events are within reach the
  reliable stream delivers no later event before such a one
  (`StreamWorld.EveryTameRunIsGood`), but it only notices it when it hears the channel: a
  reader that waits has everything exactly when the log did not go beyond the history at the
  opening, or an event was emitted since (`StreamWaits.WaitingReadersHaveEverythingExactly`).
  On the two inputs it waits for ever unless something more happens
  (`StreamGaps.CrossingEventIsMissed`, `StreamLoss.BacklogReadersStall`).
- A catch-up reads 500 events and adds the event that revealed the gap. The result is
  contiguous exactly when that event is at most 501 ahead
  (`ReliableStream.MergeIsContiguousWithin501`, `StreamDrain.GapBeyondTheBoundIsLost`), and
  beyond that the number 501 ahead is never delivered (`StreamGaps.BeyondReachIsLostForGood`).
  With a writer that publishes in order, a reader stays exact while it opens at most 500
  events behind the end of its history and finds a full channel at most 756 behind
  (`StreamLive.ReadersInTouchAreExact`), and out of these bounds it can go on so that it
  loses a number (`StreamBehind.LateOpeningLosesANumber`,
  `StreamBehind.FullChannelLosesANumber`). Behind a backlog of 1001 events, or after 1257
  events unheard, it loses number 1001 (`StreamLoss.LateReadersLoseAnEvent`,
  `StreamLoss.SlowReadersLoseAnEvent`).
- A worker or a rejected invoke ends its task exactly when its last write still finds the
  revision it has read; otherwise nothing ever does
  (`CoreRaces.LastWriteEndsExactlyWhenCurrent`, `CoreRaces.EveryExitCanBeOvertaken`). The
  same holds for the acceptance (`CoreRaces.AcceptanceGoesThroughExactlyWhenFirst`,
  `CoreRaces.EveryAcceptanceCanBeOvertaken`).
- The in-memory cleanup removes the key `memory:<id>`, which `create` never inserts
  (`MemoryStore.CleanupOrphansTheKey`, `Retention.CleanedKeysAreCorrupt`).

## Model

| member | source | states |
|---|---|---|
| Lifecycle.NextStateIsAfter | crates/adapter-core/src/lib.rs:580-692 | The state an actor computes from its snapshot is the one its event stands for, for each of the five kinds of write, and it is never computed from a terminal state. |
| Lifecycle.AtomicLogsAreTheLegalLogs | crates/adapter-core/src/lib.rs:377-692 | A log is one that some sequence of read-decide-write operations produces if and only if every event in it is enabled in the state before it. |
| Lifecycle.RankNeverFalls | crates/adapter-core/src/lib.rs:501-692 | Along any legal log the rank Created < Accepted < Running or WaitingForInput < CancelRequested < terminal never falls. |
| Lifecycle.TerminalEventIsLast | crates/adapter-model/src/lib.rs:78-82 | A terminal event can only be the last event of a legal log, so there is at most one. |
| Lifecycle.TerminalIsAbsorbing | crates/adapter-model/src/lib.rs:78-82 | A prefix of a legal log that reaches a terminal state is the whole log. |
| Lifecycle.NothingButTheEndFollowsCancel | crates/adapter-core/src/lib.rs:501-513 | After a cancel request at most one event follows, and it is Cancelled or Failed; hence there is at most one cancel request. |
| MemoryStore.MemoryTaskStore.CreateOrGetIdempotent | crates/memory-task-store/src/lib.rs:49-79 | The four maps afterwards and the reply: an existing task under the caller and key, the corruption report for a dangling key, or a new task at revision 0. |
| MemoryStore.CreateIsIdempotent | crates/memory-task-store/src/lib.rs:49-79 | A caller and key not seen before store a task in state Created at revision 0 with an empty log, every field spelled out and everything else untouched; creating again under them, whatever else the request says, answers with that task and changes nothing. |
| MemoryStore.MemoryTaskStore.AppendEventAndTransition | crates/memory-task-store/src/lib.rs:85-125 | The compare-and-set: not found, conflict and wrong state change nothing; success advances revision and number by one and appends one event. |
| MemoryStore.AppendIsCompareAndSet | crates/memory-task-store/src/lib.rs:85-125 | A transition goes through if and only if the task exists, its revision is the expected one and its state is among the allowed; otherwise the first of these that fails is the error; every field of snapshot and event afterwards, the end time being set exactly by the three terminal states. |
| MemoryStore.MemoryTaskStore.AcquireLease | crates/memory-task-store/src/lib.rs:148-169 | Refused exactly while another owner's lease runs; otherwise the lease is the caller's from now on. |
| MemoryStore.AcquireIsExclusive | crates/memory-task-store/src/lib.rs:148-169 | A lease is refused if and only if another owner holds one that runs beyond this instant; a granted one is recorded under the owner until now plus the duration. |
| MemoryStore.MemoryTaskStore.RenewLease | crates/memory-task-store/src/lib.rs:171-184 | Granted exactly to the recorded owner up to and including the expiry. |
| MemoryStore.MemoryTaskStore.Cleanup | crates/memory-task-store/src/lib.rs:186-223 | At most one batch of terminal tasks that ended before the cutoff goes with its events, leases and derived keys; every other log keeps exactly its events at or after the cutoff; the reported deletions are the number of tasks gone and the number of older events in the surviving logs; a duration out of range changes nothing. |
| MemoryStore.MemoryTaskStore.RemoveTasks | crates/memory-task-store/src/lib.rs:207-216 | The removal loop leaves the store without exactly the batch. |
| MemoryStore.MemoryTaskStore.TrimLogs | crates/memory-task-store/src/lib.rs:217-221 | The trimming loop leaves every log with exactly its events at or after the cutoff, each once and in their order, and counts the events before it. |
| MemoryStore.RetainedIsTheRecent | crates/memory-task-store/src/lib.rs:217-221 | What trimming keeps of a log is the events at its places at or after the cutoff, all of them, in order. |
| MemoryStore.TrimmingTakesTheOlder | crates/memory-task-store/src/lib.rs:217-221 | Over all logs the events trimmed away number exactly those before the cutoff. |
| MemoryStore.CleanupGoesByTheTimes | crates/memory-task-store/src/lib.rs:186-223 | Every task a cleanup removes ended before the task cutoff, none is left that did unless the batch is used up, and every surviving log keeps exactly its events at or after the event cutoff. |
| MemoryStore.AppendKeepsSourced | crates/memory-task-store/src/lib.rs:85-125 | A transition of the core keeps event sourcing: numbers 1..n, revision and last number n, state and end time folded from the log. |
| MemoryStore.EventsAfterIsPage | crates/memory-task-store/src/lib.rs:137-145 | On a log numbered without gaps, filtering by number and taking a limit is the slice from after + 1 to after + limit. |
| MemoryStore.CleanupConserves | crates/memory-task-store/src/lib.rs:186-223 | Events before a cleanup are the events kept, plus the deletions reported, plus the events of removed tasks. |
| MemoryStore.CleanupRemovesOnlyEnded | crates/memory-task-store/src/lib.rs:186-223 | Also on a store trimmed before: only terminal tasks disappear; a survivor keeps its snapshot and the end of its log, numbered up to its last number. |
| Retention.EveryRunKeepsTheEnd | crates/memory-task-store/src/lib.rs:49-223 | In every run of creations, core transitions and cleanups under a clock that never goes back, each log is the end of everything ever appended to its task, numbered 1, 2, 3 and so on throughout, and the snapshot carries the last number. |
| Retention.OnlyEndedTasksDisappear | crates/memory-task-store/src/lib.rs:186-216 | In every such run a task disappears only by a cleanup and only if it is terminal and ended before the cutoff. |
| Retention.EveryRunKeepsTheFold | crates/memory-task-store/src/lib.rs:85-223 | In every such run whose transitions, where they go through, write the state of their event, state and end time of each task are the fold of everything ever appended to it, however often its log was trimmed. |
| Retention.OnlyEndedLogsDisappear | crates/memory-task-store/src/lib.rs:186-216 | In every such run a task disappears only if the last event ever appended to it is terminal and older than the cutoff. |
| Retention.CleanedIsSwept | crates/memory-task-store/src/lib.rs:186-223 | The contract of the cleanup method has exactly one outcome per batch it may pick, the one the runs use. |
| Retention.CleanedKeysAreCorrupt | crates/memory-task-store/src/lib.rs:54-77 | From the empty store: create, accept, fail, clean up past the lifetime; creating again under the same caller and key reports corruption, for every task whose key is not the derived one. |
| MemoryStore.CleanupOrphansTheKey | crates/memory-task-store/src/lib.rs:207-213 | After cleanup removed a task, creating again under its caller and key reports corruption if and only if that key is not the derived key of a removed task of the same caller. |
| CoreMoves.ResolveIsSound | crates/adapter-core/src/lib.rs:338-724 | Whatever action a schedule takes, the step it amounts to satisfies the contract every invariant below relies on: writes match the role, snapshots held are current when read, permits are taken and dropped in order, failures are classified. What the writes say is stated event by event by `CoreCommands`, `CoreDriver`, `CoreLimits` and `CoreWorker`. |
| CoreTheorems.EveryRunKeepsInv | crates/adapter-core/src/lib.rs:338-724 | Every reachable state satisfies the combined invariant: records, past snapshots, ownership, authorship, outcomes, replies, held permits, conservation and the active table. |
| CoreTheorems.EveryRunRefinesTheAtomicSystem | crates/adapter-core/src/lib.rs:487-716 | In every interleaved run the log of each task is the log of the atomic system running the committed operations in commit order, each of which took effect; so it is legal. Which operation a call commits is stated by the rows of `CoreCommands`, `CoreDriver` and `CoreWorker`. |
| CoreTheorems.NothingStaleIsCommitted | crates/adapter-core/src/lib.rs:694-716 | Whenever a write goes through, the snapshot it was computed from has the store's current revision and state, Progress included. |
| CoreTheorems.EveryRunIsEventSourced | crates/memory-task-store/src/lib.rs:49-125 | In every reachable state numbers are 1..n, revision and last number are n, the state is the fold of the log, timestamps do not go back, and the end time is set exactly when the state is terminal. |
| CoreTheorems.RunsGrow | crates/adapter-core/src/lib.rs:338-716 | Along any continuation tasks stay, logs and histories are only extended, and creators never change. |
| CoreTheorems.TasksOnlyMoveForward | crates/adapter-core/src/lib.rs:501-716 | Between any two points of a run the earlier log is a prefix of the later one, the rank never falls, and a terminal task is exactly as it was. |
| CoreTheorems.WorkerLeavesItsTaskTerminalUnlessOvertaken | crates/adapter-core/src/lib.rs:463-483 | When a worker is done and the store did not fail under it, its task is terminal if and only if it was not overtaken; overtaken means that the commit at the revision its last write expected, and all since, are cancels or inputs of others. |
| CoreTheorems.AbandonedTasksNeverEnd | crates/adapter-core/src/lib.rs:463-557 | A task whose owner is done while it is not terminal stays so in every continuation. |
| CoreTheorems.CancelBeforeAcceptIsTheWholeLog | crates/adapter-core/src/lib.rs:377-384 | Every log is empty, starts with Accepted, or is a single cancel request that got in before the acceptance. |
| CoreTheorems.OneCreatorPerKey | crates/adapter-core/src/lib.rs:353-376 | Of all invocations with one caller and key at most one ever creates the task and may run a worker. |
| CoreTheorems.KeysNameOneTaskForEver | crates/memory-task-store/src/lib.rs:54-77 | A caller and key that name a task name the same task in every continuation. |
| CoreTheorems.EveryReplyNamesTheSameTask | crates/adapter-core/src/lib.rs:366-369 | The creating invocation and every repeated one are given the task their key names. |
| CoreTheorems.PermitsAreConserved | crates/adapter-core/src/lib.rs:389-483 | In every reachable state available plus held permits equal the capacity of every queue, caller, global and agent pool, and running workers never exceed the capacity of a caller, agent or global pool. That the capacities are those configured is `CoreLimits.LimitsAreKept`. |
| CoreTheorems.ReturnedCallsHoldNothing | crates/adapter-core/src/lib.rs:389-483 | However an invocation returns, rejections and worker exits included, it holds no permit of any pool. |
| CoreTheorems.RejectedInvocationsStayActive | crates/adapter-core/src/lib.rs:370-460 | An invocation rejected for a limit or at acceptance leaves its entry in the active table. |
| CoreRaces.LastWriteEndsExactlyWhenCurrent | crates/adapter-core/src/lib.rs:663-716 | From every reachable state in which a rejected invoke or an exiting worker is about to record its failure and the store answers, the task is terminal afterwards if and only if its revision is still the one read; otherwise no continuation ends it. |
| CoreRaces.EveryExitCanBeOvertaken | crates/adapter-core/src/lib.rs:472-482 | From every reachable state in which a worker is about to record a failure for a cancellable task, one cancel call leads to a worker that has exited and a task no continuation ends. |
| CoreRaces.AcceptanceGoesThroughExactlyWhenFirst | crates/adapter-core/src/lib.rs:377-384 | From every reachable state in which an invocation is about to accept its task and the store answers, it goes on if and only if nothing was committed since the creation; otherwise it returns the conflict and no continuation ends the task. |
| CoreRaces.EveryAcceptanceCanBeOvertaken | crates/adapter-core/src/lib.rs:377-384 | From every such state a cancel call between creation and acceptance leads to a task no continuation ends. |
| CoreRaces.CreationReachesAcceptance | crates/adapter-core/src/lib.rs:353-384 | For every registered agent the first invocation reaches such a state. |
| CoreRaces.RefusedDriverReachesExit | crates/adapter-core/src/lib.rs:389-482 | Such a state is reachable for every configuration with positive limits: the schedule in which the driver refuses the task. |
| CoreCommands.CommandsTakeEffectExactlyWhenCurrent | crates/adapter-core/src/lib.rs:487-557 | From every reachable state in which a command has read its snapshot and the store answers: `provide_input` appends "input accepted" and sets the task running if and only if the revision is still the one read; `cancel` appends the request with its reason if and only if moreover none was requested; otherwise nothing changes. |
| CoreCommands.InputIsRecordedExactlyWhenAwaited | crates/adapter-core/src/lib.rs:523-557 | From every reachable state an undisturbed `provide_input` appends its event and leaves the task running if and only if the task is waiting for input; otherwise the store is unchanged. |
| CoreCommands.CancelIsRecordedExactlyWhenOpen | crates/adapter-core/src/lib.rs:487-521 | From every reachable state and for every reason an undisturbed `cancel` appends the request with that reason if and only if the task exists, has not ended and has no cancel requested; otherwise the store is unchanged. |
| CoreCommands.InvocationsCreateExactlyWhenNew | crates/adapter-core/src/lib.rs:353-376 | From every reachable state a creation whose caller and key name a task is answered with it and changes nothing; any other stores a task with all its fields and an empty log, and enters it in the active table. |
| CoreCommands.AcceptanceIsRecorded | crates/adapter-core/src/lib.rs:377-388 | From every reachable state an acceptance appends Accepted, not queued, if and only if the task is still at revision 0; otherwise the call returns the conflict. |
| CoreCommands.FaultsEndCalls | crates/adapter-core/src/lib.rs:353-557 | A store that fails records nothing; an invocation that creates or accepts returns that error, a rejected one returns without having recorded it, a command ends. |
| CoreLimits.LimitsAreKept | crates/adapter-core/src/lib.rs:389-462 | In every reachable state the workers of an agent, of a caller and of the core, and the invocations queued for an agent, are at most the numbers the configuration gives for them by name. |
| CoreLimits.PermitsAreRefusedExactlyAtTheLimit | crates/adapter-core/src/lib.rs:389-460 | From every reachable state a permit is refused if and only if as many invocations hold one as the configuration allows for the agent's queue, the caller, the core or the agent; the error says which limit, the permits held are all to be dropped. |
| CoreLimits.RefusedInvocationsFailTheirTask | crates/adapter-core/src/lib.rs:389-460 | From every reachable state after a refusal, undisturbed: the permits are given back, one failure naming the limit is recorded, the task has failed and the call has returned. |
| CoreLimits.OwnersAtWorkHaveLiveTasks | crates/adapter-core/src/lib.rs:377-578 | In every run, while the owner of a task accepts it, takes or gives back permits, is about to record a refusal, starts its driver or waits for a message, the task has not ended. |
| CoreLimits.DecimalStandsForTheNumber | crates/adapter-core/src/lib.rs:389-398 | The limit named in a refusal is the configured number in decimal digits without leading zeros. |
| CoreDriver.MessagesAreRecorded | crates/adapter-core/src/lib.rs:580-692 | From every reachable state in which a worker waits for its driver, and for each message allowed in the state of its task: undisturbed, the worker appends exactly one event, spelled out with all it carries, and nothing for an acknowledgement, and goes on to check whether the task has ended. |
| CoreDriver.OwnersRecordTheirMessages | crates/adapter-core/src/lib.rs:559-692 | In every interleaved run, faults, timeouts and other calls included, the events a worker has written on its task, acceptance and failures aside, are those its yielded messages stand for, each once and in order; at most the last is missing, and none while it waits. |
| CoreWorker.UndisturbedWorkersReachTheOutcome | crates/adapter-core/src/lib.rs:463-692 | From every reachable state in which a worker is about to start its driver, for every behaviour of the driver, every instant of the timeout and every store fault, as long as no other call acts: a worker that is done has extended the log by exactly `Worker.Outcome` of the messages it dealt with and its reason to stop, and the task has ended; only a fault while the end is being recorded can leave that one event out. |
| CoreWorker.CourseAbreast | crates/adapter-core/src/lib.rs:559-692 | Along any such course the log is at every step the one the messages dealt with so far lead to, by the place the worker has come to. |
| CoreSteps.TheClockCountsTheTicks | crates/adapter-core/src/lib.rs:694-716 | In every run the clock the events are stamped with shows the time that has passed. |
| Worker.AdapterCore.FailActive | crates/adapter-core/src/lib.rs:663-692 | With nobody else acting, a live task gets one Failed event and ends; a terminal one is left alone. |
| Worker.AdapterCore.ApplyDriverEvent | crates/adapter-core/src/lib.rs:580-661 | The effect of each driver event in each state on log, state and result, refusals included. |
| Worker.AdapterCore.RunDriver | crates/adapter-core/src/lib.rs:559-578 | For a driver that refuses, closes or hangs, the loop together with the failure still to be recorded writes exactly the outcome of what the driver sent and why it stopped. |
| Worker.AdapterCore.Work | crates/adapter-core/src/lib.rs:463-483 | The worker, its timeout branch included, appends exactly `Outcome` of the state it started in, the events sent and the reason for stopping, and leaves the task terminal. |
| Worker.OutcomeEndsTheTask | crates/adapter-core/src/lib.rs:559-692 | For every legal log, event list and reason for stopping the outcome extends it to a legal log in a terminal state. |
| Worker.OutcomeIsPrefixThenEnd | crates/adapter-core/src/lib.rs:559-692 | The outcome is what a prefix of the driver's events asks for, followed by nothing or by one Failed event: driver stopped, failure reported, or next event not allowed. |
| Worker.ResponsesByState | crates/adapter-core/src/lib.rs:580-661 | What the worker does with each of the seven driver messages in each state: the event it appends with its fields, the state it is allowed in, or the error that ends the run. |
| Worker.EndingsByReason | crates/adapter-core/src/lib.rs:663-692 | The failure recorded for a timeout, a closed stream, a driver error, a refused transition, a conflict and an unavailable store, code and text spelled out, and none for a task that has ended. |
| Worker.OutcomeByMessages | crates/adapter-core/src/lib.rs:559-692 | The outcome read message by message from the front, as the loop meets them, is the outcome defined on the whole list. |
| ReliableStream.QueueIsTheHistoryBeyond | crates/adapter-core/src/reliable_stream.rs:76-95 | What a new stream queues is the events of the history numbered above `after`, each once and in their order, and no others. |
| ReliableStream.ReliableTaskStream.CatchUp | crates/adapter-core/src/reliable_stream.rs:186-201 | The loop over the page and the trailing event fills the queue with their merge in number order. |
| ReliableStream.ReliableTaskStream.Next | crates/adapter-core/src/reliable_stream.rs:133-178 | For every sequence of channel answers and of reads, failing ones included, the loop returns the reply, and leaves the stream, that the one-step specification gives; it is ended afterwards if and only if the reply says so or is an event that ends the task, from the channel or from a page; an ended stream replies so at once. |
| ReliableStream.NextEndsExactly | crates/adapter-core/src/reliable_stream.rs:133-178 | A call leaves the stream ended if and only if it replies that it has ended or hands out a Completed, Failed or Cancelled event, whichever way the event came. |
| ReliableStream.MergePage | crates/adapter-core/src/reliable_stream.rs:186-201 | Without a trailing event a catch-up queues exactly the next page of the log. |
| ReliableStream.MergeIsContiguousWithin501 | crates/adapter-core/src/reliable_stream.rs:186-201 | The queue after merging a gap event continues the log if and only if the event is at most 501 ahead of the last delivered one. |
| StreamCalls.StepsAreNext | crates/adapter-core/src/reliable_stream.rs:133-173 | From any point of the interleaved system at which a call may be under way, the steps up to its reply, with any other actions in between, reply and leave the stream as the object's `Next` does for the answers heard and the pages read, or failed to read, along the way. When that ends the stream is `ReliableStream.NextEndsExactly` for a call and `StreamEnd.StreamsEndExactly` for a run. |
| StreamWorld.EveryTameRunIsGood | crates/adapter-core/src/reliable_stream.rs:76-201 | For every schedule of commits, late, skipped or reordered publishes, lag, close, failing reads, retention and `next` calls in which each gap event met is within reach and each read finds nothing deleted above the last delivered number, what was delivered is exactly the log slice from after + 1 to the last number, in order, with no gap and no repetition. |
| StreamWorld.KeepingUpIsTame | crates/adapter-core/src/reliable_stream.rs:133-201 | Whatever the publishers do, a reader at most 501 events behind whenever a gap event makes it read meets that condition. |
| StreamOrder.EveryRunIsOrdered | crates/adapter-core/src/reliable_stream.rs:5-12 | For every schedule without any condition: delivered numbers strictly rise, all lie above `after`, and each event is the one of its number in the log. |
| StreamOrder.RunsAdvance | crates/adapter-core/src/reliable_stream.rs:133-201 | In every continuation the log and the delivered events are only extended, by numbers above the last one delivered. |
| StreamOrder.PassedOverIsLost | crates/adapter-core/src/reliable_stream.rs:133-201 | A number the stream has passed without delivering it is not delivered in any continuation. |
| StreamOrder.ShortLogsAreTame | crates/adapter-core/src/lib.rs:326-336 | Every schedule whose log stays within 501 events of `after`, and which trims nothing above it, is exact. |
| StreamLive.ReadersInTouchAreExact | crates/adapter-core/src/lib.rs:694-716 | With every event published directly after its commit, a reader is exact if it opens the receiver at most 500 events beyond the end of its history and is at most 756 events behind when it hears a full channel, however long the log and however often it lags. |
| StreamBehind.LateOpeningLosesANumber | crates/adapter-core/src/reliable_stream.rs:76-201 | The converse: in every live run about to open its receiver more than 500 events beyond the history, on an open channel and with retention behind it, one more event and the calls up to the next read lose a number of the log in every continuation. |
| StreamBehind.FullChannelLosesANumber | crates/adapter-core/src/reliable_stream.rs:133-201 | In every live run about to hear a full open channel more than 756 events behind, retention being behind it, the call and the read it asks for lose a number of the log in every continuation. |
| StreamWaits.WaitingReadersHaveEverythingExactly | crates/adapter-core/src/reliable_stream.rs:133-173 | In every live run a reader that waits on the open channel has reached the end of the log if and only if the log did not go beyond the history when the receiver was opened, or an event was emitted since. |
| StreamWorld.TerminalMeansComplete | crates/adapter-core/src/reliable_stream.rs:52-57 | Delivering a terminal event means everything in the log after `after` was delivered. |
| StreamWorld.NoneMeansDrained | crates/adapter-core/src/reliable_stream.rs:133-173 | When the stream ends, a terminal event was delivered or the last read found nothing beyond the last delivered number. |
| StreamEnd.StreamsEndExactly | crates/adapter-core/src/reliable_stream.rs:133-178 | In every schedule the stream has ended if and only if it has handed out an event that ends the task, or a read asked for by the closed channel has found nothing beyond the last number. |
| StreamEnd.EndedForGood | crates/adapter-core/src/reliable_stream.rs:133-140 | In every continuation a stream that has ended stays as it is and delivers nothing more. |
| StreamDrain.DrainsToTheEnd | crates/adapter-core/src/reliable_stream.rs:133-201 | From any exact state with the channel closed and nothing deleted above the last delivered number, whatever is queued, lagging, pending or under way, repeated `next` hands out a log of any length to its end and then ends, as long as no gap event met on the way is out of reach. |
| CoreStreams.SeenLogsEndOnce | crates/adapter-core/src/lib.rs:694-716 | Whatever part of a task's log in a run of the core a stream has seen is a legal log whose only terminal event is its last. |
| CoreStreams.EveryWrittenLogCanBeSeen | crates/adapter-core/src/lib.rs:694-716 | Every log a run of the core has written is the log of a run of the stream. |
| CoreStreams.TerminalMeansAllThereIs | crates/adapter-core/src/reliable_stream.rs:52-57 | For every run of the core and every tame run of a stream on its log: a stream that delivers a terminal event has delivered all of the log beyond `after`, and no continuation of the core adds to it. |
| CoreStreams.CoreStreamsDrain | crates/adapter-core/src/reliable_stream.rs:133-201 | For every run of the core, a tame stream on its log whose channel is closed and which has not ended is drained to the end by calls alone, under the conditions of `DrainsToTheEnd` on retention and gap events. |
| StreamDrain.GapBeyondTheBoundIsLost | crates/adapter-core/src/reliable_stream.rs:186-201 | In an exact state about to merge a gap event, the following `next` calls stay exact if and only if the event is within the bound. |
| StreamGaps.RawSubscriptionMissesExactly | crates/adapter-core/src/lib.rs:305-314 | For any actions before the read, between read and opening, and after: a number is in neither part if and only if it lies outside the 500 numbers the read returned and is not published on the open channel after the opening; and the receiver holds the last 256 of what it was offered, lagging exactly if there was more. |
| StreamGaps.CatchUpQueues | crates/adapter-core/src/reliable_stream.rs:186-201 | For any page and gap event: the queue after a catch-up rises strictly, all its numbers lie above the last delivered one, and it holds an event if and only if that is the last of its number in the page, or the gap event where the page has none. |
| StreamGaps.CrossingEventIsMissed | crates/adapter-core/src/lib.rs:305-314 | The input: one event committed and published between reading the history and opening the receiver is in neither part, and after any number of `next` calls nothing has been delivered. |
| StreamGaps.WaitingGetsNothing | crates/adapter-core/src/reliable_stream.rs:133-173 | In every run a reader with nothing to deliver and nothing to hear on an open channel is left as it is by any number of calls. |
| StreamGaps.UnreadIsLostForGood | crates/adapter-core/src/reliable_stream.rs:186-201 | In every run, tame or not, each number between the last delivered one and a gap event that the read of that gap does not return is not delivered in any continuation after the read. |
| StreamGaps.BeyondReachIsLostForGood | crates/adapter-core/src/reliable_stream.rs:186-201 | In every run about to merge an event more than 501 ahead, retention being behind the reader, the number 501 ahead is in the log and is not delivered in any continuation after the read, whatever is committed, published, trimmed, closed or called. |
| StreamLoss.BacklogIsMissed | crates/adapter-core/src/lib.rs:305-314 | The input: of a backlog of any length above 500, published before the subscription, every number above 500 is in neither part. |
| StreamLoss.BacklogReadersStall | crates/adapter-core/src/reliable_stream.rs:133-173 | Its reader delivers the first 500 events and then, for any number of calls, nothing. |
| StreamLoss.LateReadersLoseAnEvent | crates/adapter-core/src/reliable_stream.rs:186-201 | For every backlog of more than 1000 events, all published in order: a reader that subscribes from the start and hears one more event never delivers number 1001, in any continuation. |
| StreamLoss.SlowReadersLoseAnEvent | crates/adapter-core/src/reliable_stream.rs:186-201 | For every n above 1256: a reader that lets n events, all published in order, pass its open receiver never delivers number 1001, in any continuation. |
| SqliteStore.StateTextRoundTrips | crates/sqlite-task-store-adapter/src/lib.rs:259-283 | Reading a state column inverts writing it, and no other text reads as that state. |
| SqliteStore.SqliteTaskStore.CreateOrGetIdempotent | crates/sqlite-task-store-adapter/src/lib.rs:80-111 | The table afterwards and the reply, the primary-key violation included; UNIQUE(caller, key) and the foreign keys are kept. |
| SqliteStore.SqliteTaskStore.AppendEventAndTransition | crates/sqlite-task-store-adapter/src/lib.rs:123-183 | The transaction's checks and updates; an end time once set stays; a repeated event number rolls everything back. |
| SqliteStore.RowsHoldTheTask | crates/sqlite-task-store-adapter/src/lib.rs:80-111 | A new task is one row with every column spelled out; events and leases are untouched. |
| SqliteStore.TransitionUpdatesTheRow | crates/sqlite-task-store-adapter/src/lib.rs:123-183 | A transition that goes through sets the five columns of its row, keeps an end time already there, and adds one event row under the next number, which was free. |
| SqliteStore.SqliteTaskStore.GetEvents | crates/sqlite-task-store-adapter/src/lib.rs:185-208 | The rows above the number in ascending order, at most the smaller of the limit and 10000, none for a missing task. |
| SqliteStore.SqliteTaskStore.AcquireLease | crates/sqlite-task-store-adapter/src/lib.rs:210-219 | The upsert takes over only a lease that expired strictly before, or the owner's own; a missing task violates the foreign key. |
| SqliteStore.SqliteTaskStore.RenewLease | crates/sqlite-task-store-adapter/src/lib.rs:221-230 | Updates exactly the recorded owner's lease up to and including its expiry. |
| StoreAgreement.RowsAreTheTail | crates/sqlite-task-store-adapter/src/lib.rs:185-208 | Selecting and ordering event rows gives the same list as filtering the in-memory log. |
| StoreAgreement.CallsAgree | crates/adapter-store-contract/src/lib.rs:64-94 | For mirrored stores each call is answered alike if and only if the condition `Alike`, checkable before the call, holds, and then the stores stay mirrored. |
| StoreAgreement.StoresAgree | crates/adapter-store-contract/src/lib.rs:64-94 | From empty stores all replies to a sequence of calls are equal if and only if every call meets its condition. |
| StoreAgreement.StoresAgreeOnCoreCalls | crates/sqlite-task-store-adapter/src/lib.rs:148-151 | On calls that create under a known key or a fresh id, allow no transition out of a terminal state, ask for existing tasks and pages up to 10000 and acquire no lease at the instant of expiry, all replies are equal, stale writes included; overwriting the end time equals COALESCE because terminal states are never left. |
| CoreStores.RunMakesCoreCalls | crates/adapter-core/src/lib.rs:338-724 | The store calls of every interleaved run of the core are such calls, and making them in order leads to the store the run records. |
| CoreStores.EveryRunFitsBothStores | crates/adapter-store-contract/src/lib.rs:64-94 | In every interleaved run of the core each store call of its invocations and commands gets the same reply from both stores. |
| CoreStores.WatchedRunsFitBothStoresExactly | crates/adapter-core/src/lib.rs:287-336 | With any number of event reads of `subscribe` and `history` in between, all replies are equal if and only if every read is of a task that exists at that moment. |
| CoreStores.AppliedTransitionsAreTruthful | crates/adapter-core/src/lib.rs:694-716 | In every run of the core a transition that goes through writes the state its event stands for, though it was computed from a snapshot read earlier. |
| Leases.AnswerEffect | crates/memory-task-store/src/lib.rs:148-184 | In either store a grant displaces another owner only by acquiring a lease that has run out; any other answer changes nothing. |
| Leases.AcquireAnswer | crates/memory-task-store/src/lib.rs:148-169 | Either store grants a representable lease on an existing task if and only if none is recorded, the owner asks for its own, or the recorded one has run out, SQLite counting the instant of expiry as running and the in-memory store not. |
| Leases.RunsHandOver | crates/memory-task-store/src/lib.rs:148-184 | In every run of acquire and renew calls under a clock that never goes back, the record of a task is its last grant, and every change of owner waited for the expiry of the grant before. |
| Leases.LeasesExclude | crates/memory-task-store/src/lib.rs:148-184 | At no instant are grants of two owners on one task in force, a grant being in force from its start until it expires or its owner replaces it. |
| Leases.RenewNeedsTheLastGrant | crates/memory-task-store/src/lib.rs:171-184 | After any run a renewal succeeds if and only if the duration is representable and the owner has the task's last grant, not past its expiry. |
| Leases.DisplacedOwnersCannotRenew | crates/sqlite-task-store-adapter/src/lib.rs:221-230 | Once another owner was granted the task, an owner's renewals fail and change nothing until it acquires again. |
| Acp.OutputRoundTrips | crates/driver-acp-client/src/lib.rs:128-247 | Extracting output parts undoes encoding them as blocks, for every list of parts and whatever else the event carries. |
| Acp.BlocksByKind | crates/driver-acp-client/src/lib.rs:215-239 | How a block is read, by its kind and from its fields, unreadable ones included. |
| Acp.BlockFields | crates/driver-acp-client/src/lib.rs:128-140 | Which fields a written block has; a missing media type is null. |
| Acp.ReadablePartsSnoc | crates/driver-acp-client/src/lib.rs:241-247 | Unreadable blocks are left out and the others keep their order. |
| Acp.RemoteEventsByKind | crates/driver-acp-client/src/lib.rs:361-409 | The driver event of each remote kind, from the JSON fields, with the texts used where a field is missing and the percentage cut to one byte; other kinds are passed over; the three final kinds. |
| Acp.KindlessEventsAreIgnored | crates/driver-acp-client/src/lib.rs:361-409 | An event without a readable kind is neither forwarded nor final. |
| Acp.AcpClientDriver.PollTask | crates/driver-acp-client/src/lib.rs:325-413 | The spawned task sends Accepted and then exactly the events of the specification for the polls so far, or one failure when the prompt failed, and leaves the active table exactly when it stops. |
| Acp.ForwardAll | crates/driver-acp-client/src/lib.rs:361-409 | The inner loop over one answer's events equals the step-by-step specification, stopping at the first final event. |
| Acp.ForwardedIsTidy | crates/driver-acp-client/src/lib.rs:332-411 | For any answers and timeouts, forwarded numbers strictly increase and nothing follows an event that ends the task. |
| Acp.ForwardedIsTheLog | crates/driver-acp-client/src/lib.rs:332-411 | If every answer is a prefix of one remote log with rising numbers, in any order, the forwarded events are the longest prefix shown before the child was lost, mapped, each once, up to the first final event; and polling is over exactly then or when the child was lost. |
| A2a.MethodNamesDiffer | crates/driver-a2a-client/src/wire/sdk.rs:51-57 | The six method names of the two dialects are distinct. |
| A2a.MethodNotFoundIsProbed | crates/driver-a2a-client/src/error.rs:122-148 | For every code and message, what `execute` classifies as an unknown method (code -32601 of section 5.1 of JSON-RPC 2.0, or the marker) the probe's test accepts too, under any lower-casing that keeps lower-case ASCII letters and '_'. |
| A2a.ReadersAreConsistent | crates/driver-a2a-client/src/dialect_probe.rs:116-153 | For every body, default codes and messages included, an unknown method for `execute` is an unrecognized one for the probe. |
| A2a.ProbeWireFormat | crates/driver-a2a-client/src/dialect_probe.rs:41-83 | One or two requests, SDK first, and the dialect or error that follows from the answers. |
| A2a.A2aClientDriver.ResolvedWire | crates/driver-a2a-client/src/lib.rs:117-148 | A fixed or cached dialect costs no request; otherwise one probe, cached only if it succeeds. |
| A2a.A2aClientDriver.ExecuteOperation | crates/driver-a2a-client/src/lib.rs:189-287 | Result, cache and every request posted: resolve, one attempt, and on an unknown method under automatic resolution one probe past the cache and one more attempt. |
| A2aAnswers.FixedDialectByTheAnswer | crates/driver-a2a-client/src/lib.rs:189-287 | In a fixed dialect the one answer decides, field by field: a lost request, the task read from the result, a missing or unreadable result, and for an error its code (or -32000) and message (or "unknown error"): unknown method exactly for -32601 or the marker, lost context for -32010, else the remote error. |
| A2aAnswers.ProbeByTheAnswers | crates/driver-a2a-client/src/dialect_probe.rs:41-153 | The requests of a probe and its verdict from its one or two answers: an endpoint knows the method unless the error has code -32601 or its lower-cased message says "method not found", with spaces or underscores. |
| A2aAnswers.AutomaticByTheAnswers | crates/driver-a2a-client/src/lib.rs:117-287 | An automatic driver keeps its dialect or settles on what its first probe finds; a failed probe is the result and settles nothing; the first and, on an unknown method, the second attempt and their requests, all told from the answers. |
| A2a.AtMostSixPosts | crates/driver-a2a-client/src/lib.rs:189-287 | For every endpoint: exactly one request in a fixed dialect, at most four with a filled cache, at most six in any case. |
| A2a.ProbeFindsTheDialect | crates/driver-a2a-client/src/dialect_probe.rs:41-83 | If recognition depends only on the method name, a probe finds the endpoint's dialect and fails only with the transport or when it speaks neither. |
| A2a.FinishIsExecute | crates/driver-a2a-client/src/lib.rs:189-287 | Taken request by request without interruption, the steps of a call give the result, cache and requests of `execute`. |
| A2a.EveryRunIsRight | crates/driver-a2a-client/src/lib.rs:117-148 | In every interleaving of new drivers, clones, the single requests of calls, and calls dropped at any time, on an endpoint that knows methods by name, every filled cache and every dialect in use is the one the endpoint speaks. |
| A2a.ClonesResolveAlike | crates/driver-a2a-client/src/lib.rs:533-556 | In every such interleaving, probes of driver and clone at the same time included, all filled caches hold the same dialect, the one the endpoint speaks. |
| A2a.ClonesOfSettledDriversDoNotProbe | crates/driver-a2a-client/src/lib.rs:533-556 | In every interleaving a clone of a driver that has settled on a dialect posts its first request in that dialect. |
| A2a.AutoGetTaskIsKnown | crates/driver-a2a-client/src/lib.rs:180-182 | In every such interleaving an automatic `get_task` never ends in an unknown method, and no call makes more than six requests. |
| A2a.RetryKeepsTheDialect | crates/driver-a2a-client/src/lib.rs:232-277 | On such an endpoint, whatever its state, the second attempt uses the dialect of the first, and only the transport can keep it from being made. |
| A2a.RetryRepeats | crates/driver-a2a-client/src/lib.rs:232-277 | If the endpoint keeps no state either and its probe gets through, the second attempt ends in the error of the first. |
| Anp.ParseIsCanonical | crates/anp-transport/src/capabilities.rs:22-32 | Two raw lists parse to equal lists if and only if their trimmed non-empty entries are equal as sets. |
| Anp.ParseElements | crates/anp-transport/src/capabilities.rs:22-37 | A parsed list is strictly rising and contains exactly the trimmed non-empty entries. |
| Anp.LessIsLexicographic | crates/anp-transport/src/capabilities.rs:29 | The order of a parsed list is decided by the first difference of two texts, a prefix coming first. |
| Anp.NegotiationPicksTheBest | crates/anp-transport/src/negotiation.rs:45-137 | A profile is agreed if and only if the peer accepts and advertises an offered one; it is the first such offer, version 1, under the given negotiation id, with resume exactly when one of its two markers is advertised, and expired exactly when its validity has passed; otherwise the error, with its contents. |
| Anp.NegotiationIgnoresOrder | crates/anp-transport/src/negotiation.rs:117-137 | Raw lists with the same entries lead to the same outcome, error contents included. |
| Anp.ReadyOnlyByNegotiation | crates/driver-anp-client/src/state.rs:72-97 | Whenever a legal history from Disconnected is in TaskProfileReady, its last four states are Connecting, IdentityVerified, Negotiating, TaskProfileReady. |
| Anp.ReadyAgainOnlyByNegotiation | crates/driver-anp-client/src/state.rs:72-97 | Two visits of TaskProfileReady are at least four transitions apart. |
| Anp.MovesSucceedExactly | crates/driver-anp-client/src/state.rs:72-97 | The fifteen moves that succeed, listed; every other fails with a text that names both states. |
| Anp.ReadyIsReachable | crates/driver-anp-client/src/state.rs:72-97 | From every state TaskProfileReady is reached by moves that succeed, five at most. |
| Text.TrimTrims | crates/anp-transport/src/capabilities.rs:25 | Trimming leaves no white space at the ends, keeps trimmed texts as they are and adds no character. |
| Text.TrimFindsTheCore | crates/anp-transport/src/capabilities.rs:25 | Trimming white space around a trimmed text gives that text. |
| EnvFile.WriteEnvText | crates/adapterctl/src/install_flow.rs:188-196 | The loop writes the heading and one line per pair, in order. |
| EnvFile.Process.LoadEnvFile | crates/adapterd/src/main.rs:103-133 | The loop over the lines leaves the environment the specification gives, stops where setting a variable panics, and does nothing for an unreadable file. |
| EnvFile.EnvFileRoundTrips | crates/adapterd/src/main.rs:116-132 | Loading the written file applies exactly its pairs, in order, to every environment, values with '=' included. |
| EnvFile.LoadingCompletesTheEnvironment | crates/adapterd/src/main.rs:116-132 | Afterwards every variable has its old value or else the value of its first pair, and nothing else is set; loading panics if and only if a pair with a NUL character comes up while its key is unset. |
| EnvFile.AnyFileCompletesTheEnvironment | crates/adapterd/src/main.rs:116-132 | The same for every file, whoever wrote it: the pairs of its lines complete the environment, up to the first that cannot be set. |
| EnvFile.LinesThatSet | crates/adapterd/src/main.rs:116-125 | A line sets the text before its first equals sign to the text after it, both trimmed, whatever white space surrounds them. |
| EnvFile.LinesThatSetNothing | crates/adapterd/src/main.rs:116-125 | A line sets nothing if and only if its first character that is not white space is a hash, or it has no equals sign. |
| EnvFile.LinesEndEitherWay | crates/adapterd/src/main.rs:116 | Lines end at a line feed, with or without a carriage return before it; the last may be unended. |
| EnvFile.WrittenPairByPair | crates/adapterctl/src/install_flow.rs:188-196 | Each pair adds its name, an equals sign, its value and a line feed to the file. |

## Left out

- Store faults in the core are faults before the call takes effect; a commit that takes effect but is reported as failed is not modelled.
- Dropping the future of `invoke`, `cancel` or `provide_input` half way is not modelled; only the worker's driver loop can be dropped, by its timeout.
- Revisions, event numbers and counters are unbounded; 64-bit wrap-around and the casts between signed and unsigned are not modelled.
- Time is a number of milliseconds; overflow of `now + duration`, RFC 3339 text and sub-millisecond precision are not modelled.
- The core's tasks carry no session and no deadline; the idempotency-key blank check, agent resolution by skill and the authorization policy of `dispatch` would only add single-branch checks.
- Explicitly reused task ids are assumed to come with the caller and key of their first use, as the in-memory store overwrites a reused id.
- Store deletions are not part of the core's runs or of the store agreement; their runs, with creations and transitions, are those of `Retention`. The unordered deletes of the SQLite cleanup are not modelled.
- StreamLive.ReadersInTouchAreExact: assumes that no history read fails, because a failed read leaves a gap event unmerged and the reader then trails further than its calls show; with failing reads exactness is `StreamWorld.EveryTameRunIsGood`.
- StreamDrain.DrainsToTheEnd: reads succeed, nothing more is committed and the stream has not ended before, because each of these would make the claim false.
- A2A requests and their answers are single steps of the interleaving; two requests in flight at once are ordered by their answers.
- The SQL engine, row decoding, WAL settings and the Postgres store are not modelled; tables are maps and SQL error texts are constants.
- The replies of `cancel` and `provide_input`, their capability checks and the calls they forward to the driver; the store's part of both is modelled.
- How the A2A driver's `invoke` turns a task into a driver event, and its tables of remote ids and cancellation tokens, would only add easy members.
- ACP request ids, the table of pending requests and the child's stdin and stdout are reduced to how each poll ended; JSON numbers are integers.
- A2A parameter building and result parsing of the two wire modules are parameters; bearer tokens and timeouts are not modelled, and the agent card is left out because its detection always answers None.
- ANP signing, identity checks and message transport; `intersection` would only add an easy member.
- The wording of the `.env` heading is a parameter; environment values that are not Unicode are not modelled.
- Sse, stdio and MCP drivers, protocol servers, the gateway, configuration, installation, Docker and service management.
