# warped2: the Time Warp kernel, its GVT and termination protocols, its queues and its profiles

warped2 simulates discrete events optimistically. Logical processes (LPs) are spread over processes
and worker threads; every worker processes the least event it can find, rolls an LP back when an event
arrives late, takes back what the LP had sent by anti-messages, and from time to time all processes
agree on a global virtual time (GVT) below which nothing can be rolled back, so that history may be
forgotten. The sequential dispatcher of the same repository defines what the result must be.

This project models that and proves it correct:

- `Events`, `Simulation`: the order of events, and what a complete simulation of a model is. A model has
  at most one.
- `Sequential`: the sequential dispatcher and its queue, which terminate with a complete simulation.
- `Queues`, `Kernel`: the Time Warp kernel as a step system. Every locked region of the program is one
  step; steps of any number of workers, message deliveries and GVT advances interleave freely.
- `Ledgers`, `KernelInvariant`, `KernelScheduling`, `KernelBooks`, `KernelLocal`, `KernelSteps`: what every
  step keeps. `Ledgers` is the conservation of messages on its own: a positive event has one copy exactly
  when one party lays claim to it, its sender or an anti-message.
- `KernelTheorems`: rollback is exact, fossil collection is safe, annihilation succeeds, anti-messages are
  exact, scheduling is exact, no assertion fails. `Agreement`: Time Warp agrees with the sequential
  dispatcher.
- `Managers`, `Dispatcher`: the program's own classes. Each method is proved to take exactly one step of
  the kernel, or to be a run of such steps, and one turn of the worker loop to leave the LP with exactly
  the history and state that the replay of that history gives.
- `Mattern`, `LocalMinimum`, `GvtManagers`: the asynchronous GVT manager (token, colours, worker reports).
  `MatternBounds`: that its GVT is not too low either, and exactly when the first one can be.
  `SynchronousGvt`, `SynchronousMinimum`: the barrier-based one. `KernelGvt`, `GvtRuns`: kernel and
  asynchronous manager run together; the kernel's steps are the steps that the manager's proof assumes,
  and every GVT that a manager holds may be used for collection. `KernelMinimum`, `GvtWorkers`: the
  workers' reports join them, so that the local minima are sound by what the workers do.
  `SynchronousRuns`: kernel and barrier-based manager run together. Where a GVT can be wrong (worker
  threads that share a queue, messages older than a round), the exact condition is proved.
- `Termination`: the termination token ring. `TerminationCounts`: what the token's count and the sticky
  state mean over a whole run, and exactly when the simulation ends.
- `SplayTrees`, `LadderQueues`: the two alternative schedule queues. `LadderOrder`, `LadderRuns`: when the
  ladder queue keeps its events in order of time, exactly, and runs in which it does not.
  `Communication`: message aggregation.
- `Metis`, `MetisFiles`: event statistics, their METIS text, and the partitioner's reader of that text: what
  one simulation records is what the next one reads.
- `Json`, `JsonGrammar`, `JsonReader`, `JsonRoundTrip`: the writer and the reader of the JSON library that
  the configuration uses, as functions on every document and in the library's own form, and the round
  trip. `JsonSpellings`, `JsonLayout`: documents laid out and strings spelled in any way, with comments.
  `JsonErrors`: what is refused. `Strings`: the order of names, and decimal numbers.

Conventions and assumptions:

- `receiveEvent` and `initializeLP` are functions of the model (state, random number generators included,
  and event). They ignore `generation_`, name existing receivers, and `receiveEvent` returns only events
  with strictly later timestamps. `src/LogicalProcess.hpp` asks only that they are not earlier; with equal
  timestamps the order of events would depend on `generation_`, which differs between the two dispatchers.
- LP names are unique and not empty; they are numbered by their rank in string order, so that comparing
  numbers is comparing names. Name 0 is the empty name of the initial event.
- An anti-message does not overtake its event between two processes (`Kernel.MayDeliver`); otherwise
  messages may arrive in any order. Each message is delivered once.
- `max_sim_time_` is less than the value that also stands for infinity. `Queues.CollectionKeepsAStateExactlyWhenFinite`
  says why: a GVT of "infinity", and only that, deletes the last saved state.
- A saving period of 0 is allowed; the countdown then wraps, as the program's does.
- One object stands for the managers of all processes in `Managers` and `Dispatcher`: LPs are numbered
  globally, schedule queues by process. Ghost fields record the past and how far a worker has got.
- What a worker does without a lock, on data that only the holder of the LP touches, is grouped with the
  locked region before it.
- The Mattern model needs no FIFO channels, only that a process handles a GVT update before the next
  computation's token. `global_min_clock_` starts with any value, since it is not initialized; what that
  does to the first GVT is the subject of `MatternBounds.GvtIsNotTooLow`.
- In `LocalMinimum`, reading the flag, taking an event and reporting it are one step, every LP's queue is
  served, and LPs do not migrate. In `SynchronousGvt`, raising the flag and changing the colour are
  one step, and messages are not handled between raising the flag and the barrier.
- In `Termination`, `sticky_state_ = state_` is one step.
- In `GvtRuns`, a run starts when all LPs are initialized; messages of the initialization may still be in
  transit, and are counted. A local minimum is any number that is sound; in `GvtWorkers` it is the least
  report, a run starts before any worker has taken an event, LPs do not migrate, no two workers of a
  process serve a queue with LPs, and a worker reports each send before it goes on.
- In `SynchronousRuns`, workers run until they stand at the barrier, and messages are handled before a
  round and at its barrier. Its runs are those whose rounds end with a result that no message of an
  earlier round is before; `SynchronousRuns.AdvanceExactlyIfNoneIsEarlier` says why that is the condition.
- In `LadderQueues`, times are numbers of any size; where a result needs them to be 32-bit numbers, it says
  so. An event is its value: `erase` compares pointers where the model compares events.
- In `SplayTrees`, keys are the event handles, which is what the tree compares.
- In `Communication`, a message is the bytes that serialization made of it; the buffer has room for
  `max_aggregate_` messages with 8 bytes of header for each, receives complete in order, and integers
  are stored with the least significant byte first.

- In `MetisFiles`, the two sets of lines that only people read (before the line with the counts, and behind
  it) are any lines that begin with `%%`. The map of edges is traversed in the order of its keys. Each
  count has 32 bits, and a format that could not be read counts as a wrong one.
- In `Json`, a character is a byte. A real number is the text that `sscanf` would convert, and none is
  written; map keys have no NUL. The reader has the default features; a document with an error gives no
  value, without recovery and messages.

Where code and comments disagree, the model follows the code: `removeEventsSentAfter`
(src/TimeWarpOutputManager.cpp:43) announces events strictly greater than the straggler, but takes those
that are equal too, which is what anti-messages need.

## Model

| member | source | states |
|---|---|---|
| Events.LessIsTotalOrder | src/Event.hpp:23-51 | `operator<` is a strict total order on event identities, `operator==` is its equality and `operator>` its converse |
| Events.OrderIsLexicographic | src/Event.hpp:30-39 | `operator<` is decided by the first difference of receive time, send time, sender name and generation, and `compareEvents` after these by the type |
| Events.AntiMessageIsAdjacent | src/Event.hpp:115-131 | in the order of `compareEvents` an anti-message comes immediately before its event, with nothing between |
| Events.InsertKeepsSorted | src/TimeWarpEventSet.cpp:73-74 | inserting a new key keeps an input or schedule queue strictly ascending |
| Events.EraseOne | src/TimeWarpEventSet.cpp:98-103 | erasing a queued event by its key removes that event and no other |
| Simulation.SendsOfPrefix | src/TimeWarpEventDispatcher.cpp:414-441 | the sends of a history begin with those of any prefix of it; the others are caused by the rest |
| Simulation.ReplayIgnoresGenerations | src/Event.hpp:68-70 | histories that differ only in `generation_` lead to the same state and the same sends |
| Simulation.CompleteIsUnique | src/SequentialEventDispatcher.cpp:50-66 | a model has at most one family of histories in which each LP processes, in event order, exactly what is sent to it |
| Sequential.STLLTSFQueue.Pop | src/STLLTSFQueue.cpp:15-42 | returns null exactly when empty; otherwise takes out an event that is at most every queued one |
| Sequential.STLLTSFQueue.Push | src/STLLTSFQueue.cpp:44-46 | the queue gains exactly the event, and stays ascending if the event is new, so that `pop` still returns a least one |
| Sequential.SendKeepsBalance | src/SequentialEventDispatcher.cpp:56-63 | sending keeps the balance: what was sent is either queued or processed, never both, and all processed events come before all queued ones |
| Sequential.PopKeepsBalance | src/SequentialEventDispatcher.cpp:51-53 | so does taking out the least event and processing it |
| Sequential.SequentialEventDispatcher.SendOne | src/SequentialEventDispatcher.cpp:56-63 | drops a new event exactly if it is past the end, otherwise numbers, stamps and queues it, so that the queue holds exactly one more send |
| Sequential.SequentialEventDispatcher.SendAll | src/SequentialEventDispatcher.cpp:56-63 | the loop sends exactly the sends of the processed event, in order |
| Sequential.SequentialEventDispatcher.InitializeLPs | src/SequentialEventDispatcher.cpp:34-47 | afterwards exactly the initial sends of all LPs are queued |
| Sequential.SequentialEventDispatcher.ProcessNext | src/SequentialEventDispatcher.cpp:50-65 | one iteration processes the least event; states, generations and queue stay what the histories lead to, and time never goes back |
| Sequential.SequentialEventDispatcher.StartSimulation | src/SequentialEventDispatcher.cpp:24-72 | terminates, with a complete simulation and every LP in the state its history leads to; the count is the number of events in all histories |
| Queues.RollPointSplits | src/TimeWarpEventSet.cpp:172-188 | popping from the back while events are not less than the straggler takes exactly those of the whole queue that are not less |
| Queues.RestoreStates | src/TimeWarpStateManager.cpp:28-53 | the saved states left are a prefix that ends before the straggler, and no state dropped is before it |
| Queues.InsertAllKeepsSorted | src/TimeWarpEventSet.cpp:180-187 | moving undone events back keeps the input queue strictly ascending |
| Queues.CoastForwardIsReplay | src/TimeWarpEventDispatcher.cpp:546-558 | from the state of any prefix, coasting forward over the rest gives the state of the whole history |
| Queues.TwinsAreAdjacent | src/TimeWarpEventSet.cpp:295-300 | if an event and its anti-message are both queued, `cancelEvent` finds the one directly behind the other |
| Queues.CancelRemovesTwins | src/TimeWarpEventSet.cpp:292-307 | and removes exactly these two |
| Queues.KeptStates | src/TimeWarpStateManager.cpp:64-75 | at least one saved state is kept, the first kept one is before GVT if anything was dropped, and the second one is not |
| Queues.CollectionKeepsAStateExactlyWhenFinite | src/TimeWarpStateManager.cpp:57-83 | a collection leaves a saved state to restore if and only if GVT is not the value for infinity |
| Queues.EventsCollected | src/TimeWarpEventSet.cpp:319-342 | exactly the leading events before the given time are collected, but never the last one, unless the time is infinity: then all are |
| Ledgers.SendBalances | src/TimeWarpEventDispatcher.cpp:421-438 | a send creates one copy and one claim, for an event that did not exist before |
| Ledgers.SendAntiBalances | src/TimeWarpEventDispatcher.cpp:461-479 | an anti-message takes over the claim that its sender gave up |
| Ledgers.DeliverBalances | src/TimeWarpEventDispatcher.cpp:401-412 | a delivery moves a copy or a claim, and never queues a message twice |
| Ledgers.RollBalances | src/TimeWarpEventDispatcher.cpp:503-518 | a rollback moves copies back to the input queue and turns claims into pending anti-messages |
| Ledgers.AnnihilateBalances | src/TimeWarpEventSet.cpp:292-307 | annihilation removes one copy together with its claim |
| Ledgers.ProcessBalances | src/TimeWarpEventSet.cpp:264-269 | processing moves a copy from the input queue to the history |
| Ledgers.TwinIsAtReceiver | src/TimeWarpEventDispatcher.cpp:294-297 | the event of a queued anti-message is in the same input queue or was processed there |
| KernelScheduling.EraseScheduled | src/TimeWarpEventSet.cpp:97-103 | erasing the scheduled event from its schedule queue removes one entry if the LP is idle and none if it is busy |
| KernelScheduling.InsertKeepsScheduling | src/TimeWarpEventSet.cpp:71-111 | after `insertEvent` an idle LP has exactly its least event scheduled, and a busy LP none |
| KernelScheduling.ReleaseKeepsScheduling | src/TimeWarpEventSet.cpp:236-249 | so it is when a worker lets go of an LP, in whichever queue its map names then |
| KernelScheduling.GetEventTakesIdle | src/TimeWarpEventSet.cpp:116-146 | what `getEvent` returns belongs to an idle LP and is its least event |
| KernelLocal.RolledBackHistory | src/TimeWarpEventSet.cpp:172-188 | for a straggler after everything collected, the history shrinks to exactly the events before it |
| KernelLocal.RollbackKeepsLocal | src/TimeWarpEventDispatcher.cpp:484-518 | queues, saved states, outputs and pending anti-messages stay consistent through a rollback |
| KernelLocal.CoastReplaysRest | src/TimeWarpEventDispatcher.cpp:536-559 | coasting from a saved state over the later processed events gives the state of the whole history, collected part included |
| KernelLocal.ReceiveKeepsLocal | src/TimeWarpEventDispatcher.cpp:347-353 | processing and saving keep every saved state the replay of the history up to its event |
| KernelLocal.RecordKeepsLocal | src/TimeWarpEventDispatcher.cpp:421-427 | numbering and recording a send keep the output queue equal to the sends of the history |
| KernelLocal.CollectKeepsLocal | src/TimeWarpEventDispatcher.cpp:362-376 | the three collections together keep every later rollback possible |
| KernelLocal.FinishKeepsLocal | src/TimeWarpEventSet.cpp:258-290 | the processed event joins the history at its end, which stays strictly ascending |
| KernelLocal.CancelKeepsLocal | src/TimeWarpEventSet.cpp:292-307 | annihilation leaves the LP's history, state and outputs as they are |
| KernelSteps.UnprocessedIsAhead | src/TimeWarpEventDispatcher.cpp:500-501 | every unprocessed event is at or after GVT, hence after everything that was collected |
| KernelSteps.TwinIsQueued | src/TimeWarpEventDispatcher.cpp:291-300 | when an anti-message is about to be cancelled, its event is in the input queue, whether or not a rollback was needed |
| KernelSteps.RollbackKeepsInv | src/TimeWarpEventDispatcher.cpp:484-518 | a rollback keeps all invariants of the whole system |
| KernelSteps.SendKeepsInv | src/TimeWarpEventDispatcher.cpp:414-441 | so does each send, local or remote, dropped or not |
| KernelSteps.SendAntiKeepsInv | src/TimeWarpEventDispatcher.cpp:455-482 | so does each anti-message |
| KernelSteps.CancelKeepsInv | src/TimeWarpEventDispatcher.cpp:316-324 | so does an annihilation |
| KernelSteps.ReplenishKeepsInv | src/TimeWarpEventSet.cpp:258-290 | so does the end of an event's processing, with migration on or off |
| KernelSteps.StepKeepsInv | src/TimeWarpEventDispatcher.cpp:247-399 | every step of any worker, the network or GVT keeps all invariants |
| KernelSteps.ReachableHasInv | src/TimeWarpEventDispatcher.cpp:71-104 | all invariants hold in every reachable state, under every interleaving |
| KernelTheorems.RollbackIsExact | src/TimeWarpEventDispatcher.cpp:484-559 | after any past, rollback, restoring and coasting forward leave the state that replays from the initial state exactly the history events before the straggler; the others are queued again; the state restored is the last saved one before the straggler, and no other is dropped than those behind it |
| KernelTheorems.StateIsReplay | src/TimeWarpEventDispatcher.cpp:347-353 | whenever no rollback is in progress, an LP's state is the replay of its history; an event about to be processed is later than all of it |
| KernelTheorems.FossilCollectionIsSafe | src/TimeWarpEventDispatcher.cpp:360-376 | for any straggler at or after GVT there is a saved state before it, and the events to coast over, the events to undo and the sends to cancel are all still there |
| KernelTheorems.CollectionIsExact | src/TimeWarpEventDispatcher.cpp:362-376 | and collection does collect: of the saved states at most one is left before GVT, of the processed events none before that state but the last one processed, and the sends left start with one caused at or after GVT; nothing else changes |
| KernelTheorems.AnnihilationSucceeds | src/TimeWarpEventSet.cpp:292-307 | an anti-message taken from the schedule queue always finds its event directly behind it; exactly the two disappear |
| KernelTheorems.OutputsAreExact | src/TimeWarpOutputManager.cpp:13-37 | the output queue, with what was collected, lists exactly the sends of the history, in processing order, with increasing generations |
| KernelTheorems.RollbackCancelsExactly | src/TimeWarpOutputManager.cpp:39-59 | a rollback takes back each send of each undone event and no other |
| KernelTheorems.NoLpIsProcessedTwice | src/TimeWarpEventSet.cpp:116-146 | `getEvent` never hands out an event of an LP that a worker holds; it hands out the LP's least event |
| KernelTheorems.SchedulesAreExact | src/TimeWarpEventSet.cpp:71-146 | an event is in a schedule queue exactly if its LP is idle, it is the LP's least event and the queue is the one the LP's map names; the scheduled pointer is null exactly if the input queue is empty |
| KernelTheorems.AssertionsNeverFail | src/TimeWarpEventSet.cpp:83-107 | no assertion of `insertEvent`, `rollback`, `getEventsForCoastForward`, `replenishScheduler` or `cancelEvent` ever fails, nor those of src/TimeWarpEventDispatcher.cpp:501-512 and src/TimeWarpStateManager.cpp:20-34 |
| Agreement.RenumberingKeepsOrder | src/Event.hpp:68-70 | numbering a sender's live sends consecutively changes no comparison between live events |
| Agreement.QuiescentIsComplete | src/TimeWarpEventDispatcher.cpp:259-398 | when nothing is unprocessed or in transit, the renumbered histories are a complete simulation |
| Agreement.TimeWarpAgreesWithSequential | src/TimeWarpEventDispatcher.cpp:247-482 | in every reachable quiescent state each LP has processed exactly the events of the sequential dispatcher, in its order, up to renumbered generations, and is in the same state |
| Agreement.CompareWithSequential | src/SequentialEventDispatcher.cpp:24-72 | the same, by running the sequential dispatcher |
| Managers.TimeWarpEventSet.InsertEvent | src/TimeWarpEventSet.cpp:71-111 | which queue entries and pointers change in each of its cases, and that its assertions hold |
| Managers.TimeWarpEventSet.GetEvent | src/TimeWarpEventSet.cpp:116-146 | null exactly if the worker's queue is empty; otherwise an event before all others of that queue leaves it, and no other queue changes |
| Managers.TimeWarpEventSet.LastProcessedEvent | src/TimeWarpEventSet.cpp:164-167 | comparing with the event it returns tells of any event whether all processed ones come before it |
| Managers.TimeWarpEventSet.Rollback | src/TimeWarpEventSet.cpp:172-188 | its loop moves exactly the events from the roll point on back to the input queue |
| Managers.TimeWarpEventSet.GetEventsForCoastForward | src/TimeWarpEventSet.cpp:193-226 | its loop returns exactly the processed events after the restored state's event, newest first |
| Managers.TimeWarpEventSet.StartScheduling | src/TimeWarpEventSet.cpp:236-249 | the LP's least event is scheduled, or the pointer is null |
| Managers.TimeWarpEventSet.ReplenishScheduler | src/TimeWarpEventSet.cpp:258-290 | the scheduled event moves to the processed queue, the LP moves to the next queue if migration is on, and its least event is scheduled there |
| Managers.TimeWarpEventSet.CancelEvent | src/TimeWarpEventSet.cpp:292-307 | removes the pair exactly if the successor has the same identity, and says so |
| Managers.TimeWarpEventSet.FossilCollect | src/TimeWarpEventSet.cpp:319-342 | its loop drops and counts exactly the events that may be collected |
| Managers.SavesPeriodically | src/TimeWarpPeriodicStateManager.cpp:20-42 | of any number of successive calls for an LP, exactly those save that are a multiple of the period after the first one that does; a period of 0 wraps |
| Managers.TimeWarpPeriodicStateManager.SaveState | src/TimeWarpPeriodicStateManager.cpp:20-42 | is one such call for its LP, and leaves the others alone |
| Managers.TimeWarpPeriodicStateManager.RestoreState | src/TimeWarpStateManager.cpp:17-54 | its loop restores the last saved state that is before the straggler, and drops exactly those behind it |
| Managers.TimeWarpPeriodicStateManager.FossilCollect | src/TimeWarpStateManager.cpp:57-83 | its loop keeps the last state before GVT and all later ones, and returns the time before which events may go |
| Managers.TimeWarpOutputManager.FossilCollect | src/TimeWarpOutputManager.cpp:18-37 | its loop drops exactly the leading sends caused before GVT and returns the time of the first cause left |
| Managers.TimeWarpOutputManager.RemoveEventsSentAfter | src/TimeWarpOutputManager.cpp:39-59 | its loop takes out exactly the trailing sends caused by events not before the straggler, newest first |
| Dispatcher.TimeWarpEventDispatcher.constructor | src/TimeWarpEventDispatcher.cpp:562-585 | the fields hold the kernel's initial state |
| Dispatcher.TimeWarpEventDispatcher.SendLocalEvent | src/TimeWarpEventDispatcher.cpp:443-449 | the event is inserted at its receiver, with the effect of the kernel's insertion |
| Dispatcher.TimeWarpEventDispatcher.SendEvents | src/TimeWarpEventDispatcher.cpp:414-441 | sends all new events, each by one kernel step, and changes no LP's history or state |
| Dispatcher.TimeWarpEventDispatcher.CancelEvents | src/TimeWarpEventDispatcher.cpp:455-482 | emptying the vector from the back sends every pending anti-message, oldest first, each by one kernel step |
| Dispatcher.TimeWarpEventDispatcher.UndoQueues | src/TimeWarpEventDispatcher.cpp:503-515 | event set, saved states and outputs are rolled back together, as the kernel's step says |
| Dispatcher.TimeWarpEventDispatcher.CoastForward | src/TimeWarpEventDispatcher.cpp:536-559 | reprocessing the vector backwards is the kernel's coasting step |
| Dispatcher.TimeWarpEventDispatcher.Rollback | src/TimeWarpEventDispatcher.cpp:484-534 | the history shrinks to the part before the straggler, and the state is the replay of that part; other LPs keep history and state |
| Dispatcher.TimeWarpEventDispatcher.FossilCollect | src/TimeWarpEventDispatcher.cpp:360-376 | collects the three queues by one kernel step if GVT has moved on |
| Dispatcher.TimeWarpEventDispatcher.ProcessEvent | src/TimeWarpEventDispatcher.cpp:347-353 | the state and the new events are the model's, and the state is saved when due |
| Dispatcher.TimeWarpEventDispatcher.Annihilate | src/TimeWarpEventDispatcher.cpp:316-324 | cancels and reschedules by one kernel step |
| Dispatcher.TimeWarpEventDispatcher.Replenish | src/TimeWarpEventDispatcher.cpp:378-382 | ends the processing of an event by one kernel step |
| Dispatcher.TimeWarpEventDispatcher.TakeEvent | src/TimeWarpEventDispatcher.cpp:264-286 | nothing exactly if the worker's schedule queue is empty; otherwise that queue's first event, of an LP that nobody holds |
| Dispatcher.TimeWarpEventDispatcher.CheckForRollback | src/TimeWarpEventDispatcher.cpp:288-313 | afterwards the history is exactly the part before the event, rolled back or not |
| Dispatcher.TimeWarpEventDispatcher.Execute | src/TimeWarpEventDispatcher.cpp:347-382 | the history gains exactly the event |
| Dispatcher.TimeWarpEventDispatcher.ProcessEvents | src/TimeWarpEventDispatcher.cpp:259-398 | one turn of the worker loop: nothing happens exactly if the worker's schedule queue is empty; otherwise the LP of its first event is left with exactly the history before that event, and the event unless it is an anti-message, in the state of that history; no other LP's history or state changes |
| Dispatcher.TimeWarpEventDispatcher.ReceiveEventMessage | src/TimeWarpEventDispatcher.cpp:401-412 | handles a message by one kernel step |
| Dispatcher.TimeWarpEventDispatcher.GvtUpdate | src/TimeWarpAsynchronousGVTManager.cpp:211-224 | publishing a valid GVT is one kernel step, after which collection may go up to it |
| Dispatcher.TimeWarpEventDispatcher.InitializeLP | src/TimeWarpEventDispatcher.cpp:607-615 | sends an LP's initial events and saves its initial state, by kernel steps |
| Dispatcher.TimeWarpEventDispatcher.Initialize | src/TimeWarpEventDispatcher.cpp:606-615 | afterwards every LP is ready, in a reachable state |
| Mattern.StepKeepsInv | src/TimeWarpAsynchronousGVTManager.cpp:34-224 | every step of any process keeps the place of the token, the colours, the counts and the bound that the circulation collects |
| Mattern.TokenCountIsExact | src/TimeWarpAsynchronousGVTManager.cpp:160-187 | the count of a token back at the initiator is the number of messages of the old colour not received when their receiver gave its count, so never negative; the computation ends exactly if there are none |
| Mattern.GvtIsSafe | src/TimeWarpAsynchronousGVTManager.cpp:160-224 | on a ring of any size, every GVT held or sent is at most the time of every unprocessed event and of every message in transit |
| Mattern.BoundLasts | src/TimeWarpAsynchronousGVTManager.cpp:86-121 | what bounds everything keeps bounding everything, whatever the processes do |
| Mattern.ColorsAgreeAtStart | src/TimeWarpAsynchronousGVTManager.cpp:41-48 | the assertion that both colours of the initiator agree when a computation starts |
| MatternBounds.GvtIsNotTooLow | src/TimeWarpAsynchronousGVTManager.cpp:34-209 | in every run: if from the beginning of a computation on every local minimum reported and every event message sent or received is at or after some time, then so is the GVT that it announces, if and only if a computation has ended before or the other processes were constructed with `global_min_clock_` at or after that time |
| MatternBounds.FirstGvtIsTooLow | src/TimeWarpAsynchronousGVTManager.hpp:79 | a run of two processes in which all that is ever reported is for time 100 and the first GVT is 5, because that member is not initialized |
| MatternBounds.AnnouncementHasBegin | src/TimeWarpAsynchronousGVTManager.cpp:34-60 | every announcement ends a computation that the initiator began before |
| MatternBounds.SoleGvtIsReported | src/TimeWarpAsynchronousGVTManager.cpp:72-78 | the GVT that an only process sets is the local minimum reported last |
| LocalMinimum.StepKeepsInv | src/TimeWarpAsynchronousGVTManager.cpp:242-271 | whatever the workers do after reporting, all events of an LP whose worker has reported stay covered by some report |
| LocalMinimum.LocalMinimumIsSound | src/TimeWarpAsynchronousGVTManager.cpp:64-82 | when the flag is back at 0, every worker has reported once, and if no two workers serve a queue that holds LPs, the least report bounds every unprocessed event, except for the consequences of messages that arrived meanwhile |
| LocalMinimum.LocalMinimumServesMattern | src/TimeWarpAsynchronousGVTManager.cpp:64-82 | which is what the token algorithm assumes of a process |
| LocalMinimum.LeastReportIsNotTooLow | src/TimeWarpAsynchronousGVTManager.cpp:242-271 | nor is the least report too low: it is at or after any time that no event taken and no send reported since the computation began is before |
| LocalMinimum.SharedQueueIsUnsound | src/TimeWarpEventDispatcher.cpp:262-276 | whenever two workers serve an LP's queue, whatever the other workers and LPs, there is a run whose least report is later than an unprocessed local event |
| LocalMinimum.SoundExactlyForOwnQueues | src/TimeWarpAsynchronousGVTManager.cpp:64-82 | for every assignment of LPs and workers to queues, the least report is sound in all runs if and only if no two workers serve a queue that holds an LP |
| LocalMinimum.SoundExactlyForFewThreads | src/TimeWarpEventSet.cpp:50-54 | with threads mapped to queues as `initialize` does: if and only if no LP is in a queue that the threads come round to a second time |
| GvtManagers.TimeWarpAsynchronousGVTManager.SendEventUpdate | src/TimeWarpAsynchronousGVTManager.cpp:86-104 | counts the message under the colour it gets, and notes the least new-colour send |
| GvtManagers.TimeWarpAsynchronousGVTManager.ReceiveEventUpdate | src/TimeWarpAsynchronousGVTManager.cpp:106-121 | uncounts the message under its colour, and notes the least old-colour arrival |
| GvtManagers.TimeWarpAsynchronousGVTManager.ProgressGVT | src/TimeWarpAsynchronousGVTManager.cpp:34-84 | does nothing while workers have to report; otherwise begins a local computation, the initiator with both minima back at infinity and its other colour, or ends it with the least report |
| GvtManagers.TimeWarpAsynchronousGVTManager.LeastReport | src/TimeWarpAsynchronousGVTManager.cpp:66-69 | its loop finds the least entry of the array |
| GvtManagers.TimeWarpAsynchronousGVTManager.ResetLocalState | src/TimeWarpAsynchronousGVTManager.cpp:242-252 | its loop resets all threads, and marks the manager thread as done |
| GvtManagers.TimeWarpAsynchronousGVTManager.SendMatternGVTToken | src/TimeWarpAsynchronousGVTManager.cpp:135-158 | the token it inserts is the one of the protocol |
| GvtManagers.TimeWarpAsynchronousGVTManager.ReceiveMatternGVTToken | src/TimeWarpAsynchronousGVTManager.cpp:160-209 | handles the token as the protocol does, initiator or not, and announces GVT to all processes exactly when it ends |
| GvtManagers.TimeWarpAsynchronousGVTManager.BeginLocalGVT | src/TimeWarpAsynchronousGVTManager.cpp:36-60 | every thread has to report anew; when a computation starts, both minima are back at infinity and the colour changes |
| GvtManagers.TimeWarpAsynchronousGVTManager.PassMatternGVTToken | src/TimeWarpAsynchronousGVTManager.cpp:183-206 | a process that has the initial colour changes it and forgets both minima before it takes over those of the token |
| GvtManagers.TimeWarpAsynchronousGVTManager.SendGVTUpdate | src/TimeWarpAsynchronousGVTManager.cpp:234-240 | its loop inserts one update for each process |
| GvtManagers.TimeWarpAsynchronousGVTManager.ReceiveGVTUpdate | src/TimeWarpAsynchronousGVTManager.cpp:211-224 | holds the GVT received, forgets the accumulated minimum, and ends the computation as the protocol does |
| GvtManagers.TimeWarpAsynchronousGVTManager.ReportThreadMin | src/TimeWarpAsynchronousGVTManager.cpp:255-263 | a thread's first report is the lesser of its event and its sends, and counts down the flag |
| GvtManagers.TimeWarpAsynchronousGVTManager.ReportThreadSendMin | src/TimeWarpAsynchronousGVTManager.cpp:265-271 | sends count until the thread has reported |
| KernelGvt.HolderStepsAreWork | src/TimeWarpEventDispatcher.cpp:284-382 | whatever a worker does with an LP affects only its process, from the time of the event in hand on |
| KernelGvt.KernelStepIsMatched | src/TimeWarpEventDispatcher.cpp:247-412 | every kernel step of a worker or the network is an enabled step of the protocol's model, or leaves it alone; unprocessed times and messages in transit stay the same on both sides |
| KernelGvt.ManagerStepKeepsCoupling | src/TimeWarpAsynchronousGVTManager.cpp:34-224 | the manager's own steps change neither events nor messages |
| KernelGvt.UpdateAllowsAdvance | src/TimeWarpAsynchronousGVTManager.cpp:211-224 | a GVT that a process receives is valid for the kernel, so that fossil collection up to it is safe |
| GvtRuns.StartExists | src/TimeWarpEventDispatcher.cpp:71-104 | whenever all LPs are initialized, managers of any number of processes can start, with messages in transit or not |
| GvtRuns.JointRunsAreCoupled | src/TimeWarpEventDispatcher.cpp:247-412 | in every run of workers, network and managers, the times that the managers assume are those of the events in the input queues, and the messages they count are the events in transit |
| GvtRuns.NeitherBlocks | src/TimeWarpAsynchronousGVTManager.cpp:34-224 | in every such run, each kernel step is one the managers can follow, and each GVT a manager holds, received or set by itself when it is the only process, is one the kernel may collect up to |
| GvtRuns.EveryGvtIsSafe | src/TimeWarpAsynchronousGVTManager.cpp:211-224 | so every GVT a manager ever holds is at most the time of every event the kernel has still to process or to deliver |
| KernelGvt.HeldGvtAllowsAdvance | src/TimeWarpAsynchronousGVTManager.cpp:72-78 | so it is for every GVT that a manager holds, also for one that the only process has set itself |
| KernelMinimum.KernelStepIsLocal | src/TimeWarpEventDispatcher.cpp:259-452 | seen from each process, every kernel step of a worker or the network is a step that the model of the local computation allows (an event taken, inserted, sent away, undone, finished or arriving), or changes nothing there; LPs, their unprocessed times and what each worker has in hand stay the same on both sides |
| KernelMinimum.EmptyQueueIsSeen | src/TimeWarpEventDispatcher.cpp:384-392 | a worker that finds its schedule queue empty may report infinity: no idle LP of the queue has an unprocessed event |
| GvtWorkers.ReportsAreSound | src/TimeWarpAsynchronousGVTManager.cpp:62-70 | in every run of kernel, managers and reports, when a manager finds the flag back at 0 the least report is a local minimum as the token's algorithm needs it |
| GvtWorkers.NothingWaits | src/TimeWarpEventDispatcher.cpp:259-394 | in every such run, whatever the kernel, a manager or a worker is about to do is something the others can follow |
| GvtWorkers.EveryReportedGvtIsSafe | src/TimeWarpAsynchronousGVTManager.cpp:34-224 | so in every such run, with nothing assumed of the local minima, every GVT that a manager holds is at most the time of every event still to be processed or delivered |
| GvtWorkers.FullStartExists | src/TimeWarpEventDispatcher.cpp:71-104 | whenever all LPs are initialized and no worker has begun, such a run can start, for any number of processes and any number of threads up to the number of schedule queues that serve all LPs |
| KernelGvt.QueueHeadIsLeast | src/TimeWarpEventDispatcher.cpp:264-276 | the first entry of a schedule queue is no later than any unprocessed event of the queue's idle LPs |
| KernelGvt.QueuesAreFixed | src/TimeWarpEventSet.cpp:274-278 | without migration an LP stays with its first schedule queue |
| SynchronousMinimum.StepKeepsInv | src/TimeWarpSynchronousGVTManager.cpp:105-119 | once all workers of a queue wait at the barrier, its events stay covered, sends in the meantime included |
| SynchronousMinimum.RoundMinIsSound | src/TimeWarpSynchronousGVTManager.cpp:55-61 | with any number of workers sharing queues, the two minima of a round bound every unprocessed event of the process, which is what `SynchronousGvt` assumes at the barrier |
| SynchronousMinimum.RoundMinIsNotTooLow | src/TimeWarpSynchronousGVTManager.cpp:55-61 | nor is the minimum of a round too low: it is at or after any time that nothing reported or received while the flag is up, since the round before, is before |
| SynchronousGvt.GvtIsSafe | src/TimeWarpSynchronousGVTManager.cpp:36-74 | the GVT of a round bounds every unprocessed event and every message in transit but the red ones of earlier rounds; it is valid if and only if it bounds these too |
| SynchronousGvt.NoneBecomesStale | src/TimeWarpSynchronousGVTManager.cpp:76-95 | during a round no message becomes one of an earlier round |
| SynchronousGvt.GvtIsSafeWithoutStaleMessages | src/TimeWarpSynchronousGVTManager.cpp:36-74 | so GVT is valid if no red message of an earlier round was in transit at some moment of the round |
| SynchronousGvt.SoleGvtIsSafe | src/TimeWarpSynchronousGVTManager.cpp:36-74 | GVT of a single process is always valid |
| SynchronousGvt.GvtIsNotTooLow | src/TimeWarpSynchronousGVTManager.cpp:36-74 | nor is GVT too low: it is at or after any time that nothing which a process reported, sent red, or received red or at the barrier since the round before is before |
| SynchronousGvt.SafeExactlyWhenCovered | src/TimeWarpSynchronousGVTManager.cpp:36-95 | when no round is under way, the coming round is sure to give a valid GVT if and only if every red message of an earlier round in transit is no earlier than what some process has received late |
| SynchronousGvt.StaleMessageEscapes | src/TimeWarpSynchronousGVTManager.cpp:76-95 | a run of two processes in which that fails: a red message stays in transit for a whole further round and GVT passes it |
| SynchronousRuns.KernelStepIsMatched | src/TimeWarpEventDispatcher.cpp:247-412 | every kernel step of a worker before the barrier, or of the network before the round or at its barrier, is an enabled step of the round's model, or leaves it alone |
| SynchronousRuns.AdvanceExactlyIfNoneIsEarlier | src/TimeWarpSynchronousGVTManager.cpp:36-74 | when a round is about to end, its result is valid for the kernel if and only if no red message of an earlier round that is still in transit is before it |
| SynchronousRuns.RunsAreCoupled | src/TimeWarpEventDispatcher.cpp:247-412 | in every run of kernel and rounds, both sides have the same unprocessed times and the same messages in transit, and every GVT held is a bound |
| SynchronousRuns.NeitherBlocks | src/TimeWarpSynchronousGVTManager.cpp:36-95 | in every such run, each kernel step that the phases allow is one the managers can follow, and each GVT a manager holds is one the kernel may collect up to |
| SynchronousRuns.EveryRoundIsSafe | src/TimeWarpSynchronousGVTManager.cpp:36-74 | so every GVT a manager ever holds bounds what the kernel has still to process or to deliver, at all times |
| SynchronousRuns.StartExists | src/TimeWarpEventDispatcher.cpp:71-104 | whenever all LPs are initialized, such a run can start |
| SynchronousRuns.SoleIsNeverEarlier | src/TimeWarpSynchronousGVTManager.cpp:36-74 | with a single process the condition always holds |
| GvtManagers.TimeWarpSynchronousGVTManager.SendEventUpdate | src/TimeWarpSynchronousGVTManager.cpp:76-86 | count and late minimum stay those of the protocol's process when it sends |
| GvtManagers.TimeWarpSynchronousGVTManager.ReceiveEventUpdate | src/TimeWarpSynchronousGVTManager.cpp:88-95 | and when it receives, whatever the colour |
| GvtManagers.TimeWarpSynchronousGVTManager.LocalMin | src/TimeWarpSynchronousGVTManager.cpp:55-61 | its loop finds the least of all reports, sends and red arrivals, and resets them |
| Termination.StepKeepsInv | src/TimeWarpTerminationManager.cpp:26-123 | every step keeps the thread counts exact and the token in one place, whose passed processes were passive when it was created |
| Termination.OneMasterOrOneToken | src/TimeWarpTerminationManager.cpp:32-77 | at every moment there is exactly one master and no token, or exactly one token and no master |
| Termination.BornIsPast | src/TimeWarpEventDispatcher.cpp:92-94 | the instant of a token's creation is a real instant of the run, at which its initiator created it |
| Termination.TerminationIsSafe | src/TimeWarpTerminationManager.cpp:54-85 | whenever `sendTerminator` is called, all worker threads of all processes were passive at the one instant when the returning token was created |
| TerminationCounts.CountIsExact | src/TimeWarpTerminationManager.cpp:26-52 | along every run a process's count is what it was told to count since it last gave a token away |
| TerminationCounts.TokenCountIsSum | src/TimeWarpTerminationManager.cpp:32-71 | along every run a token has come from its initiator through each of the next processes up to its receiver, and its count is the sum of what each of them had counted when it passed the token on |
| TerminationCounts.StateIsExact | src/TimeWarpTerminationManager.cpp:96-123 | a process is passive exactly if it has worker threads and all of them are passive |
| TerminationCounts.StickyIsExact | src/TimeWarpTerminationManager.cpp:75-123 | it is sticky passive exactly if it has been passive ever since, and while, it last ended the handling of a token |
| TerminationCounts.TerminatesExactly | src/TimeWarpTerminationManager.cpp:54-85 | a process that receives a token ends the simulation if and only if it has been passive since it last handled one, all processes have passed this one on, itself first, and the sum of what they had counted is 0 |
| Termination.TimeWarpTerminationManager.SetThreadPassive | src/TimeWarpTerminationManager.cpp:96-109 | the state becomes passive exactly when the last active thread does |
| Termination.TimeWarpTerminationManager.SetThreadActive | src/TimeWarpTerminationManager.cpp:111-123 | state and sticky state become active with a thread |
| Termination.TimeWarpTerminationManager.SendTerminationToken | src/TimeWarpTerminationManager.cpp:32-52 | only a master sends, gives up mastership, and adds its message count |
| Termination.TimeWarpTerminationManager.ReceiveTerminationToken | src/TimeWarpTerminationManager.cpp:54-73 | a sticky passive process passes the token of another one on, with its count added, and gives up mastership; any other becomes master; it ends the simulation exactly if it is sticky passive and the token is its own, passive, and counts no message |
| SplayTrees.RotationKeepsOrder | src/SplayTree.cpp:201-266 | rotating either way keeps the in-order sequence and the set of nodes |
| SplayTrees.RotateLeftLinks | src/SplayTree.cpp:201-232 | the pointer changes of a left rotation leave exactly the rotated shape, parents included |
| SplayTrees.RotateRightLinks | src/SplayTree.cpp:235-266 | and those of a right rotation |
| SplayTrees.DepthIsBounded | src/SplayTree.cpp:154-198 | a node's depth is less than the number of nodes, so that half as many double steps always suffice |
| SplayTrees.SplayTree.RotateLeft | src/SplayTree.cpp:201-232 | rewires pointers in place to the rotated shape, or does nothing without a right child |
| SplayTrees.SplayTree.RotateRight | src/SplayTree.cpp:235-266 | likewise to the right |
| SplayTrees.SplayTree.Splay | src/SplayTree.cpp:154-198 | the node becomes the root, the order of nodes stays, and the bound on the steps never cuts the loop short |
| SplayTrees.SplayTree.Begin | src/SplayTree.cpp:10-28 | returns the least key, or null exactly if the tree is empty |
| SplayTrees.SplayTree.Insert | src/SplayTree.cpp:99-151 | the sorted keys gain exactly the new one, `current_` is the leftmost node and `num_nodes_` the size |
| SplayTrees.SplayTree.Erase | src/SplayTree.cpp:31-96 | true exactly if the key was there; then exactly one occurrence goes, and its assertion never fires |
| LadderQueues.FirstBucketIsEarliest | src/LadderQueue.cpp:45-50 | everything in the first non-empty bucket of a rung is strictly earlier than everything else in the rung |
| LadderQueues.PutKeepsOk | src/LadderQueue.cpp:250-264 | an event goes to a bucket in range, and `last_nonempty_bucket_` stays exact |
| LadderQueues.SlotIsExact | src/LadderQueue.cpp:250-255 | a bucket that is not the last one holds exactly the times from its start to the next one's |
| LadderQueues.WidthsAreExact | src/LadderQueue.cpp:356-410 | the buckets of a new rung cover the range and are no wider than needed for that; those for a transfer from bottom are as wide as fits into it, but not less than 1 |
| LadderQueues.Recalculate | src/LadderQueue.cpp:479-495 | its loop makes the emptied rung's last bucket exact again and its current start valid |
| LadderQueues.LadderQueue.Spread | src/LadderQueue.cpp:87-99 | distributing a list over the last rung adds exactly its events there |
| LadderQueues.LadderQueue.CreateNewRung | src/LadderQueue.cpp:344-386 | opens an empty rung; refuses exactly if the last one's width is minimal, and asserts exactly if all eight are in use otherwise |
| LadderQueues.LadderQueue.CreateRungForBottomTransfer | src/LadderQueue.cpp:388-412 | opens an empty rung that starts at the given time |
| LadderQueues.LadderQueue.RecurseRung | src/LadderQueue.cpp:414-499 | terminates, loses nothing, and finds the first non-empty bucket of the last rung, small enough or not divisible, unless the rungs are empty or a ninth would be needed |
| LadderQueues.LadderQueue.Pour | src/LadderQueue.cpp:45-50 | bottom takes exactly the bucket, all of it strictly earlier than what its rung still holds |
| LadderQueues.LadderQueue.Advance | src/LadderQueue.cpp:62-71 | there is a next non-empty bucket, so that the assertion at line 69 never fires |
| LadderQueues.LadderQueue.Insert | src/LadderQueue.cpp:226-335 | the contents gain exactly the event, rungs stay exact, and none of its assertions ever fires; an event after `top_start_` goes to top, another one to the first rung whose current start is not after it, or else to bottom, or if bottom is full to a new rung that takes over all of bottom |
| LadderQueues.LadderQueue.Erase | src/LadderQueue.cpp:146-224 | the event is looked for in top, or in the bucket for its time of the first rung whose current start is not after it, or else in bottom; an assertion fails exactly if top or bottom is empty then, or the event is not in the bucket; nothing but the event and others with its key is lost, and the rung's last bucket stays exact |
| LadderQueues.LadderQueue.Begin | src/LadderQueue.cpp:22-144 | nothing is lost; null exactly if the queue is empty; otherwise a least event of bottom, earlier than everything in top, and if rungs and bottom are in order a least event of the whole queue, and they stay so; with 32-bit times the assertion of `createNewRung` fires if and only if bottom is empty and the last rung with events is crowded: its first bucket, the first part of that when divided, and so on, stay over the threshold until rungs run out |
| LadderQueues.DoomedWithEight | src/LadderQueue.cpp:344-386 | with eight rungs in use and events in the last, that is: its first bucket is over the threshold and its width is not minimal |
| LadderQueues.EightRungsAreEnough | src/LadderQueue.cpp:344-386 | what rules it out: every rung k either has no bucket over the threshold of 50 or is at most 51 to the power 7 - k wide |
| LadderQueues.BeginFails | src/LadderQueue.cpp:22-144 | it does happen: a queue that was used only by `insert` and `begin` and is not empty fails the assertion |
| LadderOrder.SeparatedIsOrdered | src/LadderQueue.cpp:244-247 | if for each rung in use everything in later rungs and in bottom is before its current start, and nothing in it is, then rungs and bottom are in order of time: each rung is later than all that comes after it |
| LadderOrder.InsertionsKeepOrderExactlyIfSeparated | src/LadderQueue.cpp:243-327 | of an ordered queue: every event up to `top_start_` may be inserted and leaves it ordered if and only if the rungs in use separate in this way; so the order cannot be relied on after the current start of a rung has gone back |
| LadderOrder.ErasuresSucceedExactlyIfSeparated | src/LadderQueue.cpp:166-223 | of an ordered queue: `erase` finds every event of rungs and bottom, without a failing assertion, if and only if the rungs separate |
| LadderOrder.InsertKeepsSeparation | src/LadderQueue.cpp:243-327 | insertions keep the separation |
| LadderOrder.EraseKeepsSeparation | src/LadderQueue.cpp:187-207 | `erase` keeps it, unless it takes the last event of a rung, which then starts over: in that case if and only if all that comes later is before that rung's start |
| LadderOrder.TurnKeepsSeparationExactly | src/LadderQueue.cpp:420-496 | one turn of the loop of `recurseRung` keeps it if and only if the turn does not divide the last bucket with events of its rung |
| LadderOrder.BeginKeepsSeparation | src/LadderQueue.cpp:22-144 | so `begin` breaks it only by dividing such a bucket |
| LadderOrder.BeginKeepsTidyExactly | src/LadderQueue.cpp:22-144 | if before `begin` the rungs separate and each one in use has events, they separate afterwards if and only if each one in use has events |
| LadderOrder.RunsWithoutEmptyRungsAreOrdered | src/LadderQueue.cpp:22-335 | in every run of `insert`, `erase` and `begin`: as long as no rung in use is empty, the queue is in order, so that `begin` returns a least event |
| LadderOrder.FirstIsErasedExactly | src/LadderQueue.cpp:166-223 | `erase` finds the event that `begin` has returned if and only if the current starts of all rungs in use are after it |
| LadderOrder.WhatIsTakenIsLeast | src/TimeWarpEventSet.cpp:122-126 | in every run, ordered or not: an event that `begin` returns and `erase` then finds is a least one of all in rungs and bottom; so `getEvent` takes a least event, or the assertion of `erase` fails |
| LadderRuns.EraseFails | src/TimeWarpEventSet.cpp:122-126 | that assertion does fail: in a queue made by 52 insertions, one `begin` and one `erase`, the next `begin` divides the only bucket of a rung, and `erase` then looks for the event it returned in that rung |
| LadderRuns.BeginIsNotLeast | src/LadderQueue.cpp:479-495 | in the same queue the rung that starts over takes an event for an earlier time, and `begin` then returns a later event although that one is queued |
| Communication.Unpack | src/TimeWarpMPICommunicationManager.cpp:246-276 | unpacking a buffer that starts with a packet gives back exactly its messages |
| Communication.PackMessages | src/TimeWarpMPICommunicationManager.cpp:141-159 | the two positions of the loop fill the buffer with number, lengths and contents, without overlap or overflow |
| Communication.PacketFits | src/TimeWarpMPICommunicationManager.cpp:141-149 | an aggregate within its limits fits the buffer |
| Communication.TimeWarpMPICommunicationManager.InsertMessage | src/TimeWarpMPICommunicationManager.cpp:93-97 | the message is queued last |
| Communication.TimeWarpMPICommunicationManager.PackAndSend | src/TimeWarpMPICommunicationManager.cpp:141-177 | the receiver's aggregate goes out as one packet and is empty afterwards |
| Communication.TimeWarpMPICommunicationManager.StartSendRequests | src/TimeWarpMPICommunicationManager.cpp:112-139 | afterwards the list is empty, no control message waits, and every aggregate is below its limit |
| Communication.TimeWarpMPICommunicationManager.FlushMessages | src/TimeWarpMPICommunicationManager.cpp:106-110 | afterwards no aggregate holds anything |
| Communication.TimeWarpMPICommunicationManager.HandledIsPrefix | src/TimeWarpMPICommunicationManager.cpp:93-177 | the packets sent to a receiver hold, in order, the first messages inserted for it |
| Communication.TimeWarpMPICommunicationManager.NothingIsLost | src/TimeWarpMPICommunicationManager.cpp:93-177 | once list and aggregates are empty, they hold all of them |
| Communication.ReceiveAll | src/TimeWarpMPICommunicationManager.cpp:239-288 | the handlers of a receiver see a prefix of the messages inserted for it, in insertion order |
| Strings.HornerOfDigits | deps/json/jsoncpp.cpp:160-171 | reading the decimal digits of a number gives the number back |
| Strings.OrderIsLexicographic | src/Event.hpp:35-36 | names are compared by their first different character, or by the end of the shorter one |
| Json.CStringIsPrefix | deps/json/jsoncpp.cpp:3885-3951 | of a string with a NUL, what is written and read is exactly the part before it |
| Json.UintToString | deps/json/jsoncpp.cpp:160-171 | its loop produces the decimal digits |
| Json.ValueToQuotedString | deps/json/jsoncpp.cpp:3789-3852 | its loop escapes every character that needs it, and no other |
| Json.FastWriter.Write | deps/json/jsoncpp.cpp:3885-3951 | writes the one text of the value, arrays and objects of any depth included |
| JsonReader.Reader.ReadToken | deps/json/jsoncpp.cpp:490-560 | on every document and at every position, the token of the grammar |
| JsonReader.Reader.SkipSpaces | deps/json/jsoncpp.cpp:565-576 | its loop passes exactly the blanks, tabs, carriage returns and line feeds that come next |
| JsonLayout.GapIsSkipped | deps/json/jsoncpp.cpp:462-477 | any blanks, tabs, line ends and comments of both styles are skipped on the way to the next token |
| JsonReader.Reader.DecodeNumber | deps/json/jsoncpp.cpp:825-875 | on every token, the integer or real number that it stands for, or an error |
| JsonRoundTrip.IntegerExactlyWhenItFits | deps/json/jsoncpp.cpp:848-866 | digits are read as an integer if and only if their value fits, which the loop's test of the last digit decides without overflow |
| JsonLayout.RealIsDecoded | deps/json/jsoncpp.cpp:825-875 | a number with a fraction, an exponent or a second sign, and an integer that does not fit, become a real number of the same text |
| JsonLayout.IntegerIsDecoded | deps/json/jsoncpp.cpp:838-874 | any digits with or without a minus sign become the integer they show, leading zeros included, if it fits; it is signed up to 2147483647, unsigned above |
| JsonReader.Reader.DecodeString | deps/json/jsoncpp.cpp:945-1043 | on every token, the characters it stands for, escapes and surrogate pairs included, or an error |
| JsonSpellings.Utf8IsRight | deps/json/jsoncpp.cpp:100-135 | a code point is encoded as UTF-8 defines it, in the shortest form |
| JsonSpellings.SpelledStringIsRead | deps/json/jsoncpp.cpp:680-692 | a string in which each character is written plainly, as one of the eight short escapes, as a `\u` escape or as a pair of them ends at its closing quote and is decoded to what these stand for |
| JsonErrors.BadEscapesFail | deps/json/jsoncpp.cpp:945-1043 | any other escape, and the first half of a pair without a second one, is an error |
| JsonReader.Reader.ReadArray | deps/json/jsoncpp.cpp:768-808 | on every document, exactly the elements of the array, or an error |
| JsonReader.Reader.ReadObject | deps/json/jsoncpp.cpp:696-764 | on every document, exactly the members of the object, the last one of each name, or an error |
| JsonLayout.PutIsMapUpdate | deps/json/jsoncpp.cpp:736-737 | assigning to a member changes the map at that name and nowhere else, whether the name was there or not, and keeps the names in order |
| JsonErrors.CommaBeforeBrace | deps/json/jsoncpp.cpp:711-714 | an object may be closed behind a comma if and only if the name of the member before is empty |
| JsonErrors.NoValueNoResult | deps/json/jsoncpp.cpp:448-452 | where a value should be, any character that starts neither a value nor a comment, and the end of the document, is an error |
| JsonErrors.OpenStringFails | deps/json/jsoncpp.cpp:680-692 | so is a string that is not closed |
| JsonErrors.WordsAreWhole | deps/json/jsoncpp.cpp:579-591 | so is a word of which only the first letter is right |
| JsonErrors.OpenCommentFails | deps/json/jsoncpp.cpp:594-620 | and a slash without a comment behind it, or one whose comment is not closed |
| JsonErrors.ItemsAreSeparated | deps/json/jsoncpp.cpp:788-802 | behind an item of an array anything but a comma, the closing bracket and comments is an error |
| JsonErrors.NamesNeedColons | deps/json/jsoncpp.cpp:729-735 | and so is, behind the name of a member, anything but a colon, even a comment |
| JsonErrors.MembersAreSeparated | deps/json/jsoncpp.cpp:743-752 | and, behind a member and without a comment in between, anything but a comma and the closing brace |
| JsonReader.Reader.Parse | deps/json/jsoncpp.cpp:334-375 | on every document, the value of the grammar or none |
| JsonRoundTrip.RoundTrip | deps/json/jsoncpp.cpp:3885-3951 | what was written is read without an error, and is the same tree if and only if no string has a NUL |
| JsonLayout.EveryLayoutIsRead | deps/json/jsoncpp.cpp:334-375 | a document in any layout, with blanks, line ends and comments between its tokens, strings spelled in any way and members in any order, is parsed to its value, whatever follows it |
| JsonLayout.LaidOutValueComesBack | deps/json/jsoncpp.cpp:334-375 | so every layout of a value without real numbers is read, and is the same tree if and only if no string has a NUL |
| JsonReader.WriteAndRead | deps/json/jsoncpp.cpp:334-375 | so it is for writer and reader as they run |
| MetisFiles.EdgesHaveNoDirection | src/AggregateEventStatistics.cpp:15-18 | an edge is the same from either end |
| MetisFiles.AggregateEventStatistics.FullGraph | src/AggregateEventStatistics.cpp:54-68 | its loop gives exactly each recorded edge between two LPs in both directions, and their ends |
| MetisFiles.AggregateEventStatistics.PrintMetis | src/AggregateEventStatistics.cpp:51-114 | prints nothing if there is no such edge; otherwise the file with one row for each vertex, in order, with all its neighbours and weights |
| Metis.FileIsRead | src/ProfileGuidedPartitioner.cpp:59-91 | such a file is read without an error, each row up to its first weight that is no int, unless the simulation has fewer LPs |
| MetisFiles.ProfileGuidedPartitioner.ReadNeighbours | src/ProfileGuidedPartitioner.cpp:82-87 | its loop reads exactly the leading pairs of numbers of the line |
| Metis.IntegerIsRead | src/ProfileGuidedPartitioner.cpp:82-83 | white space, a sign and digits are read as the number they show, if and only if an int can hold it |
| Metis.NoDigitNoInteger | src/ProfileGuidedPartitioner.cpp:82-83 | without a digit nothing is read |
| Metis.OtherFormatsFail | src/ProfileGuidedPartitioner.cpp:73-77 | a first line that names another format than 1 is refused |
| Metis.NegativeCountFails | src/ProfileGuidedPartitioner.cpp:78-80 | and so is one with a negative number of vertices |
| MetisFiles.ProfileGuidedPartitioner.ReadGraph | src/ProfileGuidedPartitioner.cpp:59-92 | on any input, its loop ends in the state or the error that the lines lead to |
| MetisFiles.RecordedGraphComesBack | src/ProfileGuidedPartitioner.cpp:59-92 | the vertices get their names back and nothing is read that was not recorded; all that was recorded is read if and only if every weight fits an int |
| MetisFiles.RecordPrintRead | src/AggregateEventStatistics.cpp:24-114 | from the events of one simulation to the arrays of the next: names, neighbours and numbers of exchanged events come back, the same in both directions, if and only if every weight fits an int; nothing is ever invented |

## Left out

- MPI and pthread calls, clocks, sleeping and rejuvenation, checkpoint and restart, statistics, configuration: foreign calls and plumbing.
- Time Warp file streams: no model uses them, as the code says.
- Liveness: that a Time Warp run reaches a quiescent state, or that a GVT computation ends.
- Width of integers: `generation_` (64 bits) and message counts (32 bits) do not wrap in the model.
- LadderQueues.RungWidth: does not model 32-bit wrap-around of the width computation for times near the end of the range.
- The partially unsorted build of the ladder queue.
- The kernel model uses the default multiset schedule queue; splay tree and ladder queue are proved on their own.
- Migration of LPs inside the GVT claims: a rescheduled event can move to a queue whose workers have already reported (src/TimeWarpEventSet.cpp:274-286).
- SynchronousMinimum.RoundMinIsSound: its worker steps are not connected to the kernel's, as those of `LocalMinimum` are by `KernelMinimum`; `SynchronousRuns` takes any minima that are sound.
- Termination.TerminationIsSafe: says nothing about messages in transit, because a process that is not passive absorbs the token and drops its accumulated count (src/TimeWarpTerminationManager.cpp:71-76).
- A bound on the length of coasting by the saving period: the countdown is not adjusted on rollback, so that gaps between saved states can grow.
- The dead branches of the splay tree (an event-less node, a missing `current_` in a non-empty tree).
- Other uses of the profile: METIS itself, saved partitions, Graphviz and individual statistics, the round-robin partitioner: foreign calls, or easy.
- The rest of the JSON library: styled writers, error messages and recovery, streams, conversions of real numbers.
