# Verified model of the message router

A Dafny model of a C++ message routing system, with proofs. The system has five stages: producers, a stage 1
router, processors, a stage 2 router and strategies, joined by lock-free single-producer single-consumer queues,
and a `main` that wires, starts, stops and reports. There is also an ordering buffer, which is not part of the build.

`dafny verify dfyconfig.toml` checks everything.

## How it is built

**The queue.** `SpscMachine` is the queue as a concurrent machine: every load and store of `try_push` and `try_pop`
is a step of its own, in any interleaving, and a load of the other side's index may return any value from the last
one seen to the current one (the reading of acquire and release in section 31.4 of the C++20 standard). Positions are
counted without bound; the shared indices hold them reduced by the bit mask, and `MachineWords` connects the mask with
the remainder. `SpscQueue` is the same queue as a class whose calls are proved to be runs of that machine.
`QueueGuards` holds the four guards that say when a call may succeed or fail under stale views: the machine keeps to
them, and the pipeline uses nothing else about its queues. `PipelineRings` puts the two together: the whole system with
every queue a ring machine and every load and store a step, of which each run is proved to be a run of the pipeline;
`PipelineRealised` proves the other direction, that whatever the pipeline can do with current views the rings can do.

**The pipeline.** `Pipeline` is the running system as a transition system: any number of threads, one step at a time in
any order, each queue call one step. Besides queues and hands, the messages delivered and those dropped (by thread and
reason) are places, so that every step is one of three effects: nothing, a new message, a message moved one place on.
`PipelineFlow` reads all places at once in two ways, by adding up a weight over all messages and by lining up one key's
messages from delivery back to its producer. The other `Pipeline...` modules prove, for every reachable state or run:

| module | about |
|---|---|
| PipelineInvariant | where messages are and what they look like |
| PipelineOrder, PipelineDelivery | order, exactly once, routing, how much is under way |
| PipelineRetries | when a refused push costs a message |
| PipelineAccounting, PipelineReport | what the counters and the final report mean |
| PipelineDrain, PipelineFairness | termination under every schedule, completion under every fair one |
| PipelineStopOrder, PipelineStranding, PipelineShutdown | the stop sequence, and exactly what it leaves behind |
| PipelineRings, PipelineRealised | the system over its real queues: it does what the pipeline may do, and can do it |
| PipelineNoLoss, PipelineViolations | small runs, ordering violations |
| PipelinePacing, PipelineStamps | creation times, processing times |
| PipelineWitnesses | runs that show how far the guarantees go |

**The objects.** `Strategy`, `OrderingList` and `OrderingBuffer`, `Router`, `Processor`, `Producer` and `QueueVector`
are the classes and loops of the source, each method proved against functions in `StrategyMonitor`, `OrderingFilter`,
`Flushing`, `Retry`, `Routing` and `Arrivals`, about which the theorems are stated. In the loops, what upstream pushes
before each pop and what the consumer of an output queue takes during each `yield` are parameters. The two routers
differ only in the lookup they use, so one class stands for both; their common retry loop, which producers and
processors also have, is `Retry.PushWithin`.

## What the proofs found

- The size assertion accepts exactly 0 and the powers of two, 1 included (`include/lockfree_queue.h:13`,
  `MachineWords.SizeAssertionIsExact`). With size 1 the queue can hold nothing; the model requires at least 2.
- A push can be refused by an empty queue if the head is seen late (`SpscMachine.StaleRefusal`); it is truthful exactly
  when the view is up to date.
- Numbers are given per producer but checked per producer and type, so violations are gaps and occur in perfect runs
  (`PipelineViolations.ViolationsOfPerfectRun`).
- "Messages Lost" leaves out what processors drop and what stays in queues, so a run can be PASSED and deliver nothing
  (`PipelineReport.FinalFigures`, `PipelineReport.PassedAndStranded`). The "IN ORDER" lines of the report are constant
  text and a quarter of one total each (`src/main.cpp:156-159`).
- A producer or processor that gives up a message counts it nowhere (`src/producer.cpp:73-81`, `src/processor.cpp:59-67`).
- The documentation promises zero loss (`README.md:40`). A run of at most size - 1 messages with routes in range drops
  none (`PipelineNoLoss.SmallRunsLoseNothing`), and that is the exact condition (`PipelineWitnesses.NothingLostIff`);
  any run can leave messages in queues if it is stopped too early, and any run can be stopped without that
  (`PipelineShutdown.CanStopCleanly`).
- What a queue is left with is exactly what was pushed after the tail its consumer saw when it last found the queue empty
  (`PipelineStranding.WaitingIsUnseen`), so a stopped system strands nothing if and only if all those last looks saw the
  final tails (`PipelineStranding.NothingStranded`). The stop sequence does not see to that: a stage may be stopped
  without looking again, and even in a last pass one stale view leaves a message behind for good
  (`PipelineWitnesses.OneStaleMiss`).
- It promises order for the same producer and type (`README.md:41`), which holds in every run
  (`PipelineDelivery.DeliveredInOrder`), and no ordering violations (`QUICKSTART.md:78`), which does not
  (`PipelineWitnesses.ViolationInPerfectRun`): a loss-free run reports none exactly if no producer comes back to a type
  (`PipelineViolations.PerfectRunWithoutViolations`).
- It names 1000 attempts (`docs/configuration.md:247`); producers make 100 (`PipelineRetries.DroppedAfterLimit`).
- The ordering buffer never holds anything: it never inserts into its lists (`OrderingBuffer.OrderingBuffer.AddMessageAfter`).
  It counts attempts as sent, and a message whose push failed is lost to later calls (`OrderingFilter.NeverRetried`).

## Model

| member | source | states |
|---|---|---|
| MachineWords.SizeAssertionIsExact | include/lockfree_queue.h:13 | for every 64-bit size the assertion, with the predecessor of 0 wrapping around, accepts exactly 0 and the powers of two; size 1 is among them, which is why the queue lemmas ask for at least 2 |
| SpscMachine.FullTestExact | include/lockfree_queue.h:29-33 | with the head seen at any position, however stale, the masked comparison says "full" exactly when the ring is full relative to that position |
| SpscMachine.EmptyTestExact | include/lockfree_queue.h:43-47 | with the tail seen at any position, however stale, the comparison says "empty" exactly when nothing was pushed beyond what was popped at that position |
| SpscMachine.StepInv | include/lockfree_queue.h:27-58 | every single load and store of either side, from any state that satisfies the invariant, leads to such a state |
| SpscMachine.FirstInFirstOut | include/lockfree_queue.h:27-58 | for every interleaving and every staleness, what was popped is a prefix of what was pushed, and at most size - 1 elements are between them |
| SpscMachine.ReadyExactlyWhereOccupied | include/lockfree_queue.h:35-55 | in every reachable state the ready flags are up on exactly the occupied slots, apart from the tail slot between its two stores and the head slot between its two; a popper that saw an element finds its flag up, so the third exit of `try_pop` is never taken |
| SpscMachine.DataRaceFree | include/lockfree_queue.h:35-53 | the pusher about to write data and the popper about to read data are never at the same slot |
| SpscMachine.NeverStuck | include/lockfree_queue.h:27-58 | in every reachable state each side can take its next step whatever the other does |
| SpscMachine.CallsAreAtomic | include/lockfree_queue.h:27-58 | the outcomes of all finished calls, in the order of their deciding steps, are a run of a bounded queue that may also refuse or miss for a stale view; its contents are the pushed and not yet popped elements |
| SpscMachine.CallsAreAtomicWhenUpToDate | include/lockfree_queue.h:27-58 | with up-to-date loads the same holds of the queue that refuses only when full and misses only when empty: every call, failing ones included, is one atomic step |
| SpscMachine.ReplayIsAQueue | include/lockfree_queue.h:27-58 | what such a replay means call by call: a push appends and finds room, a pop takes the oldest, a refusal or miss changes nothing and, in the strict queue, happens only when full or empty |
| SpscMachine.CallsKeepTheGuards | include/lockfree_queue.h:27-58 | each finishing step meets the guard the pipeline uses for that operation, and no other step changes what was pushed or popped |
| SpscMachine.RefusalTruthfulIffUpToDate | include/lockfree_queue.h:31-33 | a push is refused while the ring really is full exactly when the head was seen as it is |
| SpscMachine.MissTruthfulIffUpToDate | include/lockfree_queue.h:43-47 | a pop that finds nothing does so while the ring really is empty exactly when the tail was seen as it is |
| SpscMachine.StaleRefusal | include/lockfree_queue.h:31-33 | a run in which an empty ring of size 2 refuses a push, for any two elements |
| SpscMachine.StaleMiss | include/lockfree_queue.h:43-47 | a run in which a ring that holds an element is found empty |
| SpscQueue.LockFreeSpscQueue.constructor | include/lockfree_queue.h:25 | an empty queue in the initial state of the machine |
| SpscQueue.LockFreeSpscQueue.TryPush | include/lockfree_queue.h:27-40 | appends the element, or refuses exactly when size - 1 elements are held, and keeps the machine invariant |
| SpscQueue.LockFreeSpscQueue.TryPop | include/lockfree_queue.h:42-58 | takes the oldest element, or fails exactly when there is none, and keeps the machine invariant |
| SpscQueue.LockFreeSpscQueue.Size | include/lockfree_queue.h:60-64 | the number of elements held, in spite of the unsigned wrap-around, when no call overlaps |
| SpscQueue.LockFreeSpscQueue.Empty | include/lockfree_queue.h:66-68 | true exactly when nothing is held, when no call overlaps |
| SpscQueue.DistanceMasked | include/lockfree_queue.h:63 | the masked 64-bit difference of two reduced positions less than a lap apart is their true distance |
| Config.Stage1Decision | src/config.cpp:97-104 | the lookup returns the first processor of the first rule for the type that has any; 0 if there is no such rule |
| Config.Stage2Decision | src/config.cpp:106-113 | the lookup returns the strategy of the first rule for the type; 0 if there is none |
| Config.Stage1ErrorsComeFromRules | src/config.cpp:85-104 | with a validated configuration, stage 1 finds a target out of range exactly when the deciding rule names one |
| Config.Stage2ErrorsComeFromRules | src/config.cpp:85-113 | with a validated configuration, stage 2 finds a target out of range exactly when the deciding rule names one |
| StrategyMonitor.ExpectedIsLastPlusOne | src/strategy.cpp:64-77 | after any history the number expected of a key is one past its last delivered one, and the delivered counter is the length of the history |
| StrategyMonitor.ViolationsAreBreaks | src/strategy.cpp:62-83 | for any history the violation counter is the sum, over producers and types, of the adjacent pairs that are not consecutive |
| StrategyMonitor.BreaksAtMostMissing | src/strategy.cpp:71-76 | an ascending stream has at most as many such pairs as numbers missing between its first and last |
| StrategyMonitor.NoBreaksIffConsecutive | src/strategy.cpp:71-76 | an ascending stream has none exactly if no number is missing |
| Strategy.Strategy.ProcessMessage | src/strategy.cpp:62-83 | one delivery: the message joins the history, and a violation is counted exactly if an earlier message of its key exists and the last one does not precede it directly |
| Strategy.Strategy.StrategyPass | src/strategy.cpp:52-55 | one iteration, whatever is pushed before each pop, delivers exactly what the queue held and was sent before a pop found nothing, in order |
| Arrivals.StreamInOrder | src/processor.cpp:52-68 | what the pops of a pass find, up to the first that finds nothing, is what the queue held followed by what was pushed meanwhile and found room |
| Arrivals.AcceptedInOrder | src/processor.cpp:52-68 | what found room is some of what was pushed, in order |
| Arrivals.StreamWhileStill | src/processor.cpp:52-68 | if nothing is pushed meanwhile, a pass finds exactly what the queue held |
| Arrivals.StreamFinds | src/processor.cpp:52-68 | what is pushed before a pop is found by it and the later ones, all of it if there is room |
| OrderingFilter.ExpectedIsLargestPlusOne | src/ordering_buffer.cpp:17-43 | over any history, the number expected of a key is one past the largest seen for it |
| OrderingFilter.AttemptsAreRecords | src/ordering_buffer.cpp:17-46 | over any history in any order, the attempted sends are exactly the strict left-to-right maxima of each key |
| OrderingFilter.NeverRetried | src/ordering_buffer.cpp:43-46 | a message handed in once is not sent by handing it in again, even if its push was refused |
| OrderingFilter.AttemptsAscend | src/ordering_buffer.cpp:25-46 | what passes is strictly ascending for every key |
| OrderingFilter.AscendingPassesUnchanged | src/ordering_buffer.cpp:25-46 | a stream already ascending for every key passes unchanged |
| OrderingFilter.FilterIsIdempotent | src/ordering_buffer.cpp:25-46 | filtering twice is filtering once |
| OrderingFilter.DrainIsLongestRun | src/ordering_buffer.cpp:94-133 | the messages drained are one for each of expected, expected + 1, ..., as far as the list holds them and the room lasts |
| OrderingFilter.DrainKeepsTheRest | src/ordering_buffer.cpp:110-114 | the drained messages and the ones left are together those of the list |
| OrderingList.MessageList.constructor | include/ordering_buffer.h:30-35 | a well-formed list that holds any given messages in the given order |
| OrderingList.MessageList.Find | src/ordering_buffer.cpp:97-130 | the walk ends at the first message with the number wanted and its predecessor, or at the end |
| OrderingList.MessageList.Unlink | src/ordering_buffer.cpp:110-114 | exactly the node found is unlinked, and the list stays well formed |
| OrderingList.MessageList.SendExpected | src/ordering_buffer.cpp:97-125 | the first message with the expected number is pushed and unlinked exactly if there is one and the output queue has room; otherwise nothing changes |
| OrderingBuffer.OrderingBuffer.DrainList | src/ordering_buffer.cpp:94-123 | from any well-formed list and queue: exactly the longest run that fits is sent and unlinked; the two counters and the expectation move by its length; it terminates |
| OrderingBuffer.OrderingBuffer.TrySendNext | src/ordering_buffer.cpp:81-133 | the same for a key of any well-formed buffer; the list is erased exactly if a send leaves it empty; other keys are untouched; true exactly if something was sent |
| OrderingBuffer.OrderingBuffer.ReleaseRun | src/ordering_buffer.cpp:81-133 | if the list of a key holds just the numbers from the expected one on, in any order, and all fit, one call sends all of them in the order of their numbers and erases the list |
| OrderingBuffer.HoldAndRelease | src/ordering_buffer.cpp:81-133 | such a buffer can be built for any run of messages, and the call then empties it: the results about non-empty lists are not empty |
| OrderingBuffer.OrderingBuffer.AddMessage | src/ordering_buffer.cpp:13-47 | one call on any well-formed buffer: what is pushed, what stays held, the result, both counters and the expectation |
| OrderingBuffer.OrderingBuffer.AddBeforeRun | src/ordering_buffer.cpp:28-35 | the expected message goes out at once and after it, in the order of their numbers, the whole run held behind it |
| OrderingBuffer.OrderingBuffer.AddMessageAfter | src/ordering_buffer.cpp:13-47 | after any history of such calls nothing is held, the sent counter is the number of attempts, and what reaches the queue is the message if it is an attempt and there is room |
| Flushing.SortedByNumber | src/ordering_buffer.cpp:61-64 | the sorted messages are the same messages, in the order of their numbers |
| Flushing.Flush.EachKeyOnce | src/ordering_buffer.cpp:51-71 | a flush offers each key's list exactly once |
| OrderingBuffer.OrderingBuffer.FlushAll | src/ordering_buffer.cpp:49-75 | everything held is offered key by key and sorted; the queue takes the first of it, as far as it has room; all of it is counted as sent and forgotten |
| OrderingBuffer.OrderingBuffer.FlushAllAfter | src/ordering_buffer.cpp:49-75 | after any history of `AddMessage` calls a flush changes nothing |
| QueueVector.QueueVector.constructor | src/main.cpp:70-91 | the loop builds the given number of empty queues, no two sharing anything |
| Retry.TriesAreAttempt | src/stage1_router.cpp:57-66 | trying one push after the other, with a yield after each failure, comes to the closed form: sent at once, or after the first yield in which the consumer takes something, or given up |
| Retry.GivenUpIff | src/stage1_router.cpp:57-72 | a message is given up exactly if the queue is full and the consumer takes nothing during any yield but the one after the last try |
| Retry.PushWithin | src/stage1_router.cpp:57-66 | the retry loop, for any number of tries and anything the consumer takes during the yields |
| Router.Router.Send | src/stage1_router.cpp:53-72 | one message: to the processor, or in stage 2 the strategy, that the configuration's lookup names; sent within 1000 tries and counted as routed, or counted as an error |
| Routing.MessageGoes | src/stage2_router.cpp:53-72 | the same for the specification, with the lookups and the 1000 tries named: an error exactly if the target does not exist, or its queue is full and nothing is taken during the first 999 yields; otherwise it is the last of its target's queue and routed |
| Routing.ForIsByConfig | src/stage2_router.cpp:53 | the messages routed to an output are those for whose type the stage's lookup names it |
| Router.Router.RoutingPass | src/stage1_router.cpp:47-77 | one iteration, whatever is pushed to its inputs before each pop, deals with everything an input holds and is sent before a pop finds nothing, the first input first; the outputs and both counters are those of dealing with that stream message by message |
| Routing.FlattenInOrder | src/stage1_router.cpp:50 | the inputs' streams are dealt with one after the other, the first one first |
| Routing.OutputsKeepOrder | src/stage2_router.cpp:49-77 | whatever is taken meanwhile, an output holds the end of its old contents followed by the messages that got into it, some of those routed to it, in their order |
| Routing.OutputsAreFirstCome | src/stage2_router.cpp:49-77 | if nothing is taken meanwhile, an output gets its own messages in order of arrival, as far as it has room |
| Routing.CountersAreExact | src/stage1_router.cpp:56-72 | the routed counter grows by the number of messages that got into the outputs, over all outputs, and the error counter by the number of all others |
| Processor.Processor.ProcessorPass | src/processor.cpp:52-68 | one iteration, whatever is pushed to its input before each pop, stamps everything it finds until a pop finds nothing and offers it in order, each message within 1000 tries, counting the successful ones |
| Processor.StampAt | src/processor.cpp:75-80 | each message is stamped with the processor and the clock reading taken for it, and not changed otherwise |
| Processor.SentInOrder | src/processor.cpp:57-67 | the output holds the end of its old contents followed by exactly the messages counted, in order |
| Processor.SentWhileStill | src/processor.cpp:57-67 | if nothing is taken meanwhile, what fits is sent, and the rest is gone without being counted |
| Producer.Producer.constructor | src/producer.cpp:51-55 | the interval is 1000000000 divided by the messages per second; the first message is due at the start |
| Producer.Producer.ProducerPass | src/producer.cpp:60-88 | one iteration: before its time nothing happens; otherwise the next message is made, numbered from 1 across types, offered within 100 tries, counted if sent, and the next one is due an interval later |
| PipelineInvariant.StepShape | src/stage1_router.cpp:46-77 | every step of every thread keeps: hands full exactly while sending, retries below the limit, queues within capacity, messages only where their route leads, numbering without gaps |
| PipelineInvariant.ReachableShape | src/main.cpp:70-137 | so in every reachable state |
| PipelineFlow.MoveKeepsJourney | src/stage1_router.cpp:51-66 | a message moving on leaves every key's line-up, from delivery back to the producer, as it was |
| PipelineOrder.StepInOrder | src/stage1_router.cpp:46-77 | every step keeps every key's line-up equal to what was made and not dropped |
| PipelineDelivery.JourneyIsWhatWasMade | src/stage1_router.cpp:46-77 | in every reachable state, for every schedule, configuration and number of threads: delivered messages, queues and hands of a key, lined up, are its producer's messages in order without the dropped ones, and all of them if none was dropped |
| PipelineDelivery.DeliveredInOrder | src/strategy.cpp:53-55 | of each key a strategy has an initial part of what was made and not dropped, strictly ascending; strategies the key is not routed to have none |
| PipelineDelivery.ReorderingWouldDoNothing | src/ordering_buffer.cpp:17-46 | the ordering buffer's filter lets every reachable delivered stream through unchanged |
| PipelineDelivery.DeliveredAsMade | src/processor.cpp:75-80 | a delivered message is the one its producer made under that number, apart from the stamp of the processor its type is routed to, and sits at the strategy its type is routed to |
| PipelineStamps.ProcessedWhenTaken | src/processor.cpp:52-55 | in every run a delivered message was taken, as its producer made it, from the queue of the processor its type is routed to, by a step at which that processor's clock showed its processing time; nothing but those two fields was changed |
| PipelineDelivery.MadeIsAtOnePlace | src/processor.cpp:53-68 | in every reachable state each message made is at exactly one place and position (queues, hands, delivered, bins of each thread), and nothing else is anywhere |
| PipelineDelivery.InFlightBounded | include/lockfree_queue.h:29-33 | at most (P + 2N + S)(size - 1) messages are in queues and one in each thread's hand |
| PipelineDelivery.NoRouteIsARule | src/stage1_router.cpp:53-72 | in every reachable state of a validated configuration, a router has dropped a message for want of a route exactly if the deciding rule for its type names a target out of range, and no message of such a type is past that router |
| PipelineRetries.DroppedAfterLimit | src/stage1_router.cpp:57-69 | in every run a refused push costs the message exactly if it is the 100th in a row of a producer, the 1000th of any other thread |
| PipelineAccounting.StepCounts | src/stage1_router.cpp:59-71 | each counter, plus the increment its thread owes, is the number of messages it stands for, before and after every step |
| PipelineReport.ProducedIsAccountedFor | src/main.cpp:149-153 | at every moment: produced plus owed = delivered + routing errors plus owed + dropped by processors + in queues + in hands |
| PipelineReport.ProcessedIsAccountedFor | src/main.cpp:149-153 | at every moment: processed plus owed = delivered + stage 2 errors plus owed + in queues and hands after the processors |
| PipelineReport.GeneratedIsProducedOrDropped | src/producer.cpp:69-81 | a producer's messages made are those counted or about to be, the one in hand, and those it dropped without counting |
| PipelineReport.FinalFigures | src/main.cpp:133-153 | after the stop sequence: produced = delivered + "Messages Lost" + dropped by processors + left in queues; "Messages Lost" is produced minus delivered exactly if the last two are zero |
| PipelineReport.FinalProcessed | src/main.cpp:149-153 | after the stop sequence "Total Processed" = delivered + errors of the stage 2 router + left in the queues after the processors |
| PipelineReport.PassedAndStranded | src/main.cpp:133-161 | for every validated configuration a run that produces one message, delivers none, leaves it in a queue, and is PASSED |
| PipelineStopOrder.ThreadsAreConfigured | src/main.cpp:70-100 | the threads are the producers, processors and strategies the configuration counts, and the two routers; the configuration is valid exactly if the duration is positive and there is one of each |
| PipelineWitnesses.EveryProducerSends | src/producer.cpp:95-98 | every producer the configuration counts can make a message of each type and get it into its own queue |
| PipelineStopOrder.OneThreadAtEachEnd | src/main.cpp:96-100 | every queue between configured threads has a pushing and a popping thread that run, and no other thread pushes to it or pops it |
| PipelineStopOrder.StoppedAfterUpstream | src/main.cpp:133-137 | in every run a stage is stopped only after every thread upstream of it has exited |
| PipelineStranding.WaitingIsUnseen | include/lockfree_queue.h:42-47 | in every run, with any views: when its consumer is not dealing with it, a queue holds exactly as many messages as were pushed after the tail its consumer saw when it last found the queue empty |
| PipelineStranding.CleanPass | src/stage1_router.cpp:46-77 | a pass of a stage, from its running test back to it, with the thread that feeds an input joined, leaves in that input exactly what was pushed after the tail last seen in the pass; the input is empty, and stays so, if and only if that was the final tail |
| PipelineWitnesses.OneStaleMiss | src/stage1_router.cpp:46-77 | for every validated configuration: a run in which the stage 1 router makes that last pass, sees only its first input late, leaves a message there, and everything is stopped and joined with the message left |
| PipelineStranding.NothingStranded | include/lockfree_queue.h:42-47 | when every thread is stopped and joined, nothing is left in queues, and only the processors' drops are missing from the report, if and only if the last look of every consumer at every input saw the final tail |
| PipelineDrain.StepMeasure | src/stage2_router.cpp:46-77 | every pop, push, refused push, drop, delivery and count leaves strictly less work; the idle steps leave as much |
| PipelineDrain.WorkIsBounded | src/stage2_router.cpp:46-77 | in any run without new messages, the number of such steps is bounded by the work at its start |
| PipelineDrain.MeasureIsLinear | src/stage2_router.cpp:46-77 | the work is linear in the messages under way |
| PipelineDrain.NoWorkIsDrained | src/stage2_router.cpp:46-77 | no work is left exactly if all queues and hands are empty and no count is owed |
| PipelineFairness.FairRunsDrain | src/stage2_router.cpp:46-77 | every fair schedule without new messages and stops, from every reachable state in which no stage is stopped, empties all queues and hands within as many rounds as there is work left; in a round each stage gets as many steps as it has inputs and two more, and each busy producer one, among any steps of others, and no stage finds anything empty for a tail older than the round |
| PipelineFairness.FairRunsExist | src/stage2_router.cpp:46-77 | from each such state there are fair schedules of any number of rounds |
| PipelineFairness.CanDrain | src/stage2_router.cpp:46-77 | from every reachable state in which no stage is stopped, a run can go on, without new messages, until all queues and hands are empty |
| PipelineShutdown.CanStopCleanly | src/main.cpp:133-137 | from every reachable state in which no stage is stopped, the run can go on to an end with every thread joined and nothing left in a queue |
| PipelineNoLoss.NoRefusal | include/lockfree_queue.h:29-33 | while no more messages were made than a queue holds, no push can be refused, however stale the view |
| PipelineNoLoss.SmallRunsLoseNothing | include/lockfree_queue.h:29-33 | a run that makes at most size - 1 messages, of types with routes in range, drops none anywhere |
| PipelineNoLoss.DrainedIsDelivered | src/strategy.cpp:53-55 | without drops and with nothing under way, each strategy has been delivered exactly what was made for it, each key in order |
| PipelineViolations.ViolationsAreBreaksHere | src/strategy.cpp:66-77 | in every reachable state a strategy's violations are the non-consecutive pairs of the streams delivered to it, key by key |
| PipelineViolations.ViolationsAreGaps | src/strategy.cpp:71-76 | in every reachable state they are at most the numbers missing between first and last, key by key |
| PipelineViolations.MissingIsExact | src/strategy.cpp:71-76 | the bound of the row above for one key: how many of the numbers between its first and its last its stream does not have |
| PipelineViolations.ViolationsOfPerfectRun | src/strategy.cpp:64-76 | in any loss-free fully delivered run, all strategies' violations together are the producers' maximal one-type stretches less the types in them, whatever the interleaving |
| PipelineViolations.PerfectRunWithoutViolations | src/strategy.cpp:64-76 | such a run reports no violation exactly if no producer came back to a type after another |
| PipelineWitnesses.ViolationInPerfectRun | src/strategy.cpp:71-76 | for every validated configuration whose routes exist and whose queues hold three messages: a run of three messages, all delivered, that reports one violation |
| PipelineWitnesses.OneMoreIsTooMany | include/lockfree_queue.h:29-33 | the bound of small runs is the best one: with any configuration, some run that makes size messages drops one |
| PipelineWitnesses.NothingLostIff | include/lockfree_queue.h:29-33 | no run of at most n messages drops any exactly if every type has a route in range and a queue holds n messages |
| PipelinePacing.MessagesApart | src/producer.cpp:54-84 | any two messages of one producer, wherever they are, are at least as many intervals of 1000000000 / rate nanoseconds apart in time as their numbers are |
| PipelinePacing.DueExactly | src/producer.cpp:57-88 | a producer at its time test makes a message exactly if its clock shows at least 1000000000 / rate after its last message, and yields exactly if it does not |
| PipelineRings.RingsRefine | include/lockfree_queue.h:27-58 | in every run of the whole system in which each load and store of every queue is a step of its own thread, in any order and with any admissible stale value, the system is in a state that stands for one the pipeline can reach |
| PipelineRings.MoveIsAStep | include/lockfree_queue.h:27-58 | each such step is one step of the pipeline, or goes unnoticed there; a thread amid a call is where it made it, with the same message |
| PipelineRings.RingsDeliverInOrder | src/strategy.cpp:53-55 | so in that system too each strategy is delivered each key in ascending order, only what was made, as it was made apart from the processor's stamp, and only what is routed to it |
| PipelineRealised.StepIsPossible | include/lockfree_queue.h:27-58 | conversely, every step the pipeline can take, the system over its rings can take by loads and stores of that thread, if the thread is not amid another call at that side of the queue and can still have the view |
| PipelineRealised.RingsRealise | include/lockfree_queue.h:27-58 | every run of the pipeline in which views are current is one of the system over its rings |
| PipelineRealised.RingsDeliver | src/stage1_router.cpp:46-77 | of every configured producer and every type with a route, a run of the system over its rings delivers a message to the strategy the type is routed to |

## Left out

- `SystemConfig::load_from_file`: library input and output; the configuration is an arbitrary value. The unused lookup
  `is_ordering_required`, the type distribution and the processing times are left out with it.
- `Monitor` and printing: reporting only; `src/monitor.cpp` refers to declarations that are not part of the repository.
- Threads, `yield`, signals and cache-line alignment: threads are steps in any order, a yield is a step others may use.
- The scheduler: that the schedule is fair, and that a store is seen by the others at some time, is not promised by the
  source. A router may stay with one busy input for ever (`src/stage1_router.cpp:51`), so delivery is not promised
  while producers run.
- Clocks and random types: every reading and every type from 0 to 3 is possible. No clock is assumed to go forward, and
  nothing is said about latency or throughput. Producers measure time from their start.
- The interval between messages is 1000000000 divided by the rate, rounded down, instead of the floating-point quotient;
  a rate of zero or less, for which the source has no defined interval, gives 0.
- Stale views are modelled for the two indices. The load of a slot's ready flag returns its current value, which by
  `SpscMachine.ReadyExactlyWhereOccupied` is up whenever it is read.
- Integer widths: sequence numbers are 64-bit words, and steps or calls that would wrap one around are excluded
  (`src/producer.cpp:69`); counters are unbounded. Producer, processor and strategy counts at or below zero stand for none.
- Queues of the sizes 0 and 1, which cannot hold an element.
- `SpscQueue.LockFreeSpscQueue.Size`: is exact only when no other call overlaps; from a third thread the two loads can
  belong to different states.
- `Router.Router.RoutingPass`: sees the other threads as the producers that push before each of its pops (at an input it
  is not looking at, before its next pop there) and the consumers that take messages during the yields; every other
  interleaving is in `Pipeline`. The same goes for the passes of `Processor.Processor` and `Strategy.Strategy`.
- `Producer.Producer.ProducerPass`: sees the consumer of its queue during the yields only.
- `Retry.PushWithin`: is one method for the retry loops of routers, processors and producers; the counter is incremented
  after it returns, not inside the loop.
- `Flushing.SortedByNumber`: `std::sort` is a stable insertion sort here; the order of equal numbers is not specified by the source.
- `OrderingBuffer.OrderingBuffer.FlushAll`: the order of the keys is arbitrary, as in the source's hash map.
- The time between two statements of `main`, and the destructors, which repeat the stop calls.
- Benchmarks, scripts, containers and the performance figures of the documentation.
