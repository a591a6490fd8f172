# Nightcore: verified call bookkeeping

A Dafny model of the parts of Nightcore that carry a function call from gateway to engine to
worker and back: the tables that say where each call is, the shared-memory ring, the byte
streams between processes, and the payload formats shared by the C++ and Go workers.
`dafny verify dfyconfig.toml` checks everything.

Concurrency is modelled by state machines whose steps are the critical sections of the code
(or, for the lock-free ring, its single atomic loads and stores); the main theorems speak
about every run. Code that works by changing objects is also given as classes with loops,
proved equal to those steps.

| files | what they model |
|---|---|
| `SpscQueue.dfy` | the lock-free ring, step by step, and as an object |
| `Dispatcher.dfy`, `DispatcherInvariants.dfy`, `DispatcherRuns.dfy`, `DispatcherLimits.dfy`, `DispatcherTraces.dfy`, `DispatcherObjects.dfy` | the dispatcher of one function with message pool and tracer |
| `Engine.dfy`, `EngineTraces.dfy` | all dispatchers of an engine, its accounting of external calls, and what it answers and hands on |
| `Gateway.dfy`, `GatewayInvariants.dfy`, `GatewayOrder.dfy`, `GatewayDiscards.dfy`, `GatewayPlacement.dfy`, `GatewayObjects.dfy` | the gateway server: cap, queue, discards, placement, node loads |
| `Framing.dfy`, `AppendableBuffer.dfy`, `GatewayStream.dfy`, `Launcher.dfy` | byte buffers and framed streams under every chunking |
| `Grpc.dfy` | the gRPC Length-Prefixed-Message in DATA frames (section 6.1 of RFC 7540) |
| `BitFields.dfy`, `Bytes.dfy`, `Protocol.dfy`, `MessageLayout.dfy`, `WireFormats.dfy` | call ids, header words, message bytes in C++ and Go |
| `Payload.dfy`, `GoWorker.dfy` | inline, FIFO and shared-memory transport in both languages |
| `FuncConfig.dfy` | loading the function table |
| `RankingBst.dfy` | the order-statistics tree with its pool of recycled subtrees |
| `IoWorker.dfy` | the pick cache and the shutdown protocol of an IO worker |
| `Collections.dfy`, `Circles.dfy` | shared vocabulary |

## Assumptions

- Call ids are fresh while live; the dispatcher ignores the null result of the tracer for a
  duplicate (src/engine/dispatcher.cpp:101). Client ids are never reused
  (src/engine/worker_manager.cpp:129). A worker reports only calls that were sent to it. At the
  gateway a call id is fresh while its call runs or waits and may be used again afterwards (its
  counter has 32 bits); there are fewer than 2^64 admissions, connection ids are never reused,
  and an engine answers a call from the node it was placed on.
- Each locked region is one step; the three sections of a report (count, erase, release) and
  the sections of an external call are separate steps that interleave freely. Atomic accesses
  of the ring interleave sequentially consistently.
- Each dispatcher owns the slice of the tracer that belongs to its function. Function ids are
  below 255 there, because the statistics array has 255 slots (src/engine/tracer.h:97), while
  the configuration loader accepts 255 as well.
- Clocks, moving averages, the concurrency limit computed from them, random node choice and the
  results of system calls are arbitrary inputs. Messages and trace records are numbered objects;
  shared memory and FIFOs are maps from names to bytes; machine words are little-endian.

## What turned out not to hold

- A call discarded by the dispatcher stays in the in-flight counter of its function for good
  (`InflightIsAcceptedMinusReported` gives the exact value, `StepDiscardsIff` says exactly when
  it happens, `LeakingRunLeaks` is a run).
- A worker that disconnects while it runs a call stays in the table of running workers for good
  and takes up a place under the concurrency limit (`DisconnectedRunnersStay`).
- A consumer of the ring can stay asleep with a message waiting (`WakeupCanBeLost` is a run,
  `SleepIsAnsweredIff` says exactly which sleeps are answered).
- With the concurrency limiter on, calls can overtake each other (`DispatcherRuns.StepInOrderIff`
  says exactly when arrival order is kept, `OvertakingRunOvertakes` is a run).
- The gateway can leave calls waiting below its cap, and waiting calls can be stranded until
  another call is answered (`SaturationIff`, `StrandedCallsAreOvertaken`); exactly when starts
  leave arrival order is `GatewayOrder.StepInOrderIff`. A discard of a call
  that was already answered stays in the set and the next call with its id is never finished
  (`StaleDiscardHarmsIff`, `ReuseRunLoses`). A dispatch that finds
  no connection stays in the load counter of its node (`GatewayIsConsistent`).
- Round robin repeats a connection when its 64-bit counter wraps, unless the number of
  connections divides 2^64 (`EveryConnectionOnce`, with an instance in `WrapPicksTwice`).
- After a failed call in FIFO mode the C++ and Go responses to the engine differ in one field
  (`ResponsesAgreeIff`).
- Clearing an empty order-statistics tree makes its pool unusable (`RankingBST.Clear`).

## Model

| member | source | states |
|---|---|---|
| SpscQueue.StepRefinesFifo | src/ipc/spsc_queue-inl.h:60-124 | Every atomic load or store of either side is invisible to an abstract queue, or appends the pushed message (tail store), or removes and delivers the front (head store); the ring invariant is kept |
| SpscQueue.RunKeepsInv | src/ipc/spsc_queue-inl.h:60-124 | The ring invariant survives every interleaving of producer and consumer steps with stale local registers |
| SpscQueue.EveryInterleavingIsFifo | src/ipc/spsc_queue-inl.h:52-124 | For every interleaving from a fresh region: the popped values are a prefix of the pushed ones and at most queue_size-1 are in flight |
| SpscQueue.PushFailsIffFull | src/ipc/spsc_queue-inl.h:60-87 | In every reachable state a Push gives up if and only if the ring holds queue_size-1 messages when it loads the head |
| SpscQueue.PopFailsIffEmpty | src/ipc/spsc_queue-inl.h:96-117 | In every reachable state a Pop gives up if and only if the ring is empty when it loads the tail |
| SpscQueue.CellsAreRaceFree | src/ipc/spsc_queue-inl.h:78-113 | The plain cell store of the producer and the plain cell load of the consumer never meet on one cell |
| SpscQueue.SleepNeverChangesData | src/ipc/spsc_queue-inl.h:60-124 | Every run has a counterpart without any sleeping that pushes, pops, accepts and refuses exactly the same: the bit in the head index is invisible to the data |
| SpscQueue.WakesExactlyFreshSleeps | src/ipc/spsc_queue-inl.h:67-77 | The wake function is called exactly once per head load that finds the consumer asleep right after a load that found it awake (or first of all), never otherwise |
| SpscQueue.SleepIsAnsweredIff | src/ipc/spsc_queue-inl.h:67-77 | Over every continuation in which the consumer sleeps on, the wake function is called if and only if some Push loads the head during the sleep and the flag of the producer was clear when it began |
| SpscQueue.WakeupCanBeLost | src/ipc/spsc_queue-inl.h:67-77 | A concrete run that leaves the consumer asleep with a message waiting: "every sleep is woken" is false |
| SpscQueue.PushAlone | src/ipc/spsc_queue-inl.h:60-87 | An uninterrupted Push is its steps in a row: it appends, or refuses exactly when the ring is full, and this is the whole new state |
| SpscQueue.PopAlone | src/ipc/spsc_queue-inl.h:96-117 | An uninterrupted Pop is its steps in a row: it removes the front, or refuses exactly when the ring is empty, and this is the whole new state |
| SpscQueue.Ring.constructor | src/ipc/spsc_queue-inl.h:52-57 | A fresh region is the initial state, whatever its cells hold |
| SpscQueue.Ring.LoadHead | src/ipc/spsc_queue-inl.h:67-77 | The head load clears the sleep bit from the local copy and updates the wake-up bookkeeping |
| SpscQueue.Ring.Push | src/ipc/spsc_queue-inl.h:60-87 | The method on shared words and an array equals the step model; it succeeds exactly when fewer than queue_size-1 messages are held and then appends its message |
| SpscQueue.Ring.Pop | src/ipc/spsc_queue-inl.h:96-117 | The method equals the step model; it returns the oldest message, or nothing exactly when there is none |
| SpscQueue.Ring.ConsumerEnterSleep | src/ipc/spsc_queue-inl.h:120-124 | Sets the sleep bit and nothing else |
| DispatcherInvariants.PoolGetOk | src/utils/object_pool.h:26-36 | A message taken from the pool and overwritten is a new outstanding object; no pending message changes |
| DispatcherInvariants.PoolReturnOk | src/utils/object_pool.h:38-40 | A returned message is free once and was outstanding before |
| DispatcherInvariants.DispatchOk | src/engine/dispatcher.cpp:208-218 | Sending a call to a worker held in hand keeps every coupling between workers, assignments, wire, tracer, pool and ledger |
| DispatcherInvariants.DiscardOk | src/engine/dispatcher.cpp:199-203 | Discarding a late call keeps all couplings; the call moves to the discarded ones |
| DispatcherInvariants.PickIdleOk | src/engine/dispatcher.cpp:226-232 | The scan of the idle vector returns a connected worker that runs nothing, and only stale entries disappear on the way |
| DispatcherInvariants.DispatchPendingOk | src/engine/dispatcher.cpp:176-206 | The loop over the pending queue keeps the invariant and tells whether the worker was employed |
| DispatcherInvariants.OnConnectedOk | src/engine/dispatcher.cpp:59-77 | Connecting a worker keeps the invariant |
| DispatcherInvariants.OnDisconnectedOk | src/engine/dispatcher.cpp:79-85 | Disconnecting keeps the invariant although stale entries stay behind in the other tables |
| DispatcherInvariants.OnNewCallOk | src/engine/dispatcher.cpp:87-114 | Accepting a call keeps the invariant, whether it is sent or queued |
| DispatcherInvariants.OnReportOk | src/engine/dispatcher.cpp:116-124 | First section of a report: the tracer counts it |
| DispatcherInvariants.OnReportEraseOk | src/engine/dispatcher.cpp:125-125 | Second section: the tracer forgets the call |
| DispatcherInvariants.OnReportFinishOk | src/engine/dispatcher.cpp:126-139 | Third, locked section: the worker is released and employed again if it is still connected |
| DispatcherInvariants.ReleaseCommutes | src/engine/dispatcher.cpp:130-137 | Erasing the finished assignment after employing the worker (as the code does) or before gives the same state |
| DispatcherInvariants.InflightPositive | src/engine/tracer.cpp:184-188 | While a worker holds a call the counter is positive, so decrementing does not clamp |
| DispatcherRuns.StepKeepsInv | src/engine/dispatcher.cpp:59-235 | Every critical section, including the three sections of a report, keeps the whole invariant |
| DispatcherRuns.RunKeepsInv | src/engine/dispatcher.cpp:59-235 | The invariant holds after every feasible run |
| DispatcherRuns.WorkersAreExclusive | src/engine/dispatcher.cpp:59-174 | After every run: no worker was ever sent a call while holding one; assignments and running workers agree both ways; a connected worker is running, or in the idle list exactly once, never both |
| DispatcherRuns.SendsAlternateWithReports | src/engine/dispatcher.cpp:208-218 | Between two calls sent to one worker lies its report of the first |
| DispatcherRuns.CallsArePartitioned | src/engine/dispatcher.cpp:87-163 | Every accepted call is in exactly one of pending, assigned, finished, discarded; the tracer table is pending plus assigned minus calls past the erasing section |
| DispatcherRuns.InflightIsAcceptedMinusReported | src/engine/tracer.cpp:95-188 | The counter is accepted minus reported and never negative; it equals the live unreported calls if and only if nothing was discarded (see DispatcherLimits for exactly when that is) |
| DispatcherRuns.ClampNeverFires | src/engine/tracer.cpp:184-188 | Every reported call is in the tracer table and its report decrements the counter by exactly one |
| DispatcherRuns.PooledMessagesAreThePending | src/engine/dispatcher.cpp:92-112 | Outstanding pool messages are exactly those of the pending queue, all distinct objects with unchanged contents; dispatch k delivered the message built for that arrival |
| DispatcherRuns.NewCallPlacement | src/engine/dispatcher.cpp:103-112 | Where a new call goes: to an idle worker, or to the end of the queue |
| DispatcherRuns.NewCallOrderly | src/engine/dispatcher.cpp:220-235 | A new call keeps calls waiting only while the idle list is empty if and only if the limiter lets it through or the list is empty already |
| DispatcherRuns.NewCallInOrderIff | src/engine/dispatcher.cpp:220-235 | A new call keeps arrival order if and only if nobody waits, the limiter refuses it, or no connected worker is idle |
| DispatcherRuns.StepInOrderIff | src/engine/dispatcher.cpp:59-235 | Every step keeps arrival order, except exactly a new call that is sent at once although others wait |
| DispatcherRuns.DispatchFollowsArrival | src/engine/dispatcher.cpp:87-114 | With the limiter disabled and no maxWorkers: calls wait only when no connected worker is idle, and over any run the dispatches followed by the waiting calls are all arrivals in order with exactly the discarded ones missing |
| DispatcherRuns.RefusedCallIsOvertaken | src/engine/dispatcher.cpp:220-235 | Whenever the limiter refuses a call while a worker is idle, the next call it lets through overtakes it |
| DispatcherLimits.OvertakingRunOvertakes | src/engine/dispatcher.cpp:220-235 | A concrete run from the start in which the second arrival is sent while the first waits beside an idle worker |
| DispatcherLimits.StepDiscardsIff | src/engine/dispatcher.cpp:176-206 | A step discards calls if and only if its worker looks for a pending call and the front one is a call of a worker, the flag is not zero, and it waited longer than the flag times the average |
| DispatcherLimits.NoLimitNoLeak | src/engine/dispatcher.cpp:194-203 | With the delay test switched off in every policy nothing is ever discarded and the counter counts the live unreported calls |
| DispatcherLimits.LeakingRunLeaks | src/engine/dispatcher.cpp:199-203 | For any two calls, the second from a worker: a run after which nothing is pending, running or reported and the in-flight counter still says one |
| DispatcherRuns.LimitIsClamped | src/engine/dispatcher.cpp:258-276 | With the limiter on, the limit is within the configured bounds and no number within them is nearer to the estimate; without an estimate it is the upper bound; with the limiter off it is the upper bound |
| DispatcherTraces.WorkersAreTheConnected | src/engine/dispatcher.cpp:59-85 | After every run, exactly the workers that connected and did not disconnect later, read off the events, are in the table |
| DispatcherTraces.NothingIsSentAfterDisconnect | src/engine/dispatcher.cpp:79-85 | In every run, no message is put on the wire of a worker after it disconnected |
| DispatcherTraces.DisconnectedRunnersStay | src/engine/dispatcher.cpp:79-139 | A worker that disconnects while running stays in the running table with the same call for good, whatever happens later; one that disconnects while idle never enters it again |
| DispatcherTraces.ReportMarksRecord | src/engine/tracer.cpp:139-246 | A report marks exactly the record of the call its worker holds, as completed or failed by its verdict, and takes one off the counter |
| DispatcherTraces.ArrivalsAreRecorded | src/engine/dispatcher.cpp:87-103 | After every run, message and trace record number i are those of the i-th new call of the event list: its call, its input, its arrival time |
| DispatcherTraces.SearchFollowsRule | src/engine/dispatcher.cpp:176-206 | A search discards exactly the longest front of the queue whose calls are too late by their arrival times, sends the next one, and keeps the rest in order |
| DispatcherTraces.SearchesFollowTheRule | src/engine/dispatcher.cpp:176-206 | The same for every search of every run, with arrival times read off the events: the whole list of discards, the message sent and its receiver, and who still waits |
| DispatcherTraces.PickIdleTakesLast | src/engine/dispatcher.cpp:226-232 | The scan takes the last connected idle worker of the list, keeps everything before it and drops only stale entries behind it |
| DispatcherTraces.IdleListGrowsAtTheEnd | src/engine/dispatcher.cpp:170-172 | Apart from new calls, the idle list changes only by a searching worker joining at its end |
| DispatcherObjects.MessagePool.Get | src/utils/object_pool.h:26-36 | The method equals the pool function: last freed object, or a new one |
| DispatcherObjects.MessagePool.Return | src/utils/object_pool.h:38-40 | The next Get hands out this object again and leaves the pool as it was: taking undoes returning |
| DispatcherObjects.Tracer.OnNewFuncCall | src/engine/tracer.cpp:48-103 | Table, record and counter after a new call; nothing for a call already in the table |
| DispatcherObjects.Tracer.OnFuncCallDispatched | src/engine/tracer.cpp:105-137 | State and worker of the record |
| DispatcherObjects.Tracer.OnFuncCallFinished | src/engine/tracer.cpp:139-246 | Completed and failed reports: record state, decrement with clamp, and whether the call was known |
| DispatcherObjects.Tracer.DiscardFuncCallInfo | src/engine/tracer.cpp:248-255 | Later reports of the call find nothing, every other call keeps its record, and the id can be traced anew |
| DispatcherObjects.Dispatcher.constructor | src/engine/dispatcher.cpp:29-55 | The initial state, with a tracer and a pool of its own |
| DispatcherObjects.Dispatcher.OnFuncWorkerConnected | src/engine/dispatcher.cpp:59-77 | Equals the connect step and keeps the invariant |
| DispatcherObjects.Dispatcher.OnFuncWorkerDisconnected | src/engine/dispatcher.cpp:79-85 | The worker is no longer connected, every other worker stays what it was, and the invariant holds (over whole runs: DispatcherTraces.WorkersAreTheConnected) |
| DispatcherObjects.Dispatcher.OnNewFuncCall | src/engine/dispatcher.cpp:87-114 | Equals the new-call step and keeps the invariant |
| DispatcherObjects.Dispatcher.DispatchPendingFuncCall | src/engine/dispatcher.cpp:176-206 | The while loop equals the recursive step |
| DispatcherObjects.Dispatcher.DispatchFuncCall | src/engine/dispatcher.cpp:208-218 | Equals the dispatch step |
| DispatcherObjects.Dispatcher.PickIdleWorker | src/engine/dispatcher.cpp:220-235 | The while loop over the idle vector equals the recursive scan behind the limiter |
| DispatcherObjects.Dispatcher.FuncWorkerFinished | src/engine/dispatcher.cpp:165-174 | Equals releasing and re-employing the worker |
| DispatcherObjects.Dispatcher.CountReport | src/engine/dispatcher.cpp:116-124 | First section of a report; a report from a worker that holds the call always finds it |
| DispatcherObjects.Dispatcher.EraseReport | src/engine/dispatcher.cpp:125-125 | Second section |
| DispatcherObjects.Dispatcher.FinishReport | src/engine/dispatcher.cpp:126-139 | Third section |
| DispatcherReplay.Replay | src/engine/dispatcher.cpp:59-235 | A new dispatcher object driven through any feasible run ends in the state of that run |
| Engine.StepKeepsInv | src/engine/engine.cpp:223-478 | Every critical section of the engine, over all its dispatchers and including the event that creates one, keeps the engine invariant |
| Engine.RunKeepsInv | src/engine/engine.cpp:223-478 | The engine invariant holds after every feasible run |
| Engine.ExternalCallsAreAccounted | src/engine/engine.cpp:259-464 | Over any run: each receipt of an external call is answered at most once and at most one is open; the counter is received minus answered; stored shm inputs are exactly those of open calls above the inline size whose input is stored and that nobody reported yet; no external call is ever on the discard list |
| Engine.WorkerMayConnectFirst | src/engine/worker_manager.cpp:72-73 | The runs include those where workers connect before the first call of their function, which creates its dispatcher |
| Engine.InnerEffect | src/engine/dispatcher.cpp:194-203 | No dispatcher step drops an external call except by finishing its report |
| Engine.ProcessOk | src/engine/engine.cpp:443-464 | Processing discards never touches an external call |
| Engine.SplitIsExact | src/engine/engine.cpp:449-459 | The loop splits the discards: each call goes to exactly one of the two lists, external calls to one and calls of workers to the other |
| Engine.ExternalCalls.ExternalFuncCallFinished | src/engine/engine.cpp:380-408 | The answer with its verdict is the last one given; answering an open call settles it: received stays answered plus open (which verdict is given over whole runs: EngineTraces.EveryAnswerIsExpected) |
| Engine.ExternalCalls.GrabExternalFuncCallShmInput | src/engine/engine.cpp:428-435 | Removes and returns the stored input, if any |
| Engine.ExternalCalls.DiscardFuncCall | src/engine/engine.cpp:437-441 | The call will be failed towards the gateway exactly if it is external; books without external discards stay so |
| Engine.ExternalCalls.ProcessDiscardedFuncCallIfNecessary | src/engine/engine.cpp:443-464 | The two loops equal the specification: internals and externals together are the discards, externals are failed towards the gateway, the list is empty |
| Engine.ExternalCalls.CountExternalFuncCall | src/engine/engine.cpp:319-320 | One more external call is open, and the books stay balanced |
| Engine.Replay | src/engine/engine.cpp:223-478 | A new object driven through any feasible engine run ends with the books of that run, balanced and without external discards |
| EngineTraces.AnswersFollowReports | src/engine/engine.cpp:282-305 | Over any run the answers grow by exactly the demanded sequence: each reported external call with the verdict of its report, as failed when the output is missing; each call of an unknown function and each one without an input region as failed; nothing else |
| EngineTraces.EveryAnswerIsExpected | src/engine/engine.cpp:282-408 | The same from the initial state: the list of answers, verdicts and order included, is read off the events |
| EngineTraces.ExternalInputArrives | src/engine/engine.cpp:362-370 | The dispatch message of an external call gives its worker exactly the bytes of the gateway, inline up to 960 bytes and from shared memory above |
| EngineTraces.RunCarries | src/engine/engine.cpp:342-370 | After every run, the message kept for each live external call is the one made from the input the gateway sent |
| EngineTraces.WorkersSeeExternalInputs | src/engine/engine.cpp:342-370 | Over any run, whatever was sent for an open external call is a message from which its worker reads exactly the input of that call |
| EngineTraces.RunStaysConfigured | src/engine/engine.cpp:410-426 | After every run only configured functions have dispatchers, and calls are on the way to rejection exactly for functions that are not configured |
| EngineTraces.EveryDispatcherRunsItsShare | src/engine/engine.cpp:223-378 | Each dispatcher of an engine goes through a feasible dispatcher run: its share of the engine events, new calls with the inputs, times and limits they came with, so every theorem about dispatcher runs holds for it |
| EngineTraces.RunShares | src/engine/engine.cpp:223-378 | The same from every reachable state on |
| EngineTraces.HandedOverAreDiscarded | src/engine/dispatcher.cpp:199-203 | A search hands to the engine exactly the calls it discards, in queue order |
| EngineTraces.DiscardListFollowsSearches | src/engine/engine.cpp:437-464 | The discard list of the engine is emptied by processing and grows only by the calls a search discards |
| GatewayInvariants.StepKeepsInv | src/gateway/server.cpp:119-412 | Every critical section keeps the partition, the load equation and the cap, with call ids that may be used again once their call left the tables |
| GatewayInvariants.RunKeepsInv | src/gateway/server.cpp:119-412 | The invariant holds after every feasible run |
| GatewayInvariants.GatewayIsConsistent | src/gateway/server.cpp:201-228 | After every run: each admission is in exactly one of running, pending, done; running never exceeds flag times nodes; each node counter is its running calls plus the dispatches to it that found no connection |
| GatewayInvariants.CounterNeverWraps | src/gateway/server.cpp:218-218 | A reply from the node its call was placed on finds a positive counter, and placing a call on any node stays below 2^64 |
| GatewayInvariants.NextPendingSearches | src/gateway/server.cpp:203-217 | The search for a successor removes exactly abandoned calls in front of the first wanted one, and erases exactly their discards |
| GatewayOrder.DiscardDooms | src/gateway/server.cpp:170-173 | Discarding a call or closing its connection puts it beyond finishing |
| GatewayOrder.DoomedIsNeverFinished | src/gateway/server.cpp:191-201 | No later step of any run finishes the context of a discarded or disconnected admission from an engine reply, even when its call id is used again |
| GatewayOrder.FinishedAtMostOnce | src/gateway/server.cpp:188-241 | Over any run replies finish the context of every admission at most once |
| GatewayOrder.DuplicateRepliesChangeNothing | src/gateway/server.cpp:188-201 | Once a call left the tables, replies to it change nothing after any further run that does not admit its id again |
| GatewayOrder.ReplyChangesNothingIff | src/gateway/server.cpp:188-201 | A reply changes nothing if and only if its call id is not running |
| GatewayOrder.SaturationIff | src/gateway/server.cpp:201-228 | Calls wait only at the cap after every step except exactly a missed node or a joining node while calls wait |
| GatewayOrder.StepInOrderIff | src/gateway/server.cpp:295-335 | Every step keeps arrival order of the starts, except exactly a new call below the cap while others wait |
| GatewayOrder.StartsFollowArrival | src/gateway/server.cpp:295-335 | While no such step happens, calls wait only at the cap and start in arrival order |
| GatewayOrder.EveryRunStartsInOrder | src/gateway/server.cpp:295-335 | The same over whole runs from the start |
| GatewayOrder.NobodyIsForgotten | src/gateway/server.cpp:204-217 | After every run each admission was started, waits, or was dropped |
| GatewayOrder.OnlyAbandonedAreDropped | src/gateway/server.cpp:207-216 | Over any run an admission is dropped only at a moment when its call is discarded or its connection gone |
| GatewayOrder.StrandedCallsAreOvertaken | src/gateway/server.cpp:364-373 | After a concrete run one call waits with nothing running; no list of replies whatever starts it, and the next call overtakes it |
| GatewayOrder.RepliesStartNothing | src/gateway/server.cpp:188-201 | With nothing running no list of replies changes anything |
| GatewayDiscards.BecomesStaleIff | src/gateway/server.cpp:170-173 | A step leaves a discard behind if and only if a client discards a call that is in no table, or a discarded running call misses its node |
| GatewayDiscards.StaleEndsIff | src/gateway/server.cpp:196-208 | A discard left behind goes away only when its call id is admitted again |
| GatewayDiscards.DoomedFromStartIff | src/gateway/server.cpp:316-335 | A new admission is doomed from the start if and only if a discard of its id was left behind |
| GatewayDiscards.WantedIsFinished | src/gateway/server.cpp:188-241 | An admission that nobody discards, disconnects or fails to send stays in the tables or is finished by the reply to it |
| GatewayDiscards.StaleDiscardHarmsIff | src/gateway/server.cpp:170-208 | An undisturbed admission that left the tables was finished if and only if no discard of its id was in the set when it arrived |
| GatewayDiscards.ReuseRunLoses | src/gateway/server.cpp:170-208 | A concrete run: a call is answered and then discarded, and the next call with its id is answered but never finished |
| GatewayObjects.LeastIsMinimum | src/gateway/server.cpp:278-285 | The least-load scan picks a true minimum, and the first one |
| GatewayObjects.Server.LeastLoadedIndex | src/gateway/server.cpp:278-285 | The loop finds that minimum |
| GatewayObjects.Server.PickNextNode | src/gateway/server.cpp:273-293 | Round robin takes the node whose turn it is and moves the turn of that function, and no other, one place round the circle; least load takes a node with the smallest counter; a random choice takes the drawn node; the counter of the node goes up by one |
| GatewayPlacement.MembersAreRecorded | src/gateway/server.cpp:404-412 | After every run, read off the events: the nodes are those that joined, each once, in the order they first did, and the connections are those opened and not closed since |
| GatewayPlacement.StepObeys | src/gateway/server.cpp:273-293 | In every step, the node of a started call obeys the policy, with the load counters as they are after the answered call left; only a round-robin start moves a turn, that of its function, by one place |
| GatewayPlacement.RoundRobinGoesRound | src/gateway/server.cpp:275-277 | Over any stretch of a run without a new node, the k-th round-robin call of a function goes to node (turn + k) modulo the number of nodes, whatever other functions and policies do in between |
| GatewayPlacement.EveryNodeOnce | src/gateway/server.cpp:275-277 | As many places as there are nodes hold each node exactly once |
| GatewayPlacement.OneRoundUsesEveryNode | src/gateway/server.cpp:275-277 | After any run, as many round-robin calls of a function as there are nodes use each node that joined exactly once |
| GatewayPlacement.StampIsLeast | src/gateway/server.cpp:302-312 | The receive stamp of a call is the least time later than every earlier stamp and not before the clock |
| GatewayObjects.Server.OnNewFuncCall | src/gateway/server.cpp:295-350 | Equals the admission step: no node, queued, or started on a node |
| GatewayObjects.Server.PopPending | src/gateway/server.cpp:204-217 | The loop equals the recursive search for a successor |
| GatewayObjects.Server.OnRecvEngineMessage | src/gateway/server.cpp:186-230 | Equals the locked part of a reply: whether it finishes a context and what it starts |
| GatewayObjects.Server.DiscardFuncCall | src/gateway/server.cpp:170-173 | The next reply to the call does not finish its context (over whole runs: GatewayOrder.DoomedIsNeverFinished) |
| GatewayObjects.Server.DispatchFailed | src/gateway/server.cpp:364-373 | The call is forgotten: the next reply to it changes nothing, while every node counter keeps its value |
| GatewayObjects.Server.OnEngineHandshake | src/gateway/server.cpp:404-412 | The node can be picked; the cap stays flag times nodes and never shrinks |
| GatewayObjects.Server.OnConnectionClose | src/gateway/server.cpp:119-125 | The next reply to any running call of the connection finishes nothing (over whole runs: GatewayOrder.DoomedIsNeverFinished) |
| GatewayReplay.Replay | src/gateway/server.cpp:119-412 | A new server object driven through any feasible run ends with the tables of that run and finishes exactly what the run finishes |
| Framing.FramesAppend | src/utils/appendable_buffer.h:117-135 | Reading a prefix and then the rest with more data is reading it all at once, for every frame format whose complete frames stay complete |
| Framing.ChunkingDoesNotMatter | src/utils/appendable_buffer.h:117-135 | Delivered frames and held bytes depend only on the concatenated stream, not on its chunks |
| Framing.FramesOfFrames | src/engine/gateway_connection.cpp:98-114 | A stream of whole frames is cut back into exactly those frames |
| Framing.BlocksAreTheStream | src/utils/appendable_buffer.h:117-135 | Blocks all have the message size, the tail is shorter, and together they are the stream |
| Buffers.AppendableBuffer.constructor | src/utils/appendable_buffer.h:14-22 | An empty buffer, inline up to 48 bytes |
| Buffers.AppendableBuffer.GrownSize | src/utils/appendable_buffer.h:34-37 | The doubling loop ends at the doubled size without 32-bit overflow, for every length for which that size is an int |
| Buffers.DoubledBelow | src/utils/appendable_buffer.h:34-37 | The doubled size is below twice the length, so every length up to 2^30 is held |
| Buffers.AppendableBuffer.AppendData | src/utils/appendable_buffer.h:30-49 | The contents are the old contents followed by the data, across reallocation, for every length that does not overflow an int |
| Buffers.AppendableBuffer.Reset | src/utils/appendable_buffer.h:55-55 | The contents are empty |
| Buffers.AppendableBuffer.ConsumeFront | src/utils/appendable_buffer.h:56-62 | The contents lose exactly their first bytes |
| Buffers.AppendableBuffer.Swap | src/utils/appendable_buffer.h:73-106 | The two contents are exchanged in all four inline/heap cases, also with itself, and no storage is shared afterwards |
| Buffers.ReadMessages | src/utils/appendable_buffer.h:117-135 | The loop delivers exactly the whole blocks of held bytes plus new data and keeps the short tail |
| Buffers.MessagesForEveryChunking | src/utils/appendable_buffer.h:117-135 | Over any chunking the delivered messages and the tail put together are the stream |
| GatewayStream.DecodeEncode | src/common/protocol.h:109-127 | The 16 bytes of a gateway message read back as the message, whatever follows |
| GatewayStream.FrameRoundTrip | src/engine/gateway_connection.cpp:98-114 | A printed frame is complete and reads back as message and payload |
| GatewayStream.ParsePrinted | src/engine/gateway_connection.cpp:98-114 | The parser returns exactly the printed list, for every list |
| GatewayStream.HandshakeChunkingDoesNotMatter | src/gateway/server.cpp:541-561 | On every byte stream, however cut, the handshake reader and the connection it becomes give the outcome of the whole stream |
| GatewayStream.EngineStreamIsDelivered | src/gateway/engine_connection.cpp:20-26 | For every message list and chunking the gateway learns node and connection id and receives exactly that list, including bytes that came with the handshake |
| GatewayStream.GatewayStreamIsDelivered | src/engine/gateway_connection.cpp:98-114 | The same without handshake for the direction from gateway to engine |
| GatewayStream.DeliveredIsPrefix | src/gateway/engine_connection.cpp:98-113 | While bytes are still missing, what was delivered is a prefix of what was sent |
| GatewayConnections.Connection.constructor | src/gateway/engine_connection.cpp:20-26 | The read buffer starts with the bytes left over from the handshake |
| GatewayConnections.Connection.SendMessage | src/engine/gateway_connection.cpp:67-96 | The writes put together are the message bytes and the payload, none empty, none longer than its buffer; nothing is written unless running |
| GatewayConnections.Connection.ProcessGatewayMessages | src/engine/gateway_connection.cpp:98-114 | The loop delivers exactly the complete frames and keeps the rest |
| GatewayConnections.Connection.Start | src/gateway/engine_connection.cpp:37-52 | Frames that arrived with the handshake are delivered at once |
| GatewayConnections.Connection.RecvData | src/gateway/engine_connection.cpp:119-137 | One read callback equals the abstract reader |
| GatewayConnections.OngoingEngineHandshake.ReadMessage | src/gateway/server.cpp:541-561 | The handshake callback equals the abstract reader: waits, refuses, or becomes a running connection with the left-over bytes |
| GatewayConnections.FeedConnection | src/engine/gateway_connection.cpp:116-137 | A connection object fed with any list of chunks delivers what the abstract reader delivers |
| GatewayConnections.FeedHandshake | src/gateway/server.cpp:541-561 | The handshake object and the connection it becomes, fed with any list of chunks, deliver what the abstract reader delivers |
| GatewayConnections.ReceiveEngineStream | src/gateway/server.cpp:390-403 | New objects fed with the stream of an engine, cut in any way, end running with an empty buffer and deliver exactly the messages sent |
| GatewayConnections.SendAll | src/engine/gateway_connection.cpp:67-96 | Any list of messages sent through write buffers of any sizes puts exactly their bytes on the stream |
| GatewayConnections.Transfer | src/engine/gateway_connection.cpp:67-114 | End to end: what one connection object sends, cut anywhere, the objects of the other side deliver exactly |
| Launcher.HandOverIsSeamless | src/launcher/engine_connection.cpp:106-136 | For every byte stream with an acceptable response and every chunking the two readers together deliver what the stream holds: nothing lost or repeated at the hand-over |
| Launcher.StoppedStays | src/launcher/engine_connection.cpp:60-71 | After a refused response no further callback delivers anything |
| Launcher.EngineStreamIsDelivered | src/launcher/engine_connection.cpp:106-136 | A response and its messages, cut in any way, are delivered exactly |
| Launcher.EngineConnection.constructor | src/launcher/engine_connection.cpp:16-17 | A connection that awaits the response |
| Launcher.EngineConnection.OnReadHandshakeResponse | src/launcher/engine_connection.cpp:106-136 | Equals the first reader for accepted and refused responses; it hands over with less than one message buffered |
| Launcher.EngineConnection.DrainMessages | src/launcher/engine_connection.cpp:129-133 | The loop delivers the whole blocks behind the response |
| Launcher.EngineConnection.OnReadMessage | src/launcher/engine_connection.cpp:153-174 | Equals the second reader |
| Launcher.EngineConnection.FeedChunks | src/launcher/engine_connection.cpp:106-174 | Any list of chunks, each given to the callback registered when it arrives, equals the abstract reader |
| Launcher.ReceiveEngineStream | src/launcher/engine_connection.cpp:106-174 | A new connection fed with the stream of the engine, cut in any way, delivers its response and exactly its messages |
| BitFields.UnpackPack | src/common/protocol.h:17-27 | Packed bit-fields that fit their widths read back unchanged |
| Protocol.GoMatchesCpp | worker/golang/protocol/protocol.go:20-25 | The Go shifts and sums equal the C++ bit-field layouts of call id and header word, without overflow |
| Protocol.CallIdRoundTrip | worker/golang/protocol/protocol.go:27-34 | Unpacking a packed call id gives the call back |
| Protocol.CallIdInjective | worker/golang/protocol/protocol.go:20-34 | Call ids are equal if and only if the calls are |
| Protocol.HeaderRoundTrip | src/common/protocol.h:82-89 | The C++ header struct reads back its type and call |
| MessageLayout.GoReadsCpp | worker/golang/protocol/protocol.go:62-74 | The Go getters read from the bytes of a C++ message its type, call, payload size and inline data |
| WireFormats.MessageFields | src/common/protocol.h:82-107 | The 1024 bytes of a message, field by field at fixed offsets, and the bits of its header word |
| WireFormats.GatewayMessageBytes | src/common/protocol.h:109-129 | The 16 bytes of a gateway message, field by field, and the bits of its header word |
| WireFormats.HandshakeBytes | src/common/protocol.h:117-122 | A handshake has type 1, no call and no payload, the node in bytes 8 and 9 and the connection in bytes 10 and 11 |
| WireFormats.RefusedIff | src/gateway/server.cpp:391-403 | Whatever the chunking, a connection is refused exactly if its first 16 bytes are not of type 1, and runs exactly if they are |
| WireFormats.ResponseIsComplete | src/launcher/engine_connection.cpp:122-126 | A handshake response is complete exactly when as many bytes follow its 1024 as its own size field says |
| WireFormats.GrpcPrefixBytes | src/gateway/grpc_connection.cpp:613-617 | A response starts with a zero byte and the length of the body, most significant byte first |
| MessageLayout.NewGoMessage | worker/golang/protocol/protocol.go:125-130 | The bytes written by the Go builder are those of the C++ message with that type and call |
| MessageLayout.NewInvokeFuncCallMessage | worker/golang/protocol/protocol.go:109-115 | The same for a request with its parent call |
| MessageLayout.NewFuncCallCompleteMessage | worker/golang/protocol/protocol.go:117-123 | The same for a completion with its processing time |
| MessageLayout.SetPayloadSizeInMessage | worker/golang/protocol/protocol.go:148-150 | Writing the size field changes that field of the message only |
| MessageLayout.FillInlineDataInMessage | worker/golang/protocol/protocol.go:152-155 | Gives the bytes of the C++ message with that inline data and size |
| FuncConfigs.ValidateFuncName | src/common/func_config.cpp:29-52 | The two loops decide exactly the allowed names |
| FuncConfigs.NumberMethods | src/common/func_config.cpp:115-133 | Fails exactly on a 65th method or a repeated name; otherwise ids number the methods and invert |
| FuncConfigs.MakeEntry | src/common/func_config.cpp:90-145 | Succeeds exactly for valid items, and the entry says what the item says |
| FuncConfigs.FuncConfig.LoadItem | src/common/func_config.cpp:71-148 | Takes an item if and only if the list extended by it is loadable; keeps both tables exact |
| FuncConfigs.FuncConfig.Load | src/common/func_config.cpp:54-157 | Succeeds if and only if every item is valid and no name or id repeats; then exactly these items are loaded |
| FuncConfigs.FuncConfig.FindByFuncName | src/common/func_config.h:31-37 | The entry of that name, or nothing exactly when there is none |
| FuncConfigs.FuncConfig.FindByFuncId | src/common/func_config.h:39-45 | The entry of that id, or nothing exactly when there is none |
| FuncConfigs.FuncConfig.LookupsAgree | src/common/func_config.cpp:146-148 | Looking up by name and then by id, or the other way round, gives the same entry |
| FuncConfigs.FuncConfig.IdsFit | src/common/func_config.cpp:25-27 | Every function and method id fits its bits in a call id, and method ids invert to names |
| Payload.InlineRoundTrip | src/common/protocol.h:220-239 | Inline data set in a message is read back |
| Payload.InputArrives | src/worker/worker_lib.cpp:76-98 | Through request, the engine re-encoding and the dispatch message the callee sees exactly the input of the caller, for every length below 2^31 |
| Payload.OutputArrives | src/worker/worker_lib.cpp:131-148 | In message mode the caller gets exactly the output, or learns of the failure, and which of the two is decided by the callee and the shm result |
| Payload.FifoOutputArrives | src/worker/worker_lib.cpp:33-72 | In FIFO mode one read of the FIFO gives exactly the output or the failure; writing fails exactly when an output above PIPE_BUF finds no region |
| Payload.CallsDoNotInterfere | src/worker/worker_lib.cpp:100-129 | Finishing one call leaves the regions and FIFO of every other call alone |
| Payload.RequestTransport | src/worker/worker_lib.cpp:150-173 | A request names its call and parent; its input goes inside up to 960 bytes and otherwise into the region of the call, with the size negated; it fails exactly when that region cannot be made |
| Payload.ResponseSays | src/worker/worker_lib.cpp:100-129 | The response is a completion exactly when the callee succeeded and its output got away, with processing time and size; otherwise a failure |
| Payload.OutputTransport | src/worker/worker_lib.cpp:33-70 | The FIFO grows by length and output up to 4092 bytes, by the length alone above, by minus one for a failure; the region is made exactly for outputs above 4092 bytes |
| Payload.FifoReaderAcceptsIff | src/worker/worker_lib.cpp:175-226 | The reader takes an output from exactly the bytes that a writer leaves for it |
| Payload.RegionMustMatch | src/worker/v1/func_worker.cpp:204-267 | A response that points at shared memory is answered with the region exactly if it exists and has the announced size |
| GoWorker.FuncCallFinishedGo | worker/golang/worker/func_worker.go:228-247 | Same world and same message bytes as the C++ worker |
| GoWorker.FifoFuncCallFinishedGo | worker/golang/worker/func_worker.go:249-284 | Same world and bytes as the C++ worker, except that the size field of a failed response stays zero |
| GoWorker.ResponsesAgreeIff | src/worker/worker_lib.cpp:123-128 | The two responses agree if and only if the call succeeded, is external, produced nothing, or has no FIFO |
| GoWorker.ResponsesCanDiffer | src/worker/worker_lib.cpp:123-128 | A concrete failed call whose responses differ |
| GoWorker.WriteOutputToFifoGo | worker/golang/worker/func_worker.go:297-324 | Same FIFO bytes and region as the C++ worker |
| GoWorker.NewFuncCallGo | worker/golang/worker/func_worker.go:326-348 | Same region and same request bytes as the C++ worker |
| GoWorker.InputReadersAgree | worker/golang/worker/func_worker.go:159-186 | The Go reader takes from the bytes of a dispatch message what the C++ reader takes from the struct |
| GoWorker.ResponseReadersAgree | worker/golang/worker/func_worker.go:410-435 | The same for responses |
| GoWorker.FifoReadersAgree | worker/golang/worker/func_worker.go:373-408 | On everything a worker of either language writes to a FIFO both readers answer alike |
| GoWorker.GoCalleeSeesInput | worker/golang/worker/func_worker.go:159-186 | A Go callee sees the input of a caller in either language |
| GoWorker.GoCallerGetsOutput | worker/golang/worker/func_worker.go:410-435 | A Go caller gets the output of a callee in either language |
| RankingBst.SortedListingIsUnique | src/utils/bst.h:143-153 | A multiset has one sorted listing, so its k-th element is well defined |
| RankingBst.InsertedGrows | src/utils/bst.h:117-129 | Insertion adds exactly the new value and keeps the in-order listing sorted |
| RankingBst.KthElement | src/utils/bst.h:143-153 | Descending by subtree sizes returns position k of the in-order listing |
| RankingBst.Maintain | src/utils/bst.h:132-140 | With exact sizes below, the node gets its exact size |
| RankingBst.InsertInternal | src/utils/bst.h:117-129 | The heap tree becomes the inserted tree with all size fields exact |
| RankingBst.RankingBST.constructor | src/utils/bst.h:41-50 | An empty tree and a pool of distinct single nodes |
| RankingBst.RankingBST.Clear | src/utils/bst.h:68-71 | The tree is empty and its nodes are one pool entry; the pool stays usable if and only if the tree was not empty |
| RankingBst.RankingBST.Size | src/utils/bst.h:74-76 | The number of elements |
| RankingBst.RankingBST.NewNode | src/utils/bst.h:93-114 | The node leaves the pool, its children become entries, and nothing else in the pool moves |
| RankingBst.RankingBST.NewNodeBesideTree | src/utils/bst.h:93-114 | The node handed out is not in the live tree: tree and pool stay disjoint |
| RankingBst.RankingBST.Insert | src/utils/bst.h:79-81 | The elements gain exactly the value; no node is lost between tree and pool, and any further node is new |
| RankingBst.RankingBST.GetKthElement | src/utils/bst.h:84-90 | Element k of the sorted listing of everything inserted since the last Clear; nothing exactly when there is none |
| RankingBst.Drive | src/utils/bst.h:67-153 | Any sequence of inserts and clears of non-empty trees on one object leaves exactly what was inserted since the last clear |
| RankingBst.KthAfter | src/utils/bst.h:67-153 | After any such sequence on a new tree, element k of the sorted listing of what was inserted since the last clear |
| IoWorker.EveryConnectionOnce | src/server/io_worker.cpp:116-118 | As many picks as connections return each of them once, if and only if the counter does not wrap on the way or their number divides 2^64 |
| IoWorker.WrapPicksTwice | src/server/io_worker.cpp:116-118 | Three connections and a counter at 2^64-1: one of them is picked twice in a row |
| IoWorker.PositionsDifferIff | src/server/io_worker.cpp:116-118 | The same for the indices |
| IoWorker.PickedIsLive | src/server/io_worker.cpp:100-119 | A pick finds a connection exactly when a live one has that type, and the cache holds exactly those |
| IoWorker.NothingLeftIff | src/server/io_worker.cpp:227-229 | The test of the worker for "all returned" is exact |
| IoWorker.IOWorker.constructor | src/server/io_worker.cpp:9-28 | Empty tables, open pipe |
| IoWorker.IOWorker.OnNewConnection | src/server/io_worker.cpp:197-221 | Tables and caches stay exact; in the stopping phase the connection is told to close |
| IoWorker.IOWorker.OnConnectionClose | src/server/io_worker.cpp:140-163 | Tables and caches stay exact; the connection is on its way back |
| IoWorker.IOWorker.PipeWrite | src/server/io_worker.cpp:223-234 | The pipe was open, and it is closed now if and only if the worker is stopping and every connection was handed back |
| IoWorker.IOWorker.Stop | src/server/io_worker.cpp:176-195 | The first stop closes the pipe exactly when everything was handed back, else asks all live connections to close; later stops change nothing |
| IoWorker.IOWorker.PickConnection | src/server/io_worker.cpp:100-119 | Null exactly when there is no connection of that type; else the next one in turn from an exact cache |
| IoWorker.IOWorker.ListConnections | src/server/io_worker.cpp:107-112 | The loop fills the cache with exactly the live connections of the type, in any order |
| IoWorker.IOWorker.PickMany | src/server/io_worker.cpp:100-119 | Picks in a row without a change in between are the round robin over one exact cache |
| IoWorker.IOWorker.PickRound | src/server/io_worker.cpp:100-119 | As many picks as connections of the type return each live one once, if and only if the counter does not wrap on the way or their number divides 2^64 |
| IoWorker.OverIsFinal | src/server/io_worker.cpp:222-234 | After the pipe was closed nothing arrives, closes or is written back in any run |
| IoWorker.Replay | src/server/io_worker.cpp:100-234 | A new worker driven through any feasible run: cached lists hold exactly the live connections of their type, and the pipe was closed once if everything is handed back while stopping and never otherwise |
| Grpc.SendRunFrom | src/gateway/grpc_connection.cpp:570-630 | From any point of the response, frames emit the next bytes up to their limits |
| Grpc.ResponseIsLengthPrefixed | src/gateway/grpc_connection.cpp:570-630 | For every body below 2^32 and all frame limits (first at least 5) the DATA bytes are the 5-byte prefix and the body, and end-of-data is reported exactly by the first read after all of it |
| Grpc.ReceivedStream | src/gateway/grpc_connection.cpp:538-568 | The receiver depends only on the bytes, not on the chunks after a first one of at least 5 |
| Grpc.AcceptedIsLengthPrefixed | src/gateway/grpc_connection.cpp:459-479 | A request is accepted only if it carries no DATA, and then its body is empty, or its bytes are one length-prefixed message, whose body is handed on |
| Grpc.LengthPrefixedIsAccepted | src/gateway/grpc_connection.cpp:459-479 | Every length-prefixed message is accepted with exactly its body |
| Grpc.SendReceiveRoundTrip | src/gateway/grpc_connection.cpp:538-630 | What the sender emits the receiver takes back, for any limits and any re-cutting |
| Grpc.StreamContext.constructor | src/gateway/grpc_connection.cpp:62-77 | The fresh stream |
| Grpc.StreamContext.OnDataChunkRecv | src/gateway/grpc_connection.cpp:538-568 | One chunk callback equals the abstract receiver |
| Grpc.StreamContext.OnEndStream | src/gateway/grpc_connection.cpp:459-479 | Processing starts exactly when the length matched and nothing failed before |
| Grpc.StreamContext.SendFrame | src/gateway/grpc_connection.cpp:570-630 | The length callback and the send callback equal the abstract sender |
| Grpc.StreamContext.ReceiveChunks | src/gateway/grpc_connection.cpp:538-568 | Any list of chunk callbacks equals the abstract receiver |
| Grpc.StreamContext.SendFrames | src/gateway/grpc_connection.cpp:570-630 | Any list of frame limits equals the abstract sender |

## Left out

- libuv, nghttp2, http_parser, sockets, mmap and FIFO system calls, threads and mutexes: foreign code or I/O.
- Timing averages and worker-request pacing (src/engine/dispatcher.cpp:237-307): the averages and limits are arbitrary inputs; the dispatcher hands delay and processing time to the tracer in the opposite order (src/engine/dispatcher.cpp:120-121), which affects statistics only.
- Liveness of the ring's wake-ups, and weak memory orderings beyond interleaving.
- Parent calls and queueing-delay sums in trace records, and all statistics.
- Answers to discarded calls of workers without FIFOs: an open TODO in the source (src/engine/engine.cpp:473-475).
- The engine's answer when no gateway connection exists: the model counts the attempt, the source only logs (src/engine/engine.cpp:387-390).
- The output bytes inside an answer to the gateway are not followed through the engine's state; how they are read is `Payload.OutputArrives`.
- GatewayConnections.Connection.ProcessGatewayMessages: does not model negative payload sizes faithfully, because for -16 to -1 the source leaves the defined range (src/engine/gateway_connection.cpp:104); the model waits for more bytes, as the source does below -16.
- Launcher.EngineConnection.OnReadHandshakeResponse: treats a negative payload size in the response as incomplete, as the source does below -1024; from -1024 to -1 the source leaves the defined range (src/launcher/engine_connection.cpp:125).
- RankingBst.InsertInternal: returns the new subtree pointer instead of writing through a pointer to a pointer; values are integers rather than a template type.
- The destructor of the tree, which does not free the live root (src/utils/bst.h:53-65).
- Payload.OutputArrives: does not model removal of a region after it was read.
- Payload.InputArrives: does not model when the caller removes its input region; the callee is assumed to read before that.
- Grpc.StreamContext.OnDataChunkRecv: requires a first chunk of at least 5 bytes, as the source aborts otherwise (src/gateway/grpc_connection.cpp:549).
- Grpc.StreamContext.SendFrame: requires at least 5 bytes of room in the first frame, as the source does (src/gateway/grpc_connection.cpp:594).
- FuncConfigs.FuncConfig.Load: starts from parsed items; JSON parsing and its errors are not part of this model, except that a missing method list is rejected.
- Scheduled functions of an IO worker, HTTP parsing, header validation, trailers, docker, process launching, the Python and Node bindings: plumbing around the modelled core.
