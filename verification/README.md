# A verified model of miniss

miniss runs one event loop per CPU, shares nothing between CPUs, and expresses asynchronous work with promises and
futures. This project models its core and proves what the core promises.

| file | models |
|---|---|
| `Programs.dfy` | outcomes, exceptions, and the programs that user code builds out of futures, with their direct meaning |
| `Laws.dfy` | laws that relate `then`, `then_wrapped`, `handle_exception` and `finally` to one another |
| `Sums.dfy`, `Sequences.dfy` | sums over finite maps, for termination measures; concatenation, and sequences as queues |
| `Futures.dfy` | promises, futures, continuations and the task queue as mutable objects, the heap and meaning invariants, and the event loop |
| `Heaps.dfy`, `Values.dfy` | arbitrary sequences of legal operations on those objects, and what becomes of the values they hold |
| `Splices.dfy` | `forward_to` on a pending future, chains of it, and its equivalence to copying |
| `WhenAlls.dfy` | `when_all` and its shared state |
| `Semaphores.dfy` | the semaphore, over all histories |
| `SpscQueues.dfy` | the buffer in front of a bounded ring |
| `PollQueues.dfy` | a queue pair between two CPUs, and the loop over all pairs, as one thread sees them |
| `CrossCpu.dfy` | N CPUs that exchange items, sleep and wake each other, step by step |
| `Refinements.dfy` | the steps of `CrossCpu`, left alone, do what the methods of `PollQueues` do |
| `Rounds.dfy`, `SyscallRounds.dfy` | what a CPU does between two passes through its pollers: its task queue, its batch of eight, and when it goes to rest |
| `Lifecycles.dfy`, `Orders.dfy` | where each item is, what happens to it, and in which order, in every run of that system |
| `Wakeups.dfy`, `Deadlocks.dfy`, `Overcommitted.dfy` | no lost wakeup, no deadlock within the bound of 1024, and a deadlock just beyond it |
| `Progress.dfy` | the CPUs get everything done that they are given, and then sleep |
| `SyscallPairs.dfy`, `TakenSlots.dfy` | a CPU, its syscall worker and both semaphores, step by step; and why one assumption about the ring is needed |
| `Timers.dfy` | the timer service over one physical one-shot timer |
| `SignalPollers.dfy` | the signal poller over its 64-bit mask |

## How it is built

**Futures.** Each object keeps the fields of the source (`future`, `local`, `state`, `task` of a promise, and so on), and
its methods change them in the source's order. A ghost value, the graph, says what all objects hold together with what
each logical value is for. Every method is proved to change the graph by a specification function, and every such
function is proved to keep two invariants: that the pointers are consistent, and that every logical value is on its way
to the outcome that the program denotes. Callbacks are closures given as programs, so that the meaning is a total
function; termination follows from a measure on the graph. `Cpu.Run` then takes any program, with external promises
satisfied early, late, or late and out of order, and returns exactly its meaning. The meaning itself is tied down by
the laws in `Laws`: who calls its callback on which outcome, and how `then` and `handle_exception` reduce to
`then_wrapped`.

**CPUs and threads.** What runs on one thread alone is a class with loops. Where threads interleave, the model is a step
function over an explicit state with program counters, and the results are invariants over all action sequences: a flush
and its signal, the load and the clear of the signal mask, and the mask, the check and the sleep of `run_idle_proc_` are
separate steps, with signals delivered between any two of them. User code is any sequence of submitting items,
scheduling tasks and resolving handlers. Where an operation is modelled both ways, as a method and as steps, the steps
are shown to do what the method does when nothing comes in between (`SpscQueues.UninterruptedFlush`,
`SignalPollers.StepsDoWhatPollDoes`, `Refinements`), or the class is driven through the run (`Timers.Drive`). The Boost
ring is a bounded sequence. A turn of the loop in `flush` is one step in `CrossCpu`; `SpscQueues` takes that turn apart
and shows that its unchecked push succeeds under every interleaving with the consumer. `epoll_pwait` is atomic: it
returns if a signal is pending, and sleeps otherwise; it may also return for no reason.

## What came out

- When both the future and the callback of `finally` fail, the documentation (include/miniss/seastar/future.h:1002-1004)
  promises the callback's exception with the original one nested. The code throws a `std::nested_exception`, which
  `std::throw_with_nested` throws as it is, so the original exception is lost. The model follows the code, down to
  these two; `Programs.FinallyAgainstItsDocumentation` says exactly when code and documentation agree.
- Consuming from a ring signals nobody. With at most 1024 outstanding items for each ordered pair of CPUs this is
  harmless; with 1025 both CPUs can sleep over an item that is still in a buffer (`Overcommitted.AsleepOverAnItem`), so
  that 1024 is the exact bound (`Overcommitted.TheBoundIsExact`).
- The unchecked push into the call ring of the syscall runner relies on the ring's `consume_all` freeing each slot as it
  hands the item over. If all slots were freed at the end, a call could be lost (`TakenSlots.ACallCanBeDropped`). The
  unchecked push into the result ring is safe either way.
- A timer whose deadline is the latest time of the clock is stored without arming the physical timer
  (`Timers.LatestDeadlineIsNotArmed`); `Timers.StepIsCovered` gives the exact condition.
- The counter of the semaphore wraps around at the width of `size_t`; the tokens lost can leave a request waiting for
  ever (`Semaphores.OverflowStarves`). `Semaphores.PumpingIsExact` and `Semaphores.LazyCatchesUpWithEager` say that the
  semaphore keeps its promise if and only if no call of `release` wraps the counter.
- A signal number of 64 or more has no bit in the 64-bit mask. The shift is undefined then, so the model lets it set any
  bits; the signal's own handler is never called (`SignalPollers.NoBitNoCall`).

## Model

| member | source | states |
|---|---|---|
| Programs.FinallyAgainstItsDocumentation | include/miniss/seastar/future.h:780-800 | derived from what capturing and throwing nested exceptions do: `finally` gives what its documentation promises exactly when the future and the callback do not both fail; when they do, it gives a nested exception that has captured the callback's, whatever the original one was |
| Laws.ThenIsThenWrapped | include/miniss/seastar/future.h:903-923 | `then` is `then_wrapped` with a callback that passes a failure on and calls the continuation otherwise |
| Laws.HandleExceptionIsThenWrapped | include/miniss/seastar/future.h:1101-1111 | `handle_exception` is `then_wrapped` with a callback that passes a value on and calls the handler otherwise |
| Laws.WhoIsCalled | include/miniss/seastar/future.h:901-1111 | a value passes every handler by and goes to the callback of `then`; a failure passes every callback of `then` by and goes to the handler |
| Laws.SameChangesNothing | include/miniss/seastar/future.h:901-1111 | a callback that gives its argument back can be left out, whichever way it is attached |
| Laws.ResultsAreCaptured | include/miniss/seastar/future.h:924-968 | a continuation sees the result it waits for, and a nested one also what the outer one has captured, latest first |
| Laws.Choice | include/miniss/seastar/future.h:903-930 | a callback that tests what it has captured chooses between two results, and what is attached to the choice is attached to either |
| Laws.ExternalOutcome | include/miniss/seastar/future.h:518-529 | whoever waits for the future of an external promise gets the outcome of that promise, early or late |
| Laws.FinallyRestores | include/miniss/seastar/future.h:1006-1056 | `finally` gives the original result when its callback succeeds, and the callback's failure when only the callback fails; the two forms of callback agree |
| Laws.WrappedMeansTheSame | include/miniss/seastar/future.h:901-1111 | every program means the same when each `then` and `handle_exception` in it, at any depth, is written out as `then_wrapped` |
| Futures.Promise.constructor | include/miniss/seastar/future.h:463-466 | a promise refers to its own state, and has no future and no task |
| Futures.Promise.GetFuture | include/miniss/seastar/future.h:1165-1169 | the promise and the new future point at each other |
| Futures.Promise.Set | include/miniss/seastar/future.h:518-523 | a waiting task gets the outcome and goes to the back of the queue, once; without one, the promise holds the outcome |
| Futures.Promise.Move | include/miniss/seastar/future.h:469-481 | a local state moves along, the state inside a task stays there, both back pointers are repaired, the source is left empty |
| Futures.Promise.Assign | include/miniss/seastar/future.h:484-491 | the old value is given up as in destruction, whoever waits for it, and the new one moves in; assigning a promise to itself changes nothing |
| Futures.Promise.Abandoned | include/miniss/seastar/future.h:1192-1202 | the state moves to the future, which forgets the promise; without a future nothing changes |
| Futures.Promise.Drop | include/miniss/seastar/future.h:483 | destroying a promise nobody waits at leaves its value with the future |
| Futures.Promise.Destroy | include/miniss/seastar/future.h:456-483 | destroying any promise: the state goes to the future, or the waiting task is destroyed with the promise it captured, with whatever waits there, and so on |
| Futures.Cpu.Discard | include/miniss/seastar/future.h:431-456 | a task is destroyed with the promise it captured and the whole chain that waits there; nothing else changes |
| Futures.Promise.Wait | include/miniss/seastar/future.h:562-567 | the state of the promise becomes the one inside the new waiting task |
| Futures.Promise.MakeReady | include/miniss/seastar/future.h:1171-1183 | a waiting task is appended to the task queue and the promise keeps neither it nor its state; otherwise nothing changes |
| Futures.Future.Ready | include/miniss/seastar/future.h:735-756 | a future without a promise holds the outcome |
| Futures.Future.Move | include/miniss/seastar/future.h:810-820 | the new future takes over the promise's pointer, or the local state |
| Futures.Future.Drop | include/miniss/seastar/future.h:831-839 | the promise forgets the future |
| Futures.Future.Schedule | include/miniss/seastar/future.h:758-768 | with a result, a task with that result is queued; without one, the task waits at the promise and the future lets go of it |
| Futures.Future.Attach | include/miniss/seastar/future.h:903-930 | `then` and `then_wrapped` never run the callback inline: the returned future is on its way to what the callback makes of this future's outcome, and all other objects are as before |
| Futures.Future.ForwardTo | include/miniss/seastar/future.h:980-989 | with a result, the outer promise is satisfied; without one, the inner promise becomes the outer one |
| Futures.NewPromiseKeepsHeap | include/miniss/seastar/future.h:463-466 | a new promise keeps the heap invariant |
| Futures.GetFutureKeepsHeap | include/miniss/seastar/future.h:1165-1169 | so does taking its future |
| Futures.TransferKeepsHeap | include/miniss/seastar/future.h:469-491 | so do moving and move-assigning a promise |
| Futures.TransferKeepsMeaning | include/miniss/seastar/future.h:469-491 | moving a promise leaves every logical value on its way to its outcome; the new promise is satisfied with the same value as the old one was, or not at all, for the same consumer, and every future refers to the same state as before |
| Futures.DropPromiseKeepsHeap | include/miniss/seastar/future.h:1192-1202 | destroying a promise without a waiting task keeps the heap invariant |
| Futures.DropPromiseKeepsMeaning | include/miniss/seastar/future.h:1192-1202 | destroying a satisfied promise loses no value |
| Futures.DiscardKeepsHeap | include/miniss/seastar/future.h:431-456 | destroying a chain of waiting tasks keeps the heap invariant, the queue, and all promises outside the chain |
| Futures.DestroyKeepsHeap | include/miniss/seastar/future.h:456-483 | destroying a promise, whoever waits at it, keeps the heap invariant |
| Futures.AssignKeepsHeap | include/miniss/seastar/future.h:484-491 | so does assigning over any promise |
| Futures.SetTaskKeepsHeap | include/miniss/seastar/future.h:518-523 | satisfying a promise with a waiting task keeps the heap invariant, and the queue free of duplicates |
| Futures.SetLocalKeepsHeap | include/miniss/seastar/future.h:518-523 | satisfying a promise without one keeps the heap invariant |
| Futures.MoveFutureKeepsHeap | include/miniss/seastar/future.h:810-820 | moving a future keeps the heap invariant |
| Futures.MoveFutureKeepsMeaning | include/miniss/seastar/future.h:810-820 | and every logical value |
| Futures.DropFutureKeepsHeap | include/miniss/seastar/future.h:831-839 | destroying a future keeps the heap invariant |
| Futures.EnqueueKeepsHeap | include/miniss/seastar/future.h:760-761 | queueing a continuation on a ready future keeps it |
| Futures.WaitKeepsHeap | include/miniss/seastar/future.h:562-567 | attaching a continuation to a pending promise keeps it |
| Futures.WaitKeepsMeaning | include/miniss/seastar/future.h:562-567 | the attached continuation will be handed the outcome its promise is on its way to |
| Futures.ScheduleKeeps | include/miniss/seastar/future.h:758-768 | attaching keeps both invariants and adds exactly the work of the continuation |
| Futures.ForwardKeeps | include/miniss/seastar/future.h:980-989 | forwarding keeps both invariants, answers or empties the outer promise, and leaves all other futures alone |
| Futures.SetKeeps | include/miniss/seastar/future.h:518-523 | satisfying a promise with the outcome it is on its way to keeps both invariants |
| Futures.SatisfyKeeps | include/miniss/seastar/future.h:518-529 | an outside party that satisfies its promise keeps both invariants and reduces the work left |
| Futures.FinishKeeps | include/miniss/seastar/future.h:431-444 | destroying a continuation that has answered its promise keeps both invariants and takes its work away |
| Futures.Quiescent | lib/cpu.cpp:61-76 | with an empty queue and no external promise outstanding, no promise is left unsatisfied |
| Futures.QuiescentFutures | lib/cpu.cpp:61-76 | and every future that was not used up holds the outcome its program denotes |
| Futures.Cpu.Apply | include/miniss/seastar/future.h:1240-1249 | calling a callback gives a future on its way to what the callback denotes, thrown exceptions included; what that is, the laws above say |
| Futures.Cpu.Answer | include/miniss/seastar/future.h:916-922 | a continuation's run answers the promise it captured, and nothing else changes for any other future |
| Futures.Cpu.ApplyAndForward | include/miniss/seastar/future.h:958-960 | the callback's future is forwarded to the captured promise |
| Futures.Cpu.Eval | include/miniss/seastar/future.h:901-968 | building a program gives a future on its way to the meaning of the program |
| Futures.Cpu.RunFront | lib/cpu.cpp:66-76 | one turn of the task loop keeps all invariants and reduces the work left |
| Futures.Cpu.OutsideEvent | include/miniss/seastar/future.h:518-529 | an outside party satisfies or destroys a promise it holds, at any time between two tasks |
| Futures.Cpu.RunAll | lib/cpu.cpp:66-76 | in every order of tasks and outside events the loop comes to an end, and the future holds its outcome |
| Futures.Cpu.Run | include/miniss/seastar/future.h:901-989 | running any program gives exactly what the program denotes, whatever order external promises are resolved in |
| Heaps.OpKeepsHeap | include/miniss/seastar/future.h:463-567 | every legal operation keeps the heap invariant |
| Heaps.RunsKeepHeap | include/miniss/seastar/future.h:131-146 | so does every sequence of legal operations |
| Heaps.FirstReadyFirstRun | include/miniss/seastar/future.h:1171-1183 | over every sequence of legal operations, tasks are started in the order in which they became ready |
| Heaps.OpKeepsOrder | include/miniss/seastar/future.h:758-768 | no operation lets a task in front of one that is queued, or takes any but the front one; none makes more than one task ready |
| Heaps.PointersAreMutual | include/miniss/seastar/future.h:143-146 | a promise points to a future exactly when that future points back |
| Heaps.StatePointersAgree | include/miniss/seastar/future.h:131-146 | a promise refers to its own state, or to that of the task that waits there, or to none; where it holds a value no task waits and its linked future holds none, and a waiting task and its promise hold none |
| Heaps.AssertsHold | include/miniss/seastar/future.h:223-241 | the asserts of setting, of the state set, of scheduling, forwarding and abandoning cannot fail on legal use, the destruction of a task with its promise included |
| Values.OpPlaces | include/miniss/seastar/future.h:131-146 | no operation makes a second copy of a value: setting puts one in, a task that is destroyed after its run has used one up, and every operation that destroys no last holder moves values without losing any |
| Values.ValuesAreConserved | include/miniss/seastar/future.h:131-146 | over every sequence of legal operations, an outcome is in at most as many places, or used up, as it was put in, and in exactly as many unless its holder was destroyed |
| Values.ValueIsInOnePlace | include/miniss/seastar/future.h:131-141 | over every sequence of legal operations, an outcome that was put in once is never in two of all promises, futures and tasks; and it is in one of them until a task has used it up or its holder is destroyed |
| Splices.ResolvingDelivers | include/miniss/seastar/future.h:1171-1183 | resolving a promise gives the outcome to its consumer: a linked future holds it, a waiting task has it and is queued once |
| Splices.SplicingMovesTheConsumer | include/miniss/seastar/future.h:984-988 | forwarding a pending future moves the consumer of the outer promise to the inner one, and touches no other promise |
| Splices.AllSpliced | include/miniss/seastar/future.h:980-989 | splicing a chain of any depth in any order moves the outermost consumer to the innermost promise |
| Splices.ChainsDeliver | include/miniss/seastar/future.h:980-989 | resolving the innermost promise of a spliced chain resolves the outermost consumer, once, with that outcome |
| Splices.SplicingIsCopying | include/miniss/seastar/future.h:970-979 | after a splice, resolving the inner promise gives the outcome to the consumer of the outer one; with a continuation that copies, it queues that continuation with the same outcome, once, and the consumer waits for it |
| Splices.CopyDelivers | include/miniss/seastar/future.h:970-979 | and whenever the copying continuation runs, it gives the consumer that outcome |
| Splices.FrontRunDelivers | include/miniss/seastar/future.h:431-444 | a continuation that runs gives what its code denotes to whoever waits for the promise it captured |
| Splices.CopyingEndsLikeSplicing | include/miniss/seastar/future.h:970-989 | both ways from start to end: whatever legal operations run in between and leave the consumer alone, once the copying continuation has come to the front and run, the consumer of the outer promise has the outcome that a splice gives it |
| WhenAlls.WhenAllState.Wait | include/miniss/future_util.h:27-36 | each element is replaced by a future whose continuation holds a reference; ready inputs are queued, the others waited for |
| WhenAlls.WhenAllState.Release | include/miniss/future_util.h:23 | the last release, and no other, sends the vector |
| WhenAlls.WhenAllState.RunFront | include/miniss/future_util.h:30 | a continuation stores its input's result in its own element and releases its reference |
| WhenAlls.WhenAllState.Abandon | include/miniss/future_util.h:30 | a promise that is destroyed unsatisfied takes the waiting continuation and its reference with it, and leaves the element without a result |
| WhenAlls.WhenAll | include/miniss/future_util.h:39-46 | the state when `when_all` returns, the local reference released |
| WhenAlls.StartedIs | include/miniss/future_util.h:27-46 | what it leaves behind for any inputs: nothing is stored or sent yet, the results that were there have a task each, in the order of the inputs, all other inputs are waited for, and there is a reference for each |
| WhenAlls.OnlyTasksStore | include/miniss/future_util.h:30 | a result comes into the vector only as its own task runs at the front of the queue, never as it arrives |
| WhenAlls.TasksInOrder | include/miniss/future_util.h:30 | a result that arrives goes to the back of the queue, a task is taken from its front, and a vector is sent only with the last reference |
| WhenAlls.WhenAllSendsAllResults | include/miniss/future_util.h:11-46 | one vector is sent, with the last release, only after every input has its result or has lost its promise, of the same length and order, each entry with its input's result or without one; and it is sent once there is no other input and all continuations have run |
| Semaphores.Semaphore.Wait | lib/util/semaphore.cpp:5-18 | an immediate grant needs strictly more tokens than requested and an empty waiting list; otherwise the request waits |
| Semaphores.Semaphore.Release | lib/util/semaphore.cpp:20-34 | the tokens are added and at most one waiting request, the front one, is granted, which `ReleaseGrantsAtMostOne` and `ReleaseGrantsOne` say of the new state |
| Semaphores.ReleaseGrantsAtMostOne | lib/util/semaphore.cpp:24-33 | whatever is released, nothing is granted, or the request that has waited longest and no other |
| Semaphores.ReleaseGrantsOne | lib/util/semaphore.cpp:20-34 | after any history, a release grants exactly one request more if the longest prefix that fits all tokens is not granted yet, and none otherwise |
| Semaphores.WaitGrantsAtOnce | lib/util/semaphore.cpp:5-18 | after any history, a request is granted at once if and only if all before it are granted and it leaves at least one token |
| Semaphores.EachGrantHasItsCall | lib/util/semaphore.cpp:5-34 | over any history, no more requests are granted than were granted at once and one for each call of `release` |
| Semaphores.PumpsAreOneByOne | lib/util/semaphore.cpp:20-34 | how many requests any number of calls of `release(0)` grants after any history: one each, until the longest prefix that fits is granted |
| Semaphores.ClosedForm | lib/util/semaphore.cpp:5-34 | after any history the granted requests are a prefix of all requests, in order, and the tokens add up |
| Semaphores.LongestIsLongest | lib/util/semaphore.cpp:24-33 | the longest prefix that fits a budget fits it, and no longer prefix does |
| Semaphores.PumpingGrantsTheLongestPrefix | lib/util/semaphore.cpp:20-34 | enough calls of `release(0)` grant the longest prefix that fits |
| Semaphores.PumpingIsExact | lib/util/semaphore.cpp:20-34 | enough calls of `release(0)` grant the longest prefix that fits all tokens ever released, and keep the rest, if and only if no release overflowed the counter |
| Semaphores.EagerClosedForm | lib/util/semaphore.cpp:5-34 | the ideal semaphore, which grants as soon as it can and never overflows, always has granted the longest prefix |
| Semaphores.LazyCatchesUpWithEager | lib/util/semaphore.cpp:5-34 | enough calls of `release(0)` bring the semaphore into the state of the ideal one if and only if no release overflowed the counter |
| Semaphores.LazyIsNeverAhead | lib/util/semaphore.cpp:5-34 | after any history the semaphore has granted a prefix of what the ideal one has |
| Semaphores.OverflowStarves | lib/util/semaphore.cpp:22 | a history that overflows and starves a request for ever |
| Semaphores.SilentReleaseIsQuiescent | lib/util/semaphore.cpp:24-26 | a release that grants nothing leaves no front request that fits |
| SpscQueues.UnboundedSpscQueue.Push | lib/util/unbounded_spsc_queue.cpp:5-13 | the item is last in the queue; nothing moves below eight buffered items, and otherwise as much as fits |
| SpscQueues.UnboundedSpscQueue.Flush | lib/util/unbounded_spsc_queue.cpp:15-25 | as much as fits goes from the buffer to the ring, in order, and the result says whether anything did |
| SpscQueues.UnboundedSpscQueue.Process | include/miniss/util/unbounded_spsc_queue.h:67-76 | up to eight items leave the ring, in order |
| SpscQueues.RefinesFifo | lib/util/unbounded_spsc_queue.cpp:5-25 | under every interleaving of producer and consumer steps, popped, ring and buffer are together the push history, and the ring stays within 1024 |
| SpscQueues.RingPushSucceeds | lib/util/unbounded_spsc_queue.cpp:18-22 | the unchecked push into the ring always succeeds |
| SpscQueues.UninterruptedFlush | lib/util/unbounded_spsc_queue.cpp:15-25 | left alone, the steps of a flush do what the method does |
| SpscQueues.UninterruptedPush | lib/util/unbounded_spsc_queue.cpp:5-13 | left alone, so do those of a push: below eight buffered items it only buffers, and from eight on as many as fit go to the ring |
| SpscQueues.ConsumedBatch | include/miniss/util/unbounded_spsc_queue.h:67-76 | a consumption takes up to eight items, in order |
| PollQueues.CrossCpuQueue.Submit | lib/cross_cpu_queue.cpp:47-54 | the item is last in `tx_`; below eight buffered items nothing else changes, and from eight on what fits goes to the ring, and the target is signalled exactly when anything did |
| PollQueues.CrossCpuQueue.Respond | lib/cross_cpu_queue.cpp:56-63 | the same for `rx_` and the source |
| PollQueues.CrossCpuQueue.FlushTx | lib/cross_cpu_queue.cpp:23-33 | what fits goes to the ring, and the target is signalled if anything did |
| PollQueues.CrossCpuQueue.FlushRx | lib/cross_cpu_queue.cpp:35-45 | the same for `rx_` and the source |
| PollQueues.CrossCpuQueue.PollTx | lib/cross_cpu_queue.cpp:6-11 | up to eight items are taken, in order, and nobody is signalled |
| PollQueues.CrossCpuQueue.PollRx | lib/cross_cpu_queue.cpp:13-21 | the same for `rx_` |
| PollQueues.PollOne | lib/os.cpp:66-70 | the four calls for one peer, and what each has moved |
| PollQueues.PollAll | lib/os.cpp:56-74 | for every peer, whatever the result: up to eight responses are completed and up to eight requests processed, in order, and nothing else leaves a ring; as many of the CPU's responses as fit are in their ring; what the handlers submit during the loop, to any peer, is queued in order behind what was there; and the peer is signalled exactly if there is something new in a ring for it. The result is true exactly when there was something to do; when it is false, nothing has changed |
| PollQueues.SubmissionsInOrder | lib/os.cpp:56-74 | what is submitted first comes first, by one handler and by the handlers of several items |
| PollQueues.BuildQueues | lib/os.cpp:33-41 | a queue from each CPU to each, no two of them sharing anything |
| PollQueues.LinksAreApart | lib/os.cpp:56-71 | the queues so built are what `poll_queues` relies on, for every CPU |
| Lifecycles.RunKeepsInv | lib/cross_cpu_queue.cpp:6-63 | the invariant of CPUs, channels and items in every reachable state of N CPUs |
| Lifecycles.ExactlyOnePlace | include/miniss/util/unbounded_spsc_queue.h:31-57 | a submitted item is always in exactly one of buffer, ring and batch of either direction, task queue, handler, or done, once |
| Lifecycles.ProcessedAndCompletedOnce | lib/cross_cpu_queue.cpp:6-21 | an item is processed at most once, on its target, and completed exactly once when it is done, on its source, with the outcome of its handler |
| Lifecycles.NeverAborts | include/miniss/util/unbounded_spsc_queue.h:42-57 | `complete` never sees an empty result |
| Lifecycles.StagesInOrder | lib/cross_cpu_queue.cpp:6-21 | every step leaves an item at its stage or takes it to the next |
| Orders.PipeIsPushed | lib/cross_cpu_queue.cpp:6-63 | under all interleavings of N CPUs, what was pushed into a queue is what has come through, what its consumer has in hand, the ring and the buffer, in this order |
| Orders.FirstInFirstOut | include/miniss/util/unbounded_spsc_queue.h:59-77 | the items of an ordered pair of CPUs are processed in the order they were submitted, and completed in the order they were sent back |
| Refinements.SubmitLeftAlone | lib/cross_cpu_queue.cpp:47-54 | in any run of N CPUs, the steps of `submit_`, left alone, do what the method does: below eight buffered items the item is buffered; from eight on as many as fit go to the ring, and the target has a signal pending if any did; nothing else changes |
| Refinements.RespondLeftAlone | lib/cross_cpu_queue.cpp:56-63 | the same for `respond_` and the source |
| Refinements.FlushTurnLeftAlone | lib/cross_cpu_queue.cpp:23-45 | the same for `flush_tx` and `flush_rx` |
| Refinements.PollTakesABatch | lib/cross_cpu_queue.cpp:6-21 | in any run, `poll_tx` and `poll_rx` take up to eight items out of their ring, in order, note that there were any, and signal nobody |
| Rounds.TasksAreAQueue | lib/cpu.cpp:66-69 | whatever happens, tasks are taken from the front of the task queue and added at its back, one at a time |
| Rounds.AtMostEightTasks | lib/cpu.cpp:66-67 | in every run, a CPU runs at most eight tasks in a round |
| Rounds.LoopEnds | lib/cpu.cpp:66-67 | it goes back to its pollers exactly when it has run eight or has no more |
| Rounds.RestAfterAnIdleRound | lib/cpu.cpp:55-64 | in every run, `cpu_active` says exactly whether a CPU has found anything since it began its round, in the signal mask, in a ring, to flush, or by another poller; a CPU at rest has found nothing |
| Rounds.RestsWhenIdle | lib/cpu.cpp:61-64 | at the end of its pollers it goes to rest if and only if it has no task and has found nothing |
| Wakeups.RunKeepsHeard | lib/cross_cpu_queue.cpp:23-63 | what is in a ring has been or is about to be signalled, or its consumer polls it before it can sleep |
| Wakeups.NoLostWakeup | lib/cpu.cpp:50-137 | when a CPU sleeps with no signal pending, every ring into it is empty or its producer is between its push and its signal |
| Deadlocks.RunKeepsClean | lib/os.cpp:61-71 | within the bound, a CPU that has flushed a channel and found nothing to do leaves nothing in its buffer |
| Deadlocks.OnlyHandlersAreWaitedFor | lib/cpu.cpp:61-64 | within the bound, when all CPUs sleep with no signal pending, all buffers and rings are empty and every unfinished item waits for its handler's future |
| Overcommitted.AsleepOverAnItem | lib/cross_cpu_queue.cpp:13-21 | all CPUs can sleep while an item is still in a buffer, in a run in which no ordered pair of CPUs ever has more than 1025 outstanding items |
| Overcommitted.TheBoundIsExact | include/miniss/util/unbounded_spsc_queue.h:59-62 | CPUs that all sleep have left nothing in any channel, in every run within a bound, if and only if the bound is at most 1024 |
| Progress.InternalStepsShrinkWork | lib/cpu.cpp:50-137 | every step that is due to nothing from outside and changes anything leaves less work, in any state of a run |
| Progress.WorkIsLinear | lib/cpu.cpp:50-137 | under every interleaving, the steps that did anything and the work left are at most what came from outside accounts for |
| Progress.StuckIsAsleep | lib/cpu.cpp:61-137 | nothing can change from within exactly when all CPUs sleep with no signal pending |
| Progress.EverythingGetsDone | lib/cpu.cpp:50-137 | from any point of a run, with nothing more from outside, the CPUs fall asleep after a bounded number of steps in whatever order; within 1024 outstanding items a pair, every channel is then empty and every item is completed, or waits for its handler's future |
| Progress.SleepIsReached | lib/cpu.cpp:50-137 | such an end exists for every run |
| SyscallPairs.TokensAreConserved | lib/io/syscall.cpp:19-42 | the tokens and the calls at every place add up to 128 under all interleavings; likewise for file operations, refused ones counted |
| SyscallPairs.ResultPushNeverFails | lib/io/syscall.cpp:42 | the unchecked push into the result ring succeeds |
| SyscallPairs.CallPushFailsOnlyOverTakenSlots | lib/io/syscall.cpp:36-39 | the unchecked push into the call ring fails exactly when the ring is full, and then slots of items already handed over are still taken |
| SyscallPairs.NothingIsDropped | lib/io/syscall.cpp:34-42 | with slots freed as items are handed over, no call is ever dropped: the free tokens and the calls in flight are 128 in all, and the call ring has room for every granted call |
| SyscallPairs.CompletedInOrder | lib/io/syscall.cpp:19-42 | calls are completed once each, in the order of submission, and are at any time in exactly one place of the pipeline |
| SyscallPairs.NoLostWakeup | lib/io/syscall.cpp:34-65 | a blocked worker has an empty call ring or the CPU is about to signal it; a sleeping CPU has an empty result ring or the worker is about to wake it |
| SyscallPairs.IdleIsQuiescent | lib/cpu.cpp:54-64 | when the CPU has decided to park, no waiting request of either semaphore fits its free tokens |
| SyscallPairs.SleepingPairIsDone | lib/io/syscall.cpp:19-65 | when both threads sleep for good, every submitted call is completed, in order, and all tokens are back |
| SyscallRounds.TasksAreAQueue | lib/cpu.cpp:66-69 | in the syscall pair, too, tasks are taken from the front of the queue and added at its back, one at a time |
| SyscallRounds.AllResultsAreTaken | lib/io/syscall.cpp:19-27 | in every run, `poll_results` takes all results there are, in order |
| SyscallRounds.RestAfterAnIdleRound | lib/cpu.cpp:55-64 | in every run, `cpu_active` says exactly whether the CPU has found results, events or signals since it began its round |
| SyscallRounds.RestsWhenIdle | lib/cpu.cpp:61-64 | and it goes to rest if and only if it has no task and has found nothing |
| SyscallRounds.WakesWhenDone | lib/io/syscall.cpp:53-64 | in every run, the worker wakes the CPU only after it has taken all the calls that it saw as it looked, at least one |
| TakenSlots.ACallCanBeDropped | lib/io/syscall.cpp:54-57 | the assumption on when slots are freed is needed |
| Timers.TimerService.AddTimer | lib/io/timer.cpp:46-55 | the entry goes after all that are not later; the timer is armed for it when it is the earliest |
| Timers.TimerService.CompleteTimers | lib/io/timer.cpp:57-76 | exactly the due entries are handed over, in order, and the timer is armed for the next one |
| Timers.TimerService.UpperBound | lib/io/timer.cpp:61 | the slots up to now |
| Timers.Drive | lib/io/timer.cpp:46-76 | the class, driven through any run of the clock, the physical timer and the signal poller, is at its end what the steps of the run make of it; so what is proved of runs holds of the class |
| Timers.DueIsDue | lib/io/timer.cpp:61-62 | what is handed over is due, and what is kept is not |
| Timers.TimersAreOrderly | lib/io/timer.cpp:46-76 | over every run entries are handed over in the order of deadline and insertion, none early, and what is stored is later than the last completion or was added after it |
| Timers.EachTaskOnce | lib/io/timer.cpp:64-71 | each entry ever added is handed over or stored exactly once |
| Timers.StepIsCovered | lib/io/timer.cpp:48-54 | exactly which step leaves a stored timer with nothing to call `complete_timers` |
| Timers.TimersAreCovered | lib/io/timer.cpp:78-90 | in every run, whenever the earliest stored deadline is one the clock can pass, the timer is armed for it, or a signal is pending or being served |
| Timers.LatestDeadlineIsNotArmed | lib/io/timer.cpp:49-54 | the deadline at the end of the clock is stored unarmed |
| Timers.DeadlineZeroIsNotArmed | lib/io/timer.cpp:78-90 | nor is one at its very start, which is why `Timers.TimersAreCovered` speaks of a clock that has started |
| SignalPollers.SignalPoller.RegisterSignal | lib/poller/signal_poller.cpp:40-63 | a second registration fails and changes nothing |
| SignalPollers.SignalPoller.Poll | lib/poller/signal_poller.cpp:16-36 | whatever arrives during the poll, exactly the registered handlers of the loaded mask run, once each, in ascending order, and a signal is noted afterwards if and only if it arrived after the clear, or before it without being in the loaded mask |
| SignalPollers.StepsDoWhatPollDoes | lib/poller/signal_poller.cpp:16-36 | a whole poll, step by step with the same arrivals in between, makes the same calls and leaves the same signals noted |
| SignalPollers.AscendingIsExact | lib/poller/signal_poller.cpp:24-33 | the loop over the bits visits each set bit once, in ascending order |
| SignalPollers.NothingIsForgotten | lib/poller/signal_poller.cpp:16-36 | under every interleaving with new signals, each raise of a registered signal is still noted or is followed by its handler, and, as long as no shift was undefined, no handler runs more often than its signal was raised |
| SignalPollers.NoBitNoCall | lib/cpu.cpp:21-24 | a signal number the mask has no bit for is never handled, registered or not |
| SignalPollers.InterruptedPoll | lib/poller/signal_poller.cpp:16-36 | for every sequence of signals and steps that takes a poll to its end, the handlers called are those of the loaded mask, once each, in ascending order |
| SignalPollers.ArrivalsStay | lib/poller/signal_poller.cpp:23-33 | a signal that arrives after the clear is noted when the poll ends |
| SignalPollers.UninterruptedPoll | lib/poller/signal_poller.cpp:24-33 | left alone, the loop comes to its end, with the same calls and nothing new noted |

## Left out

- Kernel calls, the byte layout of `epoll` and `aio` structures, and error numbers: they are steps with the few
  guarantees named above. A refused `io_submit` keeps its token, as in the code, and is counted.
- Start-up latches, thread creation, shutdown and process exit: every run starts with all CPUs constructed.
- Internals and memory orderings of the Boost ring: a sequentially consistent bounded sequence. When `consume_all` frees
  its slots is a parameter of `SyscallPairs`.
- The event loop, the queue protocol and the syscall worker are step functions on values where threads interleave, since
  an imperative form would fix one interleaving; they do not capture aliasing, which the classes of the sequential parts
  do.
- One state type and one integer value type stand for all arities and value types of futures, and outcomes are whatever
  a callback produces; the trick that overlaps the state enum with an exception pointer is not modelled.
- Programs are finite expression trees whose closures capture results, not futures; a callback's effects on other objects
  are left to the sequences of operations in `Heaps`.
- Futures.Promise.Assign: demands that destroying the old value destroys neither of the two promises, which the code
  would otherwise go on to use.
- Futures.Future.Drop: does not model the report of an unhandled exception, which does nothing in the code.
- SyscallPairs.NothingIsDropped: holds for a ring that frees slots as it hands items over, and not otherwise.
- A promise dropped before it is satisfied never makes its future available, and destroys what waits there. `Heaps` and
  `Futures.Promise.Destroy` allow it; programs, of which `Futures.Cpu.Run` speaks, do not do it.
- A closure is moved once when it is attached; the source may move it several times, which `Futures.Promise.Move` covers
  one by one.
- A deadline past the latest time of the clock: the sum overflows in the code, and the runs of `Timers` ignore it.
- `when_all` is modelled by its own shared state rather than inside the graph of `Futures`, because its result is a
  vector of futures and not an outcome.
- The pollers other than the signal and queue pollers are, in `CrossCpu`, a step that may schedule any tasks and resolve
  any handlers; signals other than SIGALRM are not told apart there.
- `to_timespec`, configuration, logging, `App`, `File` handles, `do_with`, `apply`, `discard_result`, `or_terminate`,
  `handle_exception_type` and the coroutine adapter: thin wrappers that would only add easy members.
