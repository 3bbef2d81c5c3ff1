# Verification of the hooch runtime

This project models the scheduling and wake-up machinery of hooch, an asynchronous runtime, and proves
that it loses no wake-up, frees no task that is still referred to, dispatches in order and polls with
discipline, in every run and every interleaving of its threads.

It has two halves that share one set of specification functions.

* **The parts in memory.** The cyclic ring buffer, the task manager, the waker vtable, the reactor's
  tables and event loop, the bounded channel, the thread pool, the executor loop, spawning and the leaf
  futures are classes and methods over arrays and maps. Each method is proved against a function on
  values (`Register`, `ExecutorReady`, `PushRing`, `PollTable`, `Drain`, `PollChan`, `Share`, ...).
* **The parts together.** `Runtime` is a transition system over the whole state: executors and the phase
  each is in, tasks and their futures with the mutex around them, the reactor thread, senders half-way
  through a send, and closures in the pool. Its steps are built from the same functions. `Invariants` holds
  the inductive invariant and its proof over runs of any length; `Theorems`, `Timers`, `Awaiting`, `Aborts`,
  `Delivery` and `Progress` state what it means for a user. `Histories` reads off a run's steps what was really
  sent, answered, evaluated and aborted, shows that the runtime's records are that, and `Outcomes` states
  what callers get in those terms.

Where the whole-runtime model takes one step, smaller models look closer: `ExecutorPlaces` (the ring and
send operations inside the task manager's two methods), `ChannelCount` (test, `try_recv` and decrement
inside `poll_recv`), `RecvRace` and `RecvAgain` (test and waker store inside `poll_recv`, with the rest of the
runtime moving in between) and the cursor of `HoochPool` (its load and its store). Three claims that hold at the
coarser grain fail there. Each has a failing run and, proved for all inputs, the exact condition under which it
survives.

## How the runtime is modelled

| file | contents |
|---|---|
| `Types.dfy` | identifiers, `Option`, counting the values of a map |
| `RingBuffer.dfy` | the cyclic buffer, and that it is a bounded FIFO queue |
| `Scheduler.dfy`, `TaskManager.dfy` | the task manager as a value and as a class; the waker vtable |
| `TokenTable.dfy`, `Reactor.dfy` | the token table as a value; the reactor as a class, its loop as a run |
| `Channel.dfy`, `BoundedChannel.dfy` | the bounded channel as a value and as a class |
| `HoochPool.dfy`, `Leaves.dfy`, `Executor.dfy`, `Spawner.dfy` | the pool, leaf futures, executor loop, spawning |
| `Runtime.dfy`, `Runs.dfy` | the transition system, and putting its runs together |
| `ExecutorRuns.dfy` | a turn of the executor class is a run of the transition system |
| `Structure.dfy`, `References.dfy`, `Wakeups.dfy`, `Flows.dfy` | the invariant, in four parts |
| `ShapeSteps.dfy`, `CountSteps.dfy`, `WakeSteps.dfy`, `WakeOthers.dfy`, `PinSteps.dfy`, `FlowSteps.dfy` | every step keeps it |
| `Invariants.dfy` | every run keeps it |
| `Theorems.dfy`, `Timers.dfy`, `Aborts.dfy` | what follows for tasks, channels, timers, aborts and joins |
| `Awaiting.dfy` | polls go on only past what was answered; timeouts stay in force until they end |
| `Histories.dfy`, `Outcomes.dfy` | what happened in a run, read off its steps, and what callers get in those terms |
| `Delivery.dfy` | a wake-up on its way arrives by steps of senders, reactor and pool alone |
| `Progress.dfy` | no executor is ever stuck |
| `ExecutorPlaces.dfy`, `ChannelCount.dfy`, `RecvRace.dfy`, `RecvAgain.dfy` | the finer-grained systems |

**Steps.** A ring push or pop is one step. A send is four: enqueue, count, tag, mio wake. The reactor's
drain is one pop and one lookup at a time. A reactor table operation is one step, since a mutex surrounds it.
A manager method and a poll of one leaf are one step each in `Runtime`; a poll of a future is many.
Receivers may be dropped and stray tags pushed at any time, timers and I/O events may fire at any time,
and any thread, an executor running a future's code included, may spawn, abort, create channels and send.

**Futures** are abstract. A future awaits a stack of leaves: at the bottom the timers of the timeouts it is
inside, outermost first, on top the leaf it waits for. A poll goes through the stack from the bottom, as
nested `Timeout::poll` calls do, and the first ready entry drops everything above it and lets the
future's own code run on: it may enter a timeout, leave one, await a leaf, hand a connect or bind to the
pool, wake itself and return Pending, or finish with a value. A new task awaits the leaf `Runnable`.

**Memory.** `Arc<Task>` pointers are task ids and strong counts are unbounded integers, so that an
underflow would show. When the count of an aborted task reaches zero its future goes, and with it everything it
awaited; the count itself stays in the map. Indices into ring slots are natural numbers.

**What is assumed of users.** One task at a time polls a token or receives from a channel; channels are read
with `recv` only; a receiver is not dropped while a future awaits it; every executor is registered before the
first task; the pushes the source unwraps find room in the task ring and the tag ring; tags, tokens and
counters do not wrap.

## Model

| member | source | states |
|---|---|---|
| Theorems.NoLostWakeup | src/task/manager.rs:84-110 | In every reachable state, each leaf awaited by a live task that was not aborted is armed, or the task has a scheduled copy not yet polled, or the executor polling it has still to reach that leaf; a parked task awaits something |
| Theorems.NoLostChannelWakeup | src/sync/mpsc/bounded_channel.rs:69-80 | In every run, a receiver parked on a channel with a positive counter will be polled, or a sender is between count and tag, or the tag is in the ring with a drain owed, or the reactor holds the tag; its waker is the stored one unless it will be polled anyway |
| Theorems.NoLostTokenWakeup | src/reactor.rs:149-170 | In every run, a live unaborted task parked on an I/O token or a timer is that token's Awaited waker, or will be polled |
| Theorems.NoLostOffload | src/net/tcp/stream.rs:149-195 | In every run, a task awaiting a connect or bind has a closure that has still to wake it, or will be polled; a result that was computed is still in the shared slot, not lost and not taken |
| Theorems.StrongCount | src/task/task.rs:48-77 | In every reachable state a task's strong count is the number of its handles in the ring, inboxes and executors plus its wakers in the token table, the tag map, the closures and the poll contexts |
| Theorems.WakersAreAlive | src/task/task.rs:63-77 | A task whose waker is in the token table, the tag map, a closure or a poll's context has a positive strong count |
| Theorems.CopiesAreAlive | src/executor.rs:113-117 | So has a task with a scheduled copy or held by an executor |
| Theorems.LiveTasksAreAlive | src/task/task.rs:58-60 | A live task that was not aborted, parked ones included, always has a positive strong count, so it is never freed before it has run to its end |
| Delivery.ChannelDelivers | src/reactor.rs:198-213 | From every reachable state in which something is counted on a parked receiver's channel, the receiver will be polled anyway, or a run of sender and reactor steps alone schedules it |
| Delivery.TokenDelivers | src/reactor.rs:214-222 | From every reachable state a live unaborted task awaiting an I/O token or a timer will be polled anyway, or the reactor alone, by finishing what it is at and collecting one event of the token, schedules it |
| Delivery.EventDelivers | src/reactor.rs:198-222 | A collected event of the token a task awaits is handled, whatever precedes it in the batch, and schedules the task |
| Delivery.OffloadDelivers | src/pool/thread_pool.rs:37-41 | From every reachable state a task awaiting a connect or bind will be polled anyway, or a run of pool steps alone schedules it, whatever the operation answers |
| Progress.NoDeadlock | src/executor.rs:101-138 | In every reachable state every executor idles in the ring with an empty inbox, or can step, or waits for a future's mutex whose holder can step |
| Progress.WaitingKeepsBusy | src/task/manager.rs:84-95 | While a task waits in the ring no executor idles: each can step or waits for one that can |
| Theorems.FifoDispatch | src/task/manager.rs:84-110 | In every run the accepted submissions are those removed so far followed by those waiting, in order; only aborted entries were discarded; no task waits while an executor idles |
| Theorems.ExecutorsFit | src/task/manager.rs:73-80 | Every inbox holds at most one message, and the idle ring holds no executor twice and no more than were registered |
| Theorems.PollsExclude | src/executor.rs:113-133 | Two executors inside a poll of the same future are one executor, and the future being polled has not returned Ready |
| Theorems.OutputForever | src/executor.rs:127-131 | No run changes a task's output once set, or brings back a future that became None |
| Theorems.JoinSendHasRoom | src/spawner.rs:45-50 | A finished task's send finds its capacity-1 join channel empty or closed, so it never blocks the executor |
| Histories.RecordsAgree | src/spawner.rs:45-72 | In every run from build, the runtime's records are what the run's steps say: the aborted tasks, what each future evaluated to and how often it was taken up, what each operation answered, each channel's capacity, its values sent in order and whether its receiver was dropped, the unaborted submissions, and the events and tags the reactor was given |
| Outcomes.JoinGivesResult | src/spawner.rs:45-50 | In every run from build, a task's join channel carries nothing until a step of the run finishes its wrapped future with v, and then v at most once; what its JoinHandle received is nothing or v; a finished task whose handle still exists has sent v |
| Outcomes.FinishesOnce | src/spawner.rs:46-50 | No run finishes the wrapped future of a task twice |
| Theorems.JoinCorrect | src/spawner.rs:112-135 | A JoinHandle's channel never gives an error, and at most one value, the recorded output |
| Outcomes.ReceivedAreSent | src/sync/mpsc/bounded_channel.rs:69-80 | In every run from build, what a channel's receiver got, followed by what is queued, are the values the run's steps sent on it, in order; the queue never exceeds the capacity the channel was made with |
| Outcomes.ClosedIsSilent | src/sync/mpsc/bounded_channel.rs:69-71 | Once its receiver is dropped, nothing more is ever sent on a channel |
| Theorems.ChannelsDeliver | src/sync/mpsc/bounded_channel.rs:149-163 | In every reachable state a channel's queue is longer than its counter by the sends between enqueue and count, and poll_recv does not fail |
| Outcomes.OffloadGivesAnswer | src/net/tcp/stream.rs:164-194 | In every run from build, a connect or bind has been answered, once, or its closure is queued, once; the answer of the run's step is in the shared slot until the future resolves with it, and with nothing else |
| Theorems.OffloadOnce | src/net/tcp/stream.rs:154-185 | In every reachable state a connect or bind closure is either still queued once or has run once |
| Outcomes.SubmissionsInOrder | src/task/manager.rs:84-110 | In every run from build, the entries removed followed by those waiting are the submissions the run's steps made of tasks not aborted by then, in order, and the aborted tasks are those the run aborted |
| Outcomes.ReactorInOrder | src/reactor.rs:195-224 | In every run from build, the events handled followed by those of the batch are the events collected, and the tags popped followed by the ring the tags pushed, in order |
| Invariants.InvInit | src/runtime.rs:78-89 | The state after build, all executors registered and idle, satisfies the whole invariant |
| Invariants.InvStep | src/executor.rs:101-138 | Every step of an executor, another thread, the reactor or the pool keeps the whole invariant |
| Invariants.InvRun | src/executor.rs:101-138 | Every run of any length keeps it |
| Invariants.ReachableInv | src/runtime.rs:78-89 | Every state reachable from any start of the runtime satisfies it |
| ShapeSteps.ShapeAct | src/executor.rs:101-138 | An executor's step keeps executors in one place, handles with their phase, the future's mutex with the polling executor, and leaves pointing to existing resources awaited by one task |
| ShapeSteps.ShapeOther | src/reactor.rs:191-226 | So does every step of another thread, the reactor and the pool |
| CountSteps.CountsAct | src/executor.rs:113-138 | An executor's step changes each strong count by exactly the handles and wakers it makes, moves or drops |
| CountSteps.CountsOther | src/reactor.rs:214-222 | So does every other step: spawns, events consuming a waker, drains cloning one, closures waking |
| WakeSteps.WakesAct | src/executor.rs:113-138 | An executor's step loses no task's wake-up: duplicate wakes, re-polls, replacements of wakers and discards of aborted entries included |
| WakeOthers.WakesOther | src/reactor.rs:191-226 | No step of senders, the reactor, the pool or other threads loses one |
| WakeSteps.EffectArms | src/sync/mpsc/bounded_channel.rs:151-155 | A leaf polled pending is armed for the task that polled it |
| WakeOthers.WakesSendTag | src/sync/mpsc/bounded_channel.rs:74-75 | Moving a sender from count to tag keeps the announcement of its channel |
| WakeOthers.WakesFree | src/task/task.rs:58-60 | Dropping the future of an aborted task whose last handle is gone loses no other task's wake-up |
| WakeOthers.WakesLookup | src/reactor.rs:203-211 | Looking a drained tag up, which ends its announcement, schedules the parked receiver |
| PinSteps.PinsAct | src/time/sleep.rs:83-113 | An awaited timer has its task's waker or has fired, through every executor step |
| PinSteps.OwedOther | src/reactor.rs:200-212 | While a channel's tag is in the ring, a mio wake is owed, signalled or collected, or the drain runs; stray tags change nothing |
| FlowSteps.FlowAct | src/spawner.rs:45-50 | An executor's step keeps channel order and counts, join values and offload results |
| FlowSteps.FlowOther | src/sync/mpsc/bounded_channel.rs:69-80 | So does every other step |
| Wakeups.RegisterQueues | src/task/manager.rs:98-110 | Submitting keeps every scheduled copy and adds one of the submitted task unless it was aborted |
| Wakeups.ReadyQueues | src/task/manager.rs:84-95 | executor_ready loses no copy of a task that was not aborted |
| Timers.FiredForever | src/reactor.rs:111-118 | Over every run, a timer token that is Happened stays so |
| Timers.ExpiredStep | src/time/timeout.rs:87-100 | A poll that has not passed a timeout whose timer has fired stays below it or ends it with everything inside dropped, whatever other threads do |
| Timers.ExpiredRun | src/time/timeout.rs:87-100 | Over every run: until that timeout ends, this poll does not reach what is inside it |
| Awaiting.RepollAnswers | src/time/timeout.rs:91-99 | Polling again what a task awaits: either the leaf was answered, by a fired timer, a consumed event, the oldest value of the channel or the stored result, everything awaited inside it is gone and what stands outside is kept; or its wake-up is armed, nothing is gone, and the poll goes on inwards or returns |
| Awaiting.AwaitAnswers | src/sync/mpsc/bounded_channel.rs:149-163 | A first poll likewise: either answered, or awaited on top of everything else and armed |
| Awaiting.StartsToAwait | src/time/sleep.rs:84-107 | A timeout, a sleep, an offloaded operation or a yield is awaited on top of everything else; only entering a timeout lets the future's code run on |
| Awaiting.TimeoutStep | src/time/timeout.rs:91-97 | Every step keeps a timeout and all outside it in force, but for a poll that finds it or an outer one elapsed, its inner future finishing, and the freeing of the task |
| Awaiting.TimeoutStaysInForce | src/time/timeout.rs:91-93 | Over every run, whatever its inner future goes on to await: a timeout stays in force until such a step, and a task parked inside it is its timer's awaited waker, or the timer has fired and a copy is scheduled |
| Awaiting.NextPollEndsTimeout | src/time/timeout.rs:91-93 | Once its timer has fired, the next poll of the task ends that timeout or an outer one, in at most as many re-polls as there are timeouts down to it |
| Outcomes.AbortStops | src/spawner.rs:140-142 | In every run that begins with an abort, the task is aborted after that step and ever after, and is taken up by an executor at most once for each copy that was in an inbox or an executor's hands, so at most as often as there are executors |
| Outcomes.PollsCounted | src/executor.rs:113-123 | The polls counted for a task are the Lock steps executors take on it |
| Aborts.AbortedRun | src/task/manager.rs:85-92 | From an abort on, polls begun plus copies in inboxes or taken by executors add up to the same number in every run |
| Aborts.AbortBound | src/spawner.rs:140-142 | Polls after an abort are at most the copies in inboxes or taken by executors at that moment, which are at most the number of executors |
| Aborts.ReadySendsNoDead | src/task/manager.rs:85-92 | executor_ready sends no aborted task to an inbox |
| Aborts.RegisterSendsNoDead | src/task/manager.rs:98-106 | Neither does a submission or a wake |
| Scheduler.RegisterKeepsOrder | src/task/manager.rs:98-110 | A submission keeps FIFO order and work conservation, and is accepted last unless aborted |
| Scheduler.ExecutorReadyKeepsOrder | src/task/manager.rs:84-95 | executor_ready keeps FIFO order and work conservation, and accepts nothing |
| Scheduler.ExecutorReadyRemoves | src/task/manager.rs:84-95 | It removes exactly the maximal aborted prefix and the first live task, which goes to the caller; with no live task the ring is emptied and the executor queued |
| Scheduler.DeadPrefixExists | src/task/manager.rs:85-88 | Every ring has such a maximal aborted prefix, so this describes every call |
| TaskManagers.TaskManager.constructor | src/task/manager.rs:52-60 | Both rings start empty with room for 128,000 entries |
| TaskManagers.TaskManager.RegisterExecutor | src/task/manager.rs:73-80 | The executor gets an empty inbox and the last place in the idle ring |
| TaskManagers.TaskManager.ExecutorReady | src/task/manager.rs:84-95 | The loop over the concrete ring terminates in the state the specification function gives; its push onto the idle ring finds room |
| TaskManagers.TaskManager.RegisterOrExecuteNonBlockingTask | src/task/manager.rs:98-110 | The concrete submission does what its specification function says and keeps the rings and inboxes sound; room in the task ring is needed only when the task is live and nobody idle, where the source unwraps the push |
| TaskManagers.TaskManager.Send | src/task/manager.rs:104-105 | One message is appended to one inbox, nothing else changes |
| TaskManagers.IdleFits | src/task/manager.rs:94-94 | An executor that is not idle finds room in the idle ring |
| TaskManagers.CloneWaker | src/task/task.rs:48-55 | Cloning a waker raises its task's count by one |
| TaskManagers.DropWaker | src/task/task.rs:58-60 | Dropping a waker lowers it by one |
| TaskManagers.Wake | src/task/task.rs:63-69 | wake hands the waker's own handle to the scheduler |
| TaskManagers.WakeByReference | src/task/task.rs:72-77 | wake_by_ref submits a clone and the waker keeps its handle |
| RingBuffer.PushRefines | src/utils/ring_buffer.rs:87-107 | push fails exactly when the buffer is full, writes only a slot that holds nothing, and appends |
| RingBuffer.PopRefines | src/utils/ring_buffer.rs:122-145 | pop gives None exactly when the buffer is empty, reads only an initialised slot, and removes the oldest value |
| RingBuffer.RunRefines | src/utils/ring_buffer.rs:87-145 | From any good buffer, every operation sequence answers like a bounded FIFO queue with the same contents |
| RingBuffer.BufferIsFifo | src/utils/ring_buffer.rs:41-48 | A new buffer of any capacity, 0 included, does so from empty |
| RingBuffer.EndIsModulo | src/utils/ring_buffer.rs:94-104 | end is start plus count modulo the capacity |
| RingBuffer.LockFreeBoundedRingBuffer.constructor | src/utils/ring_buffer.rs:41-48 | A new buffer is empty and has the requested capacity |
| RingBuffer.LockFreeBoundedRingBuffer.Len | src/utils/ring_buffer.rs:70-72 | len is the length of the queue |
| RingBuffer.LockFreeBoundedRingBuffer.InsertValue | src/utils/ring_buffer.rs:56-62 | Only a slot that holds nothing is overwritten, and only that slot changes |
| RingBuffer.LockFreeBoundedRingBuffer.GetValue | src/utils/ring_buffer.rs:113-119 | Only an initialised slot is read, and it is left uninitialised |
| RingBuffer.LockFreeBoundedRingBuffer.Push | src/utils/ring_buffer.rs:87-107 | The array is updated as the value-level push says: rejected exactly when full, else appended |
| RingBuffer.LockFreeBoundedRingBuffer.Pop | src/utils/ring_buffer.rs:122-145 | The array is updated as the value-level pop says: the oldest value leaves, None exactly when empty |
| TokenTable.EventsAreAnswered | src/reactor.rs:149-170 | For a token used only through Reactor::poll, Ready results plus one if it is Happened equal the events that did not find it Happened |
| TokenTable.EventBetweenReadies | src/reactor.rs:164-167 | Two Ready results have an event between them |
| Reactors.Reactor.StatusStore | src/reactor.rs:103-108 | The token awaits the given waker; a replaced waker is dropped |
| Reactors.Reactor.HasTokenProgressed | src/reactor.rs:111-118 | True exactly when the token is Happened; nothing changes |
| Reactors.Reactor.StoreWakerChannel | src/reactor.rs:125-130 | The tag's waker is replaced and the old one dropped |
| Reactors.Reactor.RegisterReactorTag | src/reactor.rs:136-138 | The tag is appended to the ring |
| Reactors.Reactor.Poll | src/reactor.rs:149-170 | Ready exactly when Happened, which clears the entry; otherwise the caller is the awaited waker, and counts change by the clones and drops made |
| Reactors.Reactor.HandleToken | src/reactor.rs:214-222 | The token becomes Happened and the awaited waker, if any, is consumed by a wake |
| Reactors.Reactor.WakeTag | src/reactor.rs:203-211 | A drained tag wakes its stored waker by reference, and one without a waker does nothing |
| Reactors.Reactor.DrainTags | src/reactor.rs:200-213 | The ring is emptied, each tag waking its stored waker in order |
| Reactors.Reactor.HandleEvents | src/reactor.rs:198-224 | A batch is handled event by event in order, for every batch none of whose wake-ups meets a full task ring |
| Reactors.BatchHasRoom | src/reactor.rs:198-224 | A task ring with room for every tag and every event is enough for that |
| Reactors.DrainIsRun | src/reactor.rs:200-213 | The drain loop is a run of the transition system's pop and lookup steps |
| Reactors.BatchIsRun | src/reactor.rs:198-224 | Handling a whole batch is a run of the transition system |
| Reactors.DrainWakes | src/reactor.rs:202-212 | After a drain every unaborted task whose tag was in the ring has a scheduled copy |
| Channel.PollKeepsOrder | src/sync/mpsc/bounded_channel.rs:149-163 | poll_recv keeps order and count and never fails, with any number of sends not yet counted |
| Channel.EnqueueKeepsOrder | src/sync/mpsc/bounded_channel.rs:71-71 | An enqueue keeps order and leaves one more send uncounted |
| BoundedChannels.BoundedChannel.constructor | src/sync/mpsc/bounded_channel.rs:190-218 | A new channel is empty, with one sender |
| BoundedChannels.BoundedChannel.Send | src/sync/mpsc/bounded_channel.rs:69-80 | The caller's value joins the end of the queue and the other three effects happen, in a channel whose counters agree again; none when the receiver is gone |
| BoundedChannels.BoundedChannel.PollRecv | src/sync/mpsc/bounded_channel.rs:149-163 | Pending exactly when the counter is zero, leaving the waker with the reactor; otherwise the oldest value, and never an error |
| BoundedChannels.BoundedChannel.CloneSender | src/sync/mpsc/bounded_channel.rs:84-94 | The clone count stays the number of senders |
| BoundedChannels.BoundedChannel.DropSender | src/sync/mpsc/bounded_channel.rs:99-105 | No drop of a sender ever removes the tag, the last included |
| ChannelCount.BalancedRun | src/sync/mpsc/bounded_channel.rs:149-163 | With poll_recv and send split, every interleaving keeps the balance of queue, counter, uncounted sends and a value taken but not yet subtracted |
| ChannelCount.CountsAgree | src/sync/mpsc/bounded_channel.rs:157-161 | From a new channel: the counter never underflows, try_recv never fails after a positive test, and what was received followed by the queue are the values the senders enqueued, in order |
| RecvRace.StoreAtOnce | src/sync/mpsc/bounded_channel.rs:151-154 | Made at once, test and store are the pending poll_recv of the transition system |
| RecvRace.BesideRun | src/sync/mpsc/bounded_channel.rs:69-78 | Whatever other executors and threads do in that window, the counter rises by the sends counted in it, and the announcements of the channel by those less the lookups of its tag |
| RecvRace.LateStoreExactly | src/sync/mpsc/bounded_channel.rs:151-154 | After a test that saw zero, in every window of steps up to the store: the store leaves the receiver a wake-up if and only if no send was counted in the window, or fewer of the channel's tags were looked up than announced, or the task was aborted or has another copy |
| RecvRace.SafeWithoutLookup | src/sync/mpsc/bounded_channel.rs:151-154 | The store is safe after every window in which the reactor does not look the channel's tag up |
| RecvAgain.SafeWhenStored | src/reactor.rs:203-211 | It is safe after every window whatsoever for a task whose waker the reactor already had at the test, as one that has waited on the channel before |
| RecvRace.SplitPollLosesWakeup | src/sync/mpsc/bounded_channel.rs:151-154 | A reachable state whose test sees zero, and a window with no step of the polling executor, after which the store parks the receiver with a value counted and no wake-up to come |
| ExecutorPlaces.ConservedStep | src/task/manager.rs:84-110 | With pop, send and push as separate steps, every step leaves each executor in exactly one place |
| ExecutorPlaces.DispatchNeverBlocks | src/task/manager.rs:73-110 | In every interleaving from registration each executor is in one place, the registered executors stay the same, the idle ring has no duplicate, every send finds an empty inbox, and every push onto the idle ring finds room for at most 128,000 executors |
| ExecutorPlaces.SubmissionIsRegister | src/task/manager.rs:98-110 | The steps of one submission, made without interruption, do what the whole call does to rings, inboxes and flags |
| ExecutorPlaces.CallIsExecutorReady | src/task/manager.rs:84-95 | So do the steps of one executor_ready call, whatever aborted entries it skips |
| ExecutorPlaces.GuardedRun | src/task/manager.rs:84-110 | Over every run in which no submission before its push stands beside an executor before its push, what both found stays so: no executor idle, no task waiting |
| ExecutorPlaces.ConservingUntilCrossed | src/task/manager.rs:84-110 | From registration, work conservation holds in every run up to the first such crossing, and a crossing is exactly what lets the two pushes that follow leave a task waiting beside an idle executor |
| ExecutorPlaces.StrandedTask | src/task/manager.rs:94-109 | A run from registration, with one executor, that ends so |
| Executors.ReadyTakesAlive | src/task/manager.rs:84-95 | What executor_ready gives the executor, followed by the live tasks left, are the live tasks that waited, in order |
| Executors.SubmitsQueue | src/task/manager.rs:98-110 | What a poll submits goes to idle executors while there are any and then to the task ring, aborted tasks to neither, in order |
| Executors.TurnServes | src/executor.rs:102-110 | A turn takes the first task of the executor's work; what follows is the rest of it and then the live tasks its poll submitted that no idle executor took |
| Executors.Executor.ForwardTask | src/executor.rs:113-138 | A future is polled exactly when it is still Some and becomes None when Ready; its wakes and spawns reach the scheduler in order between the making and the dropping of the context waker, and the handle is consumed |
| Executors.Executor.Turn | src/executor.rs:102-110 | One turn in memory is the turn function, for polls that wake and spawn tasks |
| Executors.Executor.Run | src/executor.rs:101-111 | The loop serves its inbox, the live waiting tasks, and then the live tasks its own polls submitted and no idle executor took, in that order, and ends idle with the ring empty |
| ExecutorRuns.ForwardIsRun | src/executor.rs:113-138 | Forwarding a task that is due, with a poll that spawns and then yields or finishes, is a run of the transition system from Lock to DropTask with the same scheduler state and the same live futures |
| ExecutorRuns.NothingToPoll | src/executor.rs:122-133 | So is forwarding a task whose future is None |
| Spawners.Spawn | src/spawner.rs:41-73 | A fresh live task with one handle is submitted, with a new capacity-1 join channel |
| Spawners.JoinHandle.Poll | src/spawner.rs:112-135 | Pending exactly when the counter is zero, leaving the waker stored; otherwise Ready with the oldest value; never an error, with any number of sends between enqueue and count |
| Spawners.JoinHandle.Abort | src/spawner.rs:140-142 | The shared flag is set, and the handle's receiver is gone |
| HoochPools.HoochPool.constructor | src/pool/thread_pool.rs:24-52 | A pool of any number of threads starts with empty worker queues and its cursor at 0 |
| HoochPools.HoochPool.GetAndUpdateIndex | src/pool/thread_pool.rs:63-68 | The old cursor is returned and the cursor advances cyclically |
| HoochPools.HoochPool.Execute | src/pool/thread_pool.rs:70-74 | Job k goes to worker k modulo the number of workers, waiting for that worker to receive one job when its queue is full, and each worker's jobs stay its share in order |
| HoochPools.HoochPool.RunOne | src/pool/thread_pool.rs:38-39 | A worker receives and runs its oldest job |
| HoochPools.HoochPool.RunWorker | src/pool/thread_pool.rs:37-41 | A worker runs every queued job exactly once, in order |
| HoochPools.ShareSize | src/pool/thread_pool.rs:63-74 | After any number of jobs worker w has had one per full round, and one more if the last round reached it |
| HoochPools.SharesBalanced | src/pool/thread_pool.rs:63-74 | No worker has had more than one job more than another |
| HoochPools.ChosenInRange | src/pool/thread_pool.rs:63-68 | However callers interleave load and store of the cursor, every chosen index names a worker |
| HoochPools.SequentialRotates | src/pool/thread_pool.rs:63-68 | If no caller loads while another is between load and store, choice i is i modulo the number of workers, in every schedule |
| HoochPools.OverlapRepeats | src/pool/thread_pool.rs:63-68 | From every rotating state, a second caller that loads before the first has stored is given the first one's worker when both store |
| HoochPools.RotationNeedsTurns | src/pool/thread_pool.rs:63-68 | A load keeps the rotation in every schedule whose later loads wait their turn if and only if nobody is between load and store |
| Leaves.Sleep.Poll | src/time/sleep.rs:79-114 | The first poll stores the waker, arms the timer and is Pending; later ones are Ready exactly when the token is Happened, and only look |
| Leaves.ReadFuture.Poll | src/net/tcp/stream.rs:90-101 | The read loop tries at most twice in a poll; a pending poll has stored exactly the caller's waker, a finished one reports its last attempt and none, and an event it was woken for is always followed by an attempt |
| Leaves.Timeout.Poll | src/time/timeout.rs:87-100 | Elapsed exactly when the timer was set and has fired, and then the inner future, a read, is not polled; otherwise the result is the read's, and a pending one leaves both leaves armed |
| Leaves.OffloadedSocket.Poll | src/net/tcp/listener.rs:147-193 | The closure is submitted once, by the first poll; the result is given exactly when it was stored, once; the operation's record changes as the transition system's does |
| Leaves.OffloadedSocket.RunClosure | src/net/tcp/listener.rs:164-177 | The closure stores the operation's own result, which a later poll takes, and then its waker submits the task |

## Where code and comments disagree

* `src/sync/mpsc/bounded_channel.rs:98-104`: the comment says the last dropped sender removes the tag. The
  count starts at 1 and the test is on the value before the decrement, so a drop never sees 0. `DropSender`
  follows the code, and the tag map of the transition system only grows.
* `src/task/manager.rs:97`: "if no executor is ready, register the task as waiting" holds for a whole call. Between
  the failed pop and the push an executor may queue itself, which leaves both rings non-empty (`StrandedTask`).
* `src/runtime.rs:160` speaks of round-robin scheduling of tasks; tasks go to whichever executor is idle, and only
  pool jobs rotate.

## Left out

- NoLostChannelWakeup: takes the counter test and the waker store of `poll_recv` as one step; split, it is false, and `RecvRace.LateStoreExactly` gives the exact condition.
- FifoDispatch: takes each manager method as one step; at a finer grain work conservation is false, and `ExecutorPlaces.ConservingUntilCrossed` gives the exact condition.
- JoinCorrect: says nothing of a handle whose future panicked.
- ChannelDelivers: shows that a delivering run exists, not that the operating system runs the threads that make it; so does `OffloadDelivers`.
- BoundedChannel.DropSender: reports whether the tag would be removed; `remove_tag` itself is never reached and is not modelled.
- BoundedChannel.Send: requires room in the std queue, where the source blocks, and in the tag ring, whose push the source unwraps, unless the receiver is gone. Like the other class methods it describes one call at a time; the interleavings are those of `Runtime` and of the finer systems.
- Executor.Run: runs until its inbox is empty, where the source blocks; what its polls do is an input.
- ForwardIsRun: is about polls that spawn, yield or finish; polls of I/O, timer, channel and offload leaves are steps of `Runtime` that the executor class does not describe.
- Timeout.Poll: its inner future is a read; nested timeouts and other inner futures are in `Runtime`.
- HoochPool.Execute: requires at least one thread; without any the source divides by zero.
- LockFreeBoundedRingBuffer.Push: is one step. Interleavings inside push and pop, and memory orderings, are left out: the count is raised before `end` is stored, so overlapping calls are not FIFO. Capacity is taken to be the requested bound, which a vector of zero-sized values does not give.
- Pushes onto a full task or tag ring, which the source unwraps: the methods require that none is reached (`RoomFor`, `BatchFits`), and the rings of `Runtime` have no bound.
- Futures that poll several leaves at once other than through `timeout` (joins or selects of a user's own) are outside the await stack.
- Several tasks polling one token at once, such as sending and receiving on one UDP socket: the later waker replaces the earlier.
- `BoundedReceiver::try_recv`, which takes values without lowering the counter.
- Disconnect errors of channels whose senders are all gone. `bounded_channel(0)`, a rendezvous channel, never accepts a send in the model.
- `HoochFile`: opening pushes a tag before the work is done, so no delivery follows; reading is plain I/O.
- `Handle::run_blocking` and its std channel, runtime guards, thread-local singletons, thread start-up and the `Finished` message.
- Panics of futures, `panic_tx`, and poisoned mutexes.
- mio, timerfd, sockets, clocks and DashMap: events and results are nondeterministic, maps are plain.
- `src/blocker.rs` and `src/select.rs`, which are commented out.
