/** Spawning in memory: the task, its join channel and its handle. */
module Spawners {
  import opened Types
  import opened Scheduler
  import opened Channel
  import opened TaskManagers
  import opened Reactors
  import opened BoundedChannels

  datatype JoinPoll = Ok(value: Value) | Error | NotReady

  class JoinHandle {
    const rx: BoundedChannel
    const task: TaskId
    const heap: TaskHeap
    var hasAwaited: bool
    var recvFut: bool       // the stored recv future, once made

    constructor (rx: BoundedChannel, task: TaskId, heap: TaskHeap)
      ensures this.rx == rx && this.task == task && this.heap == heap && !hasAwaited && !recvFut
    {
      this.rx, this.task, this.heap, hasAwaited, recvFut := rx, task, heap, false, false;
    }

    /**
      Ready exactly when a value was counted, with the oldest value; Pending leaves the waker with the
      reactor; never an error, however many sends stand between enqueue and count.
     */
    method Poll(cx: TaskId, ghost uncounted: nat) returns (res: JoinPoll)
      requires Ordered(rx.View(), uncounted) && rx.reactor.Valid() && cx in rx.reactor.tm.heap.strong
      modifies this, rx`queue, rx`queueCnt, rx`received, rx`errors, rx.reactor`reactorTags, rx.reactor.tm.heap`strong
      ensures Ordered(rx.View(), uncounted) && rx.reactor.Valid() && hasAwaited && recvFut && !res.Error?
      ensures res.Ok? ==> old(rx.queue) == [res.value] + rx.queue && rx.received == old(rx.received) + [res.value]
      ensures res.NotReady? <==> old(rx.queueCnt) == 0
      ensures res.NotReady? ==>
                && rx.View() == old(rx.View())
                && rx.reactorTag in rx.reactor.reactorTags && rx.reactor.reactorTags[rx.reactorTag] == cx
    {
      PollKeepsOrder(rx.View(), uncounted);
      hasAwaited := true;
      if !recvFut {
        recvFut := true;
      }
      var polled := rx.PollRecv(cx);
      match polled
      case Got(v) => res := Ok(v);
      case Failed => res := Error;
      case Waiting => res := NotReady;
    }

    /** Consumes the handle, so its receiver is dropped with it. */
    method Abort()
      modifies heap`dead, rx`receiverDropped
      ensures heap.dead == old(heap.dead) + {task} && rx.receiverDropped
    {
      heap.Abort(task);
      rx.receiverDropped := true;
    }
  }

  /** The task's cell, with the one handle that registration consumes. */
  method Submit(tm: TaskManager, task: TaskId)
    requires tm.Valid() && task !in tm.heap.strong && task !in tm.heap.dead && RoomFor(tm.View(), task)
    modifies tm`executors, tm`accepted, tm`removed, tm.heap`strong, tm.heap`live
    modifies tm.waitingTasks, tm.waitingTasks.buffer, tm.waitingExecutors, tm.waitingExecutors.buffer
    ensures tm.Valid() && tm.View() == Register(old(tm.View()).(strong := old(tm.heap.strong)[task := 1]), task)
    ensures tm.heap.live == old(tm.heap.live) + {task}
  {
    SoundNewTask(tm.View(), task);
    tm.heap.Allocate(task);
    tm.RegisterOrExecuteNonBlockingTask(task);
  }

  /** A join channel of capacity one with its handle, and a fresh task submitted. */
  method Spawn(tm: TaskManager, reactor: Reactor, task: TaskId, tag: Tag) returns (jh: JoinHandle)
    requires tm.Valid() && reactor.tm == tm && task !in tm.heap.strong && task !in tm.heap.dead
    requires RoomFor(tm.View(), task)
    modifies tm`executors, tm`accepted, tm`removed, tm.heap`strong, tm.heap`live
    modifies tm.waitingTasks, tm.waitingTasks.buffer, tm.waitingExecutors, tm.waitingExecutors.buffer
    ensures tm.Valid() && tm.View() == Register(old(tm.View()).(strong := old(tm.heap.strong)[task := 1]), task)
    ensures tm.heap.live == old(tm.heap.live) + {task}
    ensures fresh(jh) && fresh(jh.rx) && jh.task == task && jh.heap == tm.heap && !jh.hasAwaited && !jh.recvFut
    ensures jh.rx.Valid() && jh.rx.View() == NewChan(1) && jh.rx.reactorTag == tag && jh.rx.reactor == reactor
  {
    var rx := new BoundedChannel(reactor, tag, 1);
    jh := new JoinHandle(rx, task, tm.heap);
    Submit(tm, task);
  }
}
