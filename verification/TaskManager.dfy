/** The task manager and the task waker's vtable, over the memory that Arc<Task> pointers designate. */
module TaskManagers {
  import opened Types
  import opened Scheduler
  import opened RingBuffer

  const RING_CAPACITY: nat := 128 * 1000
  const MAX_QUEUED_TASKS: nat := 10_000

  /** The heap cells of the tasks: strong counts, abort flags, and which futures are still Some. */
  class TaskHeap {
    var strong: map<TaskId, int>
    var dead: set<TaskId>
    var live: set<TaskId>

    constructor ()
      ensures strong == map[] && dead == {} && live == {}
    {
      strong, dead, live := map[], {}, {};
    }

    predicate HasAborted(t: TaskId)
      reads this
    {
      t in dead
    }

    /** JoinHandle::abort swaps the shared flag. */
    method Abort(t: TaskId)
      modifies this`dead
      ensures dead == old(dead) + {t}
    {
      dead := dead + {t};
    }

    /** Arc::new of a task whose future is Some. */
    method Allocate(t: TaskId)
      requires t !in strong && t !in dead
      modifies this`strong, this`live
      ensures strong == old(strong)[t := 1] && live == old(live) + {t}
    {
      strong, live := strong[t := 1], live + {t};
    }

    /** Arc::clone */
    method CloneArc(t: TaskId)
      requires t in strong
      modifies this`strong
      ensures strong == Bump(old(strong), t, 1)
    {
      strong := strong[t := strong[t] + 1];
    }

    /** Dropping an Arc. */
    method DropArc(t: TaskId)
      requires t in strong
      modifies this`strong
      ensures strong == Bump(old(strong), t, -1)
    {
      strong := strong[t := strong[t] - 1];
    }
  }

  /** The executors fit their ring, those in it are registered and have no message, and queued tasks exist. */
  ghost predicate Sound(c: Sched) {
    && |c.inbox| <= RING_CAPACITY && NoDup(c.idle)
    && (forall e | e in c.idle :: e in c.inbox && c.inbox[e] == [])
    && (forall t | t in c.waiting :: t in c.strong)
  }

  /** The unwrapped push of a submission finds room, or is not reached. */
  predicate RoomFor(c: Sched, t: TaskId) {
    t in c.dead || c.idle != [] || |c.waiting| < RING_CAPACITY
  }

  /** Idle executors other than e leave room for e in their ring. */
  lemma IdleFits(c: Sched, e: ExecId)
    requires Sound(c) && e in c.inbox && e !in c.idle
    ensures |c.idle| < |c.inbox| <= RING_CAPACITY
  {
    NoDupSize(c.idle, c.inbox.Keys - {e});
  }

  lemma SoundNewExecutor(c: Sched, e: ExecId)
    requires Sound(c) && e !in c.inbox && |c.inbox| < RING_CAPACITY
    ensures |c.idle| <= |c.inbox| && Sound(c.(inbox := c.inbox[e := []], idle := c.idle + [e]))
  {
    NoDupSize(c.idle, c.inbox.Keys);
  }

  lemma SoundNewTask(c: Sched, t: TaskId)
    requires Sound(c)
    ensures Sound(c.(strong := c.strong[t := 1]))
  {}

  lemma SoundRegister(c: Sched, t: TaskId)
    requires Sound(c) && t in c.strong
    ensures Sound(Register(c, t))
  {}

  lemma SoundDiscard(c: Sched)
    requires Sound(c) && c.waiting != []
    ensures Sound(Discard(c))
  {}

  lemma SoundDeliver(c: Sched, e: ExecId)
    requires Sound(c) && c.waiting != [] && e in c.inbox && e !in c.idle
    ensures Sound(Deliver(c.(waiting := c.waiting[1..]), e, c.waiting[0]))
  {}

  lemma SoundIdle(c: Sched, e: ExecId)
    requires Sound(c) && e in c.inbox && c.inbox[e] == [] && e !in c.idle
    ensures Sound(c.(idle := c.idle + [e]))
  {}

  class TaskManager {
    const heap: TaskHeap
    const waitingTasks: LockFreeBoundedRingBuffer<TaskId>
    const waitingExecutors: LockFreeBoundedRingBuffer<ExecId>
    var executors: map<ExecId, seq<TaskId>>  // each registered executor's sync channel
    ghost var accepted: seq<TaskId>
    ghost var removed: seq<Removal>

    ghost predicate Valid()
      reads this, heap, waitingTasks, waitingTasks.buffer, waitingExecutors, waitingExecutors.buffer
    {
      && waitingTasks as object != waitingExecutors as object
      && waitingTasks.buffer as object != waitingExecutors.buffer as object
      && waitingTasks.Valid() && waitingExecutors.Valid()
      && waitingTasks.Capacity() == RING_CAPACITY && waitingExecutors.Capacity() == RING_CAPACITY
      && Sound(View())
    }

    ghost function View(): Sched
      reads this, heap, waitingTasks, waitingTasks.buffer, waitingExecutors, waitingExecutors.buffer
      requires waitingTasks.Valid() && waitingExecutors.Valid()
    {
      Sched(heap.strong, heap.dead, waitingTasks.Contents(), waitingExecutors.Contents(), executors, accepted, removed)
    }

    constructor (heap: TaskHeap)
      requires heap.strong == map[] && heap.dead == {}
      ensures this.heap == heap && fresh(waitingTasks) && fresh(waitingExecutors)
      ensures fresh(waitingTasks.buffer) && fresh(waitingExecutors.buffer)
      ensures Valid() && View() == Sched(map[], {}, [], [], map[], [], [])
    {
      this.heap := heap;
      waitingTasks := new LockFreeBoundedRingBuffer<TaskId>(RING_CAPACITY);
      waitingExecutors := new LockFreeBoundedRingBuffer<ExecId>(RING_CAPACITY);
      executors := map[];
      accepted, removed := [], [];
    }

    /** build registers every executor before any task. */
    method RegisterExecutor(e: ExecId)
      requires Valid() && e !in executors && |executors| < RING_CAPACITY
      modifies this`executors, waitingExecutors, waitingExecutors.buffer
      ensures Valid()
      ensures View() == old(View()).(inbox := old(executors)[e := []], idle := old(View()).idle + [e])
    {
      SoundNewExecutor(View(), e);
      executors := executors[e := []];
      var pushed := waitingExecutors.Push(e);
      assert pushed.Pushed?;
    }

    /** sender.send: the channel of a ready executor is empty, so the send does not block. */
    method Send(e: ExecId, task: TaskId)
      requires e in executors && |executors[e]| < MAX_QUEUED_TASKS
      modifies this`executors, this`removed
      ensures executors == old(executors)[e := old(executors)[e] + [task]]
      ensures removed == old(removed) + [Dispatched(task)]
    {
      executors := executors[e := executors[e] + [task]];
      removed := removed + [Dispatched(task)];
    }

    method ExecutorReady(e: ExecId)
      requires Valid() && e in executors && executors[e] == [] && e !in waitingExecutors.Contents()
      modifies this`executors, this`removed, heap`strong
      modifies waitingTasks, waitingTasks.buffer, waitingExecutors, waitingExecutors.buffer
      ensures Valid() && View() == Scheduler.ExecutorReady(old(View()), e)
    {
      while true
        invariant Valid() && e in executors && executors[e] == [] && e !in waitingExecutors.Contents()
        invariant Scheduler.ExecutorReady(View(), e) == Scheduler.ExecutorReady(old(View()), e)
        decreases |waitingTasks.Contents()|
      {
        ghost var before := View();
        var next := waitingTasks.Pop();
        if next.None? {
          break;
        }
        var task := next.value;
        HeadAndTail(before.waiting, task, waitingTasks.Contents());
        if heap.HasAborted(task) {
          heap.DropArc(task);
          removed := removed + [Discarded(task)];
          SoundDiscard(before);
          assert View() == Discard(before);
          continue;
        }
        SoundDeliver(before, e);
        Send(e, task);
        return;
      }
      IdleFits(View(), e);
      SoundIdle(View(), e);
      var pushed := waitingExecutors.Push(e);
      assert pushed.Pushed?;
    }

    method RegisterOrExecuteNonBlockingTask(task: TaskId)
      requires Valid() && task in heap.strong && RoomFor(View(), task)
      modifies this`executors, this`accepted, this`removed, heap`strong
      modifies waitingTasks, waitingTasks.buffer, waitingExecutors, waitingExecutors.buffer
      ensures Valid() && View() == Register(old(View()), task)
    {
      SoundRegister(View(), task);
      if heap.HasAborted(task) {
        heap.DropArc(task);
        return;
      }
      accepted := accepted + [task];
      ghost var before := View();
      var exec := waitingExecutors.Pop();
      if exec.Some? {
        HeadAndTail(before.idle, exec.value, waitingExecutors.Contents());
        Send(exec.value, task);
        return;
      }
      var pushed := waitingTasks.Push(task);
      assert pushed.Pushed?;
    }
  }

  // ---------------------------------------------------------------- the waker vtable

  /** Arc::from_raw, Arc::clone, mem::forget: one handle more. */
  method CloneWaker(heap: TaskHeap, ptr: TaskId) returns (waker: TaskId)
    requires ptr in heap.strong
    modifies heap`strong
    ensures waker == ptr && heap.strong == Bump(old(heap.strong), ptr, 1)
  {
    heap.CloneArc(ptr);
    waker := ptr;
  }

  /** Arc::from_raw, dropped: one handle fewer. */
  method DropWaker(heap: TaskHeap, ptr: TaskId)
    requires ptr in heap.strong
    modifies heap`strong
    ensures heap.strong == Bump(old(heap.strong), ptr, -1)
  {
    heap.DropArc(ptr);
  }

  /** The waker's own handle is the one submitted. */
  method Wake(tm: TaskManager, ptr: TaskId)
    requires tm.Valid() && ptr in tm.heap.strong && RoomFor(tm.View(), ptr)
    modifies tm`executors, tm`accepted, tm`removed, tm.heap`strong
    modifies tm.waitingTasks, tm.waitingTasks.buffer, tm.waitingExecutors, tm.waitingExecutors.buffer
    ensures tm.Valid() && tm.View() == Register(old(tm.View()), ptr)
  {
    tm.RegisterOrExecuteNonBlockingTask(ptr);
  }

  /** A clone is submitted, and the waker keeps its own handle. */
  method WakeByReference(tm: TaskManager, ptr: TaskId)
    requires tm.Valid() && ptr in tm.heap.strong && RoomFor(tm.View(), ptr)
    modifies tm`executors, tm`accepted, tm`removed, tm.heap`strong
    modifies tm.waitingTasks, tm.waitingTasks.buffer, tm.waitingExecutors, tm.waitingExecutors.buffer
    ensures tm.Valid() && tm.View() == WakeByRef(old(tm.View()), ptr)
  {
    tm.heap.CloneArc(ptr);
    tm.RegisterOrExecuteNonBlockingTask(ptr);
  }
}
