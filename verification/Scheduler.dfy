/**
  The task manager as a value: the two rings, the executor inboxes, the reference counts of the
  tasks they hold, and the history of what was accepted and removed. The class TaskManager is
  proved against Register and ExecutorReady, and the runtime's transition system takes its
  scheduling steps from them.
 */
module Scheduler {
  import opened Types

  /** One entry leaving the queue: sent to an executor, or dropped because its task had been aborted. */
  datatype Removal = Dispatched(task: TaskId) | Discarded(task: TaskId)

  datatype Sched = Sched(
    strong: map<TaskId, int>,
    dead: set<TaskId>,
    waiting: seq<TaskId>,
    idle: seq<ExecId>,
    inbox: map<ExecId, seq<TaskId>>,
    accepted: seq<TaskId>,
    removed: seq<Removal>)

  function Bump(strong: map<TaskId, int>, t: TaskId, n: int): map<TaskId, int> {
    if t in strong then strong[t := strong[t] + n] else strong
  }

  function Retain(c: Sched, t: TaskId): Sched {
    c.(strong := Bump(c.strong, t, 1))
  }

  function Release(c: Sched, t: TaskId): Sched {
    c.(strong := Bump(c.strong, t, -1))
  }

  function Deliver(c: Sched, e: ExecId, t: TaskId): Sched {
    c.(inbox := c.inbox[e := (if e in c.inbox then c.inbox[e] else []) + [t]],
       removed := c.removed + [Dispatched(t)])
  }

  /** register_or_execute_non_blocking_task: one handle of t is consumed. */
  function Register(c: Sched, t: TaskId): Sched {
    if t in c.dead then Release(c, t)
    else
      var c := c.(accepted := c.accepted + [t]);
      if c.idle != [] then Deliver(c.(idle := c.idle[1..]), c.idle[0], t)
      else c.(waiting := c.waiting + [t])
  }

  /** Waker::wake_by_ref: a new handle is made and submitted. */
  function WakeByRef(c: Sched, t: TaskId): Sched {
    Register(Retain(c, t), t)
  }

  /** Drop the oldest waiting entry, an aborted task. */
  function Discard(c: Sched): Sched
    requires c.waiting != []
  {
    Release(c, c.waiting[0]).(waiting := c.waiting[1..], removed := c.removed + [Discarded(c.waiting[0])])
  }

  /** executor_ready: skip aborted entries, send the first live one, or queue the executor. */
  function ExecutorReady(c: Sched, e: ExecId): Sched
    decreases |c.waiting|
  {
    if c.waiting == [] then c.(idle := c.idle + [e])
    else if c.waiting[0] in c.dead then ExecutorReady(Discard(c), e)
    else Deliver(c.(waiting := c.waiting[1..]), e, c.waiting[0])
  }

  // ---------------------------------------------------------------- order and work conservation

  function TasksOf(removed: seq<Removal>): seq<TaskId> {
    seq(|removed|, i requires 0 <= i < |removed| => removed[i].task)
  }

  /** Never both a task waiting and an executor idle. */
  ghost predicate WorkConserving(c: Sched) {
    c.waiting == [] || c.idle == []
  }

  /** Everything accepted left in order, by dispatch or as an aborted entry, or is still waiting in order. */
  ghost predicate Fifo(c: Sched) {
    && c.accepted == TasksOf(c.removed) + c.waiting
    && forall i | 0 <= i < |c.removed| && c.removed[i].Discarded? :: c.removed[i].task in c.dead
  }

  lemma TasksOfSnoc(removed: seq<Removal>, r: Removal)
    ensures TasksOf(removed + [r]) == TasksOf(removed) + [r.task]
  {}

  lemma RegisterKeepsOrder(c: Sched, t: TaskId)
    requires Fifo(c) && WorkConserving(c)
    ensures Fifo(Register(c, t)) && WorkConserving(Register(c, t))
    ensures t !in c.dead ==> Register(c, t).accepted == c.accepted + [t]
  {
    TasksOfSnoc(c.removed, Dispatched(t));
  }

  lemma {:induction false} ExecutorReadyKeepsOrder(c: Sched, e: ExecId)
    requires Fifo(c) && WorkConserving(c)
    ensures Fifo(ExecutorReady(c, e)) && WorkConserving(ExecutorReady(c, e))
    ensures ExecutorReady(c, e).accepted == c.accepted && ExecutorReady(c, e).dead == c.dead
    decreases |c.waiting|
  {
    if c.waiting != [] {
      var t := c.waiting[0];
      TasksOfSnoc(c.removed, Dispatched(t));
      TasksOfSnoc(c.removed, Discarded(t));
      assert c.waiting == [t] + c.waiting[1..];
      assert TasksOf(c.removed) + c.waiting == TasksOf(c.removed) + [t] + c.waiting[1..];
      if t in c.dead {
        ExecutorReadyKeepsOrder(Discard(c), e);
      }
    }
  }

  // ---------------------------------------------------------------- what executor_ready removes

  /** n is the length of the maximal aborted prefix of the waiting ring. */
  ghost predicate DeadPrefix(c: Sched, n: nat) {
    && n <= |c.waiting|
    && (forall i | 0 <= i < n :: c.waiting[i] in c.dead)
    && (n < |c.waiting| ==> c.waiting[n] !in c.dead)
  }

  /**
    executor_ready removes exactly the maximal aborted prefix and the first live task, which goes
    to the calling executor; with no live task the ring is emptied and the executor queued.
   */
  lemma {:induction false} ExecutorReadyRemoves(c: Sched, e: ExecId, n: nat)
    requires DeadPrefix(c, n)
    ensures var d := ExecutorReady(c, e);
      && d.dead == c.dead && d.accepted == c.accepted
      && (n < |c.waiting| ==>
            && d.waiting == c.waiting[n + 1..] && d.idle == c.idle
            && d.inbox == c.inbox[e := (if e in c.inbox then c.inbox[e] else []) + [c.waiting[n]]]
            && d.removed == c.removed + seq(n, i requires 0 <= i < n => Discarded(c.waiting[i]))
                            + [Dispatched(c.waiting[n])])
      && (n == |c.waiting| ==>
            && d.waiting == [] && d.idle == c.idle + [e] && d.inbox == c.inbox
            && d.removed == c.removed + seq(n, i requires 0 <= i < n => Discarded(c.waiting[i])))
    decreases n
  {
    if n > 0 {
      var d := Discard(c);
      assert forall i | 0 <= i < n - 1 :: d.waiting[i] == c.waiting[i + 1];
      assert n < |c.waiting| ==> d.waiting[n - 1] == c.waiting[n];
      ExecutorReadyRemoves(d, e, n - 1);
      var rest := seq(n - 1, i requires 0 <= i < n - 1 => Discarded(d.waiting[i]));
      var all := seq(n, i requires 0 <= i < n => Discarded(c.waiting[i]));
      assert all == [Discarded(c.waiting[0])] + rest;
      assert d.removed + rest == c.removed + all;
      if n < |c.waiting| {
        assert d.waiting[n..] == c.waiting[n + 1..];
      }
    }
  }

  /** Such a prefix always exists, so the description above covers every call. */
  lemma {:induction false} DeadPrefixExists(c: Sched) returns (n: nat)
    ensures DeadPrefix(c, n)
    decreases |c.waiting|
  {
    if c.waiting == [] || c.waiting[0] !in c.dead {
      n := 0;
    } else {
      var m := DeadPrefixExists(Discard(c));
      n := m + 1;
      assert forall i | 0 < i < n :: c.waiting[i] == Discard(c).waiting[i - 1];
    }
  }
}
