/**
  No lost wake-up: every live task that was not aborted has, for each thing it awaits, a wake-up
  still to come, or a scheduled copy, or an executor about to poll that very thing.
 */
module Wakeups {
  import opened Types
  import opened Scheduler
  import opened TokenTable
  import opened Runtime
  import opened Structure

  // ---------------------------------------------------------------- scheduled copies

  ghost predicate HasMessage(inbox: map<ExecId, seq<TaskId>>, t: TaskId) {
    exists e :: e in inbox && t in inbox[e]
  }

  ghost predicate IsHeld(x: Execs, t: TaskId) {
    exists e :: e in x.held && x.held[e] == t && e in x.phase && x.phase[e].Holding?
  }

  /** t has a copy that some executor has not begun to poll. */
  ghost predicate Queued(c: Sched, x: Execs, t: TaskId) {
    t in c.waiting || HasMessage(c.inbox, t) || IsHeld(x, t)
  }

  /** Submitting keeps every copy, and adds one of u unless u was aborted. */
  lemma RegisterQueues(c: Sched, x: Execs, u: TaskId, t: TaskId)
    requires Queued(c, x, t) || (t == u && u !in c.dead)
    ensures Queued(Register(c, u), x, t)
  {
    var d := Register(c, u);
    if u !in c.dead && c.idle != [] {
      var e := c.idle[0];
      assert u in d.inbox[e];
      if HasMessage(c.inbox, t) {
        var f :| f in c.inbox && t in c.inbox[f];
        assert t in d.inbox[f];
      }
    }
  }

  lemma WakeQueues(c: Sched, x: Execs, u: TaskId, t: TaskId)
    requires Queued(c, x, t) || (t == u && u !in c.dead)
    ensures Queued(WakeByRef(c, u), x, t)
  {
    RegisterQueues(Retain(c, u), x, u, t);
  }

  /** executor_ready loses no copy of a task that was not aborted. */
  lemma {:induction false} ReadyQueues(c: Sched, e: ExecId, t: TaskId)
    requires t !in c.dead && (t in c.waiting || HasMessage(c.inbox, t))
    ensures t in ExecutorReady(c, e).waiting || HasMessage(ExecutorReady(c, e).inbox, t)
    decreases |c.waiting|
  {
    if c.waiting != [] {
      var u := c.waiting[0];
      if u in c.dead {
        ReadyQueues(Discard(c), e, t);
      } else {
        var d := ExecutorReady(c, e);
        assert u in d.inbox[e];
        if HasMessage(c.inbox, t) {
          var f :| f in c.inbox && t in c.inbox[f];
          assert t in d.inbox[f];
        }
      }
    }
  }

  // ---------------------------------------------------------------- armed leaves

  ghost predicate Counting(sends: map<Sender, SendStage>, tag: Tag) {
    exists a :: a in sends && sends[a] == Counted(tag)
  }

  /** A sender is between count and tag, or the tag is in the ring, or the reactor holds it. */
  ghost predicate Announced(r: React, sends: map<Sender, SendStage>, tag: Tag) {
    Counting(sends, tag) || tag in r.ring || r.loop == Lookup(tag)
  }

  /** A wake-up for t's wait on leaf is still to come. */
  ghost predicate Armed(r: React, n: Net, closures: map<OffId, TaskId>, t: TaskId, leaf: Leaf) {
    match leaf
    case Runnable => false
    case SleepLeaf(tok) => tok in r.table && r.table[tok] == Awaited(t)
    case TokenLeaf(tok) => tok in r.table && r.table[tok] == Awaited(t)
    case RecvLeaf(tag) =>
      && tag in r.tags && r.tags[tag] == t && tag in n.chans
      && (n.chans[tag].cnt == 0 || Announced(r, n.sends, tag))
    case OffloadLeaf(id) => id in closures && closures[id] == t
  }

  /** An executor polling t has still to poll stack[k]. */
  ghost predicate Repolling(x: Execs, b: Body, k: int) {
    b.lock.Some? && b.lock.value in x.phase && x.phase[b.lock.value].Repoll? && x.phase[b.lock.value].at <= k
  }

  ghost predicate TaskWakes(c: Sched, x: Execs, r: React, n: Net, closures: map<OffId, TaskId>, t: TaskId, b: Body) {
    b.live && t !in c.dead && !Queued(c, x, t) ==>
      forall k | 0 <= k < |b.stack| :: Armed(r, n, closures, t, b.stack[k]) || Repolling(x, b, k)
  }

  ghost predicate AllWake(s: State) {
    forall t | t in s.tasks :: TaskWakes(s.sched, s.execs, s.react, s.net, s.pool.closures, t, s.tasks[t])
  }

  /**
    A timer a task awaits has that task's waker or has fired, and stays so; an offloaded operation
    it awaits has not been resolved, and wakes no one else.
   */
  ghost predicate Pinned(r: React, p: Pool, t: TaskId, leaf: Leaf) {
    match leaf
    case SleepLeaf(tok) => tok in r.table && (r.table[tok].Happened? || r.table[tok] == Awaited(t))
    case OffloadLeaf(id) => id in p.offs && p.offs[id].resolved.None? && (id in p.closures ==> p.closures[id] == t)
    case _ => true
  }

  ghost predicate AllPinned(r: React, p: Pool, tasks: map<TaskId, Body>) {
    forall t, k | t in tasks && 0 <= k < |tasks[t].stack| :: Pinned(r, p, t, tasks[t].stack[k])
  }

  /**
    A channel's tag in the ring is never forgotten: the drain that will find it is owed, signalled, collected
    or running.
   */
  ghost predicate WakeOwed(r: React, sends: map<Sender, SendStage>) {
    r.mio || !r.loop.Handling? || WakerEvent in r.batch || exists a :: a in sends && sends[a].Tagged?
  }

  ghost predicate RingOwed(r: React, n: Net) {
    forall tag | tag in r.ring && tag in n.chans :: WakeOwed(r, n.sends)
  }

  // ---------------------------------------------------------------- how steps keep it

  /** A wait that was armed is armed still, or its task has a copy, or was aborted. */
  ghost predicate KeepsWait(s: State, s': State, t: TaskId, leaf: Leaf) {
    Armed(s.react, s.net, s.pool.closures, t, leaf) && t !in s'.sched.dead && !Queued(s'.sched, s'.execs, t)
    ==> Armed(s'.react, s'.net, s'.pool.closures, t, leaf)
  }

  ghost predicate KeepsCopies(s: State, s': State, t: TaskId) {
    && (t in s.sched.dead ==> t in s'.sched.dead)
    && (t !in s'.sched.dead && Queued(s.sched, s.execs, t) ==> Queued(s'.sched, s'.execs, t))
  }

  /** A step that no task takes part in keeps the invariant if it keeps copies and waits. */
  lemma WakesAround(s: State, s': State)
    requires AllWake(s) && s'.tasks == s.tasks
    requires forall f | f in s.execs.phase && InPoll(s.execs.phase[f]) ::
        f in s'.execs.phase && s'.execs.phase[f] == s.execs.phase[f]
    requires forall t | t in s.tasks :: KeepsCopies(s, s', t)
    requires forall t, k | t in s.tasks && 0 <= k < |s.tasks[t].stack| :: KeepsWait(s, s', t, s.tasks[t].stack[k])
    ensures AllWake(s')
  {
    forall t | t in s.tasks
      ensures TaskWakes(s'.sched, s'.execs, s'.react, s'.net, s'.pool.closures, t, s'.tasks[t])
    {
      assert KeepsCopies(s, s', t);
      assert TaskWakes(s.sched, s.execs, s.react, s.net, s.pool.closures, t, s.tasks[t]);
      if s.tasks[t].live && t !in s'.sched.dead && !Queued(s'.sched, s'.execs, t) {
        forall k | 0 <= k < |s.tasks[t].stack|
          ensures || Armed(s'.react, s'.net, s'.pool.closures, t, s.tasks[t].stack[k])
                  || Repolling(s'.execs, s.tasks[t], k)
        {
          assert KeepsWait(s, s', t, s.tasks[t].stack[k]);
        }
      }
    }
  }

  /**
    A step of the executor e on its task t keeps the invariant if it does so for t itself, and keeps the
    others' copies and waits.
   */
  lemma WakesIn(s: State, s': State, e: ExecId, t: TaskId)
    requires AllWake(s) && Locked(s.execs, s.tasks)
    requires e in s.execs.phase && e in s.execs.held && s.execs.held[e] == t && t in s.tasks
    requires s'.tasks.Keys == s.tasks.Keys && forall u | u in s.tasks && u != t :: s'.tasks[u] == s.tasks[u]
    requires forall f | f in s.execs.phase && f != e :: f in s'.execs.phase && s'.execs.phase[f] == s.execs.phase[f]
    requires TaskWakes(s'.sched, s'.execs, s'.react, s'.net, s'.pool.closures, t, s'.tasks[t])
    requires forall u | u in s.tasks && u != t :: KeepsCopies(s, s', u)
    requires forall u, k | u in s.tasks && u != t && 0 <= k < |s.tasks[u].stack| ::
        KeepsWait(s, s', u, s.tasks[u].stack[k])
    ensures AllWake(s')
  {
    forall u | u in s.tasks && u != t
      ensures TaskWakes(s'.sched, s'.execs, s'.react, s'.net, s'.pool.closures, u, s'.tasks[u])
    {
      assert KeepsCopies(s, s', u);
      assert LockOk(s.execs, u, s.tasks[u].lock);
      assert TaskWakes(s.sched, s.execs, s.react, s.net, s.pool.closures, u, s.tasks[u]);
      if s.tasks[u].live && u !in s'.sched.dead && !Queued(s'.sched, s'.execs, u) {
        forall k | 0 <= k < |s.tasks[u].stack|
          ensures || Armed(s'.react, s'.net, s'.pool.closures, u, s.tasks[u].stack[k])
                  || Repolling(s'.execs, s.tasks[u], k)
        {
          assert KeepsWait(s, s', u, s.tasks[u].stack[k]);
        }
      }
    }
  }
}
