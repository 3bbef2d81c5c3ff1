/** What holds in every run of the runtime, in the terms of its users. */
module Theorems {
  import opened Types
  import opened Scheduler
  import opened TokenTable
  import opened Channel
  import opened Runtime
  import opened Structure
  import opened Wakeups
  import opened Flows
  import opened ShapeSteps
  import opened Invariants
  import opened Timers

  // ---------------------------------------------------------------- no lost wake-up

  /** A copy of t is scheduled, or the executor polling t has still to poll stack[k]. */
  ghost predicate WillPoll(s: State, t: TaskId, k: nat)
    requires t in s.tasks
  {
    Queued(s.sched, s.execs, t) || Repolling(s.execs, s.tasks[t], k)
  }

  /**
    Every wait of every live task that was not aborted has a wake-up to come or will be polled; a parked task
    waits for something.
   */
  lemma NoLostWakeup(s: State, t: TaskId)
    requires Reachable(s) && t in s.tasks && s.tasks[t].live && t !in s.sched.dead
    ensures forall k | 0 <= k < |s.tasks[t].stack| ::
              Armed(s.react, s.net, s.pool.closures, t, s.tasks[t].stack[k]) || WillPoll(s, t, k)
    ensures s.tasks[t].lock.None? ==> s.tasks[t].stack != []
  {
    ReachableInv(s);
    assert TaskWakes(s.sched, s.execs, s.react, s.net, s.pool.closures, t, s.tasks[t]);
    assert BodyOk(s.tasks[t]);
  }

  /** The steps on the way from a sender's count to the wake-up of the receiver. */
  ghost predicate OnItsWay(s: State, tag: Tag) {
    || Counting(s.net.sends, tag)
    || (tag in s.react.ring && WakeOwed(s.react, s.net.sends))
    || s.react.loop == Lookup(tag)
  }

  /** A receiver parked on a channel whose counter is positive will be polled, or its wake-up is on its way. */
  lemma NoLostChannelWakeup(s: State, t: TaskId, k: nat, tag: Tag)
    requires Reachable(s) && t in s.tasks && s.tasks[t].live && t !in s.sched.dead
    requires k < |s.tasks[t].stack| && s.tasks[t].stack[k] == RecvLeaf(tag)
    ensures tag in s.net.chans && (s.net.chans[tag].cnt != 0 ==> WillPoll(s, t, k) || OnItsWay(s, tag))
    ensures WillPoll(s, t, k) || (tag in s.react.tags && s.react.tags[tag] == t)
  {
    ReachableInv(s);
    NoLostWakeup(s, t);
    assert LeafOk(s.react.kinds, s.net, s.pool.offs, s.tasks[t].stack[k]);
    assert RingOwed(s.react, s.net);
  }

  /** A task parked on an I/O token or a timer is that token's awaited waker, or will be polled. */
  lemma NoLostTokenWakeup(s: State, t: TaskId, k: nat, tok: Token)
    requires Reachable(s) && t in s.tasks && s.tasks[t].live && t !in s.sched.dead
    requires k < |s.tasks[t].stack| && (s.tasks[t].stack[k] == TokenLeaf(tok) || s.tasks[t].stack[k] == SleepLeaf(tok))
    ensures (tok in s.react.table && s.react.table[tok] == Awaited(t)) || WillPoll(s, t, k)
  {
    NoLostWakeup(s, t);
  }

  /** A stored connect or bind result is taken: its closure has still to wake the task, or the task will be polled. */
  lemma NoLostOffload(s: State, t: TaskId, k: nat, id: OffId)
    requires Reachable(s) && t in s.tasks && s.tasks[t].live && t !in s.sched.dead
    requires k < |s.tasks[t].stack| && s.tasks[t].stack[k] == OffloadLeaf(id)
    ensures id in s.pool.offs && s.pool.offs[id].resolved.None?
    ensures (id in s.pool.closures && s.pool.closures[id] == t) || WillPoll(s, t, k)
    ensures s.pool.offs[id].computed.Some? ==> s.pool.offs[id].slot == s.pool.offs[id].computed
  {
    ReachableInv(s);
    NoLostWakeup(s, t);
    assert LeafOk(s.react.kinds, s.net, s.pool.offs, s.tasks[t].stack[k]);
    assert Pinned(s.react, s.pool, t, s.tasks[t].stack[k]);
    assert OffOk(s.pool.offs[id], s.pool.jobs[id], id in s.pool.closures);
  }

  // ---------------------------------------------------------------- reference counts

  /**
    The strong count is the number of handles and wakers, wherever they are, so a task with any of them is
    never freed.
   */
  lemma StrongCount(s: State, t: TaskId)
    requires Reachable(s) && t in s.tasks
    ensures t in s.sched.strong && s.sched.strong[t]
      == multiset(s.sched.waiting)[t] + Occ(s.sched.inbox, [t])
       + Occ(s.react.table, Awaited(t)) + Occ(s.react.tags, t) + Occ(s.pool.closures, t)
       + Occ(s.execs.held, t) + Occ(s.execs.ctx, t)
  {
    ReachableInv(s);
  }

  /** In particular the memory behind every waker the reactor, the pool or a poll's context holds is alive. */
  lemma WakersAreAlive(s: State, t: TaskId)
    requires Reachable(s)
    requires || (exists tok :: tok in s.react.table && s.react.table[tok] == Awaited(t))
             || (exists tag :: tag in s.react.tags && s.react.tags[tag] == t)
             || (exists id :: id in s.pool.closures && s.pool.closures[id] == t)
             || (exists e :: e in s.execs.ctx && s.execs.ctx[e] == t)
    ensures t in s.sched.strong && s.sched.strong[t] > 0
  {
    ReachableInv(s);
    if tok :| tok in s.react.table && s.react.table[tok] == Awaited(t) {
      OccPositive(s.react.table, tok);
    }
    if tag :| tag in s.react.tags && s.react.tags[tag] == t {
      OccPositive(s.react.tags, tag);
    }
    if id :| id in s.pool.closures && s.pool.closures[id] == t {
      OccPositive(s.pool.closures, id);
    }
    if e :| e in s.execs.ctx && s.execs.ctx[e] == t {
      OccPositive(s.execs.ctx, e);
    }
    StrongCount(s, t);
  }

  lemma CopiesCount(c: Sched, x: Execs, t: TaskId)
    requires forall e | e in c.inbox :: |c.inbox[e]| <= 1
    requires Queued(c, x, t) || exists e :: e in x.held && x.held[e] == t
    ensures multiset(c.waiting)[t] + Occ(c.inbox, [t]) + Occ(x.held, t) > 0
  {
    if e :| e in c.inbox && t in c.inbox[e] {
      assert c.inbox[e] == [t];
      OccPositive(c.inbox, e);
    }
    if e :| e in x.held && x.held[e] == t {
      OccPositive(x.held, e);
    }
  }

  /** A task with a scheduled copy, or held by an executor, is alive. */
  lemma CopiesAreAlive(s: State, t: TaskId)
    requires Reachable(s) && t in s.tasks
    requires Queued(s.sched, s.execs, t) || exists e :: e in s.execs.held && s.execs.held[e] == t
    ensures t in s.sched.strong && s.sched.strong[t] > 0
  {
    ExecutorsFit(s);
    CopiesCount(s.sched, s.execs, t);
    StrongCount(s, t);
  }

  /** What polls a locked future, or why an unlocked one will wake. */
  lemma LockedOrArmed(s: State, t: TaskId)
    requires Reachable(s) && t in s.tasks && s.tasks[t].live && t !in s.sched.dead
    ensures || Queued(s.sched, s.execs, t)
            || (exists e :: e in s.execs.held && s.execs.held[e] == t)
            || (s.tasks[t].stack != [] && Armed(s.react, s.net, s.pool.closures, t, s.tasks[t].stack[0]))
  {
    ReachableInv(s);
    NoLostWakeup(s, t);
    assert LockOk(s.execs, t, s.tasks[t].lock);
  }

  /** A live task that was not aborted is never freed, parked ones included. */
  lemma LiveTasksAreAlive(s: State, t: TaskId)
    requires Reachable(s) && t in s.tasks && s.tasks[t].live && t !in s.sched.dead
    ensures t in s.sched.strong && s.sched.strong[t] > 0
  {
    LockedOrArmed(s, t);
    if Queued(s.sched, s.execs, t) || exists e :: e in s.execs.held && s.execs.held[e] == t {
      CopiesAreAlive(s, t);
    } else {
      ParkedHasWaker(s, t, s.tasks[t].stack[0]);
      WakersAreAlive(s, t);
    }
  }

  lemma ParkedHasWaker(s: State, t: TaskId, leaf: Leaf)
    requires Armed(s.react, s.net, s.pool.closures, t, leaf)
    ensures || (exists tok :: tok in s.react.table && s.react.table[tok] == Awaited(t))
            || (exists tag :: tag in s.react.tags && s.react.tags[tag] == t)
            || (exists id :: id in s.pool.closures && s.pool.closures[id] == t)
  {}

  // ---------------------------------------------------------------- scheduling

  /**
    Accepted submissions leave the queue in order, by dispatch or as aborted entries; no executor idles while
    one waits.
   */
  lemma FifoDispatch(s: State)
    requires Reachable(s)
    ensures s.sched.accepted == TasksOf(s.sched.removed) + s.sched.waiting
    ensures forall i | 0 <= i < |s.sched.removed| && s.sched.removed[i].Discarded? ::
        s.sched.removed[i].task in s.sched.dead
    ensures s.sched.waiting == [] || s.sched.idle == []
  {
    ReachableInv(s);
  }

  /** Inboxes hold at most one message; the idle ring holds no executor twice, so no more than were registered. */
  lemma ExecutorsFit(s: State)
    requires Reachable(s)
    ensures forall e | e in s.sched.inbox :: |s.sched.inbox[e]| <= 1
    ensures NoDup(s.sched.idle) && |s.sched.idle| <= |s.execs.phase|
  {
    ReachableInv(s);
    NoDupSize(s.sched.idle, s.execs.phase.Keys);
  }

  // ---------------------------------------------------------------- polling and joining

  /** Two executors never poll one future at a time, and nobody polls one that returned Ready. */
  lemma PollsExclude(s: State, e: ExecId, f: ExecId)
    requires Reachable(s) && InTask(s, e) && InTask(s, f) && s.execs.held[e] == s.execs.held[f]
    requires InPoll(s.execs.phase[e]) && InPoll(s.execs.phase[f])
    ensures e == f
    ensures s.execs.phase[e].Repoll? || s.execs.phase[e].Running? ==>
              s.tasks[s.execs.held[e]].live && s.tasks[s.execs.held[e]].output.None?
  {
    ReachableInv(s);
  }

  lemma OutputAct(s: State, e: ExecId, act: Action, t: TaskId)
    requires Locked(s.execs, s.tasks) && CanAct(s, e, act) && t in s.tasks && s.tasks[t].output.Some?
    ensures t in Act(s, e, act).tasks && Act(s, e, act).tasks[t].output == s.tasks[t].output
    ensures !s.tasks[t].live ==> !Act(s, e, act).tasks[t].live
  {
    if act.RepollLeaf? {
      EffectKeepsTasks(s, s.tasks[s.execs.held[e]].stack[s.execs.phase[e].at], s.execs.held[e]);
    } else if act.AwaitLeaf? {
      EffectKeepsTasks(s, act.leaf, s.execs.held[e]);
    }
  }

  /** A finished task's output never changes, and its future never comes back. */
  lemma OutputStays(s: State, step: Step, t: TaskId)
    requires Locked(s.execs, s.tasks) && Enabled(s, step) && t in s.tasks && s.tasks[t].output.Some?
    ensures t in Apply(s, step).tasks && Apply(s, step).tasks[t].output == s.tasks[t].output
    ensures !s.tasks[t].live ==> !Apply(s, step).tasks[t].live
  {
    match step
    case ByExecutor(e, act) => OutputAct(s, e, act, t);
    case ByOther(w) => OtherThread(s, w, t);
  }

  lemma {:induction false} OutputFrom(s: State, run: seq<Step>, t: TaskId)
    requires Inv(s) && Possible(s, run) && t in s.tasks && s.tasks[t].output.Some?
    ensures t in After(s, run).tasks && After(s, run).tasks[t].output == s.tasks[t].output
    ensures !s.tasks[t].live ==> !After(s, run).tasks[t].live
    decreases |run|
  {
    if run != [] {
      OutputStays(s, run[0], t);
      InvStep(s, run[0]);
      OutputFrom(Apply(s, run[0]), run[1..], t);
    }
  }

  /** Over whole runs. */
  lemma {:induction false} OutputForever(s: State, run: seq<Step>, t: TaskId)
    requires Reachable(s) && Possible(s, run) && t in s.tasks && s.tasks[t].output.Some?
    ensures t in After(s, run).tasks && After(s, run).tasks[t].output == s.tasks[t].output
    ensures !s.tasks[t].live ==> !After(s, run).tasks[t].live
  {
    ReachableInv(s);
    OutputFrom(s, run, t);
  }

  /** The send of a finished task finds its join channel empty, so it never blocks the executor. */
  lemma JoinSendHasRoom(s: State, e: ExecId)
    requires Reachable(s) && At(s, e, Sending(false))
    ensures IsSending(s, e, false)
    ensures var tag := s.tasks[s.execs.held[e]].join; HasRoom(s, tag) || tag in s.net.closed
  {
    ReachableInv(s);
    JoinIsEmpty(s, e);
  }

  lemma JoinIsEmpty(s: State, e: ExecId)
    requires Locked(s.execs, s.tasks) && Joined(s.net, s.execs, s.tasks) && Flowing(s.net) && At(s, e, Sending(false))
    ensures IsSending(s, e, false)
    ensures var tag := s.tasks[s.execs.held[e]].join;
      tag in s.net.chans && s.net.chans[tag].cap == 1 && s.net.chans[tag].queue == []
  {
    var tag := s.tasks[s.execs.held[e]].join;
    assert Ordered(s.net.chans[tag], Occ(s.net.sends, Enqueued(tag)));
    assert JoinValue(s.net.chans[tag], s.tasks[s.execs.held[e]].output);
  }

  /** A JoinHandle yields at most one value, the output of its finished task, and never an error. */
  lemma JoinCorrect(s: State, t: TaskId)
    requires Reachable(s) && t in s.tasks
    ensures s.tasks[t].join in s.net.chans
    ensures var ch := s.net.chans[s.tasks[t].join];
      && ch.errors == 0
      && |ch.sent| <= 1
      && (ch.received == [] || (s.tasks[t].output.Some? && ch.received == [s.tasks[t].output.value]))
      && (!s.tasks[t].live && s.tasks[t].join !in s.net.closed ==>
            s.tasks[t].output.Some? && ch.sent == [s.tasks[t].output.value])
  {
    ReachableInv(s);
    JoinFacts(s, t);
  }

  lemma JoinFacts(s: State, t: TaskId)
    requires Joined(s.net, s.execs, s.tasks) && Flowing(s.net) && t in s.tasks
    ensures s.tasks[t].join in s.net.chans
    ensures var ch := s.net.chans[s.tasks[t].join];
      && ch.errors == 0
      && |ch.sent| <= 1
      && (ch.received == [] || (s.tasks[t].output.Some? && ch.received == [s.tasks[t].output.value]))
      && (!s.tasks[t].live && s.tasks[t].join !in s.net.closed ==>
            s.tasks[t].output.Some? && ch.sent == [s.tasks[t].output.value])
  {
    var ch := s.net.chans[s.tasks[t].join];
    assert JoinValue(ch, s.tasks[t].output);
    assert Ordered(ch, Occ(s.net.sends, Enqueued(s.tasks[t].join)));
    assert |ch.received| + |ch.queue| == |ch.sent|;
  }

  /** Every channel delivers what was sent, in order, and its counter trails the queue by the sends not yet counted. */
  lemma ChannelsDeliver(s: State, tag: Tag)
    requires Reachable(s) && tag in s.net.chans
    ensures var ch := s.net.chans[tag];
      && ch.received + ch.queue == ch.sent
      && |ch.queue| == ch.cnt + Occ(s.net.sends, Enqueued(tag)) && ch.cnt >= 0
      && !PollResult(ch).Failed?
  {
    ReachableInv(s);
    PollKeepsOrder(s.net.chans[tag], Occ(s.net.sends, Enqueued(tag)));
  }

  /**
    A connect or bind closure is queued at most once and runs at most once, and the future resolves only with
    its result.
   */
  lemma OffloadOnce(s: State, id: OffId)
    requires Reachable(s) && id in s.pool.offs
    ensures var o := s.pool.offs[id];
      && o.runs + s.pool.jobs[id] == 1
      && (o.resolved.Some? ==> o.resolved == o.computed && o.slot.None?)
      && (o.slot.Some? ==> o.slot == o.computed)
  {
    ReachableInv(s);
    assert OffOk(s.pool.offs[id], s.pool.jobs[id], id in s.pool.closures);
  }
}
