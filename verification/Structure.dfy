/** Where executors, handles and futures are in every reachable state. */
module Structure {
  import opened Types
  import opened Scheduler
  import opened TokenTable
  import opened Runtime

  // ---------------------------------------------------------------- executors

  /**
    Every registered executor is in one place: idle in the ring, with one message in its inbox, or
    busy with an empty inbox.
   */
  ghost predicate Placed(phase: map<ExecId, Phase>, idle: seq<ExecId>, inbox: map<ExecId, seq<TaskId>>) {
    && phase.Keys == inbox.Keys
    && NoDup(idle)
    && (forall e | e in idle :: e in phase && phase[e].AtRecv? && inbox[e] == [])
    && (forall e | e in phase ::
          if phase[e].AtRecv? then |inbox[e]| <= 1 && (inbox[e] == [] ==> e in idle) else inbox[e] == [])
  }

  lemma PlacedBusy(phase: map<ExecId, Phase>, idle: seq<ExecId>, inbox: map<ExecId, seq<TaskId>>, e: ExecId, p: Phase)
    requires Placed(phase, idle, inbox)
    requires e in phase && !phase[e].AtRecv? && !p.AtRecv?
    ensures Placed(phase[e := p], idle, inbox)
  {}

  lemma PlacedTake(phase: map<ExecId, Phase>, idle: seq<ExecId>, inbox: map<ExecId, seq<TaskId>>, e: ExecId)
    requires Placed(phase, idle, inbox)
    requires e in phase && phase[e].AtRecv? && inbox[e] != []
    ensures inbox[e] == [inbox[e][0]] && inbox[e][1..] == []
    ensures Placed(phase[e := Holding], idle, inbox[e := inbox[e][1..]])
  {}

  lemma PlacedRegister(phase: map<ExecId, Phase>, c: Sched, t: TaskId)
    requires Placed(phase, c.idle, c.inbox)
    ensures Placed(phase, Register(c, t).idle, Register(c, t).inbox)
  {
    if t !in c.dead && c.idle != [] {
      assert forall e | e in c.idle && e != c.idle[0] :: e in c.idle[1..];
    }
  }

  lemma {:induction false} ReadyShape(c: Sched, e: ExecId)
    requires e in c.inbox && c.inbox[e] == []
    ensures var d := ExecutorReady(c, e);
      && d.strong.Keys == c.strong.Keys && d.dead == c.dead
      && (forall t | t in d.waiting :: t in c.waiting)
      && ( || (d.idle == c.idle + [e] && d.inbox == c.inbox)
           || (d.idle == c.idle && exists t | t in c.waiting :: d.inbox == c.inbox[e := [t]]))
    decreases |c.waiting|
  {
    if c.waiting != [] {
      if c.waiting[0] in c.dead {
        ReadyShape(Discard(c), e);
      } else {
        assert c.inbox[e] + [c.waiting[0]] == [c.waiting[0]];
      }
    }
  }

  lemma PlacedReady(phase: map<ExecId, Phase>, c: Sched, e: ExecId)
    requires Placed(phase, c.idle, c.inbox) && e in phase && phase[e].AtReady?
    ensures Placed(phase[e := AtRecv], ExecutorReady(c, e).idle, ExecutorReady(c, e).inbox)
  {
    ReadyShape(c, e);
  }

  /** The executor's task handle and context waker exist in exactly the phases that have them. */
  ghost predicate Handled(x: Execs) {
    && (forall e :: e in x.held <==> e in x.phase && HasTask(x.phase[e]))
    && (forall e :: e in x.ctx <==> e in x.phase && HasContext(x.phase[e]))
    && (forall e | e in x.ctx :: e in x.held && x.ctx[e] == x.held[e])
  }

  predicate HasTask(p: Phase) {
    !p.AtRecv? && !p.AtReady?
  }

  predicate HasContext(p: Phase) {
    HasTask(p) && !p.Holding?
  }

  lemma HandledMove(x: Execs, e: ExecId, p: Phase)
    requires Handled(x) && e in x.phase
    requires HasTask(p) == HasTask(x.phase[e]) && HasContext(p) == HasContext(x.phase[e])
    ensures Handled(x.(phase := x.phase[e := p]))
  {}

  lemma HandledTake(x: Execs, e: ExecId, t: TaskId)
    requires Handled(x) && e in x.phase && x.phase[e].AtRecv?
    ensures Handled(x.(phase := x.phase[e := Holding], held := x.held[e := t]))
  {}

  lemma HandledLock(x: Execs, e: ExecId, p: Phase)
    requires Handled(x) && e in x.phase && x.phase[e].Holding? && HasContext(p)
    ensures Handled(x.(ctx := x.ctx[e := x.held[e]], phase := x.phase[e := p]))
  {}

  lemma HandledDrop(x: Execs, e: ExecId)
    requires Handled(x) && e in x.phase
    ensures Handled(Execs(x.phase[e := AtReady], x.held - {e}, x.ctx - {e}))
  {}

  // ---------------------------------------------------------------- tasks that exist

  /** Every task the scheduler refers to exists. */
  ghost predicate Known(keys: set<TaskId>, c: Sched) {
    && c.strong.Keys == keys
    && c.dead <= keys
    && (forall t | t in c.waiting :: t in keys)
    && (forall e, t | e in c.inbox && t in c.inbox[e] :: t in keys)
  }

  ghost predicate KnownValues<K>(keys: set<TaskId>, m: map<K, TaskId>) {
    forall k | k in m :: m[k] in keys
  }

  ghost predicate KnownWakers(keys: set<TaskId>, table: Table) {
    forall tok | tok in table && table[tok].Awaited? :: table[tok].waker in keys
  }

  lemma KnownRegister(keys: set<TaskId>, c: Sched, t: TaskId)
    requires Known(keys, c) && t in keys
    ensures Known(keys, Register(c, t)) && Known(keys, WakeByRef(c, t))
  {
    KnownDeliver(keys, c, t);
    KnownDeliver(keys, Retain(c, t), t);
  }

  lemma KnownDeliver(keys: set<TaskId>, c: Sched, t: TaskId)
    requires Known(keys, c) && t in keys
    ensures Known(keys, Register(c, t))
  {}

  lemma KnownReady(keys: set<TaskId>, c: Sched, e: ExecId)
    requires Known(keys, c) && e in c.inbox && c.inbox[e] == []
    ensures Known(keys, ExecutorReady(c, e))
  {
    ReadyShape(c, e);
  }

  lemma KnownTake(keys: set<TaskId>, c: Sched, e: ExecId)
    requires Known(keys, c) && e in c.inbox && c.inbox[e] != []
    ensures c.inbox[e][0] in keys
    ensures Known(keys, c.(inbox := c.inbox[e := c.inbox[e][1..]]))
  {}

  lemma KnownSpawn(keys: set<TaskId>, c: Sched, t: TaskId, more: set<TaskId>)
    requires Known(keys, c) && more == keys + {t}
    ensures Known(more, c.(strong := c.strong[t := 1]))
  {}

  // ---------------------------------------------------------------- futures and their locks

  /** The phases in which the executor holds its task's future locked. */
  predicate InPoll(p: Phase) {
    p.Repoll? || p.Running? || p.Sending? || p.Returning?
  }

  /** The future's mutex is held exactly by the executor polling it. */
  ghost predicate Locked(x: Execs, tasks: map<TaskId, Body>) {
    && (forall e | e in x.phase && InPoll(x.phase[e]) ::
          && e in x.held && x.held[e] in tasks && tasks[x.held[e]].lock == Some(e)
          && PollOk(x.phase[e], tasks[x.held[e]]))
    && (forall t | t in tasks :: BodyOk(tasks[t]) && LockOk(x, t, tasks[t].lock))
  }

  predicate LockOk(x: Execs, t: TaskId, lock: Option<ExecId>) {
    lock.Some? ==>
      var e := lock.value;
      e in x.phase && InPoll(x.phase[e]) && e in x.held && x.held[e] == t
  }

  /** A finished future has an output; a live one nobody polls awaits something; only the top is not a timer. */
  ghost predicate BodyOk(b: Body) {
    && (!b.live ==> b.output.Some? && b.stack == [])
    && (b.live && b.lock.None? ==> b.stack != [] && b.output.None?)
    && (forall k | 0 <= k < |b.stack| - 1 :: b.stack[k].SleepLeaf?)
  }

  ghost predicate PollOk(p: Phase, b: Body) {
    && (p.Repoll? ==> b.live && b.output.None? && p.at < |b.stack|)
    && (p.Running? ==> b.live && b.output.None? && AllTimers(b.stack))
    && (p.Sending? ==> b.live && b.output.Some? && b.stack == [])
    && (p.Returning? && b.live ==> b.stack != [] && b.output.None?)
  }

  ghost predicate AllTimers(stack: seq<Leaf>) {
    forall k | 0 <= k < |stack| :: stack[k].SleepLeaf?
  }

  /** A step inside a poll: the executor stays in the poll and only its own task's body changes. */
  lemma LockedMove(x: Execs, tasks: map<TaskId, Body>, e: ExecId, p: Phase, b: Body)
    requires Locked(x, tasks) && e in x.phase && InPoll(x.phase[e]) && InPoll(p)
    requires b.lock == Some(e) && BodyOk(b) && PollOk(p, b)
    ensures Locked(x.(phase := x.phase[e := p]), tasks[x.held[e] := b])
  {}

  lemma LockedTake(x: Execs, tasks: map<TaskId, Body>, e: ExecId, t: TaskId)
    requires Locked(x, tasks) && e in x.phase && !InPoll(x.phase[e])
    ensures Locked(x.(phase := x.phase[e := Holding], held := x.held[e := t]), tasks)
  {}

  lemma LockedLock(x: Execs, tasks: map<TaskId, Body>, e: ExecId, polls: nat)
    requires Locked(x, tasks) && e in x.phase && x.phase[e].Holding?
    requires e in x.held && x.held[e] in tasks && tasks[x.held[e]].lock.None?
    ensures var b := tasks[x.held[e]];
      Locked(x.(ctx := x.ctx[e := x.held[e]], phase := x.phase[e := if b.live then Repoll(0) else Polled]),
             tasks[x.held[e] := b.(polls := polls, lock := if b.live then Some(e) else None)])
  {}

  lemma LockedUnlock(x: Execs, tasks: map<TaskId, Body>, e: ExecId)
    requires Locked(x, tasks) && e in x.phase && x.phase[e].Returning?
    ensures Locked(x.(phase := x.phase[e := Polled]), tasks[x.held[e] := tasks[x.held[e]].(lock := None)])
  {}

  lemma LockedDrop(x: Execs, tasks: map<TaskId, Body>, e: ExecId)
    requires Locked(x, tasks) && e in x.phase && !InPoll(x.phase[e])
    ensures Locked(Execs(x.phase[e := AtReady], x.held - {e}, x.ctx - {e}), tasks)
  {}

  lemma LockedReady(x: Execs, tasks: map<TaskId, Body>, e: ExecId)
    requires Locked(x, tasks) && e in x.phase && !InPoll(x.phase[e])
    ensures Locked(x.(phase := x.phase[e := AtRecv]), tasks)
  {}

  /** A body nobody polls is replaced. */
  lemma LockedFree(x: Execs, tasks: map<TaskId, Body>, t: TaskId, b: Body)
    requires Locked(x, tasks) && t in tasks && tasks[t].lock.None?
    requires b.lock.None? && BodyOk(b)
    ensures Locked(x, tasks[t := b])
  {}

  lemma LockedSpawn(x: Execs, tasks: map<TaskId, Body>, t: TaskId, b: Body)
    requires Locked(x, tasks) && t !in tasks
    requires b.lock.None? && BodyOk(b)
    ensures Locked(x, tasks[t := b])
  {}

  // ---------------------------------------------------------------- what is awaited

  /** The resources a leaf refers to exist, and timers and I/O tokens are not mixed. */
  predicate LeafOk(kinds: map<Token, TokenKind>, n: Net, offs: map<OffId, Offload>, leaf: Leaf) {
    match leaf
    case Runnable => true
    case SleepLeaf(tok) => tok in kinds && kinds[tok].Timer?
    case TokenLeaf(tok) => tok in kinds && kinds[tok].Io?
    case RecvLeaf(tag) => tag in n.chans && tag !in n.closed
    case OffloadLeaf(id) => id in offs
  }

  ghost predicate LeavesOk(kinds: map<Token, TokenKind>, n: Net, offs: map<OffId, Offload>, tasks: map<TaskId, Body>) {
    forall t, k | t in tasks && 0 <= k < |tasks[t].stack| :: LeafOk(kinds, n, offs, tasks[t].stack[k])
  }

  predicate Exclusive(leaf: Leaf) {
    leaf.TokenLeaf? || leaf.RecvLeaf? || leaf.OffloadLeaf?
  }

  /** No token, channel or offload is awaited by two tasks. */
  ghost predicate OneWaiter(tasks: map<TaskId, Body>) {
    forall t, u, j, k | t in tasks && u in tasks && 0 <= j < |tasks[t].stack| && 0 <= k < |tasks[u].stack|
                        && tasks[t].stack[j] == tasks[u].stack[k] && Exclusive(tasks[t].stack[j]) :: t == u
  }

  lemma AwaitsShrink(kinds: map<Token, TokenKind>, n: Net, offs: map<OffId, Offload>, tasks: map<TaskId, Body>,
                     t: TaskId, b: Body)
    requires LeavesOk(kinds, n, offs, tasks) && OneWaiter(tasks) && t in tasks
    requires |b.stack| <= |tasks[t].stack| && b.stack == tasks[t].stack[..|b.stack|]
    ensures LeavesOk(kinds, n, offs, tasks[t := b]) && OneWaiter(tasks[t := b])
  {}

  lemma AwaitsPush(kinds: map<Token, TokenKind>, n: Net, offs: map<OffId, Offload>, tasks: map<TaskId, Body>,
                   t: TaskId, b: Body, leaf: Leaf)
    requires LeavesOk(kinds, n, offs, tasks) && OneWaiter(tasks) && t in tasks
    requires b.stack == tasks[t].stack + [leaf]
    requires LeafOk(kinds, n, offs, leaf)
    requires Exclusive(leaf) ==> forall u | u in tasks :: leaf !in tasks[u].stack
    ensures LeavesOk(kinds, n, offs, tasks[t := b]) && OneWaiter(tasks[t := b])
  {}

  /** Resources only come into being, apart from receivers nobody awaits. */
  lemma AwaitsGrow(kinds: map<Token, TokenKind>, n: Net, offs: map<OffId, Offload>, tasks: map<TaskId, Body>,
                   kinds': map<Token, TokenKind>, n': Net, offs': map<OffId, Offload>)
    requires LeavesOk(kinds, n, offs, tasks)
    requires forall tok | tok in kinds :: tok in kinds' && kinds'[tok] == kinds[tok]
    requires n.chans.Keys <= n'.chans.Keys && offs.Keys <= offs'.Keys
    requires forall tag | tag in n'.closed && tag !in n.closed ::
               forall u | u in tasks :: RecvLeaf(tag) !in tasks[u].stack
    ensures LeavesOk(kinds', n', offs', tasks)
  {
    forall t, k | t in tasks && 0 <= k < |tasks[t].stack|
      ensures LeafOk(kinds', n', offs', tasks[t].stack[k])
    {
      assert LeafOk(kinds, n, offs, tasks[t].stack[k]);
      assert tasks[t].stack[k] in tasks[t].stack;
    }
  }

  lemma AwaitsFree(kinds: map<Token, TokenKind>, n: Net, offs: map<OffId, Offload>, tasks: map<TaskId, Body>, t: TaskId,
                   b: Body)
    requires LeavesOk(kinds, n, offs, tasks) && OneWaiter(tasks) && b.stack == [Runnable]
    ensures LeavesOk(kinds, n, offs, tasks[t := b]) && OneWaiter(tasks[t := b])
  {}

  lemma AwaitsSpawn(kinds: map<Token, TokenKind>, n: Net, offs: map<OffId, Offload>, tasks: map<TaskId, Body>,
                    t: TaskId, b: Body)
    requires LeavesOk(kinds, n, offs, tasks) && OneWaiter(tasks) && t !in tasks && b.stack == [Runnable]
    ensures LeavesOk(kinds, n, offs, tasks[t := b]) && OneWaiter(tasks[t := b])
  {}
}
