/** Every step keeps executors, handles, locks and awaited resources in order. */
module ShapeSteps {
  import opened Types
  import opened Scheduler
  import opened Runtime
  import opened Structure

  ghost predicate AllKnown(s: State) {
    && Known(s.tasks.Keys, s.sched)
    && KnownValues(s.tasks.Keys, s.execs.held)
    && KnownWakers(s.tasks.Keys, s.react.table)
    && KnownValues(s.tasks.Keys, s.react.tags)
    && KnownValues(s.tasks.Keys, s.pool.closures)
  }

  ghost predicate Waits(s: State) {
    LeavesOk(s.react.kinds, s.net, s.pool.offs, s.tasks) && OneWaiter(s.tasks)
  }

  ghost predicate Shape(s: State) {
    && Placed(s.execs.phase, s.sched.idle, s.sched.inbox)
    && Handled(s.execs)
    && AllKnown(s)
    && Locked(s.execs, s.tasks)
    && Waits(s)
  }

  // ---------------------------------------------------------------- shape

  /** Only strong counts changed. */
  ghost predicate SameQueues(c: Sched, d: Sched) {
    d == c.(strong := d.strong) && d.strong.Keys == c.strong.Keys
  }

  /** Resources only came into being, and no awaited receiver was dropped. */
  ghost predicate Grown(s: State, s': State) {
    && (forall tok | tok in s.react.kinds :: tok in s'.react.kinds && s'.react.kinds[tok] == s.react.kinds[tok])
    && s.net.chans.Keys <= s'.net.chans.Keys && s.pool.offs.Keys <= s'.pool.offs.Keys
    && (forall tag | tag in s'.net.closed && tag !in s.net.closed ::
          forall u | u in s.tasks :: RecvLeaf(tag) !in s.tasks[u].stack)
  }

  /** A step inside a poll that leaves the scheduler's queues alone. */
  lemma ShapeMove(s: State, s': State, e: ExecId, p: Phase, b: Body)
    requires Shape(s) && e in s.execs.phase && InPoll(s.execs.phase[e]) && InPoll(p)
    requires s'.execs == s.execs.(phase := s.execs.phase[e := p]) && s'.tasks == s.tasks[s.execs.held[e] := b]
    requires SameQueues(s.sched, s'.sched)
    requires KnownWakers(s.tasks.Keys, s'.react.table)
    requires KnownValues(s.tasks.Keys, s'.react.tags) && KnownValues(s.tasks.Keys, s'.pool.closures)
    requires b.lock == Some(e) && BodyOk(b) && PollOk(p, b)
    requires Waits(s')
    ensures Shape(s')
  {
    PlacedBusy(s.execs.phase, s.sched.idle, s.sched.inbox, e, p);
    HandledMove(s.execs, e, p);
    LockedMove(s.execs, s.tasks, e, p, b);
    assert s'.tasks.Keys == s.tasks.Keys;
    KnownSame(s.tasks.Keys, s.sched, s'.sched);
  }

  lemma WaitsShrink(s: State, s': State, t: TaskId, b: Body)
    requires Waits(s) && Grown(s, s') && t in s.tasks && s'.tasks == s.tasks[t := b]
    requires |b.stack| <= |s.tasks[t].stack| && b.stack == s.tasks[t].stack[..|b.stack|]
    ensures Waits(s')
  {
    AwaitsGrow(s.react.kinds, s.net, s.pool.offs, s.tasks, s'.react.kinds, s'.net, s'.pool.offs);
    AwaitsShrink(s'.react.kinds, s'.net, s'.pool.offs, s.tasks, t, b);
  }

  lemma WaitsPush(s: State, s': State, t: TaskId, b: Body, leaf: Leaf)
    requires Waits(s) && Grown(s, s') && t in s.tasks && s'.tasks == s.tasks[t := b]
    requires b.stack == s.tasks[t].stack + [leaf] && LeafOk(s'.react.kinds, s'.net, s'.pool.offs, leaf)
    requires Exclusive(leaf) ==> forall u | u in s.tasks :: leaf !in s.tasks[u].stack
    ensures Waits(s')
  {
    AwaitsGrow(s.react.kinds, s.net, s.pool.offs, s.tasks, s'.react.kinds, s'.net, s'.pool.offs);
    AwaitsPush(s'.react.kinds, s'.net, s'.pool.offs, s.tasks, t, b, leaf);
  }

  lemma KnownSame(keys: set<TaskId>, c: Sched, d: Sched)
    requires Known(keys, c) && SameQueues(c, d)
    ensures Known(keys, d)
  {}

  /** A step that no executor takes part in. */
  lemma ShapeAround(s: State, s': State)
    requires Shape(s) && s'.tasks == s.tasks && s'.execs == s.execs && Grown(s, s')
    requires Placed(s.execs.phase, s'.sched.idle, s'.sched.inbox) && AllKnown(s')
    ensures Shape(s')
  {
    AwaitsGrow(s.react.kinds, s.net, s.pool.offs, s.tasks, s'.react.kinds, s'.net, s'.pool.offs);
  }

  lemma ShapeTake(s: State, e: ExecId)
    requires Shape(s) && CanTake(s, e)
    ensures Shape(DoTake(s, e))
  {
    var t := s.sched.inbox[e][0];
    PlacedTake(s.execs.phase, s.sched.idle, s.sched.inbox, e);
    HandledTake(s.execs, e, t);
    LockedTake(s.execs, s.tasks, e, t);
    KnownTake(s.tasks.Keys, s.sched, e);
  }

  lemma LockedDoLock(s: State, e: ExecId)
    requires Locked(s.execs, s.tasks) && CanLock(s, e)
    ensures Locked(DoLock(s, e).execs, DoLock(s, e).tasks)
  {
    LockedLock(s.execs, s.tasks, e, s.tasks[s.execs.held[e]].polls + 1);
  }

  lemma WaitsLock(s: State, e: ExecId)
    requires Waits(s) && CanLock(s, e)
    ensures Waits(DoLock(s, e))
  {
    var t := s.execs.held[e];
    WaitsShrink(s, DoLock(s, e), t, DoLock(s, e).tasks[t]);
  }

  lemma ShapeLock(s: State, e: ExecId)
    requires Shape(s) && CanLock(s, e)
    ensures Shape(DoLock(s, e))
  {
    var p := DoLock(s, e).execs.phase[e];
    PlacedBusy(s.execs.phase, s.sched.idle, s.sched.inbox, e, p);
    HandledLock(s.execs, e, p);
    LockedDoLock(s, e);
    WaitsLock(s, e);
    assert DoLock(s, e).tasks.Keys == s.tasks.Keys;
    KnownSame(s.tasks.Keys, s.sched, DoLock(s, e).sched);
  }

  lemma ShapeUnlock(s: State, e: ExecId)
    requires Shape(s) && InTask(s, e) && At(s, e, Returning)
    ensures Shape(DoUnlock(s, e))
  {
    var t := s.execs.held[e];
    var s' := DoUnlock(s, e);
    PlacedBusy(s.execs.phase, s.sched.idle, s.sched.inbox, e, Polled);
    HandledMove(s.execs, e, Polled);
    LockedUnlock(s.execs, s.tasks, e);
    assert s'.tasks.Keys == s.tasks.Keys;
    WaitsShrink(s, s', t, s'.tasks[t]);
  }

  lemma ShapeDropTask(s: State, e: ExecId)
    requires Shape(s) && InTask(s, e) && At(s, e, Polled)
    ensures Shape(DoDropTask(s, e))
  {
    PlacedBusy(s.execs.phase, s.sched.idle, s.sched.inbox, e, AtReady);
    HandledDrop(s.execs, e);
    LockedDrop(s.execs, s.tasks, e);
    KnownSame(s.tasks.Keys, s.sched, DoDropTask(s, e).sched);
  }

  lemma ShapeReady(s: State, e: ExecId)
    requires Shape(s) && At(s, e, AtReady)
    ensures Shape(DoReady(s, e))
  {
    PlacedReady(s.execs.phase, s.sched, e);
    HandledMove(s.execs, e, AtRecv);
    LockedReady(s.execs, s.tasks, e);
    KnownReady(s.tasks.Keys, s.sched, e);
  }

  lemma ShapeYield(s: State, e: ExecId)
    requires Shape(s) && CanRun(s, e)
    ensures Shape(DoYield(s, e))
  {
    var t := s.execs.held[e];
    var b := DoYield(s, e).tasks[t];
    PlacedBusy(s.execs.phase, s.sched.idle, s.sched.inbox, e, Returning);
    PlacedRegister(s.execs.phase[e := Returning], Retain(s.sched, t), t);
    HandledMove(s.execs, e, Returning);
    LockedMove(s.execs, s.tasks, e, Returning, b);
    WaitsPush(s, DoYield(s, e), t, b, Runnable);
    KnownRegister(s.tasks.Keys, s.sched, t);
    assert DoYield(s, e).tasks.Keys == s.tasks.Keys;
  }

  lemma ShapeRepoll(s: State, e: ExecId)
    requires Shape(s) && CanRepoll(s, e)
    ensures Shape(DoRepoll(s, e))
  {
    var t := s.execs.held[e];
    var b := s.tasks[t];
    var i := s.execs.phase[e].at;
    EffectFrame(s, b.stack[i], t);
    if LeafReady(s, b.stack[i]) {
      WaitsShrink(s, DoRepoll(s, e), t, b.(stack := b.stack[..i]));
      ShapeMove(s, DoRepoll(s, e), e, Running, b.(stack := b.stack[..i]));
    } else {
      assert s.tasks[t := b] == s.tasks;
      WaitsShrink(s, DoRepoll(s, e), t, b);
      ShapeMove(s, DoRepoll(s, e), e, if i + 1 < |b.stack| then Repoll(i + 1) else Returning, b);
    }
  }

  /** Polling a leaf touches no executor, task or queue, and keeps what exists. */
  lemma EffectFrame(s: State, leaf: Leaf, t: TaskId)
    requires AllKnown(s) && t in s.tasks
    ensures var r := PollEffect(s, leaf, t);
      && r.execs == s.execs && r.tasks == s.tasks && SameQueues(s.sched, r.sched) && Grown(s, r)
      && r.react.kinds == s.react.kinds && r.net.closed == s.net.closed && r.pool.closures == s.pool.closures
      && KnownWakers(s.tasks.Keys, r.react.table) && KnownValues(s.tasks.Keys, r.react.tags)
  {
    match leaf
    case RecvLeaf(tag) => RecvFrame(s, tag, t);
    case _ =>
  }

  lemma RecvFrame(s: State, tag: Tag, t: TaskId)
    requires AllKnown(s) && t in s.tasks
    ensures var r := PollEffect(s, RecvLeaf(tag), t);
      && r.execs == s.execs && r.tasks == s.tasks && SameQueues(s.sched, r.sched) && Grown(s, r)
      && r.react.kinds == s.react.kinds && r.net.closed == s.net.closed && r.pool.closures == s.pool.closures
      && r.react.table == s.react.table && KnownValues(s.tasks.Keys, r.react.tags)
  {}

  lemma EffectKeepsTasks(s: State, leaf: Leaf, t: TaskId)
    ensures PollEffect(s, leaf, t).tasks == s.tasks
  {}

  lemma ShapeAwait(s: State, e: ExecId, leaf: Leaf)
    requires Shape(s) && CanAwait(s, e, leaf)
    ensures Shape(DoAwait(s, e, leaf))
  {
    var t := s.execs.held[e];
    var b := s.tasks[t];
    EffectFrame(s, leaf, t);
    if LeafReady(s, leaf) {
      assert s.tasks[t := b] == s.tasks && s.execs.phase[e := Running] == s.execs.phase;
      WaitsShrink(s, DoAwait(s, e, leaf), t, b);
      ShapeMove(s, DoAwait(s, e, leaf), e, Running, b);
    } else {
      var pushed := b.stack + [leaf];
      assert LeafOk(s.react.kinds, s.net, s.pool.offs, leaf);
      WaitsPush(s, DoAwait(s, e, leaf), t, b.(stack := pushed), leaf);
      ShapeMove(s, DoAwait(s, e, leaf), e, Returning, b.(stack := pushed));
    }
  }

  lemma StoreFrame(s: State, e: ExecId, tok: Token, p: Phase)
    requires AllKnown(s) && CanRun(s, e) && tok !in s.react.kinds
    ensures var s' := DoSleep(s, e, tok, p);
      SameQueues(s.sched, s'.sched) && Grown(s, s') && KnownWakers(s.tasks.Keys, s'.react.table)
  {}

  lemma ShapeSleep(s: State, e: ExecId, tok: Token, p: Phase)
    requires Shape(s) && CanRun(s, e) && tok !in s.react.kinds && (p.Running? || p.Returning?)
    ensures Shape(DoSleep(s, e, tok, p))
  {
    var t := s.execs.held[e];
    var b := s.tasks[t];
    var pushed := b.(stack := b.stack + [SleepLeaf(tok)]);
    StoreFrame(s, e, tok, p);
    WaitsPush(s, DoSleep(s, e, tok, p), t, pushed, SleepLeaf(tok));
    ShapeMove(s, DoSleep(s, e, tok, p), e, p, pushed);
  }

  lemma ShapeOffload(s: State, e: ExecId, id: OffId)
    requires Shape(s) && CanRun(s, e) && id !in s.pool.offs
    ensures Shape(DoOffload(s, e, id))
  {
    var b := s.tasks[s.execs.held[e]];
    var pushed := b.stack + [OffloadLeaf(id)];
    forall u | u in s.tasks ensures OffloadLeaf(id) !in s.tasks[u].stack {
      assert forall k | 0 <= k < |s.tasks[u].stack| :: LeafOk(s.react.kinds, s.net, s.pool.offs, s.tasks[u].stack[k]);
    }
    WaitsPush(s, DoOffload(s, e, id), s.execs.held[e], b.(stack := pushed), OffloadLeaf(id));
    ShapeMove(s, DoOffload(s, e, id), e, Returning, b.(stack := pushed));
  }

  lemma ShapeFinishing(s: State, e: ExecId, act: Action)
    requires Shape(s) && CanAct(s, e, act) && (act.LeaveTimeout? || act.Finish? || act.JoinDone?)
    ensures Shape(Act(s, e, act))
  {
    var t := s.execs.held[e];
    var s' := Act(s, e, act);
    WaitsShrink(s, s', t, s'.tasks[t]);
    ShapeMove(s, s', e, s'.execs.phase[e], s'.tasks[t]);
  }

  lemma ShapeJoin(s: State, e: ExecId, act: Action)
    requires Shape(s) && CanAct(s, e, act) && (act.JoinSend? || act.JoinFail?)
    ensures Shape(Act(s, e, act))
  {
    var t := s.execs.held[e];
    var s' := Act(s, e, act);
    assert s.tasks[t := s.tasks[t]] == s.tasks;
    WaitsShrink(s, s', t, s.tasks[t]);
    ShapeMove(s, s', e, Sending(true), s.tasks[t]);
  }

  lemma ShapeAct(s: State, e: ExecId, act: Action)
    requires Shape(s) && CanAct(s, e, act)
    ensures Shape(Act(s, e, act))
  {
    match act
    case Take => ShapeTake(s, e);
    case Lock => ShapeLock(s, e);
    case RepollLeaf => ShapeRepoll(s, e);
    case EnterTimeout(tok) => ShapeSleep(s, e, tok, Running);
    case PollSleep(tok) => ShapeSleep(s, e, tok, Returning);
    case AwaitLeaf(leaf) => ShapeAwait(s, e, leaf);
    case PollOffload(id) => ShapeOffload(s, e, id);
    case Yield => ShapeYield(s, e);
    case Unlock => ShapeUnlock(s, e);
    case DropTask => ShapeDropTask(s, e);
    case Ready => ShapeReady(s, e);
    case LeaveTimeout | Finish(_) | JoinDone => ShapeFinishing(s, e, act);
    case JoinSend | JoinFail => ShapeJoin(s, e, act);
  }

  lemma ShapeSpawn(s: State, t: TaskId, tag: Tag)
    requires Shape(s) && CanSpawn(s, t, tag)
    ensures Shape(DoSpawn(s, t, tag))
  {
    var s' := DoSpawn(s, t, tag);
    var c := s.sched.(strong := s.sched.strong[t := 1]);
    var b := s'.tasks[t];
    assert s'.tasks.Keys == s.tasks.Keys + {t};
    PlacedRegister(s.execs.phase, c, t);
    KnownSpawn(s.tasks.Keys, s.sched, t, s'.tasks.Keys);
    KnownRegister(s'.tasks.Keys, c, t);
    LockedSpawn(s.execs, s.tasks, t, b);
    AwaitsGrow(s.react.kinds, s.net, s.pool.offs, s.tasks, s.react.kinds, s'.net, s.pool.offs);
    AwaitsSpawn(s.react.kinds, s'.net, s.pool.offs, s.tasks, t, b);
  }

  /** A wake-up of u by the reactor or the pool. */
  lemma ShapeWake(s: State, s': State, u: TaskId)
    requires Shape(s) && s'.tasks == s.tasks && s'.execs == s.execs && s'.net == s.net
    requires s'.react.kinds == s.react.kinds && s'.pool.offs == s.pool.offs
    requires u in s.tasks && (s'.sched == Register(s.sched, u) || s'.sched == WakeByRef(s.sched, u))
    requires KnownWakers(s.tasks.Keys, s'.react.table)
    requires KnownValues(s.tasks.Keys, s'.react.tags) && KnownValues(s.tasks.Keys, s'.pool.closures)
    ensures Shape(s')
  {
    PlacedRegister(s.execs.phase, s.sched, u);
    PlacedRegister(s.execs.phase, Retain(s.sched, u), u);
    KnownRegister(s.tasks.Keys, s.sched, u);
    ShapeAround(s, s');
  }

  lemma ShapeReactor(s: State, w: Other)
    requires Shape(s) && CanHappen(s, w) && (w.HandleEvent? || w.LookupTag? || w.WakeClosure?)
    ensures Shape(Happen(s, w))
  {
    var s' := Happen(s, w);
    match w
    case HandleEvent =>
      var ev, table := s.react.batch[0], s.react.table;
      if ev.TokenEvent? && ev.tok in table && table[ev.tok].Awaited? {
        ShapeWake(s, s', table[ev.tok].waker);
      } else {
        ShapeAround(s, s');
      }
    case LookupTag =>
      if s.react.loop.tag in s.react.tags {
        ShapeWake(s, s', s.react.tags[s.react.loop.tag]);
      } else {
        ShapeAround(s, s');
      }
    case WakeClosure(id) => ShapeWake(s, s', s.pool.closures[id]);
  }

  lemma ShapeSending(s: State, w: Other)
    requires Shape(s) && CanHappen(s, w) && (w.SendEnqueue? || w.SendCount? || w.SendTag? || w.SendWake?)
    ensures Shape(Happen(s, w))
  {
    ShapeAround(s, Happen(s, w));
  }

  lemma ShapeMaking(s: State, w: Other)
    requires Shape(s) && CanHappen(s, w) && (w.NewChannel? || w.DropReceiver? || w.NewToken? || w.Abort?)
    ensures Shape(Happen(s, w))
  {
    if w.Abort? {
      KnownAbort(s.tasks.Keys, s.sched, w.t);
    }
    ShapeAround(s, Happen(s, w));
  }

  lemma ShapeFree(s: State, t: TaskId)
    requires Shape(s) && CanFree(s, t)
    ensures Shape(DoFree(s, t))
  {
    var b := s.tasks[t].(stack := [Runnable]);
    LockedFree(s.execs, s.tasks, t, b);
    AwaitsFree(s.react.kinds, s.net, s.pool.offs, s.tasks, t, b);
    assert s.tasks[t := b].Keys == s.tasks.Keys;
  }

  lemma ShapeQuiet(s: State, w: Other)
    requires Shape(s) && CanHappen(s, w) && (w.StrayTag? || w.Collect? || w.DrainPop? || w.RunClosure?)
    ensures Shape(Happen(s, w))
  {
    ShapeAround(s, Happen(s, w));
  }

  lemma ShapeOther(s: State, w: Other)
    requires Shape(s) && CanHappen(s, w)
    ensures Shape(Happen(s, w))
  {
    match w
    case Spawn(t, tag) => ShapeSpawn(s, t, tag);
    case HandleEvent | LookupTag | WakeClosure(_) => ShapeReactor(s, w);
    case SendEnqueue(_, _, _) | SendCount(_) | SendTag(_) | SendWake(_) => ShapeSending(s, w);
    case NewChannel(_, _) | DropReceiver(_) | NewToken(_) | Abort(_) => ShapeMaking(s, w);
    case Free(t) => ShapeFree(s, t);
    case StrayTag(_) | Collect(_) | DrainPop | RunClosure(_, _) => ShapeQuiet(s, w);
  }

  lemma KnownAbort(keys: set<TaskId>, c: Sched, t: TaskId)
    requires Known(keys, c) && t in keys
    ensures Known(keys, c.(dead := c.dead + {t}))
  {}
}
