/** Every step keeps the promise that no wake-up is lost. */
module WakeSteps {
  import opened Types
  import opened Runtime
  import opened Structure
  import opened Wakeups
  import opened Flows
  import opened References
  import opened ShapeSteps

  // ---------------------------------------------------------------- an executor inside a poll

  ghost predicate Awake(s: State) {
    Shape(s) && AllWake(s) && AllPinned(s.react, s.pool, s.tasks) && OffsOk(s.pool)
  }

  /** stack[k] was polled before in this poll, or was not being polled: what held for it carries over. */
  ghost predicate Carried(s: State, s': State, t: TaskId, leaf: Leaf, k: nat) {
    && t in s.tasks && k < |s.tasks[t].stack| && s.tasks[t].stack[k] == leaf
    && !Repolling(s.execs, s.tasks[t], k)
    && KeepsWait(s, s', t, leaf)
  }

  /** A step inside a poll of t that leaves the scheduler's queues alone. */
  lemma WakesMove(s: State, s': State, e: ExecId, t: TaskId, p: Phase, b: Body)
    requires Locked(s.execs, s.tasks) && AllWake(s)
    requires e in s.execs.phase && InPoll(s.execs.phase[e]) && InPoll(p) && t == s.execs.held[e]
    requires s'.execs == s.execs.(phase := s.execs.phase[e := p]) && s'.tasks == s.tasks[t := b]
    requires SameQueues(s.sched, s'.sched)
    requires b.live ==> s.tasks[t].live
    requires forall u, k | u in s.tasks && u != t && 0 <= k < |s.tasks[u].stack| ::
        KeepsWait(s, s', u, s.tasks[u].stack[k])
    requires forall k | 0 <= k < |b.stack| ::
               || Armed(s'.react, s'.net, s'.pool.closures, t, b.stack[k])
               || Repolling(s'.execs, b, k)
               || Carried(s, s', t, b.stack[k], k)
    ensures AllWake(s')
  {
    SameCopies(s, s');
    TaskCarries(s, s', t, b);
    WakesIn(s, s', e, t);
  }

  lemma TaskCarries(s: State, s': State, t: TaskId, b: Body)
    requires AllWake(s) && t in s.tasks && s'.sched.dead == s.sched.dead && (b.live ==> s.tasks[t].live)
    requires Queued(s.sched, s.execs, t) ==> Queued(s'.sched, s'.execs, t)
    requires forall k | 0 <= k < |b.stack| ::
               || Armed(s'.react, s'.net, s'.pool.closures, t, b.stack[k])
               || Repolling(s'.execs, b, k)
               || Carried(s, s', t, b.stack[k], k)
    ensures TaskWakes(s'.sched, s'.execs, s'.react, s'.net, s'.pool.closures, t, b)
  {
    assert TaskWakes(s.sched, s.execs, s.react, s.net, s.pool.closures, t, s.tasks[t]);
  }

  lemma SameCopies(s: State, s': State)
    requires SameQueues(s.sched, s'.sched) && s'.execs.held == s.execs.held
    requires forall f | f in s.execs.held && f in s.execs.phase && s.execs.phase[f].Holding? ::
        f in s'.execs.phase && s'.execs.phase[f].Holding?
    requires forall f | f in s.execs.held && f in s'.execs.phase && s'.execs.phase[f].Holding? ::
        f in s.execs.phase && s.execs.phase[f].Holding?
    ensures forall t :: KeepsCopies(s, s', t) && (Queued(s'.sched, s'.execs, t) ==> Queued(s.sched, s.execs, t))
  {}

  /** Polling one leaf of t disturbs no other wait, unless it is on the same token or channel. */
  lemma EffectKeepsWait(s: State, leaf: Leaf, t: TaskId, r: State, u: TaskId, other: Leaf)
    requires LeafOk(s.react.kinds, s.net, s.pool.offs, leaf) && LeafOk(s.react.kinds, s.net, s.pool.offs, other)
    requires other != leaf || !Exclusive(leaf)
    requires r.react == PollEffect(s, leaf, t).react && r.net == PollEffect(s, leaf, t).net
    requires r.pool == PollEffect(s, leaf, t).pool
    ensures KeepsWait(s, r, u, other)
  {
    match leaf
    case RecvLeaf(tag) => RecvKeepsWait(s, tag, t, r, u, other);
    case _ =>
  }

  lemma RecvKeepsWait(s: State, tag: Tag, t: TaskId, r: State, u: TaskId, other: Leaf)
    requires tag in s.net.chans && other != RecvLeaf(tag)
    requires r.react == RecvEffect(s, tag, t).react && r.net == RecvEffect(s, tag, t).net && r.pool == s.pool
    ensures KeepsWait(s, r, u, other)
  {}

  /** A leaf polled pending is armed for the task that polled it. */
  lemma EffectArms(s: State, leaf: Leaf, t: TaskId, r: State)
    requires LeafOk(s.react.kinds, s.net, s.pool.offs, leaf) && OffsOk(s.pool)
    requires Pinned(s.react, s.pool, t, leaf) && !LeafReady(s, leaf)
    requires r.react == PollEffect(s, leaf, t).react && r.net == PollEffect(s, leaf, t).net
    requires r.pool == PollEffect(s, leaf, t).pool
    ensures Armed(r.react, r.net, r.pool.closures, t, leaf)
  {}

  lemma EffectKeepsWaits(s: State, leaf: Leaf, t: TaskId, r: State)
    requires Waits(s) && LeafOk(s.react.kinds, s.net, s.pool.offs, leaf)
    requires r.react == PollEffect(s, leaf, t).react && r.net == PollEffect(s, leaf, t).net
    requires r.pool == PollEffect(s, leaf, t).pool
    ensures forall u, k | u in s.tasks && 0 <= k < |s.tasks[u].stack|
                          && (s.tasks[u].stack[k] != leaf || !Exclusive(leaf)) ::
              KeepsWait(s, r, u, s.tasks[u].stack[k])
  {
    forall u, k | u in s.tasks && 0 <= k < |s.tasks[u].stack| && (s.tasks[u].stack[k] != leaf || !Exclusive(leaf))
      ensures KeepsWait(s, r, u, s.tasks[u].stack[k])
    {
      EffectKeepsWait(s, leaf, t, r, u, s.tasks[u].stack[k]);
    }
  }

  /** A future's own code starts to await one more leaf, and no wait is disturbed. */
  lemma WakesPush(s: State, s': State, e: ExecId, t: TaskId, p: Phase, leaf: Leaf)
    requires Shape(s) && AllWake(s) && CanRun(s, e) && t == s.execs.held[e] && InPoll(p)
    requires s'.execs == s.execs.(phase := s.execs.phase[e := p])
    requires s'.tasks == s.tasks[t := s.tasks[t].(stack := s.tasks[t].stack + [leaf])]
    requires SameQueues(s.sched, s'.sched)
    requires forall u, k | u in s.tasks && 0 <= k < |s.tasks[u].stack| :: KeepsWait(s, s', u, s.tasks[u].stack[k])
    requires Armed(s'.react, s'.net, s'.pool.closures, t, leaf)
    ensures AllWake(s')
  {
    WakesMove(s, s', e, t, p, s'.tasks[t]);
  }

  lemma NobodyElse(s: State, t: TaskId, i: nat)
    requires OneWaiter(s.tasks) && t in s.tasks && i < |s.tasks[t].stack|
    ensures forall u | u in s.tasks && u != t && Exclusive(s.tasks[t].stack[i]) ::
        s.tasks[t].stack[i] !in s.tasks[u].stack
  {}

  lemma WakesResume(s: State, e: ExecId)
    requires Awake(s) && CanRepoll(s, e) && LeafReady(s, s.tasks[s.execs.held[e]].stack[s.execs.phase[e].at])
    ensures AllWake(DoRepoll(s, e))
  {
    var t := s.execs.held[e];
    var i := s.execs.phase[e].at;
    var b := s.tasks[t];
    EffectFrame(s, b.stack[i], t);
    NobodyElse(s, t, i);
    EffectKeepsWaits(s, b.stack[i], t, DoRepoll(s, e));
    WakesMove(s, DoRepoll(s, e), e, t, Running, b.(stack := b.stack[..i]));
  }

  /** Every leaf of the task is armed, still to be polled in this poll, or as it was. */
  lemma PendCarries(s: State, e: ExecId, k: nat)
    requires Awake(s) && CanRepoll(s, e)
    requires !LeafReady(s, s.tasks[s.execs.held[e]].stack[s.execs.phase[e].at])
    requires k < |s.tasks[s.execs.held[e]].stack|
    ensures var t, s' := s.execs.held[e], DoRepoll(s, e);
      var leaf := s.tasks[t].stack[k];
      || Armed(s'.react, s'.net, s'.pool.closures, t, leaf)
      || Repolling(s'.execs, s.tasks[t], k)
      || Carried(s, s', t, leaf, k)
  {
    var t := s.execs.held[e];
    var i := s.execs.phase[e].at;
    if k == i {
      PendArms(s, e);
    } else if k < i {
      var leaf := s.tasks[t].stack[i];
      assert LeafOk(s.react.kinds, s.net, s.pool.offs, leaf);
      assert s.tasks[t].stack[k].SleepLeaf?;
      EffectKeepsWait(s, leaf, t, DoRepoll(s, e), t, s.tasks[t].stack[k]);
    }
  }

  lemma WakesPend(s: State, e: ExecId)
    requires Awake(s) && CanRepoll(s, e)
    requires !LeafReady(s, s.tasks[s.execs.held[e]].stack[s.execs.phase[e].at])
    ensures AllWake(DoRepoll(s, e))
  {
    var t := s.execs.held[e];
    var i := s.execs.phase[e].at;
    var b := s.tasks[t];
    var s' := DoRepoll(s, e);
    EffectFrame(s, b.stack[i], t);
    NobodyElse(s, t, i);
    EffectKeepsWaits(s, b.stack[i], t, s');
    assert s.tasks[t := b] == s.tasks;
    forall k | 0 <= k < |b.stack| {
      PendCarries(s, e, k);
    }
    WakesMove(s, s', e, t, s'.execs.phase[e], b);
  }

  lemma PendArms(s: State, e: ExecId)
    requires Awake(s) && CanRepoll(s, e) && !LeafReady(s, s.tasks[s.execs.held[e]].stack[s.execs.phase[e].at])
    ensures var r := DoRepoll(s, e);
      Armed(r.react, r.net, r.pool.closures, s.execs.held[e], s.tasks[s.execs.held[e]].stack[s.execs.phase[e].at])
  {
    var t := s.execs.held[e];
    var leaf := s.tasks[t].stack[s.execs.phase[e].at];
    assert Pinned(s.react, s.pool, t, leaf);
    EffectArms(s, leaf, t, DoRepoll(s, e));
  }

  lemma WakesAwait(s: State, e: ExecId, leaf: Leaf)
    requires Awake(s) && CanAwait(s, e, leaf)
    ensures AllWake(DoAwait(s, e, leaf))
  {
    var t := s.execs.held[e];
    var b := s.tasks[t];
    var s' := DoAwait(s, e, leaf);
    EffectFrame(s, leaf, t);
    EffectKeepsWaits(s, leaf, t, s');
    if LeafReady(s, leaf) {
      assert s.tasks[t := b] == s.tasks && s.execs.phase[e := Running] == s.execs.phase;
      WakesMove(s, s', e, t, Running, b);
    } else {
      EffectArms(s, leaf, t, s');
      WakesPush(s, s', e, t, Returning, leaf);
    }
  }

  lemma WakesSleep(s: State, e: ExecId, tok: Token, p: Phase)
    requires Awake(s) && CanRun(s, e) && tok !in s.react.kinds && (p.Running? || p.Returning?)
    ensures AllWake(DoSleep(s, e, tok, p))
  {
    var t := s.execs.held[e];
    var b := s.tasks[t];
    var s' := DoSleep(s, e, tok, p);
    StoreFrame(s, e, tok, p);
    forall u, k | u in s.tasks && 0 <= k < |s.tasks[u].stack|
      ensures KeepsWait(s, s', u, s.tasks[u].stack[k])
    {
      assert LeafOk(s.react.kinds, s.net, s.pool.offs, s.tasks[u].stack[k]);
    }
    WakesPush(s, s', e, t, p, SleepLeaf(tok));
  }

  lemma WakesOffload(s: State, e: ExecId, id: OffId)
    requires Awake(s) && CanRun(s, e) && id !in s.pool.offs
    ensures AllWake(DoOffload(s, e, id))
  {
    var t := s.execs.held[e];
    WakesPush(s, DoOffload(s, e, id), e, t, Returning, OffloadLeaf(id));
  }

  lemma WakesLeave(s: State, e: ExecId)
    requires Awake(s) && CanRun(s, e) && s.tasks[s.execs.held[e]].stack != []
    ensures AllWake(DoLeave(s, e))
  {
    var t := s.execs.held[e];
    var b := s.tasks[t];
    var s' := DoLeave(s, e);
    var kept := b.stack[..|b.stack| - 1];
    forall k | 0 <= k < |kept| ensures Carried(s, s', t, kept[k], k) {
      assert kept[k] == b.stack[k];
    }
    WakesMove(s, s', e, t, Running, b.(stack := kept));
  }

  lemma WakesFinish(s: State, e: ExecId, v: Value)
    requires Awake(s) && CanRun(s, e) && s.tasks[s.execs.held[e]].stack == []
    ensures AllWake(DoFinish(s, e, v))
  {
    var t := s.execs.held[e];
    WakesMove(s, DoFinish(s, e, v), e, t, Sending(false), DoFinish(s, e, v).tasks[t]);
  }

  lemma WakesJoinDone(s: State, e: ExecId)
    requires Awake(s) && IsSending(s, e, true)
    ensures AllWake(DoJoinDone(s, e))
  {
    var t := s.execs.held[e];
    WakesMove(s, DoJoinDone(s, e), e, t, Returning, DoJoinDone(s, e).tasks[t]);
  }

  lemma WakesJoinSend(s: State, e: ExecId)
    requires Awake(s) && CanJoin(s, e) && ExecSender(e) !in s.net.sends
    ensures AllWake(DoJoin(s, e))
  {
    var t := s.execs.held[e];
    var b := s.tasks[t];
    assert s.tasks[t := b] == s.tasks;
    EnqueueKeepsWaits(s, DoJoin(s, e), ExecSender(e), b.join, b.output.value);
    WakesMove(s, DoJoin(s, e), e, t, Sending(true), b);
  }

  lemma WakesJoinFail(s: State, e: ExecId)
    requires Awake(s) && IsSending(s, e, false)
    ensures AllWake(SetPhase(s, e, Sending(true)))
  {
    var t := s.execs.held[e];
    assert s.tasks[t := s.tasks[t]] == s.tasks;
    WakesMove(s, SetPhase(s, e, Sending(true)), e, t, Sending(true), s.tasks[t]);
  }

  /** A new send announces nothing yet, and hides nothing already announced. */
  lemma EnqueueKeepsWaits(s: State, s': State, a: Sender, tag: Tag, v: Value)
    requires HasRoom(s, tag) && a !in s.net.sends
    requires s'.react == s.react && s'.pool == s.pool && s'.net == EnqueueAs(s, a, tag, v).net
    ensures forall t, leaf :: KeepsWait(s, s', t, leaf)
  {
    forall other | Counting(s.net.sends, other) ensures Counting(s'.net.sends, other) {
      var x :| x in s.net.sends && s.net.sends[x] == Counted(other);
      assert s'.net.sends[x] == Counted(other);
    }
  }

  lemma WakesYield(s: State, e: ExecId)
    requires Awake(s) && CanRun(s, e)
    ensures AllWake(DoYield(s, e))
  {
    var t := s.execs.held[e];
    forall u | Queued(s.sched, s.execs, u) || (u == t && u !in s.sched.dead)
      ensures Queued(DoYield(s, e).sched, DoYield(s, e).execs, u)
    {
      YieldQueues(s, e, u);
    }
    RegisterKeys(s.sched, t);
    WakesIn(s, DoYield(s, e), e, t);
  }

  lemma YieldQueues(s: State, e: ExecId, u: TaskId)
    requires CanRun(s, e)
    requires Queued(s.sched, s.execs, u) || (u == s.execs.held[e] && u !in s.sched.dead)
    ensures Queued(DoYield(s, e).sched, DoYield(s, e).execs, u)
  {
    WakeQueues(s.sched, s.execs, s.execs.held[e], u);
    if IsHeld(s.execs, u) {
      var f :| f in s.execs.held && s.execs.held[f] == u && f in s.execs.phase && s.execs.phase[f].Holding?;
      assert f != e && DoYield(s, e).execs.phase[f].Holding?;
    }
  }

  // ---------------------------------------------------------------- an executor outside a poll

  lemma WakesTake(s: State, e: ExecId)
    requires Awake(s) && CanTake(s, e)
    ensures AllWake(DoTake(s, e))
  {
    var s' := DoTake(s, e);
    forall t | Queued(s.sched, s.execs, t) ensures Queued(s'.sched, s'.execs, t) {
      TakeQueues(s, e, t);
    }
    WakesAround(s, s');
  }

  lemma TakeQueues(s: State, e: ExecId, t: TaskId)
    requires Shape(s) && CanTake(s, e) && Queued(s.sched, s.execs, t)
    ensures Queued(DoTake(s, e).sched, DoTake(s, e).execs, t)
  {
    var s' := DoTake(s, e);
    PlacedTake(s.execs.phase, s.sched.idle, s.sched.inbox, e);
    if HasMessage(s.sched.inbox, t) {
      var f :| f in s.sched.inbox && t in s.sched.inbox[f];
      if f == e {
        assert s'.execs.held[e] == t;
      } else {
        assert t in s'.sched.inbox[f];
      }
    } else if IsHeld(s.execs, t) {
      var f :| f in s.execs.held && s.execs.held[f] == t && f in s.execs.phase && s.execs.phase[f].Holding?;
      assert s'.execs.phase[f].Holding?;
    }
  }

  lemma LockKeepsCopies(s: State, e: ExecId, u: TaskId)
    requires CanLock(s, e) && u != s.execs.held[e]
    ensures KeepsCopies(s, DoLock(s, e), u)
  {
    if IsHeld(s.execs, u) {
      var f :| f in s.execs.held && s.execs.held[f] == u && f in s.execs.phase && s.execs.phase[f].Holding?;
      assert DoLock(s, e).execs.phase[f].Holding?;
    }
  }

  lemma WakesLock(s: State, e: ExecId)
    requires Awake(s) && CanLock(s, e)
    ensures AllWake(DoLock(s, e))
  {
    var t := s.execs.held[e];
    forall u | u in s.tasks && u != t ensures KeepsCopies(s, DoLock(s, e), u) {
      LockKeepsCopies(s, e, u);
    }
    LockWakes(s, e);
    WakesIn(s, DoLock(s, e), e, t);
  }

  /** A live future just locked has every leaf still to poll. */
  lemma LockWakes(s: State, e: ExecId)
    requires CanLock(s, e)
    ensures var s' := DoLock(s, e);
      TaskWakes(s'.sched, s'.execs, s'.react, s'.net, s'.pool.closures, s.execs.held[e], s'.tasks[s.execs.held[e]])
  {}

  lemma WakesUnlock(s: State, e: ExecId)
    requires Awake(s) && InTask(s, e) && At(s, e, Returning)
    ensures AllWake(DoUnlock(s, e))
  {
    var t := s.execs.held[e];
    SameCopies(s, DoUnlock(s, e));
    assert TaskWakes(s.sched, s.execs, s.react, s.net, s.pool.closures, t, s.tasks[t]);
    WakesIn(s, DoUnlock(s, e), e, t);
  }

  lemma DropQueues(s: State, e: ExecId, u: TaskId)
    requires InTask(s, e) && At(s, e, Polled) && Queued(s.sched, s.execs, u)
    ensures Queued(DoDropTask(s, e).sched, DoDropTask(s, e).execs, u)
  {
    if IsHeld(s.execs, u) {
      var f :| f in s.execs.held && s.execs.held[f] == u && f in s.execs.phase && s.execs.phase[f].Holding?;
      assert DoDropTask(s, e).execs.phase[f].Holding?;
    }
  }

  lemma WakesDropTask(s: State, e: ExecId)
    requires Awake(s) && InTask(s, e) && At(s, e, Polled)
    ensures AllWake(DoDropTask(s, e))
  {
    forall u | Queued(s.sched, s.execs, u) ensures Queued(DoDropTask(s, e).sched, DoDropTask(s, e).execs, u) {
      DropQueues(s, e, u);
    }
    WakesAround(s, DoDropTask(s, e));
  }

  lemma ReportQueues(s: State, e: ExecId, u: TaskId)
    requires Shape(s) && At(s, e, AtReady) && u !in s.sched.dead && Queued(s.sched, s.execs, u)
    ensures Queued(DoReady(s, e).sched, DoReady(s, e).execs, u)
  {
    if IsHeld(s.execs, u) {
      var f :| f in s.execs.held && s.execs.held[f] == u && f in s.execs.phase && s.execs.phase[f].Holding?;
      assert DoReady(s, e).execs.phase[f].Holding?;
    } else {
      ReadyQueues(s.sched, e, u);
    }
  }

  lemma WakesReady(s: State, e: ExecId)
    requires Awake(s) && At(s, e, AtReady)
    ensures AllWake(DoReady(s, e))
  {
    ReadyShape(s.sched, e);
    forall u | u !in s.sched.dead && Queued(s.sched, s.execs, u)
      ensures Queued(DoReady(s, e).sched, DoReady(s, e).execs, u)
    {
      ReportQueues(s, e, u);
    }
    WakesAround(s, DoReady(s, e));
  }

  lemma WakesAct(s: State, e: ExecId, act: Action)
    requires Awake(s) && CanAct(s, e, act) && (act.JoinSend? ==> ExecSender(e) !in s.net.sends)
    ensures AllWake(Act(s, e, act))
  {
    match act
    case Take => WakesTake(s, e);
    case Lock => WakesLock(s, e);
    case RepollLeaf =>
      if LeafReady(s, s.tasks[s.execs.held[e]].stack[s.execs.phase[e].at]) {
        WakesResume(s, e);
      } else {
        WakesPend(s, e);
      }
    case EnterTimeout(tok) => WakesSleep(s, e, tok, Running);
    case PollSleep(tok) => WakesSleep(s, e, tok, Returning);
    case AwaitLeaf(leaf) => WakesAwait(s, e, leaf);
    case PollOffload(id) => WakesOffload(s, e, id);
    case Yield => WakesYield(s, e);
    case JoinSend => WakesJoinSend(s, e);
    case JoinFail => WakesJoinFail(s, e);
    case Unlock => WakesUnlock(s, e);
    case DropTask => WakesDropTask(s, e);
    case Ready => WakesReady(s, e);
    case LeaveTimeout => WakesLeave(s, e);
    case Finish(v) => WakesFinish(s, e, v);
    case JoinDone => WakesJoinDone(s, e);
  }
}
