/** Every step keeps channels counted and in order, join channels honest, and offloaded operations run once. */
module FlowSteps {
  import opened Types
  import opened Runtime
  import opened Flows
  import opened ShapeSteps

  ghost predicate Flow(s: State) {
    Flowing(s.net) && Joined(s.net, s.execs, s.tasks) && OffsOk(s.pool)
  }

  // ---------------------------------------------------------------- an executor

  lemma FlowRecv(s: State, tag: Tag, t: TaskId)
    requires Flow(s) && tag in s.net.chans
    ensures Flow(RecvEffect(s, tag, t)) && RecvEffect(s, tag, t).net.sends == s.net.sends
  {
    FlowingPoll(s.net, tag);
    JoinedPoll(s.net, s.execs, s.tasks, tag);
  }

  /** Polling a leaf may receive a value or take a result, and keeps all three. */
  lemma FlowEffect(s: State, leaf: Leaf, t: TaskId)
    requires Flow(s)
    ensures Flow(PollEffect(s, leaf, t)) && PollEffect(s, leaf, t).net.sends == s.net.sends
  {
    match leaf
    case RecvLeaf(tag) =>
      if tag in s.net.chans {
        FlowRecv(s, tag, t);
      }
    case OffloadLeaf(id) =>
      if id in s.pool.offs {
        OffsTake(s.pool, id);
      }
    case _ =>
  }

  lemma FlowResume(s: State, e: ExecId)
    requires Shape(s) && Flow(s) && CanRepoll(s, e) && LeafReady(s, s.tasks[s.execs.held[e]].stack[s.execs.phase[e].at])
    ensures Flow(DoRepoll(s, e))
  {
    var t := s.execs.held[e];
    var b := s.tasks[t];
    var i := s.execs.phase[e].at;
    FlowEffect(s, b.stack[i], t);
    EffectFrame(s, b.stack[i], t);
    JoinedMove(PollEffect(s, b.stack[i], t).net, s.execs, s.tasks, e, Running, b.(stack := b.stack[..i]));
  }

  lemma FlowPend(s: State, e: ExecId)
    requires Shape(s) && Flow(s) && CanRepoll(s, e)
    requires !LeafReady(s, s.tasks[s.execs.held[e]].stack[s.execs.phase[e].at])
    ensures Flow(DoRepoll(s, e))
  {
    var t := s.execs.held[e];
    var b := s.tasks[t];
    var leaf := b.stack[s.execs.phase[e].at];
    FlowEffect(s, leaf, t);
    EffectFrame(s, leaf, t);
    JoinedStay(PollEffect(s, leaf, t).net, s.execs, s.tasks, e, DoRepoll(s, e).execs.phase[e]);
  }

  lemma FlowAwait(s: State, e: ExecId, leaf: Leaf)
    requires Shape(s) && Flow(s) && CanAwait(s, e, leaf)
    ensures Flow(DoAwait(s, e, leaf))
  {
    var t := s.execs.held[e];
    var b := s.tasks[t];
    FlowEffect(s, leaf, t);
    EffectFrame(s, leaf, t);
    if !LeafReady(s, leaf) {
      JoinedMove(PollEffect(s, leaf, t).net, s.execs, s.tasks, e, Returning, b.(stack := b.stack + [leaf]));
    }
  }

  /** The executor's other steps inside a poll, apart from finishing. */
  lemma FlowBody(s: State, e: ExecId, act: Action)
    requires Shape(s) && Flow(s) && CanAct(s, e, act)
    requires act.EnterTimeout? || act.LeaveTimeout? || act.PollSleep? || act.Yield? || act.JoinDone? || act.Unlock?
    ensures Flow(Act(s, e, act))
  {
    var s' := Act(s, e, act);
    JoinedMove(s.net, s.execs, s.tasks, e, s'.execs.phase[e], s'.tasks[s.execs.held[e]]);
  }

  lemma FlowOffload(s: State, e: ExecId, id: OffId)
    requires Shape(s) && Flow(s) && CanRun(s, e) && id !in s.pool.offs
    ensures Flow(DoOffload(s, e, id))
  {
    var t := s.execs.held[e];
    OffsSubmit(s.pool, id, t);
    JoinedMove(s.net, s.execs, s.tasks, e, Returning, DoOffload(s, e, id).tasks[t]);
  }

  lemma FlowLock(s: State, e: ExecId)
    requires Shape(s) && Flow(s) && CanLock(s, e)
    ensures Flow(DoLock(s, e))
  {
    var t := s.execs.held[e];
    var s' := DoLock(s, e);
    JoinedLock(s.net, s.execs, s.tasks, e, s'.execs.phase[e], s'.tasks[t]);
  }

  lemma FlowOutside(s: State, e: ExecId, act: Action)
    requires Shape(s) && Flow(s) && CanAct(s, e, act) && (act.Take? || act.DropTask? || act.Ready?)
    ensures Flow(Act(s, e, act))
  {
    JoinedPhase(s.net, s.execs, Act(s, e, act).execs, s.tasks, e);
  }

  lemma FlowFinish(s: State, e: ExecId, v: Value)
    requires Shape(s) && Flow(s) && CanRun(s, e)
    ensures Flow(DoFinish(s, e, v))
  {
    JoinedFinish(s.net, s.execs, s.tasks, e, DoFinish(s, e, v).tasks[s.execs.held[e]]);
  }

  lemma FlowJoin(s: State, e: ExecId)
    requires Shape(s) && Flow(s) && CanJoin(s, e)
    ensures Flow(DoJoin(s, e))
  {
    var b := s.tasks[s.execs.held[e]];
    JoinedSend(s.net, s.execs, s.tasks, e);
    FlowingEnqueue(s.net, ExecSender(e), b.join, b.output.value);
  }

  lemma FlowJoinFail(s: State, e: ExecId)
    requires Shape(s) && Flow(s) && IsSending(s, e, false) && s.tasks[s.execs.held[e]].join in s.net.closed
    ensures Flow(SetPhase(s, e, Sending(true)))
  {
    JoinedStay(s.net, s.execs, s.tasks, e, Sending(true));
  }

  lemma FlowAct(s: State, e: ExecId, act: Action)
    requires Shape(s) && Flow(s) && CanAct(s, e, act)
    ensures Flow(Act(s, e, act))
  {
    match act
    case RepollLeaf =>
      if LeafReady(s, s.tasks[s.execs.held[e]].stack[s.execs.phase[e].at]) {
        FlowResume(s, e);
      } else {
        FlowPend(s, e);
      }
    case AwaitLeaf(leaf) => FlowAwait(s, e, leaf);
    case PollOffload(id) => FlowOffload(s, e, id);
    case Lock => FlowLock(s, e);
    case Finish(v) => FlowFinish(s, e, v);
    case JoinSend => FlowJoin(s, e);
    case JoinFail => FlowJoinFail(s, e);
    case Take | DropTask | Ready => FlowOutside(s, e, act);
    case EnterTimeout(_) | LeaveTimeout | PollSleep(_) | Yield | JoinDone | Unlock => FlowBody(s, e, act);
  }

  // ---------------------------------------------------------------- the others

  lemma FlowEnqueue(s: State, n: nat, tag: Tag, v: Value)
    requires Flow(s) && ThreadSender(n) !in s.net.sends && HasRoom(s, tag) && tag !in s.net.joins
    ensures Flow(EnqueueAs(s, ThreadSender(n), tag, v))
  {
    FlowingEnqueue(s.net, ThreadSender(n), tag, v);
    JoinedAround(s.net, EnqueueAs(s, ThreadSender(n), tag, v).net, s.execs, s.tasks);
  }

  lemma FlowCount(s: State, a: Sender)
    requires Flow(s) && CanAdvance(s, a) && s.net.sends[a].Enqueued?
    ensures Flow(DoSendCount(s, a))
  {
    FlowingCount(s.net, a);
    JoinedAround(s.net, DoSendCount(s, a).net, s.execs, s.tasks);
  }

  lemma FlowTag(s: State, a: Sender)
    requires Flow(s) && CanAdvance(s, a) && !s.net.sends[a].Enqueued?
    ensures Flow(DoSendTag(s, a)) && Flow(DoSendWake(s, a))
  {
    FlowingTag(s.net, a);
    JoinedAround(s.net, DoSendTag(s, a).net, s.execs, s.tasks);
    JoinedAround(s.net, DoSendWake(s, a).net, s.execs, s.tasks);
  }

  lemma FlowNewChannel(s: State, tag: Tag, cap: nat)
    requires Flow(s) && FreshTag(s, tag)
    ensures Flow(DoNewChannel(s, tag, cap))
  {
    FlowingNew(s.net, tag, cap);
    JoinedAround(s.net, DoNewChannel(s, tag, cap).net, s.execs, s.tasks);
  }

  lemma FlowClose(s: State, tag: Tag)
    requires Flow(s)
    ensures Flow(Close(s, tag))
  {
    JoinedAround(s.net, Close(s, tag).net, s.execs, s.tasks);
  }

  lemma FlowSpawn(s: State, t: TaskId, tag: Tag)
    requires Shape(s) && Flow(s) && CanSpawn(s, t, tag)
    ensures Flow(DoSpawn(s, t, tag))
  {
    FlowingNew(s.net, tag, 1);
    JoinedSpawn(s.net, s.execs, s.tasks, t, DoSpawn(s, t, tag).tasks[t]);
  }

  lemma FlowRun(s: State, id: OffId, v: Value)
    requires Flow(s) && s.pool.jobs[id] > 0 && id in s.pool.offs
    ensures Flow(DoRunClosure(s, id, v))
  {
    OffsRun(s.pool, id, s.pool.offs[id], v);
  }

  lemma FlowWake(s: State, id: OffId)
    requires Flow(s) && CanWakeClosure(s, id)
    ensures Flow(DoWakeClosure(s, id))
  {
    OffsWake(s.pool, id);
  }

  lemma FlowQuiet(s: State, w: Other)
    requires Flow(s) && CanHappen(s, w)
    requires w.NewToken? || w.StrayTag? || w.Collect? || w.HandleEvent? || w.DrainPop? || w.LookupTag?
    ensures Flow(Happen(s, w))
  {}

  lemma FlowFree(s: State, t: TaskId)
    requires Flow(s) && CanFree(s, t)
    ensures Flow(DoFree(s, t))
  {
    JoinedFree(s.net, s.execs, s.tasks, t, s.tasks[t].(stack := [Runnable]));
  }

  lemma FlowOther(s: State, w: Other)
    requires Shape(s) && Flow(s) && CanHappen(s, w)
    ensures Flow(Happen(s, w))
  {
    match w
    case Spawn(t, tag) => FlowSpawn(s, t, tag);
    case Abort(t) => FlowClose(s.(sched := s.sched.(dead := s.sched.dead + {t})), s.tasks[t].join);
    case DropReceiver(tag) => FlowClose(s, tag);
    case NewChannel(tag, cap) => FlowNewChannel(s, tag, cap);
    case Free(t) => FlowFree(s, t);
    case RunClosure(id, v) => FlowRun(s, id, v);
    case WakeClosure(id) => FlowWake(s, id);
    case SendEnqueue(n, tag, v) => FlowEnqueue(s, n, tag, v);
    case SendCount(a) => FlowCount(s, a);
    case SendTag(a) => FlowTag(s, a);
    case SendWake(a) => FlowTag(s, a);
    case NewToken(_) | StrayTag(_) | Collect(_) | HandleEvent | DrainPop | LookupTag => FlowQuiet(s, w);
  }
}
