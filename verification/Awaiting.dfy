/**
  What a task awaits: a poll goes on only past an entry that was answered, and a timeout stays in force
  until it is left, it or an outer one has fired, or the task is freed.
 */
module Awaiting {
  import opened Types
  import opened Scheduler
  import opened TokenTable
  import opened Channel
  import opened Runtime
  import opened Structure
  import opened Wakeups
  import opened Flows
  import opened FlowSteps
  import opened PinSteps
  import opened ShapeSteps
  import opened WakeSteps
  import opened Invariants
  import opened Runs
  import opened Theorems
  import opened Timers

  // ---------------------------------------------------------------- going on

  /**
    Why a poll of the leaf from s to s' was Ready: a fired timer, a consumed event, a received value, a taken
    result.
   */
  ghost predicate Answered(s: State, s': State, leaf: Leaf) {
    match leaf
    case Runnable => true
    case SleepLeaf(tok) => tok in s.react.table && s.react.table[tok] == Happened
    case TokenLeaf(tok) => tok in s.react.table && s.react.table[tok] == Happened && tok !in s'.react.table
    case RecvLeaf(tag) =>
      && tag in s.net.chans && tag in s'.net.chans && s.net.chans[tag].queue != []
      && s'.net.chans[tag].queue == s.net.chans[tag].queue[1..]
      && s'.net.chans[tag].received == s.net.chans[tag].received + [s.net.chans[tag].queue[0]]
    case OffloadLeaf(id) =>
      && id in s.pool.offs && id in s'.pool.offs && s.pool.offs[id].slot.Some?
      && s'.pool.offs[id].resolved == s.pool.offs[id].slot && s'.pool.offs[id].slot.None?
  }

  lemma EffectAnswers(s: State, leaf: Leaf, t: TaskId, r: State)
    requires Flowing(s.net) && LeafReady(s, leaf)
    requires r.react == PollEffect(s, leaf, t).react && r.net == PollEffect(s, leaf, t).net
    requires r.pool == PollEffect(s, leaf, t).pool
    ensures Answered(s, r, leaf)
  {
    if leaf.RecvLeaf? {
      PollKeepsOrder(s.net.chans[leaf.tag], Occ(s.net.sends, Enqueued(leaf.tag)));
    }
  }

  /**
    Re-polling entry i of the stack: either it was answered, everything above it is gone, the entries
    below it are as they were, and the future's code runs; or its wake-up is armed, nothing is gone,
    and the poll moves on to the next entry, or returns after the last.
   */
  lemma RepollAnswers(s: State, e: ExecId)
    requires Awake(s) && Flowing(s.net) && CanRepoll(s, e)
    ensures var s', t, i := DoRepoll(s, e), s.execs.held[e], s.execs.phase[e].at;
      var k := s.tasks[t].stack;
      || (At(s', e, Running) && s'.tasks[t].stack == k[..i] && Answered(s, s', k[i]))
      || (At(s', e, if i + 1 < |k| then Repoll(i + 1) else Returning) && s'.tasks[t].stack == k
          && Armed(s'.react, s'.net, s'.pool.closures, t, k[i]))
  {
    var t := s.execs.held[e];
    var leaf := s.tasks[t].stack[s.execs.phase[e].at];
    if LeafReady(s, leaf) {
      EffectAnswers(s, leaf, t, DoRepoll(s, e));
    } else {
      EffectKeepsTasks(s, leaf, t);
      PendArms(s, e);
    }
  }

  /** The first poll of a leaf: either it was answered and the future's code runs on, or it joins the stack, armed. */
  lemma AwaitAnswers(s: State, e: ExecId, leaf: Leaf)
    requires Awake(s) && Flowing(s.net) && CanAwait(s, e, leaf)
    ensures var s', t := DoAwait(s, e, leaf), s.execs.held[e];
      var k := s.tasks[t].stack;
      || (At(s', e, Running) && s'.tasks[t].stack == k && Answered(s, s', leaf))
      || (At(s', e, Returning) && s'.tasks[t].stack == k + [leaf]
          && Armed(s'.react, s'.net, s'.pool.closures, t, leaf))
  {
    var t := s.execs.held[e];
    EffectFrame(s, leaf, t);
    if LeafReady(s, leaf) {
      EffectAnswers(s, leaf, t, DoAwait(s, e, leaf));
    } else {
      assert LeafOk(s.react.kinds, s.net, s.pool.offs, leaf) && Pinned(s.react, s.pool, t, leaf);
      EffectArms(s, leaf, t, DoAwait(s, e, leaf));
    }
  }

  // ---------------------------------------------------------------- the stack over a step

  /** A step on another task, or outside the future's code and its re-polls, leaves the stack as it is. */
  lemma StackStays(s: State, e: ExecId, act: Action, t: TaskId)
    requires CanAct(s, e, act) && t in s.tasks
    requires || !(e in s.execs.held && s.execs.held[e] == t)
             || act.Take? || act.Lock? || act.Finish? || act.JoinSend? || act.JoinFail? || act.JoinDone?
             || act.Unlock? || act.DropTask? || act.Ready?
    ensures t in Act(s, e, act).tasks && Act(s, e, act).tasks[t].stack == s.tasks[t].stack
  {
    match act
    case RepollLeaf => EffectKeepsTasks(s, s.tasks[s.execs.held[e]].stack[s.execs.phase[e].at], s.execs.held[e]);
    case AwaitLeaf(leaf) => EffectKeepsTasks(s, leaf, s.execs.held[e]);
    case _ =>
  }

  /** What the future's own code starts to await with the action. */
  function Started(act: Action): Leaf
    requires act.EnterTimeout? || act.PollSleep? || act.PollOffload? || act.Yield?
  {
    match act
    case EnterTimeout(tok) => SleepLeaf(tok)
    case PollSleep(tok) => SleepLeaf(tok)
    case PollOffload(id) => OffloadLeaf(id)
    case Yield => Runnable
  }

  /**
    It is awaited on top of everything else. Entering a timeout lets the code run on into it; the others
    return Pending.
   */
  lemma StartsToAwait(s: State, e: ExecId, act: Action)
    requires CanAct(s, e, act) && (act.EnterTimeout? || act.PollSleep? || act.PollOffload? || act.Yield?)
    ensures var t := s.execs.held[e];
      Act(s, e, act).tasks[t].stack == s.tasks[t].stack + [Started(act)]
    ensures At(Act(s, e, act), e, if act.EnterTimeout? then Running else Returning)
  {}

  /** The future's own code awaits more on top of what it awaits. */
  lemma StackGrows(s: State, e: ExecId, act: Action)
    requires CanAct(s, e, act) && e in s.execs.held && s.execs.held[e] in s.tasks
    requires act.EnterTimeout? || act.PollSleep? || act.PollOffload? || act.Yield? || act.AwaitLeaf?
    ensures var t := s.execs.held[e];
      var k := s.tasks[t].stack;
      && t in Act(s, e, act).tasks && |Act(s, e, act).tasks[t].stack| >= |k|
      && Act(s, e, act).tasks[t].stack[..|k|] == k
  {
    if act.AwaitLeaf? {
      EffectKeepsTasks(s, act.leaf, s.execs.held[e]);
    } else {
      StartsToAwait(s, e, act);
    }
  }

  // ---------------------------------------------------------------- timeouts

  /** The first i + 1 entries of what t awaits are the same. */
  predicate SameUpTo(s: State, s': State, t: TaskId, i: nat) {
    && t in s.tasks && t in s'.tasks && i < |s.tasks[t].stack| && i < |s'.tasks[t].stack|
    && s'.tasks[t].stack[..i + 1] == s.tasks[t].stack[..i + 1]
  }

  /** The poll finds that the timer at stack[j] has fired, and drops everything awaited inside it. */
  predicate Elapses(s: State, s': State, t: TaskId, j: nat) {
    && t in s.tasks && t in s'.tasks && j < |s.tasks[t].stack| && s.tasks[t].stack[j].SleepLeaf?
    && Fired(s, s.tasks[t].stack[j].tok) && s'.tasks[t].stack == s.tasks[t].stack[..j]
  }

  /**
    How the timeout at stack[i] can end: the executor polling t finds it or an outer one elapsed, its
    inner future finishes while it is the innermost, or the task is freed.
   */
  predicate EndsTimeout(s: State, step: Step, t: TaskId, i: nat)
    requires Enabled(s, step)
  {
    match step
    case ByExecutor(e, act) =>
      && e in s.execs.held && s.execs.held[e] == t && t in s.tasks
      && (|| (act.RepollLeaf? && e in s.execs.phase && s.execs.phase[e].Repoll? && s.execs.phase[e].at <= i
              && Elapses(s, Apply(s, step), t, s.execs.phase[e].at))
          || (act.LeaveTimeout? && i + 1 == |s.tasks[t].stack|))
    case ByOther(w) => w == Free(t)
  }

  lemma RepollInTimeout(s: State, e: ExecId, t: TaskId, i: nat)
    requires Locked(s.execs, s.tasks) && Waits(s) && CanRepoll(s, e) && s.execs.held[e] == t
    requires i < |s.tasks[t].stack| && s.tasks[t].stack[i].SleepLeaf?
    ensures SameUpTo(s, DoRepoll(s, e), t, i)
         || (s.execs.phase[e].at <= i && Elapses(s, DoRepoll(s, e), t, s.execs.phase[e].at))
  {
    var j := s.execs.phase[e].at;
    var leaf := s.tasks[t].stack[j];
    EffectKeepsTasks(s, leaf, t);
    assert BodyOk(s.tasks[t]);
    assert LeafOk(s.react.kinds, s.net, s.pool.offs, leaf);
    if LeafReady(s, leaf) && j > i {
      assert s.tasks[t].stack[..j][..i + 1] == s.tasks[t].stack[..i + 1];
    }
  }

  /** Every step leaves a timeout and all outside it in force, unless it is one that ends it. */
  lemma TimeoutStep(s: State, step: Step, t: TaskId, i: nat)
    requires Shape(s) && Enabled(s, step) && t in s.tasks
    requires i < |s.tasks[t].stack| && s.tasks[t].stack[i].SleepLeaf?
    ensures SameUpTo(s, Apply(s, step), t, i) || EndsTimeout(s, step, t, i)
  {
    match step
    case ByExecutor(e, act) => TimeoutAct(s, e, act, t, i);
    case ByOther(w) => OtherThread(s, w, t);
  }

  lemma TimeoutAct(s: State, e: ExecId, act: Action, t: TaskId, i: nat)
    requires Locked(s.execs, s.tasks) && Waits(s) && CanAct(s, e, act) && t in s.tasks
    requires i < |s.tasks[t].stack| && s.tasks[t].stack[i].SleepLeaf?
    ensures SameUpTo(s, Act(s, e, act), t, i) || EndsTimeout(s, ByExecutor(e, act), t, i)
  {
    if !(e in s.execs.held && s.execs.held[e] == t) {
      StaysInTimeout(s, e, act, t, i);
    } else {
      match act
      case RepollLeaf => RepollInTimeout(s, e, t, i);
      case LeaveTimeout => LeaveInTimeout(s, e, t, i);
      case EnterTimeout(_) | PollSleep(_) | PollOffload(_) | Yield | AwaitLeaf(_) => GrowsInTimeout(s, e, act, t, i);
      case _ => StaysInTimeout(s, e, act, t, i);
    }
  }

  lemma StaysInTimeout(s: State, e: ExecId, act: Action, t: TaskId, i: nat)
    requires CanAct(s, e, act) && t in s.tasks && i < |s.tasks[t].stack|
    requires || !(e in s.execs.held && s.execs.held[e] == t)
             || act.Take? || act.Lock? || act.Finish? || act.JoinSend? || act.JoinFail? || act.JoinDone?
             || act.Unlock? || act.DropTask? || act.Ready?
    ensures SameUpTo(s, Act(s, e, act), t, i)
  {
    StackStays(s, e, act, t);
  }

  lemma GrowsInTimeout(s: State, e: ExecId, act: Action, t: TaskId, i: nat)
    requires CanAct(s, e, act) && e in s.execs.held && s.execs.held[e] == t && t in s.tasks && i < |s.tasks[t].stack|
    requires act.EnterTimeout? || act.PollSleep? || act.PollOffload? || act.Yield? || act.AwaitLeaf?
    ensures SameUpTo(s, Act(s, e, act), t, i)
  {
    StackGrows(s, e, act);
    var k := s.tasks[t].stack;
    assert Act(s, e, act).tasks[t].stack[..|k|][..i + 1] == k[..i + 1];
  }

  lemma LeaveInTimeout(s: State, e: ExecId, t: TaskId, i: nat)
    requires CanRun(s, e) && s.execs.held[e] == t && i < |s.tasks[t].stack|
    ensures i + 1 == |s.tasks[t].stack| || SameUpTo(s, DoLeave(s, e), t, i)
  {
    var k := s.tasks[t].stack;
    if i + 1 < |k| {
      assert k[..|k| - 1][..i + 1] == k[..i + 1];
    }
  }

  /** Some step of the run ends the timeout at stack[i] of t. */
  ghost predicate EndsIn(s: State, run: seq<Step>, t: TaskId, i: nat)
    requires Possible(s, run)
    decreases |run|
  {
    run != [] && (EndsTimeout(s, run[0], t, i) || EndsIn(Apply(s, run[0]), run[1..], t, i))
  }

  lemma SameEntry(s: State, s': State, t: TaskId, i: nat)
    requires SameUpTo(s, s', t, i)
    ensures s'.tasks[t].stack[i] == s.tasks[t].stack[i]
    ensures forall s'' | SameUpTo(s', s'', t, i) :: SameUpTo(s, s'', t, i)
  {
    assert s'.tasks[t].stack[i] == s'.tasks[t].stack[..i + 1][i];
    assert s.tasks[t].stack[i] == s.tasks[t].stack[..i + 1][i];
  }

  lemma {:induction false} TimeoutFrom(s: State, run: seq<Step>, t: TaskId, i: nat)
    requires Inv(s) && Possible(s, run) && t in s.tasks
    requires i < |s.tasks[t].stack| && s.tasks[t].stack[i].SleepLeaf?
    ensures SameUpTo(s, After(s, run), t, i) || EndsIn(s, run, t, i)
    decreases |run|
  {
    if run != [] {
      TimeoutStep(s, run[0], t, i);
      InvStep(s, run[0]);
      if SameUpTo(s, Apply(s, run[0]), t, i) {
        SameEntry(s, Apply(s, run[0]), t, i);
        TimeoutFrom(Apply(s, run[0]), run[1..], t, i);
      }
    }
  }

  /**
    Over whole runs a timeout stays in force until it ends, whatever its inner future goes on to
    await: a task parked inside it is its timer's awaited waker, or the timer has fired and the task
    has a copy scheduled, whose poll will find it.
   */
  lemma {:induction false} TimeoutStaysInForce(s: State, run: seq<Step>, t: TaskId, i: nat, tok: Token)
    requires Reachable(s) && Possible(s, run) && t in s.tasks
    requires i < |s.tasks[t].stack| && s.tasks[t].stack[i] == SleepLeaf(tok) && !EndsIn(s, run, t, i)
    ensures var s' := After(s, run);
      && SameUpTo(s, s', t, i) && s'.tasks[t].stack[i] == SleepLeaf(tok)
      && (s'.tasks[t].live && t !in s'.sched.dead && s'.tasks[t].lock.None? ==>
            || (tok in s'.react.table && s'.react.table[tok] == Awaited(t))
            || (Fired(s', tok) && Queued(s'.sched, s'.execs, t)))
  {
    ReachableInv(s);
    TimeoutFrom(s, run, t, i);
    InvRun(s, run);
    var s' := After(s, run);
    assert s'.tasks[t].stack[i] == s'.tasks[t].stack[..i + 1][i];
    TimerWakes(s', t, i, tok);
  }

  lemma TimerWakes(s: State, t: TaskId, i: nat, tok: Token)
    requires Awake(s) && t in s.tasks && i < |s.tasks[t].stack| && s.tasks[t].stack[i] == SleepLeaf(tok)
    ensures s.tasks[t].live && t !in s.sched.dead && s.tasks[t].lock.None? ==>
              || (tok in s.react.table && s.react.table[tok] == Awaited(t))
              || (Fired(s, tok) && Queued(s.sched, s.execs, t))
  {
    assert TaskWakes(s.sched, s.execs, s.react, s.net, s.pool.closures, t, s.tasks[t]);
    assert Pinned(s.react, s.pool, t, s.tasks[t].stack[i]);
    assert LeafOk(s.react.kinds, s.net, s.pool.offs, s.tasks[t].stack[i]);
  }

  // ---------------------------------------------------------------- the poll that finds a fired timer

  /**
    e runs the code after an elapsed timeout, at stack[i] or outside it; what the task awaits is what stands
    outside that one.
   */
  ghost predicate Elapsed(s: State, s': State, e: ExecId, t: TaskId, i: nat) {
    At(s', e, Running) && exists j | 0 <= j <= i :: Elapses(s, s', t, j)
  }

  lemma RepollTimer(s: State, e: ExecId, t: TaskId, i: nat, tok: Token)
    requires Locked(s.execs, s.tasks) && Waits(s) && Below(s, e, t, i, tok) && CanRepoll(s, e)
    ensures var s', j := DoRepoll(s, e), s.execs.phase[e].at;
      || (At(s', e, Running) && Elapses(s, s', t, j))
      || (j < i && At(s', e, Repoll(j + 1)) && s'.tasks == s.tasks && s'.react == s.react
          && s'.execs.held == s.execs.held)
      || !Fired(s, tok)
  {
    var j := s.execs.phase[e].at;
    assert BodyOk(s.tasks[t]) && s.tasks[t].stack[j].SleepLeaf?;
    assert LeafOk(s.react.kinds, s.net, s.pool.offs, s.tasks[t].stack[j]);
    assert s.tasks[t := s.tasks[t]] == s.tasks;
  }

  /** Nothing moved but the position of the poll. */
  lemma ElapsedSame(s: State, s1: State, s': State, e: ExecId, t: TaskId, i: nat)
    requires s1.tasks == s.tasks && s1.react == s.react && Elapsed(s1, s', e, t, i)
    ensures Elapsed(s, s', e, t, i)
  {
    var j :| 0 <= j <= i && Elapses(s1, s', t, j);
    assert Elapses(s, s', t, j);
  }

  lemma ElapsedOn(s: State, step: Step, rest: seq<Step>, e: ExecId, t: TaskId, i: nat)
    requires Enabled(s, step) && Possible(Apply(s, step), rest)
    requires Apply(s, step).tasks == s.tasks && Apply(s, step).react == s.react
    requires Elapsed(Apply(s, step), After(Apply(s, step), rest), e, t, i)
    ensures Possible(s, [step] + rest) && Elapsed(s, After(s, [step] + rest), e, t, i)
  {
    OneStep(s, step);
    RunsJoin(s, [step], rest);
    ElapsedSame(s, Apply(s, step), After(s, [step] + rest), e, t, i);
  }

  lemma {:induction false} RepollsEnd(s: State, e: ExecId, t: TaskId, i: nat, tok: Token) returns (run: seq<Step>)
    requires Shape(s) && Below(s, e, t, i, tok) && Fired(s, tok)
    ensures Possible(s, run) && Elapsed(s, After(s, run), e, t, i)
    ensures |run| <= i + 1 - s.execs.phase[e].at && forall step | step in run :: step == ByExecutor(e, RepollLeaf)
    decreases i - s.execs.phase[e].at
  {
    var step := ByExecutor(e, RepollLeaf);
    var s1 := DoRepoll(s, e);
    RepollTimer(s, e, t, i, tok);
    OneStep(s, step);
    run := [step];
    if !At(s1, e, Running) {
      ShapeRepoll(s, e);
      var rest := RepollsEnd(s1, e, t, i, tok);
      ElapsedOn(s, step, rest, e, t, i);
      run := run + rest;
    }
  }

  /**
    Once a timer has fired, locking the task that is parked inside its timeout and re-polling, and
    nothing else, ends that timeout or an outer one, in at most as many re-polls as there are timeouts
    down to it.
   */
  lemma {:induction false} NextPollEndsTimeout(s: State, e: ExecId, i: nat, tok: Token) returns (run: seq<Step>)
    requires Reachable(s) && CanLock(s, e) && s.tasks[s.execs.held[e]].live && Fired(s, tok)
    requires i < |s.tasks[s.execs.held[e]].stack| && s.tasks[s.execs.held[e]].stack[i] == SleepLeaf(tok)
    ensures Possible(s, [ByExecutor(e, Lock)] + run)
    ensures Elapsed(DoLock(s, e), After(s, [ByExecutor(e, Lock)] + run), e, s.execs.held[e], i)
    ensures |run| <= i + 1 && forall step | step in run :: step == ByExecutor(e, RepollLeaf)
  {
    ShapeOfLocked(s, e);
    run := RepollsEnd(DoLock(s, e), e, s.execs.held[e], i, tok);
    OneStep(s, ByExecutor(e, Lock));
    RunsJoin(s, [ByExecutor(e, Lock)], run);
  }

  lemma ShapeOfLocked(s: State, e: ExecId)
    requires Reachable(s) && CanLock(s, e)
    ensures Shape(DoLock(s, e))
  {
    ReachableInv(s);
    ShapeLock(s, e);
  }
}
