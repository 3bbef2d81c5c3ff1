/** Timers fire once and for all, and a fired timeout cuts off what it guards. */
module Timers {
  import opened Types
  import opened TokenTable
  import opened Runtime
  import opened Structure
  import opened ShapeSteps
  import opened Invariants

  /** tok is a timer and its event has been handled. */
  predicate Fired(s: State, tok: Token) {
    tok in s.react.kinds && s.react.kinds[tok].Timer? && PollReady(s.react.table, tok)
  }

  lemma EffectKeepsFired(s: State, leaf: Leaf, t: TaskId, tok: Token)
    requires Fired(s, tok) && LeafOk(s.react.kinds, s.net, s.pool.offs, leaf)
    ensures Fired(PollEffect(s, leaf, t), tok)
  {}

  lemma FiredRepoll(s: State, e: ExecId, tok: Token)
    requires Waits(s) && CanRepoll(s, e) && Fired(s, tok)
    ensures Fired(DoRepoll(s, e), tok)
  {
    EffectKeepsFired(s, s.tasks[s.execs.held[e]].stack[s.execs.phase[e].at], s.execs.held[e], tok);
  }

  lemma FiredAwait(s: State, e: ExecId, leaf: Leaf, tok: Token)
    requires CanAwait(s, e, leaf) && Fired(s, tok)
    ensures Fired(DoAwait(s, e, leaf), tok)
  {
    EffectKeepsFired(s, leaf, s.execs.held[e], tok);
  }

  lemma FiredAct(s: State, e: ExecId, act: Action, tok: Token)
    requires Waits(s) && CanAct(s, e, act) && Fired(s, tok)
    ensures Fired(Act(s, e, act), tok)
  {
    if act.RepollLeaf? {
      FiredRepoll(s, e, tok);
    } else if act.AwaitLeaf? {
      FiredAwait(s, e, act.leaf, tok);
    } else {
      var s' := Act(s, e, act);
      assert tok in s'.react.kinds && s'.react.kinds[tok] == s.react.kinds[tok];
    }
  }

  lemma FiredOther(s: State, w: Other, tok: Token)
    requires CanHappen(s, w) && Fired(s, tok)
    ensures Fired(Happen(s, w), tok)
  {}

  /** A fired timer stays fired, whatever happens. */
  lemma FiredStays(s: State, step: Step, tok: Token)
    requires Waits(s) && Enabled(s, step) && Fired(s, tok)
    ensures Fired(Apply(s, step), tok)
  {
    match step
    case ByExecutor(e, act) => FiredAct(s, e, act, tok);
    case ByOther(w) => FiredOther(s, w, tok);
  }

  lemma {:induction false} FiredForever(s: State, run: seq<Step>, tok: Token)
    requires Inv(s) && Possible(s, run) && Fired(s, tok)
    ensures Fired(After(s, run), tok)
    decreases |run|
  {
    if run != [] {
      FiredStays(s, run[0], tok);
      InvStep(s, run[0]);
      FiredForever(Apply(s, run[0]), run[1..], tok);
    }
  }

  // ---------------------------------------------------------------- timeouts

  /** e is re-polling t and has not got past stack[i], a timer. */
  predicate Below(s: State, e: ExecId, t: TaskId, i: nat, tok: Token) {
    && InTask(s, e) && s.execs.held[e] == t && s.execs.phase[e].Repoll? && s.execs.phase[e].at <= i
    && i < |s.tasks[t].stack| && s.tasks[t].stack[i] == SleepLeaf(tok)
  }

  /** e runs t's code after the timeout at stack[i] ended: everything awaited inside it is gone. */
  predicate TimedOut(s: State, e: ExecId, t: TaskId, i: nat) {
    InTask(s, e) && s.execs.held[e] == t && At(s, e, Running) && |s.tasks[t].stack| <= i
  }

  lemma BelowRepoll(s: State, e: ExecId, t: TaskId, i: nat, tok: Token)
    requires AllKnown(s) && CanRepoll(s, e) && Below(s, e, t, i, tok) && Fired(s, tok)
    ensures Below(DoRepoll(s, e), e, t, i, tok) || TimedOut(DoRepoll(s, e), e, t, i)
  {
    EffectFrame(s, s.tasks[t].stack[s.execs.phase[e].at], t);
  }

  /** What executor e works on. */
  predicate SameWork(s: State, s': State, e: ExecId, t: TaskId) {
    && InTask(s, e) && InTask(s', e) && s.execs.held[e] == t && s'.execs.held[e] == t
    && s'.execs.phase[e] == s.execs.phase[e] && s'.tasks[t] == s.tasks[t]
  }

  lemma OtherRepoll(s: State, f: ExecId, e: ExecId, t: TaskId)
    requires AllKnown(s) && CanRepoll(s, f)
    requires f != e && InTask(s, e) && s.execs.held[e] == t && s.execs.held[f] != t
    ensures SameWork(s, DoRepoll(s, f), e, t)
  {
    EffectFrame(s, s.tasks[s.execs.held[f]].stack[s.execs.phase[f].at], s.execs.held[f]);
  }

  lemma OtherAwait(s: State, f: ExecId, leaf: Leaf, e: ExecId, t: TaskId)
    requires AllKnown(s) && CanAwait(s, f, leaf)
    requires f != e && InTask(s, e) && s.execs.held[e] == t && s.execs.held[f] != t
    ensures SameWork(s, DoAwait(s, f, leaf), e, t)
  {
    EffectFrame(s, leaf, s.execs.held[f]);
  }

  lemma OtherMove(s: State, f: ExecId, act: Action, e: ExecId, t: TaskId)
    requires CanAct(s, f, act) && !act.RepollLeaf? && !act.AwaitLeaf?
    requires f != e && InTask(s, e) && s.execs.held[e] == t
    requires f in s.execs.held && s.execs.held[f] == t ==> act.Take? || act.DropTask? || act.Ready?
    ensures SameWork(s, Act(s, f, act), e, t)
  {}

  /** Two executors inside a poll hold different tasks. */
  lemma NotMine(s: State, f: ExecId, e: ExecId, t: TaskId)
    requires Locked(s.execs, s.tasks) && f != e && InTask(s, e) && s.execs.held[e] == t && InPoll(s.execs.phase[e])
    ensures s.tasks[t].lock == Some(e)
    ensures f in s.execs.phase && InPoll(s.execs.phase[f]) ==> f in s.execs.held && s.execs.held[f] != t
  {}

  /** Another executor's step does not touch a task that e has locked. */
  lemma OtherExecutor(s: State, f: ExecId, act: Action, e: ExecId, t: TaskId)
    requires Shape(s) && CanAct(s, f, act) && f != e && InTask(s, e) && s.execs.held[e] == t && InPoll(s.execs.phase[e])
    ensures SameWork(s, Act(s, f, act), e, t)
  {
    NotMine(s, f, e, t);
    match act
    case RepollLeaf => OtherRepoll(s, f, e, t);
    case AwaitLeaf(leaf) => OtherAwait(s, f, leaf, e, t);
    case _ => OtherMove(s, f, act, e, t);
  }

  /** Other threads leave executors alone, and every body but that of an aborted task they free. */
  lemma OtherThread(s: State, w: Other, t: TaskId)
    requires CanHappen(s, w) && t in s.tasks
    ensures Happen(s, w).execs == s.execs && t in Happen(s, w).tasks
    ensures w != Free(t) ==> Happen(s, w).tasks[t] == s.tasks[t]
    ensures w == Free(t) ==> s.tasks[t].lock.None?
                             && Happen(s, w).tasks[t] == s.tasks[t].(stack := [Runnable])
  {}

  /**
    A poll that has not passed a timeout whose timer has fired never polls what is inside the
    timeout: each step leaves it below, or ends the timeout.
   */
  lemma ExpiredStep(s: State, step: Step, e: ExecId, t: TaskId, i: nat, tok: Token)
    requires Shape(s) && Enabled(s, step) && Below(s, e, t, i, tok) && Fired(s, tok)
    ensures Fired(Apply(s, step), tok)
    ensures Below(Apply(s, step), e, t, i, tok) || TimedOut(Apply(s, step), e, t, i)
  {
    FiredStays(s, step, tok);
    match step
    case ByExecutor(f, act) =>
      if f == e {
        assert act.RepollLeaf?;
        BelowRepoll(s, e, t, i, tok);
      } else {
        OtherExecutor(s, f, act, e, t);
      }
    case ByOther(w) =>
      assert s.tasks[t].lock == Some(e);
      OtherThread(s, w, t);
  }

  /** At some point of the run the timeout at stack[i] ended. */
  ghost predicate Ends(s: State, run: seq<Step>, e: ExecId, t: TaskId, i: nat)
    requires Possible(s, run)
    decreases |run|
  {
    TimedOut(s, e, t, i) || (run != [] && Ends(Apply(s, run[0]), run[1..], e, t, i))
  }

  lemma {:induction false} ExpiredFrom(s: State, run: seq<Step>, e: ExecId, t: TaskId, i: nat, tok: Token)
    requires Inv(s) && Possible(s, run) && Below(s, e, t, i, tok) && Fired(s, tok)
    ensures Below(After(s, run), e, t, i, tok) || Ends(s, run, e, t, i)
    decreases |run|
  {
    if run != [] {
      ExpiredStep(s, run[0], e, t, i, tok);
      InvStep(s, run[0]);
      if Below(Apply(s, run[0]), e, t, i, tok) {
        ExpiredFrom(Apply(s, run[0]), run[1..], e, t, i, tok);
      }
    }
  }

  /** Over a whole run: until the timeout ends, its inside is not polled in this poll. */
  lemma {:induction false} ExpiredRun(s: State, run: seq<Step>, e: ExecId, t: TaskId, i: nat, tok: Token)
    requires Reachable(s) && Possible(s, run) && Below(s, e, t, i, tok) && Fired(s, tok)
    ensures Below(After(s, run), e, t, i, tok) || Ends(s, run, e, t, i)
  {
    ReachableInv(s);
    ExpiredFrom(s, run, e, t, i, tok);
  }
}
