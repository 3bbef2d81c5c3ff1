/**
  A task that has waited on a channel before still has its waker with the reactor, since a lookup
  wakes by reference and leaves the waker stored. For such a task the test and the store of
  poll_recv may be apart: whatever happens between them, no wake-up is lost.
 */
module RecvAgain {
  import opened Types
  import opened Runtime
  import opened Structure
  import opened References
  import opened Wakeups
  import opened ShapeSteps
  import opened WakeSteps
  import opened Invariants
  import opened RecvRace

  /** Whatever an executor does, a copy of t stays, unless it is the executor that locks t. */
  lemma CopyStaysAct(s: State, f: ExecId, act: Action, t: TaskId)
    requires Shape(s) && CanAct(s, f, act) && t !in s.sched.dead && Queued(s.sched, s.execs, t)
    requires act.Lock? ==> s.execs.held[f] != t
    ensures Queued(Act(s, f, act).sched, Act(s, f, act).execs, t)
  {
    match act
    case Take => TakeQueues(s, f, t);
    case Lock => LockKeepsCopies(s, f, t);
    case Yield => YieldQueues(s, f, t);
    case DropTask => DropQueues(s, f, t);
    case Ready => ReportQueues(s, f, t);
    case _ => CopyStaysInPoll(s, f, act, t);
  }

  lemma CopyStaysInPoll(s: State, f: ExecId, act: Action, t: TaskId)
    requires Shape(s) && CanAct(s, f, act) && Queued(s.sched, s.execs, t)
    requires !act.Take? && !act.Lock? && !act.Yield? && !act.DropTask? && !act.Ready?
    ensures Queued(Act(s, f, act).sched, Act(s, f, act).execs, t)
  {
    QueuesStay(s, f, act);
    if IsHeld(s.execs, t) {
      var g :| g in s.execs.held && s.execs.held[g] == t && g in s.execs.phase && s.execs.phase[g].Holding?;
      assert Act(s, f, act).execs.phase[g].Holding?;
    }
  }

  /** Inside a poll, and apart from waking itself, an executor leaves the queues alone and moves only its own phase. */
  lemma QueuesStay(s: State, f: ExecId, act: Action)
    requires AllKnown(s) && CanAct(s, f, act)
    requires !act.Take? && !act.Lock? && !act.Yield? && !act.DropTask? && !act.Ready?
    ensures var s' := Act(s, f, act);
      && SameQueues(s.sched, s'.sched) && s'.execs.held == s.execs.held
      && f in s.execs.phase && !s.execs.phase[f].Holding?
      && forall g | g in s.execs.phase && g != f :: g in s'.execs.phase && s'.execs.phase[g] == s.execs.phase[g]
  {
    match act
    case RepollLeaf => EffectFrame(s, s.tasks[s.execs.held[f]].stack[s.execs.phase[f].at], s.execs.held[f]);
    case AwaitLeaf(leaf) => EffectFrame(s, leaf, s.execs.held[f]);
    case EnterTimeout(tok) => SleepQueues(s, f, tok, Running);
    case PollSleep(tok) => SleepQueues(s, f, tok, Returning);
    case _ =>
  }

  lemma SleepQueues(s: State, f: ExecId, tok: Token, p: Phase)
    requires AllKnown(s) && CanRun(s, f)
    ensures SameQueues(s.sched, DoSleep(s, f, tok, p).sched)
  {}

  lemma CopyStaysOther(s: State, w: Other, t: TaskId)
    requires CanHappen(s, w) && Queued(s.sched, s.execs, t)
    ensures Queued(Happen(s, w).sched, Happen(s, w).execs, t)
  {
    match w
    case Spawn(u, _) =>
      var c := s.sched.(strong := s.sched.strong[u := 1]);
      assert Queued(c, s.execs, t);
      RegisterQueues(c, s.execs, u, t);
    case HandleEvent =>
      if s.react.batch[0].TokenEvent? && PollTokenWaits(s.react.table, s.react.batch[0].tok) {
        RegisterQueues(s.sched, s.execs, s.react.table[s.react.batch[0].tok].waker, t);
      }
    case LookupTag =>
      if s.react.loop.tag in s.react.tags {
        WakeQueues(s.sched, s.execs, s.react.tags[s.react.loop.tag], t);
      }
    case WakeClosure(id) => RegisterQueues(s.sched, s.execs, s.pool.closures[id], t);
    case _ =>
  }

  lemma DeadStaysAct(s: State, f: ExecId, act: Action, t: TaskId)
    requires Shape(s) && CanAct(s, f, act) && t in s.sched.dead
    ensures t in Act(s, f, act).sched.dead
  {
    match act
    case Yield => RegisterKeys(s.sched, s.execs.held[f]);
    case Ready => ReadyShape(s.sched, f);
    case Take | Lock | DropTask =>
    case _ => QueuesStay(s, f, act);
  }

  lemma DeadStaysOther(s: State, w: Other, t: TaskId)
    requires CanHappen(s, w) && t in s.sched.dead
    ensures t in Happen(s, w).sched.dead
  {
    match w
    case Spawn(u, _) => RegisterKeys(s.sched.(strong := s.sched.strong[u := 1]), u);
    case HandleEvent =>
      if s.react.batch[0].TokenEvent? && PollTokenWaits(s.react.table, s.react.batch[0].tok) {
        RegisterKeys(s.sched, s.react.table[s.react.batch[0].tok].waker);
      }
    case LookupTag =>
      if s.react.loop.tag in s.react.tags {
        RegisterKeys(s.sched, s.react.tags[s.react.loop.tag]);
      }
    case WakeClosure(id) => RegisterKeys(s.sched, s.pool.closures[id]);
    case _ =>
  }

  /** t's waker is stored for the channel. */
  predicate Stored(s: State, t: TaskId, tag: Tag) {
    tag in s.react.tags && s.react.tags[tag] == t
  }

  lemma StoredStaysAct(s: State, f: ExecId, act: Action, t: TaskId, tag: Tag)
    requires CanAct(s, f, act) && act != AwaitLeaf(RecvLeaf(tag)) && Stored(s, t, tag)
    requires forall u | u in s.tasks :: RecvLeaf(tag) !in s.tasks[u].stack
    ensures Stored(Act(s, f, act), t, tag)
  {}

  /** The task was aborted or has a copy. */
  ghost predicate Roused(s: State, t: TaskId) {
    t in s.sched.dead || Queued(s.sched, s.execs, t)
  }

  lemma AgainAct(s: State, f: ExecId, act: Action, e: ExecId, t: TaskId, tag: Tag)
    requires Shape(s) && CanAct(s, f, act) && f != e && act != AwaitLeaf(RecvLeaf(tag))
    requires InPollRecv(s, e, t, tag) && Stored(s, t, tag)
    ensures Stored(Act(s, f, act), t, tag) && (Roused(s, t) ==> Roused(Act(s, f, act), t))
  {
    StoredStaysAct(s, f, act, t, tag);
    if t in s.sched.dead {
      DeadStaysAct(s, f, act, t);
    } else if Queued(s.sched, s.execs, t) {
      assert s.tasks[t].lock == Some(e);
      CopyStaysAct(s, f, act, t);
    }
  }

  /** The lookup of the channel's tag rouses the task. */
  lemma AgainOther(s: State, w: Other, t: TaskId, tag: Tag)
    requires CanHappen(s, w) && Stored(s, t, tag)
    ensures Stored(Happen(s, w), t, tag)
    ensures Roused(s, t) || Looks(s, ByOther(w), tag) ==> Roused(Happen(s, w), t)
  {
    if t in s.sched.dead {
      DeadStaysOther(s, w, t);
    } else if Queued(s.sched, s.execs, t) {
      CopyStaysOther(s, w, t);
    } else if Looks(s, ByOther(w), tag) {
      WakeQueues(s.sched, s.execs, t, t);
    }
  }

  lemma AgainStep(s: State, step: Step, e: ExecId, t: TaskId, tag: Tag)
    requires Shape(s) && Enabled(s, step) && Beside(step, e, tag) && InPollRecv(s, e, t, tag) && Stored(s, t, tag)
    ensures Stored(Apply(s, step), t, tag)
    ensures Roused(s, t) || Looks(s, step, tag) ==> Roused(Apply(s, step), t)
  {
    match step
    case ByExecutor(f, act) => AgainAct(s, f, act, e, t, tag);
    case ByOther(w) => AgainOther(s, w, t, tag);
  }

  lemma {:induction false} AgainRun(s: State, window: seq<Step>, e: ExecId, t: TaskId, tag: Tag)
    requires Inv(s) && Possible(s, window) && AllBeside(window, e, tag) && InPollRecv(s, e, t, tag) && Stored(s, t, tag)
    ensures Roused(s, t) || LookedIn(s, window, tag) > 0 ==> Roused(After(s, window), t)
    decreases |window|
  {
    if window != [] {
      InvStep(s, window[0]);
      BesideStep(s, window[0], e, t, tag);
      AgainStep(s, window[0], e, t, tag);
      AgainRun(Apply(s, window[0]), window[1..], e, t, tag);
    }
  }

  lemma RousedOrUnseen(s: State, window: seq<Step>, e: ExecId, tag: Tag)
    requires Reachable(s) && CanAwait(s, e, RecvLeaf(tag)) && Stored(s, s.execs.held[e], tag)
    requires Possible(s, window) && AllBeside(window, e, tag)
    ensures LookedIn(s, window, tag) == 0 || Roused(After(s, window), s.execs.held[e])
  {
    ReachableInv(s);
    AgainRun(s, window, e, s.execs.held[e], tag);
  }

  /** Every window between test and store is safe for a task whose waker was stored at the test. */
  lemma {:induction false} SafeWhenStored(s: State, window: seq<Step>, e: ExecId, tag: Tag)
    requires Reachable(s) && CanAwait(s, e, RecvLeaf(tag)) && s.net.chans[tag].cnt == 0
    requires Stored(s, s.execs.held[e], tag)
    requires Possible(s, window) && AllBeside(window, e, tag)
    ensures CanRun(After(s, window), e) && Safe(After(s, window), e, tag)
  {
    RousedOrUnseen(s, window, e, tag);
    LateStoreExactly(s, window, e, tag);
  }
}
