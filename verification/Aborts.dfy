/** How often a task can still be polled after it was aborted. */
module Aborts {
  import opened Types
  import opened Scheduler
  import opened Runtime
  import opened Structure
  import opened ShapeSteps
  import opened Invariants

  /** Copies of t in inboxes, or held by executors that have not begun to poll. */
  ghost function Copies(s: State, t: TaskId): int {
    Occ(s.sched.inbox, [t]) + Occ(s.execs.held, t) - Occ(s.execs.ctx, t)
  }

  lemma RegisterSendsNoDead(c: Sched, u: TaskId, t: TaskId)
    requires t in c.dead && (c.idle != [] ==> c.idle[0] in c.inbox && c.inbox[c.idle[0]] == [])
    ensures Occ(Register(c, u).inbox, [t]) == Occ(c.inbox, [t]) == Occ(WakeByRef(c, u).inbox, [t])
  {
    if u !in c.dead && c.idle != [] {
      assert c.inbox[c.idle[0]] + [u] == [u];
      OccUpdate(c.inbox, c.idle[0], [u], [t]);
    }
  }

  lemma {:induction false} ReadySendsNoDead(c: Sched, e: ExecId, t: TaskId)
    requires t in c.dead && e in c.inbox && c.inbox[e] == []
    ensures Occ(ExecutorReady(c, e).inbox, [t]) == Occ(c.inbox, [t])
    decreases |c.waiting|
  {
    if c.waiting != [] {
      if c.waiting[0] in c.dead {
        ReadySendsNoDead(Discard(c), e, t);
      } else {
        assert c.inbox[e] + [c.waiting[0]] == [c.waiting[0]];
        OccUpdate(c.inbox, e, [c.waiting[0]], [t]);
      }
    }
  }

  /** Polls begun plus copies left: for an aborted task no step changes the sum. */
  ghost predicate SameBudget(s: State, s': State, t: TaskId) {
    && t in s.tasks && t in s'.tasks && t in s'.sched.dead
    && s'.tasks[t].polls + Copies(s', t) == s.tasks[t].polls + Copies(s, t)
  }

  lemma AbortedTake(s: State, e: ExecId, t: TaskId)
    requires Placed(s.execs.phase, s.sched.idle, s.sched.inbox) && Handled(s.execs) && CanTake(s, e)
    ensures Copies(DoTake(s, e), t) == Copies(s, t)
  {
    PlacedTake(s.execs.phase, s.sched.idle, s.sched.inbox, e);
    OccUpdate(s.sched.inbox, e, s.sched.inbox[e][1..], [t]);
    OccUpdate(s.execs.held, e, s.sched.inbox[e][0], t);
  }

  lemma AbortedLock(s: State, e: ExecId, t: TaskId)
    requires Handled(s.execs) && CanLock(s, e) && t in s.tasks && t in s.sched.dead
    ensures SameBudget(s, DoLock(s, e), t)
  {
    OccUpdate(s.execs.ctx, e, s.execs.held[e], t);
  }

  lemma AbortedDropTask(s: State, e: ExecId, t: TaskId)
    requires Handled(s.execs) && InTask(s, e) && At(s, e, Polled)
    ensures Copies(DoDropTask(s, e), t) == Copies(s, t)
  {
    OccRemove(s.execs.held, e, t);
    OccRemove(s.execs.ctx, e, t);
  }

  lemma AbortedReady(s: State, e: ExecId, t: TaskId)
    requires Placed(s.execs.phase, s.sched.idle, s.sched.inbox) && At(s, e, AtReady) && t in s.sched.dead
    ensures Copies(DoReady(s, e), t) == Copies(s, t) && t in DoReady(s, e).sched.dead
  {
    ReadyShape(s.sched, e);
    ReadySendsNoDead(s.sched, e, t);
  }

  lemma AbortedEffect(s: State, e: ExecId, act: Action, t: TaskId)
    requires AllKnown(s) && CanAct(s, e, act) && (act.RepollLeaf? || act.AwaitLeaf?) && t in s.tasks
    requires t in s.sched.dead
    ensures SameBudget(s, Act(s, e, act), t)
  {
    if act.RepollLeaf? {
      EffectFrame(s, s.tasks[s.execs.held[e]].stack[s.execs.phase[e].at], s.execs.held[e]);
    } else {
      EffectFrame(s, act.leaf, s.execs.held[e]);
    }
  }

  lemma AbortedRest(s: State, e: ExecId, act: Action, t: TaskId)
    requires CanAct(s, e, act) && t in s.tasks && t in s.sched.dead
    requires act.EnterTimeout? || act.LeaveTimeout? || act.PollSleep? || act.PollOffload? || act.Finish?
          || act.JoinSend? || act.JoinFail? || act.JoinDone? || act.Unlock?
    ensures SameBudget(s, Act(s, e, act), t)
  {}

  lemma AbortedAct(s: State, e: ExecId, act: Action, t: TaskId)
    requires Placed(s.execs.phase, s.sched.idle, s.sched.inbox) && Handled(s.execs) && AllKnown(s)
    requires CanAct(s, e, act) && t in s.tasks && t in s.sched.dead
    ensures SameBudget(s, Act(s, e, act), t)
  {
    match act
    case Take => AbortedTake(s, e, t);
    case Lock => AbortedLock(s, e, t);
    case DropTask => AbortedDropTask(s, e, t);
    case Ready => AbortedReady(s, e, t);
    case Yield => RegisterSendsNoDead(s.sched, s.execs.held[e], t);
    case RepollLeaf | AwaitLeaf(_) => AbortedEffect(s, e, act, t);
    case _ => AbortedRest(s, e, act, t);
  }

  lemma AbortedHandle(s: State, t: TaskId)
    requires Placed(s.execs.phase, s.sched.idle, s.sched.inbox) && s.react.batch != [] && t in s.tasks
    requires t in s.sched.dead
    ensures SameBudget(s, DoHandle(s), t)
  {
    if s.react.batch[0].TokenEvent? && PollTokenWaits(s.react.table, s.react.batch[0].tok) {
      RegisterSendsNoDead(s.sched, s.react.table[s.react.batch[0].tok].waker, t);
    }
  }

  lemma AbortedOther(s: State, w: Other, t: TaskId)
    requires Shape(s) && CanHappen(s, w) && t in s.tasks && t in s.sched.dead
    ensures SameBudget(s, Happen(s, w), t)
  {
    match w
    case Spawn(u, tag) => AbortedSpawn(s, u, tag, t);
    case HandleEvent => AbortedHandle(s, t);
    case LookupTag => AbortedLookup(s, t);
    case WakeClosure(id) => AbortedClosure(s, id, t);
    case _ => AbortedQuiet(s, w, t);
  }

  lemma AbortedSpawn(s: State, u: TaskId, tag: Tag, t: TaskId)
    requires Placed(s.execs.phase, s.sched.idle, s.sched.inbox) && CanSpawn(s, u, tag) && t in s.tasks
    requires t in s.sched.dead
    ensures SameBudget(s, DoSpawn(s, u, tag), t)
  {
    RegisterSendsNoDead(s.sched.(strong := s.sched.strong[u := 1]), u, t);
  }

  lemma AbortedLookup(s: State, t: TaskId)
    requires Placed(s.execs.phase, s.sched.idle, s.sched.inbox) && s.react.loop.Lookup? && t in s.tasks
    requires t in s.sched.dead
    ensures SameBudget(s, DoLookup(s), t)
  {
    if s.react.loop.tag in s.react.tags {
      RegisterSendsNoDead(s.sched, s.react.tags[s.react.loop.tag], t);
    }
  }

  lemma AbortedClosure(s: State, id: OffId, t: TaskId)
    requires Placed(s.execs.phase, s.sched.idle, s.sched.inbox) && CanWakeClosure(s, id) && t in s.tasks
    requires t in s.sched.dead
    ensures SameBudget(s, DoWakeClosure(s, id), t)
  {
    RegisterSendsNoDead(s.sched, s.pool.closures[id], t);
  }

  lemma AbortedQuiet(s: State, w: Other, t: TaskId)
    requires CanHappen(s, w) && t in s.tasks && t in s.sched.dead
    requires !w.Spawn? && !w.HandleEvent? && !w.LookupTag? && !w.WakeClosure?
    ensures SameBudget(s, Happen(s, w), t)
  {}

  /** From an abort on, the polls still begun and the copies still left add up to the copies there were then. */
  lemma {:induction false} AbortedRun(s: State, run: seq<Step>, t: TaskId)
    requires Inv(s) && Possible(s, run) && t in s.tasks && t in s.sched.dead
    ensures SameBudget(s, After(s, run), t)
    decreases |run|
  {
    if run != [] {
      var s1 := Apply(s, run[0]);
      match run[0] {
        case ByExecutor(e, act) => AbortedAct(s, e, act, t);
        case ByOther(w) => AbortedOther(s, w, t);
      }
      InvStep(s, run[0]);
      AbortedRun(s1, run[1..], t);
    }
  }

  /**
    Once aborted, a task is polled at most once for each copy in an inbox or an executor's hands, which is at
    most the number of executors.
   */
  lemma {:induction false} AbortBound(s: State, run: seq<Step>, t: TaskId)
    requires Reachable(s) && Possible(s, run) && t in s.tasks && t in s.sched.dead
    ensures var s' := After(s, run);
      t in s'.tasks && s'.tasks[t].polls - s.tasks[t].polls <= Copies(s, t) <= |s.execs.phase|
  {
    ReachableInv(s);
    AbortedRun(s, run, t);
    InvRun(s, run);
    CopiesBound(After(s, run), t);
    CopiesBound(s, t);
  }

  lemma CopiesBound(s: State, t: TaskId)
    requires Placed(s.execs.phase, s.sched.idle, s.sched.inbox) && Handled(s.execs)
    ensures 0 <= Copies(s, t) <= |s.execs.phase|
  {
    forall e | e in s.sched.inbox && s.sched.inbox[e] == [t] ensures e !in s.execs.held {}
    OccDisjoint(s.sched.inbox, [t], s.execs.held, t, s.execs.phase.Keys);
    OccPart(s.execs.ctx, s.execs.held, t);
  }
}
