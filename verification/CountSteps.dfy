/** Every step keeps the strong counts equal to the handles and wakers that exist. */
module CountSteps {
  import opened Types
  import opened Scheduler
  import opened TokenTable
  import opened Channel
  import opened Runtime
  import opened Structure
  import opened References
  import opened ShapeSteps

  ghost function Held(s: State, t: TaskId): nat {
    Outside(s.execs, s.react.table, s.react.tags, s.pool.closures, t)
  }

  /** Every strong count equals the handles and wakers that exist. */
  ghost predicate Counts(s: State) {
    forall t | t in s.sched.strong :: Balance(s.sched, t) == Held(s, t)
  }

  /** The balance and the outside handles of t changed alike. */
  ghost predicate Even(s: State, s': State, t: TaskId) {
    Balance(s'.sched, t) - Balance(s.sched, t) == Held(s', t) - Held(s, t)
  }

  lemma CountsEven(s: State, s': State)
    requires Counts(s) && s'.sched.strong.Keys == s.sched.strong.Keys
    requires forall t | t in s.sched.strong :: Even(s, s', t)
    ensures Counts(s')
  {
    forall t | t in s.sched.strong ensures Balance(s'.sched, t) == Held(s', t) {
      assert Even(s, s', t);
    }
  }

  lemma CountTake(s: State, e: ExecId, t: TaskId)
    requires Shape(s) && CanTake(s, e)
    ensures Even(s, DoTake(s, e), t)
  {
    var q := s.sched.inbox[e];
    PlacedTake(s.execs.phase, s.sched.idle, s.sched.inbox, e);
    OccUpdate(s.sched.inbox, e, q[1..], [t]);
    OccUpdate(s.execs.held, e, q[0], t);
  }

  lemma CountLock(s: State, e: ExecId, t: TaskId)
    requires Shape(s) && CanLock(s, e)
    ensures Even(s, DoLock(s, e), t)
  {
    OccUpdate(s.execs.ctx, e, s.execs.held[e], t);
    RetainBalance(s.sched, s.execs.held[e], 1, t);
  }

  lemma CountDropTask(s: State, e: ExecId, t: TaskId)
    requires Shape(s) && InTask(s, e) && At(s, e, Polled)
    ensures Even(s, DoDropTask(s, e), t)
  {
    var u := s.execs.held[e];
    OccRemove(s.execs.held, e, t);
    OccRemove(s.execs.ctx, e, t);
    RetainBalance(s.sched, u, -1, t);
    RetainBalance(Release(s.sched, u), u, -1, t);
  }

  lemma CountToken(s: State, tok: Token, u: TaskId, t: TaskId)
    requires AllKnown(s) && u in s.tasks
    ensures Even(s, PollEffect(s, TokenLeaf(tok), u), t)
  {
    PollTableBalance(s.sched, s.react.table, tok, u, t);
  }

  lemma CountRecv(s: State, tag: Tag, u: TaskId, t: TaskId)
    requires u in s.sched.strong && KnownValues(s.sched.strong.Keys, s.react.tags)
    ensures Even(s, PollEffect(s, RecvLeaf(tag), u), t)
  {
    if tag in s.net.chans && PollResult(s.net.chans[tag]).Waiting? {
      StoreWakerBalance(s.sched, s.react.tags, tag, u, t);
    }
  }

  lemma CountEffect(s: State, leaf: Leaf, u: TaskId, t: TaskId)
    requires AllKnown(s) && u in s.tasks
    ensures Even(s, PollEffect(s, leaf, u), t)
  {
    match leaf
    case TokenLeaf(tok) => CountToken(s, tok, u, t);
    case RecvLeaf(tag) => CountRecv(s, tag, u, t);
    case _ =>
  }

  lemma CountSleep(s: State, e: ExecId, tok: Token, p: Phase, t: TaskId)
    requires Shape(s) && CanRun(s, e)
    ensures Even(s, DoSleep(s, e, tok, p), t)
  {
    StoreTableBalance(s.sched, s.react.table, tok, s.execs.held[e], t);
  }

  lemma CountOffload(s: State, e: ExecId, id: OffId, t: TaskId)
    requires Shape(s) && CanRun(s, e) && id !in s.pool.closures
    ensures Even(s, DoOffload(s, e, id), t)
  {
    OccUpdate(s.pool.closures, id, s.execs.held[e], t);
    RetainBalance(s.sched, s.execs.held[e], 1, t);
  }

  lemma CountYield(s: State, e: ExecId, t: TaskId)
    requires Shape(s) && CanRun(s, e)
    ensures Even(s, DoYield(s, e), t)
  {
    WakeBalance(s.sched, s.execs.held[e], t);
  }

  lemma CountRepoll(s: State, e: ExecId, t: TaskId)
    requires Shape(s) && CanRepoll(s, e)
    ensures Even(s, DoRepoll(s, e), t)
  {
    CountEffect(s, s.tasks[s.execs.held[e]].stack[s.execs.phase[e].at], s.execs.held[e], t);
  }

  lemma CountAwait(s: State, e: ExecId, leaf: Leaf, t: TaskId)
    requires Shape(s) && CanAwait(s, e, leaf)
    ensures Even(s, DoAwait(s, e, leaf), t)
  {
    CountEffect(s, leaf, s.execs.held[e], t);
  }

  lemma CountReady(s: State, e: ExecId, t: TaskId)
    requires Shape(s) && At(s, e, AtReady)
    ensures Even(s, DoReady(s, e), t)
  {
    ReadyBalance(s.sched, e, t);
  }

  lemma CountRest(s: State, e: ExecId, act: Action, t: TaskId)
    requires CanAct(s, e, act)
    requires act.LeaveTimeout? || act.Finish? || act.JoinSend? || act.JoinFail? || act.JoinDone? || act.Unlock?
    ensures Even(s, Act(s, e, act), t)
  {}

  /** An executor's step changes t's count and t's handles alike. */
  lemma EvenAct(s: State, e: ExecId, act: Action, t: TaskId)
    requires Shape(s) && CanAct(s, e, act) && (act.PollOffload? ==> act.id !in s.pool.closures)
    ensures Even(s, Act(s, e, act), t)
  {
    match act
    case Take => CountTake(s, e, t);
    case Lock => CountLock(s, e, t);
    case RepollLeaf => CountRepoll(s, e, t);
    case EnterTimeout(tok) => CountSleep(s, e, tok, Running, t);
    case PollSleep(tok) => CountSleep(s, e, tok, Returning, t);
    case AwaitLeaf(leaf) => CountAwait(s, e, leaf, t);
    case PollOffload(id) => CountOffload(s, e, id, t);
    case Yield => CountYield(s, e, t);
    case DropTask => CountDropTask(s, e, t);
    case Ready => CountReady(s, e, t);
    case LeaveTimeout | Finish(_) | JoinSend | JoinFail | JoinDone | Unlock => CountRest(s, e, act, t);
  }

  lemma CountsAct(s: State, e: ExecId, act: Action)
    requires Shape(s) && Counts(s) && CanAct(s, e, act) && (act.PollOffload? ==> act.id !in s.pool.closures)
    ensures Counts(Act(s, e, act))
  {
    forall t | t in s.sched.strong ensures Even(s, Act(s, e, act), t) {
      EvenAct(s, e, act, t);
    }
    if act.Yield? {
      RegisterKeys(s.sched, s.execs.held[e]);
    }
    ShapeAct(s, e, act);
    ActKeys(s, e, act);
    CountsEven(s, Act(s, e, act));
  }

  lemma ActKeys(s: State, e: ExecId, act: Action)
    requires CanAct(s, e, act) && (e in s.execs.held && s.execs.held[e] !in s.tasks ==> act.Take? || act.Ready?)
    ensures Act(s, e, act).tasks.Keys == s.tasks.Keys
  {}

  /** Nothing refers to a task that does not exist. */
  lemma NobodyHolds(s: State, t: TaskId)
    requires Shape(s) && t !in s.tasks
    ensures Held(s, t) == 0 && Occ(s.sched.inbox, [t]) == 0 && t !in s.sched.waiting
  {
    OccZero(s.react.table, Awaited(t));
    OccZero(s.react.tags, t);
    OccZero(s.pool.closures, t);
    OccZero(s.execs.held, t);
    OccZero(s.execs.ctx, t);
    OccZero(s.sched.inbox, [t]) by {
      assert forall e | e in s.sched.inbox && s.sched.inbox[e] == [t] :: t in s.sched.inbox[e];
    }
  }

  lemma CountsSpawn(s: State, t: TaskId, tag: Tag)
    requires Shape(s) && Counts(s) && CanSpawn(s, t, tag)
    ensures Counts(DoSpawn(s, t, tag))
  {
    var s' := DoSpawn(s, t, tag);
    var c := s.sched.(strong := s.sched.strong[t := 1]);
    NobodyHolds(s, t);
    RegisterKeys(c, t);
    forall u | u in s'.sched.strong ensures Balance(s'.sched, u) == Held(s', u) {
      SpawnBalance(s, t, tag, u);
    }
  }

  lemma SpawnBalance(s: State, t: TaskId, tag: Tag, u: TaskId)
    requires Shape(s) && Counts(s) && CanSpawn(s, t, tag) && (u == t || u in s.sched.strong)
    requires Held(s, t) == 0 && Occ(s.sched.inbox, [t]) == 0 && t !in s.sched.waiting
    ensures Balance(DoSpawn(s, t, tag).sched, u) == Held(DoSpawn(s, t, tag), u)
  {
    RegisterBalance(s.sched.(strong := s.sched.strong[t := 1]), t, u);
  }

  lemma EvenHandle(s: State, t: TaskId)
    requires Shape(s) && s.react.batch != []
    ensures Even(s, DoHandle(s), t)
  {
    if s.react.batch[0].TokenEvent? {
      EventBalance(s.sched, s.react.table, s.react.batch[0].tok, t);
    }
  }

  lemma EvenLookup(s: State, t: TaskId)
    requires Shape(s) && s.react.loop.Lookup?
    ensures Even(s, DoLookup(s), t)
  {
    if s.react.loop.tag in s.react.tags {
      WakeBalance(s.sched, s.react.tags[s.react.loop.tag], t);
    }
  }

  lemma EvenQuiet(s: State, w: Other, t: TaskId)
    requires CanHappen(s, w) && !w.Spawn? && !w.HandleEvent? && !w.LookupTag? && !w.WakeClosure?
    ensures Even(s, Happen(s, w), t)
  {}

  lemma EvenOther(s: State, w: Other, t: TaskId)
    requires Shape(s) && CanHappen(s, w) && !w.Spawn?
    ensures Even(s, Happen(s, w), t)
  {
    match w
    case HandleEvent => EvenHandle(s, t);
    case LookupTag => EvenLookup(s, t);
    case WakeClosure(id) => EvenClosure(s, id, t);
    case _ => EvenQuiet(s, w, t);
  }

  lemma EvenClosure(s: State, id: OffId, t: TaskId)
    requires Shape(s) && CanHappen(s, WakeClosure(id))
    ensures Even(s, DoWakeClosure(s, id), t)
  {
    OccRemove(s.pool.closures, id, t);
    RegisterBalance(s.sched, s.pool.closures[id], t);
  }

  lemma CountsOther(s: State, w: Other)
    requires Shape(s) && Counts(s) && CanHappen(s, w)
    ensures Counts(Happen(s, w))
  {
    if w.Spawn? {
      CountsSpawn(s, w.t, w.tag);
    } else {
      forall t | t in s.sched.strong ensures Even(s, Happen(s, w), t) {
        EvenOther(s, w, t);
      }
      ShapeOther(s, w);
      CountsEven(s, Happen(s, w));
    }
  }
}
