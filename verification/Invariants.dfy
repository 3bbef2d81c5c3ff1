/** The invariant of the runtime, and that every run keeps it. */
module Invariants {
  import opened Types
  import opened Scheduler
  import opened TokenTable
  import opened Runtime
  import opened Wakeups
  import opened ShapeSteps
  import opened CountSteps
  import opened WakeSteps
  import opened WakeOthers
  import opened PinSteps
  import opened FlowSteps

  ghost predicate InOrder(c: Sched) {
    Fifo(c) && WorkConserving(c)
  }

  ghost predicate Inv(s: State) {
    Shape(s) && Counts(s) && AllWake(s) && Pins(s) && Owed(s) && Flow(s) && InOrder(s.sched)
  }

  /** A state some run from some initial state ends in. */
  ghost predicate Reachable(s: State) {
    exists s0, run :: Init(s0) && Possible(s0, run) && After(s0, run) == s
  }

  // ---------------------------------------------------------------- order

  /** A step that leaves queue, idle ring, histories and abort flags alone. */
  lemma OrderSame(c: Sched, d: Sched)
    requires InOrder(c)
    requires d.waiting == c.waiting && d.idle == c.idle && d.accepted == c.accepted && d.removed == c.removed
    requires c.dead <= d.dead
    ensures InOrder(d)
  {}

  lemma OrderAct(s: State, e: ExecId, act: Action)
    requires InOrder(s.sched) && CanAct(s, e, act)
    ensures InOrder(Act(s, e, act).sched)
  {
    match act
    case Yield => RegisterKeepsOrder(Retain(s.sched, s.execs.held[e]), s.execs.held[e]);
    case Ready => ExecutorReadyKeepsOrder(s.sched, e);
    case RepollLeaf => OrderEffect(s, s.tasks[s.execs.held[e]].stack[s.execs.phase[e].at], s.execs.held[e]);
    case AwaitLeaf(leaf) => OrderEffect(s, leaf, s.execs.held[e]);
    case _ => OrderSame(s.sched, Act(s, e, act).sched);
  }

  lemma OrderEffect(s: State, leaf: Leaf, t: TaskId)
    requires InOrder(s.sched)
    ensures InOrder(PollEffect(s, leaf, t).sched)
  {
    OrderSame(s.sched, PollEffect(s, leaf, t).sched);
  }

  lemma OrderWake(c: Sched, t: TaskId)
    requires InOrder(c)
    ensures InOrder(Register(c, t)) && InOrder(WakeByRef(c, t))
  {
    RegisterKeepsOrder(c, t);
    RegisterKeepsOrder(Retain(c, t), t);
  }

  lemma OrderOther(s: State, w: Other)
    requires InOrder(s.sched) && CanHappen(s, w)
    ensures InOrder(Happen(s, w).sched)
  {
    match w
    case Spawn(t, _) => RegisterKeepsOrder(s.sched.(strong := s.sched.strong[t := 1]), t);
    case HandleEvent =>
      if s.react.batch[0].TokenEvent? && PollTokenWaits(s.react.table, s.react.batch[0].tok) {
        OrderWake(s.sched, s.react.table[s.react.batch[0].tok].waker);
      }
    case LookupTag =>
      if s.react.loop.tag in s.react.tags {
        OrderWake(s.sched, s.react.tags[s.react.loop.tag]);
      }
    case WakeClosure(id) => OrderWake(s.sched, s.pool.closures[id]);
    case Abort(t) => OrderSame(s.sched, Happen(s, w).sched);
    case _ =>
  }

  predicate PollTokenWaits(table: Table, tok: Token) {
    tok in table && table[tok].Awaited?
  }

  // ---------------------------------------------------------------- runs

  lemma InvInit(s: State)
    requires Init(s)
    ensures Inv(s)
  {}

  /** A sender slot of an executor about to send to a join channel is free, and a fresh offload has no closure. */
  lemma SlotsFree(s: State, e: ExecId, act: Action)
    requires Flow(s) && CanAct(s, e, act)
    ensures act.JoinSend? ==> ExecSender(e) !in s.net.sends
    ensures act.PollOffload? ==> act.id !in s.pool.closures
  {}

  lemma InvStep(s: State, step: Step)
    requires Inv(s) && Enabled(s, step)
    ensures Inv(Apply(s, step))
  {
    match step
    case ByExecutor(e, act) =>
      SlotsFree(s, e, act);
      ShapeAct(s, e, act);
      CountsAct(s, e, act);
      WakesAct(s, e, act);
      PinsAct(s, e, act);
      OwedAct(s, e, act);
      FlowAct(s, e, act);
      OrderAct(s, e, act);
    case ByOther(w) =>
      ShapeOther(s, w);
      CountsOther(s, w);
      WakesOther(s, w);
      PinsOther(s, w);
      OwedOther(s, w);
      FlowOther(s, w);
      OrderOther(s, w);
  }

  /** Every run, of any length and any interleaving, keeps the invariant. */
  lemma {:induction false} InvRun(s: State, run: seq<Step>)
    requires Inv(s) && Possible(s, run)
    ensures Inv(After(s, run))
    decreases |run|
  {
    if run != [] {
      InvStep(s, run[0]);
      InvRun(Apply(s, run[0]), run[1..]);
    }
  }

  lemma ReachableInv(s: State)
    requires Reachable(s)
    ensures Inv(s)
  {
    var s0, run :| Init(s0) && Possible(s0, run) && After(s0, run) == s;
    InvInit(s0);
    InvRun(s0, run);
  }
}
