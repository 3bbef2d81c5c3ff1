/**
  What callers get, in terms of what they and their futures did: joins give the values futures
  evaluated to, channels the values that were sent, connects and binds what the operations answered,
  and an abort stops its task.
 */
module Outcomes {
  import opened Types
  import opened Scheduler
  import opened Channel
  import opened Runtime
  import opened References
  import opened Flows
  import opened Runs
  import opened Invariants
  import opened Theorems
  import opened Aborts
  import opened Histories

  /** What the wrapped future of t evaluated to in the run: the v of its Finish(v) step. */
  ghost function FinishedWith(s0: State, run: seq<Step>, t: TaskId): Option<Value>
    requires Possible(s0, run)
  {
    Find(LogOf(s0, run).finished, t)
  }

  /** The values sent on the channel, in the order of the run's sends. */
  ghost function SentIn(s0: State, run: seq<Step>, tag: Tag): seq<Value>
    requires Possible(s0, run)
  {
    if tag in LogOf(s0, run).sent then LogOf(s0, run).sent[tag] else []
  }

  /** What the operation answered in the run: the v of its RunClosure(id, v) step. */
  ghost function AnsweredWith(s0: State, run: seq<Step>, id: OffId): Option<Value>
    requires Possible(s0, run)
  {
    Find(LogOf(s0, run).computed, id)
  }

  lemma {:induction false} RunReaches(s0: State, run: seq<Step>)
    requires Init(s0) && Possible(s0, run)
    ensures Reachable(After(s0, run)) && Inv(After(s0, run))
  {
    InvInit(s0);
    InvRun(s0, run);
  }

  // ---------------------------------------------------------------- joins

  /**
    A join channel carries exactly what the task's future evaluated to: nothing before it finished,
    and afterwards that value, once, which a finished task has sent unless its handle is gone.
   */
  lemma {:induction false} JoinGivesResult(s0: State, run: seq<Step>, t: TaskId)
    requires Init(s0) && Possible(s0, run) && t in After(s0, run).tasks
    ensures var s, v := After(s0, run), FinishedWith(s0, run, t);
      && t in LogOf(s0, run).joins && s.tasks[t].join == LogOf(s0, run).joins[t] && s.tasks[t].join in s.net.chans
      && s.tasks[t].output == v
      && var ch := s.net.chans[s.tasks[t].join];
         && (v.None? ==> ch.sent == ch.received == [])
         && (v.Some? ==> (ch.sent == [] || ch.sent == [v.value]) && (ch.received == [] || ch.received == [v.value]))
         && (!s.tasks[t].live && s.tasks[t].join !in LogOf(s0, run).closed ==> v.Some? && ch.sent == [v.value])
  {
    RecordsAgree(s0, run);
    RunReaches(s0, run);
    JoinCorrect(After(s0, run), t);
    JoinSends(After(s0, run), t);
  }

  lemma JoinSends(s: State, t: TaskId)
    requires Joined(s.net, s.execs, s.tasks) && Flowing(s.net) && t in s.tasks
    ensures var ch := s.net.chans[s.tasks[t].join];
      ch.sent == [] || (s.tasks[t].output.Some? && ch.sent == [s.tasks[t].output.value])
    ensures s.net.chans[s.tasks[t].join].sent == [] ==> s.net.chans[s.tasks[t].join].received == []
  {
    assert JoinValue(s.net.chans[s.tasks[t].join], s.tasks[t].output);
    assert Ordered(s.net.chans[s.tasks[t].join], Occ(s.net.sends, Enqueued(s.tasks[t].join)));
  }

  /** A wrapped future finishes once: no run has a second Finish step of its task. */
  lemma {:induction false} FinishesOnce(s0: State, run: seq<Step>, e: ExecId, v: Value)
    requires Init(s0) && Possible(s0, run) && CanAct(After(s0, run), e, Finish(v))
    ensures FinishedWith(s0, run, After(s0, run).execs.held[e]).None?
  {
    RecordsAgree(s0, run);
    RunReaches(s0, run);
    RunningUnfinished(After(s0, run), e);
  }

  lemma RunningUnfinished(s: State, e: ExecId)
    requires Inv(s) && CanRun(s, e)
    ensures s.tasks[s.execs.held[e]].output.None?
  {}

  // ---------------------------------------------------------------- channels

  /**
    What a receiver got and what is still queued are the values sent on the channel, in order; the
    queue never exceeds the capacity the channel was made with.
   */
  lemma {:induction false} ReceivedAreSent(s0: State, run: seq<Step>, tag: Tag)
    requires Init(s0) && Possible(s0, run) && tag in After(s0, run).net.chans
    ensures var ch := After(s0, run).net.chans[tag];
      && ch.received + ch.queue == SentIn(s0, run, tag)
      && tag in LogOf(s0, run).caps && |ch.queue| <= LogOf(s0, run).caps[tag]
  {
    RecordsAgree(s0, run);
    RunReaches(s0, run);
    ChannelsDeliver(After(s0, run), tag);
  }

  /** Nothing is sent any more on a channel whose receiver was dropped, nor is it opened again. */
  lemma {:induction false} ClosedIsSilent(s: State, run: seq<Step>, tag: Tag)
    requires Possible(s, run) && tag in s.net.closed && tag in s.net.chans
    ensures var s' := After(s, run);
      tag in s'.net.closed && tag in s'.net.chans && s'.net.chans[tag].sent == s.net.chans[tag].sent
    decreases |run|
  {
    if run != [] {
      ClosedStep(s, run[0], tag);
      ClosedIsSilent(Apply(s, run[0]), run[1..], tag);
    }
  }

  lemma ClosedStep(s: State, step: Step, tag: Tag)
    requires Enabled(s, step) && tag in s.net.closed && tag in s.net.chans
    ensures var s' := Apply(s, step);
      tag in s'.net.closed && tag in s'.net.chans && s'.net.chans[tag].sent == s.net.chans[tag].sent
  {
    match step
    case ByExecutor(e, act) => ClosedAct(s, e, act, tag);
    case ByOther(w) => ClosedOther(s, w, tag);
  }

  lemma ClosedAct(s: State, e: ExecId, act: Action, tag: Tag)
    requires CanAct(s, e, act) && tag in s.net.closed && tag in s.net.chans
    ensures var s' := Act(s, e, act);
      tag in s'.net.closed && tag in s'.net.chans && s'.net.chans[tag].sent == s.net.chans[tag].sent
  {
    match act
    case RepollLeaf => EffectSilent(s, s.tasks[s.execs.held[e]].stack[s.execs.phase[e].at], s.execs.held[e], tag);
    case AwaitLeaf(leaf) => EffectSilent(s, leaf, s.execs.held[e], tag);
    case JoinSend =>
    case _ => SameNet(s, e, act);
  }

  lemma EffectSilent(s: State, leaf: Leaf, t: TaskId, tag: Tag)
    requires tag in s.net.chans
    ensures var r := PollEffect(s, leaf, t);
      r.net.closed == s.net.closed && tag in r.net.chans && r.net.chans[tag].sent == s.net.chans[tag].sent
  {}

  lemma ClosedOther(s: State, w: Other, tag: Tag)
    requires CanHappen(s, w) && tag in s.net.closed && tag in s.net.chans
    ensures var s' := Happen(s, w);
      tag in s'.net.closed && tag in s'.net.chans && s'.net.chans[tag].sent == s.net.chans[tag].sent
  {}

  // ---------------------------------------------------------------- offloaded operations

  /** A connect or bind is run at most once, and resolves with nothing but what its operation answered. */
  lemma {:induction false} OffloadGivesAnswer(s0: State, run: seq<Step>, id: OffId)
    requires Init(s0) && Possible(s0, run) && id in After(s0, run).pool.offs
    ensures var o, v := After(s0, run).pool.offs[id], AnsweredWith(s0, run, id);
      && (o.resolved.Some? ==> o.resolved == v)
      && (v.Some? ==> o.resolved == v || o.slot == v)
      && (v.None? <==> After(s0, run).pool.jobs[id] == 1) && (v.Some? <==> After(s0, run).pool.jobs[id] == 0)
  {
    RecordsAgree(s0, run);
    RunReaches(s0, run);
    OffloadSettles(After(s0, run), id);
  }

  lemma OffloadSettles(s: State, id: OffId)
    requires OffsOk(s.pool) && id in s.pool.offs
    ensures var o := s.pool.offs[id];
      && (o.resolved.Some? ==> o.resolved == o.computed)
      && (o.computed.Some? ==> o.resolved == o.computed || o.slot == o.computed)
      && s.pool.jobs[id] == One(o.computed.None?)
  {
    assert OffOk(s.pool.offs[id], s.pool.jobs[id], id in s.pool.closures);
  }

  // ---------------------------------------------------------------- scheduling

  /**
    The scheduler accepted exactly the submissions the run made of tasks not aborted by then, and they left in
    that order.
   */
  lemma {:induction false} SubmissionsInOrder(s0: State, run: seq<Step>)
    requires Init(s0) && Possible(s0, run)
    ensures var c := After(s0, run).sched;
      TasksOf(c.removed) + c.waiting == LogOf(s0, run).submitted && c.dead == LogOf(s0, run).aborted
  {
    RecordsAgree(s0, run);
    RunReaches(s0, run);
    FifoDispatch(After(s0, run));
  }

  /** The reactor handles every event it collects, and its drain pops every tag it is sent, in order and once. */
  lemma {:induction false} ReactorInOrder(s0: State, run: seq<Step>)
    requires Init(s0) && Possible(s0, run)
    ensures var s, log := After(s0, run), LogOf(s0, run);
      log.handled + s.react.batch == log.collected && log.popped + s.react.ring == log.tagged
  {
    RecordsAgree(s0, run);
  }

  // ---------------------------------------------------------------- aborts

  /** How often an executor takes up polling t in the run. */
  ghost function PollsIn(s: State, run: seq<Step>, t: TaskId): nat
    requires Possible(s, run)
    decreases |run|
  {
    if run == [] then 0
    else
      var polled := run[0].ByExecutor? && run[0].act.Lock? && TaskOf(s, run[0]) == Some(t);
      One(polled) + PollsIn(Apply(s, run[0]), run[1..], t)
  }

  lemma {:induction false} PollsCounted(s: State, run: seq<Step>, t: TaskId)
    requires Possible(s, run) && t in s.tasks
    ensures t in After(s, run).tasks && After(s, run).tasks[t].polls == s.tasks[t].polls + PollsIn(s, run, t)
    decreases |run|
  {
    if run != [] {
      match run[0] {
        case ByExecutor(e, act) => BodyAct(s, e, act, t);
        case ByOther(w) => BodyOther(s, w, t);
      }
      PollsCounted(Apply(s, run[0]), run[1..], t);
    }
  }

  /**
    An abort takes effect at once and for good: in every run that begins with it the task is aborted
    in every later state, and it is polled at most once for each copy that was in an inbox or an
    executor's hands, so at most as often as there are executors.
   */
  lemma {:induction false} AbortStops(s: State, rest: seq<Step>, t: TaskId)
    requires Reachable(s) && CanHappen(s, Abort(t)) && Possible(s, [ByOther(Abort(t))] + rest)
    ensures var run := [ByOther(Abort(t))] + rest;
      && t in Apply(s, run[0]).sched.dead && t in After(s, run).sched.dead
      && PollsIn(s, run, t) <= Copies(s, t) <= |s.execs.phase|
  {
    var run := [ByOther(Abort(t))] + rest;
    var s1 := Apply(s, run[0]);
    assert run[1..] == rest;
    ReachesOn(s, run[0]);
    AbortedRun(s1, rest, t);
    AbortBound(s1, rest, t);
    PollsCounted(s1, rest, t);
  }

  lemma {:induction false} ReachesOn(s: State, step: Step)
    requires Reachable(s) && Enabled(s, step)
    ensures Reachable(Apply(s, step)) && Inv(Apply(s, step))
  {
    var s0, run :| Init(s0) && Possible(s0, run) && After(s0, run) == s;
    Extend(s0, run, step);
    RunReaches(s0, run + [step]);
  }
}
