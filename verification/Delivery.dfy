/**
  A wake-up on its way arrives without the help of any executor or task: from every reachable state,
  steps of senders and the reactor alone schedule a receiver that something was counted for, and steps
  of the pool alone a task that awaits a connect or bind.
 */
module Delivery {
  import opened Types
  import opened Scheduler
  import opened TokenTable
  import opened Runtime
  import opened Structure
  import opened Wakeups
  import opened Flows
  import opened Invariants
  import opened Runs
  import opened Reactors
  import opened Theorems

  predicate Carries(step: Step) {
    BySender(step) || ByReactor(step)
  }

  ghost predicate AllCarry(run: seq<Step>) {
    forall step | step in run :: Carries(step)
  }

  lemma RegisterSchedules(c: Sched, u: TaskId, t: TaskId)
    requires t !in c.dead
    ensures Scheduled(c, t) || t == u ==> Scheduled(Register(c, u), t)
    ensures Register(c, u).dead == c.dead
  {
    var d := Register(c, u);
    if u !in c.dead && c.idle != [] {
      assert u in d.inbox[c.idle[0]];
      if e :| e in c.inbox && t in c.inbox[e] {
        assert t in d.inbox[e];
      }
    }
  }

  /**
    Handling events keeps a scheduled copy and a tag in the ring, and with a waker event among them turns the
    tag into a copy.
   */
  lemma {:induction false} HandlingWakes(w: Work, tags: map<Tag, TaskId>, events: seq<Event>, t: TaskId, tag: Tag)
    requires t !in w.sched.dead && tag in tags && tags[tag] == t
    requires Scheduled(w.sched, t) || tag in w.ring
    ensures var d := HandleAll(w, tags, events);
      && t !in d.sched.dead && (Scheduled(d.sched, t) || tag in d.ring)
      && (WakerEvent in events || Scheduled(w.sched, t) ==> Scheduled(d.sched, t))
    decreases |events|
  {
    if events != [] {
      match events[0] {
        case WakerEvent =>
          DrainWakes(w.sched, tags, w.ring, t);
          DrainSparesDead(w.sched, tags, w.ring);
        case TokenEvent(tok) =>
          if tok in w.table && w.table[tok].Awaited? {
            RegisterSchedules(w.sched, w.table[tok].waker, t);
          }
      }
      HandlingWakes(HandleOne(w, tags, events[0]), tags, events[1..], t, tag);
    }
  }

  lemma {:induction false} DrainSparesDead(c: Sched, tags: map<Tag, TaskId>, ring: seq<Tag>)
    ensures Drain(c, tags, ring).dead == c.dead
    decreases |ring|
  {
    if ring != [] {
      DrainSparesDead(if ring[0] in tags then WakeByRef(c, tags[ring[0]]) else c, tags, ring[1..]);
    }
  }

  /** The receiver t of the channel can be woken through the tag map. */
  predicate Wakeable(s: State, t: TaskId, tag: Tag) {
    t !in s.sched.dead && tag in s.react.tags && s.react.tags[tag] == t
  }

  lemma DrainDelivers(s: State, t: TaskId, tag: Tag) returns (run: seq<Step>)
    requires s.react.loop.Draining? && Wakeable(s, t, tag) && (Scheduled(s.sched, t) || tag in s.react.ring)
    ensures Possible(s, run) && AllCarry(run) && Scheduled(After(s, run).sched, t)
  {
    run := DrainIsRun(s);
    DrainWakes(s.sched, s.react.tags, s.react.ring, t);
  }

  lemma LookupDelivers(s: State, t: TaskId, tag: Tag) returns (run: seq<Step>)
    requires s.react.loop.Lookup? && Wakeable(s, t, tag) && (s.react.loop.tag == tag || tag in s.react.ring)
    ensures Possible(s, run) && AllCarry(run) && Scheduled(After(s, run).sched, t)
  {
    var step := ByOther(LookupTag);
    OneStep(s, step);
    if s.react.loop.tag in s.react.tags {
      WakeSchedules(s.sched, s.react.tags[s.react.loop.tag], t);
    }
    var rest := DrainDelivers(DoLookup(s), t, tag);
    RunsJoin(s, [step], rest);
    run := [step] + rest;
  }

  lemma BatchDelivers(s: State, t: TaskId, tag: Tag) returns (run: seq<Step>)
    requires s.react.loop.Handling? && Wakeable(s, t, tag) && WakerEvent in s.react.batch
    requires Scheduled(s.sched, t) || tag in s.react.ring
    ensures Possible(s, run) && AllCarry(run) && Scheduled(After(s, run).sched, t)
  {
    run := BatchIsRun(s);
    HandlingWakes(Work(s.sched, s.react.table, s.react.ring), s.react.tags, s.react.batch, t, tag);
  }

  /** The reactor has been signalled: it finishes its batch, collects the signal and drains. */
  lemma SignalDelivers(s: State, t: TaskId, tag: Tag) returns (run: seq<Step>)
    requires s.react.loop.Handling? && s.react.mio && Wakeable(s, t, tag) && tag in s.react.ring
    ensures Possible(s, run) && AllCarry(run) && Scheduled(After(s, run).sched, t)
  {
    run := BatchIsRun(s);
    HandlingWakes(Work(s.sched, s.react.table, s.react.ring), s.react.tags, s.react.batch, t, tag);
    var s1 := After(s, run);
    var collect := ByOther(Collect([WakerEvent]));
    Extend(s, run, collect);
    run := run + [collect];
    var rest := BatchDelivers(DoCollect(s1, [WakerEvent]), t, tag);
    RunsJoin(s, run, rest);
    run := run + rest;
  }

  /** A tag in the ring, with a drain owed. */
  lemma RingDelivers(s: State, t: TaskId, tag: Tag) returns (run: seq<Step>)
    requires Wakeable(s, t, tag) && tag in s.react.ring && WakeOwed(s.react, s.net.sends) && Flowing(s.net)
    ensures Possible(s, run) && AllCarry(run) && Scheduled(After(s, run).sched, t)
  {
    if s.react.loop.Lookup? {
      run := LookupDelivers(s, t, tag);
    } else if s.react.loop.Draining? {
      run := DrainDelivers(s, t, tag);
    } else if WakerEvent in s.react.batch {
      run := BatchDelivers(s, t, tag);
    } else if s.react.mio {
      run := SignalDelivers(s, t, tag);
    } else {
      var a :| a in s.net.sends && s.net.sends[a].Tagged?;
      var step := ByOther(SendWake(a));
      OneStep(s, step);
      var rest := SignalDelivers(DoSendWake(s, a), t, tag);
      RunsJoin(s, [step], rest);
      run := [step] + rest;
    }
  }

  /** A sender between count and tag. */
  lemma CountDelivers(s: State, a: Sender, t: TaskId, tag: Tag) returns (run: seq<Step>)
    requires Wakeable(s, t, tag) && Flowing(s.net) && a in s.net.sends && s.net.sends[a] == Counted(tag)
    ensures Possible(s, run) && AllCarry(run) && Scheduled(After(s, run).sched, t)
  {
    var step := ByOther(SendTag(a));
    OneStep(s, step);
    var s1 := DoSendTag(s, a);
    assert s1.net.sends[a].Tagged? && tag in s1.react.ring;
    FlowingTag(s.net, a);
    var rest := RingDelivers(s1, t, tag);
    RunsJoin(s, [step], rest);
    run := [step] + rest;
  }

  /**
    From every reachable state in which a parked receiver's channel has something counted, it will be polled,
    or senders and the reactor can schedule it.
   */
  lemma ChannelDelivers(s: State, t: TaskId, k: nat, tag: Tag) returns (run: seq<Step>)
    requires Reachable(s) && t in s.tasks && s.tasks[t].live && t !in s.sched.dead
    requires k < |s.tasks[t].stack| && s.tasks[t].stack[k] == RecvLeaf(tag) && tag in s.net.chans
    requires s.net.chans[tag].cnt != 0
    ensures Possible(s, run) && AllCarry(run)
    ensures WillPoll(s, t, k) || Scheduled(After(s, run).sched, t)
  {
    NoLostChannelWakeup(s, t, k, tag);
    FlowsAndOwes(s);
    if WillPoll(s, t, k) {
      run := [];
    } else if s.react.loop == Lookup(tag) {
      run := LookupDelivers(s, t, tag);
    } else if tag in s.react.ring {
      run := RingDelivers(s, t, tag);
    } else {
      var a :| a in s.net.sends && s.net.sends[a] == Counted(tag);
      run := CountDelivers(s, a, t, tag);
    }
  }

  lemma FlowsAndOwes(s: State)
    requires Reachable(s)
    ensures Flowing(s.net) && RingOwed(s.react, s.net)
  {
    ReachableInv(s);
  }

  predicate ByPool(step: Step) {
    step.ByOther? && (step.w.RunClosure? || step.w.WakeClosure?)
  }

  lemma ClosureWakes(s: State, t: TaskId, id: OffId) returns (run: seq<Step>)
    requires t !in s.sched.dead && CanWakeClosure(s, id) && s.pool.closures[id] == t
    ensures Possible(s, run) && (forall step | step in run :: ByPool(step)) && Scheduled(After(s, run).sched, t)
  {
    OneStep(s, ByOther(WakeClosure(id)));
    RegisterSchedules(s.sched, t, t);
    run := [ByOther(WakeClosure(id))];
  }

  /** Likewise the pool can schedule a task that awaits a connect or bind, whatever the operation answers. */
  lemma OffloadDelivers(s: State, t: TaskId, k: nat, id: OffId, v: Value) returns (run: seq<Step>)
    requires Reachable(s) && t in s.tasks && s.tasks[t].live && t !in s.sched.dead
    requires k < |s.tasks[t].stack| && s.tasks[t].stack[k] == OffloadLeaf(id)
    ensures Possible(s, run) && forall step | step in run :: ByPool(step)
    ensures WillPoll(s, t, k) || Scheduled(After(s, run).sched, t)
  {
    NoLostOffload(s, t, k, id);
    OffloadOnce(s, id);
    if WillPoll(s, t, k) {
      run := [];
    } else if s.pool.jobs[id] == 0 {
      run := ClosureWakes(s, t, id);
    } else {
      var step := ByOther(RunClosure(id, v));
      OneStep(s, step);
      var rest := ClosureWakes(DoRunClosure(s, id, v), t, id);
      RunsJoin(s, [step], rest);
      run := [step] + rest;
    }
  }

  // ---------------------------------------------------------------- I/O and timer events

  /** t is scheduled, or still the token's awaited waker. */
  ghost predicate Coming(c: Sched, table: Table, t: TaskId, tok: Token) {
    Scheduled(c, t) || (tok in table && table[tok] == Awaited(t))
  }

  /** Handling events keeps an awaited waker until its event, which schedules its task. */
  lemma {:induction false} HandlingKeeps(w: Work, tags: map<Tag, TaskId>, events: seq<Event>, t: TaskId, tok: Token)
    requires t !in w.sched.dead && Coming(w.sched, w.table, t, tok)
    ensures var d := HandleAll(w, tags, events);
      && t !in d.sched.dead && Coming(d.sched, d.table, t, tok)
      && (TokenEvent(tok) in events || Scheduled(w.sched, t) ==> Scheduled(d.sched, t))
    decreases |events|
  {
    if events != [] {
      match events[0] {
        case WakerEvent =>
          DrainSparesDead(w.sched, tags, w.ring);
          if Scheduled(w.sched, t) {
            DrainWakes(w.sched, tags, w.ring, t);
          }
        case TokenEvent(other) =>
          if other in w.table && w.table[other].Awaited? {
            RegisterSchedules(w.sched, w.table[other].waker, t);
          }
      }
      HandlingKeeps(HandleOne(w, tags, events[0]), tags, events[1..], t, tok);
    }
  }

  /** A collected event of the token a task awaits is handled, and schedules the task. */
  lemma EventDelivers(s: State, t: TaskId, tok: Token) returns (run: seq<Step>)
    requires s.react.loop.Handling? && TokenEvent(tok) in s.react.batch
    requires t !in s.sched.dead && Coming(s.sched, s.react.table, t, tok)
    ensures Possible(s, run) && AllCarry(run) && Scheduled(After(s, run).sched, t)
  {
    run := BatchIsRun(s);
    HandlingKeeps(Work(s.sched, s.react.table, s.react.ring), s.react.tags, s.react.batch, t, tok);
  }

  lemma FinishDrain(s: State, t: TaskId, tok: Token) returns (run: seq<Step>)
    requires t !in s.sched.dead && Coming(s.sched, s.react.table, t, tok)
    ensures Possible(s, run) && AllCarry(run)
    ensures var s' := After(s, run);
      && s'.react.loop.Handling? && s'.react.kinds == s.react.kinds
      && t !in s'.sched.dead && Coming(s'.sched, s'.react.table, t, tok)
  {
    if s.react.loop.Lookup? {
      var step := ByOther(LookupTag);
      OneStep(s, step);
      if s.react.loop.tag in s.react.tags {
        WakeSchedules(s.sched, s.react.tags[s.react.loop.tag], t);
      }
      var rest := FinishDraining(DoLookup(s), t, tok);
      RunsJoin(s, [step], rest);
      run := [step] + rest;
    } else if s.react.loop.Draining? {
      run := FinishDraining(s, t, tok);
    } else {
      run := [];
    }
  }

  lemma FinishDraining(s: State, t: TaskId, tok: Token) returns (run: seq<Step>)
    requires s.react.loop.Draining? && t !in s.sched.dead && Coming(s.sched, s.react.table, t, tok)
    ensures Possible(s, run) && AllCarry(run)
    ensures var s' := After(s, run);
      && s'.react.loop.Handling? && s'.react.kinds == s.react.kinds
      && t !in s'.sched.dead && Coming(s'.sched, s'.react.table, t, tok)
  {
    run := DrainIsRun(s);
    DrainSparesDead(s.sched, s.react.tags, s.react.ring);
    if Scheduled(s.sched, t) {
      DrainWakes(s.sched, s.react.tags, s.react.ring, t);
    }
  }

  lemma FinishBatch(s: State, t: TaskId, tok: Token) returns (run: seq<Step>)
    requires s.react.loop.Handling? && t !in s.sched.dead && Coming(s.sched, s.react.table, t, tok)
    ensures Possible(s, run) && AllCarry(run)
    ensures var s' := After(s, run);
      && s'.react.loop.Handling? && s'.react.batch == [] && s'.react.kinds == s.react.kinds
      && t !in s'.sched.dead && Coming(s'.sched, s'.react.table, t, tok)
  {
    run := BatchIsRun(s);
    HandlingKeeps(Work(s.sched, s.react.table, s.react.ring), s.react.tags, s.react.batch, t, tok);
  }

  /**
    From every reachable state in which a live unaborted task awaits an I/O token or a timer, it will
    be polled, or the reactor alone, by finishing what it is at and collecting one event of the token,
    schedules it.
   */
  lemma TokenDelivers(s: State, t: TaskId, k: nat, tok: Token) returns (run: seq<Step>)
    requires Reachable(s) && t in s.tasks && s.tasks[t].live && t !in s.sched.dead
    requires k < |s.tasks[t].stack| && (s.tasks[t].stack[k] == TokenLeaf(tok) || s.tasks[t].stack[k] == SleepLeaf(tok))
    ensures Possible(s, run) && AllCarry(run)
    ensures WillPoll(s, t, k) || Scheduled(After(s, run).sched, t)
  {
    NoLostTokenWakeup(s, t, k, tok);
    TokenExists(s, t, k, tok);
    if WillPoll(s, t, k) {
      run := [];
    } else {
      run := FinishDrain(s, t, tok);
      var batch := FinishBatch(After(s, run), t, tok);
      RunsJoin(s, run, batch);
      run := run + batch;
      var rest := CollectAndHandle(After(s, run), t, tok);
      RunsJoin(s, run, rest);
      run := run + rest;
    }
  }

  lemma CollectAndHandle(s: State, t: TaskId, tok: Token) returns (run: seq<Step>)
    requires s.react.loop.Handling? && s.react.batch == [] && tok in s.react.kinds
    requires t !in s.sched.dead && Coming(s.sched, s.react.table, t, tok)
    ensures Possible(s, run) && AllCarry(run) && Scheduled(After(s, run).sched, t)
  {
    var collect := ByOther(Collect([TokenEvent(tok)]));
    OneStep(s, collect);
    var rest := EventDelivers(DoCollect(s, [TokenEvent(tok)]), t, tok);
    RunsJoin(s, [collect], rest);
    run := [collect] + rest;
  }

  lemma TokenExists(s: State, t: TaskId, k: nat, tok: Token)
    requires Reachable(s) && t in s.tasks && k < |s.tasks[t].stack|
    requires s.tasks[t].stack[k] == TokenLeaf(tok) || s.tasks[t].stack[k] == SleepLeaf(tok)
    ensures tok in s.react.kinds
  {
    ReachableInv(s);
    assert LeafOk(s.react.kinds, s.net, s.pool.offs, s.tasks[t].stack[k]);
  }
}
