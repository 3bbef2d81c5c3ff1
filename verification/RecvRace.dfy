/**
  poll_recv tests the counter and stores the waker in two operations. The wake-up claim takes them
  as one step; here they are apart, and a wake-up can be lost. The store after a test that saw zero is
  safe exactly when the reactor has not looked up, in the window between them, every announcement of
  the channel.
 */
module RecvRace {
  import opened Types
  import opened Scheduler
  import opened Channel
  import opened Runtime
  import opened Structure
  import opened References
  import opened Wakeups
  import opened ShapeSteps
  import opened FlowSteps
  import opened Invariants
  import opened Runs
  import opened Reactors
  import opened Timers

  /** The second half of a pending poll_recv: store the waker and return Pending, without testing again. */
  function StoreLate(s: State, e: ExecId, tag: Tag): State
    requires CanRun(s, e)
  {
    var t := s.execs.held[e];
    var stored := s.(react := s.react.(tags := s.react.tags[tag := t]),
                     sched := s.sched.(strong := StoreWakerStrong(s.sched.strong, s.react.tags, tag, t)));
    SetPhase(Push(stored, t, s.tasks[t], RecvLeaf(tag)), e, Returning)
  }

  /** Made at once, test and store are the pending poll_recv of the transition system. */
  lemma StoreAtOnce(s: State, e: ExecId, tag: Tag)
    requires CanAwait(s, e, RecvLeaf(tag)) && s.net.chans[tag].cnt == 0
    ensures StoreLate(s, e, tag) == DoAwait(s, e, RecvLeaf(tag))
  {
    assert PollResult(s.net.chans[tag]).Waiting?;
  }

  lemma LateStoreWakes(s: State, e: ExecId, tag: Tag)
    requires Shape(s) && AllWake(s) && CanRun(s, e) && tag in s.net.chans
    ensures var s' := StoreLate(s, e, tag);
      var t := s.execs.held[e];
      TaskWakes(s'.sched, s'.execs, s'.react, s'.net, s'.pool.closures, t, s'.tasks[t])
      <==> || s.net.chans[tag].cnt == 0 || Announced(s.react, s.net.sends, tag)
           || t in s.sched.dead || Queued(s.sched, s.execs, t)
  {
    var t := s.execs.held[e];
    var s' := StoreLate(s, e, tag);
    SameQueued(s, e, tag);
    assert TaskWakes(s.sched, s.execs, s.react, s.net, s.pool.closures, t, s.tasks[t]);
    SameTimers(s, e, tag);
  }

  /** The leaves under the receive are timers, which the store does not touch. */
  lemma SameTimers(s: State, e: ExecId, tag: Tag)
    requires Locked(s.execs, s.tasks) && CanRun(s, e)
    ensures var s' := StoreLate(s, e, tag);
      var t := s.execs.held[e];
      && |s'.tasks[t].stack| == |s.tasks[t].stack| + 1 && s'.tasks[t].stack[|s.tasks[t].stack|] == RecvLeaf(tag)
      && (forall k | 0 <= k < |s'.tasks[t].stack| :: !Repolling(s'.execs, s'.tasks[t], k))
      && (forall k | 0 <= k < |s.tasks[t].stack| :: !Repolling(s.execs, s.tasks[t], k))
      && forall j | 0 <= j < |s.tasks[t].stack| ::
           Armed(s'.react, s'.net, s'.pool.closures, t, s'.tasks[t].stack[j])
           <==> Armed(s.react, s.net, s.pool.closures, t, s.tasks[t].stack[j])
  {
    var s' := StoreLate(s, e, tag);
    var t := s.execs.held[e];
    forall j | 0 <= j < |s.tasks[t].stack|
      ensures s'.tasks[t].stack[j] == s.tasks[t].stack[j] && s.tasks[t].stack[j].SleepLeaf?
    {}
  }

  lemma SameQueued(s: State, e: ExecId, tag: Tag)
    requires Shape(s) && CanRun(s, e)
    ensures var s', t := StoreLate(s, e, tag), s.execs.held[e];
      Queued(s'.sched, s'.execs, t) <==> Queued(s.sched, s.execs, t)
  {
    var x, x' := s.execs, StoreLate(s, e, tag).execs;
    assert forall f | f in x.held :: (f in x.phase && x.phase[f].Holding?) <==> (f in x'.phase && x'.phase[f].Holding?);
  }

  // ---------------------------------------------------------------- what can happen between test and store

  /** Announcements of the channel on their way: counted sends, its tags in the ring, and a tag being looked up. */
  ghost function Pending(s: State, tag: Tag): nat {
    Occ(s.net.sends, Counted(tag)) + multiset(s.react.ring)[tag] + (if s.react.loop == Lookup(tag) then 1 else 0)
  }

  lemma PendingAnnounces(s: State, tag: Tag)
    ensures Pending(s, tag) > 0 <==> Announced(s.react, s.net.sends, tag)
  {
    if a :| a in s.net.sends && s.net.sends[a] == Counted(tag) {
      OccPositive(s.net.sends, a);
    } else {
      OccZero(s.net.sends, Counted(tag));
    }
  }

  /** The step raises the channel's counter. */
  predicate Counts(s: State, step: Step, tag: Tag) {
    step.ByOther? && step.w.SendCount? && step.w.a in s.net.sends && s.net.sends[step.w.a].tag == tag
  }

  /** The step ends one announcement of the channel: the reactor looks its tag up. */
  predicate Looks(s: State, step: Step, tag: Tag) {
    step.ByOther? && step.w.LookupTag? && s.react.loop == Lookup(tag)
  }

  ghost function CountedIn(s: State, window: seq<Step>, tag: Tag): nat
    requires Possible(s, window)
    decreases |window|
  {
    if window == [] then 0
    else One(Counts(s, window[0], tag)) + CountedIn(Apply(s, window[0]), window[1..], tag)
  }

  ghost function LookedIn(s: State, window: seq<Step>, tag: Tag): nat
    requires Possible(s, window)
    decreases |window|
  {
    if window == [] then 0
    else One(Looks(s, window[0], tag)) + LookedIn(Apply(s, window[0]), window[1..], tag)
  }

  /**
    What the rest of the runtime may do while e is inside poll_recv on this channel, which no other task
    receives from.
   */
  predicate Beside(step: Step, e: ExecId, tag: Tag) {
    match step
    case ByExecutor(f, act) => f != e && act != AwaitLeaf(RecvLeaf(tag))
    case ByOther(_) => true
  }

  ghost predicate AllBeside(window: seq<Step>, e: ExecId, tag: Tag) {
    forall step | step in window :: Beside(step, e, tag)
  }

  /** e polls t, and t is about to be the only task that awaits the channel. */
  ghost predicate InPollRecv(s: State, e: ExecId, t: TaskId, tag: Tag) {
    && CanRun(s, e) && s.execs.held[e] == t && tag in s.net.chans
    && forall u | u in s.tasks :: RecvLeaf(tag) !in s.tasks[u].stack
  }

  /** From s to s' the counter rose by counted, and the announcements by counted less looked. */
  ghost predicate Balances(s: State, s': State, tag: Tag, counted: nat, looked: nat) {
    && tag in s.net.chans && tag in s'.net.chans
    && s'.net.chans[tag].cnt == s.net.chans[tag].cnt + counted
    && Pending(s', tag) == Pending(s, tag) + counted - looked
  }

  lemma NobodyStartsToAwait(s: State, f: ExecId, act: Action, tag: Tag)
    requires CanAct(s, f, act) && act != AwaitLeaf(RecvLeaf(tag))
    requires forall u | u in s.tasks :: RecvLeaf(tag) !in s.tasks[u].stack
    ensures forall u | u in Act(s, f, act).tasks :: RecvLeaf(tag) !in Act(s, f, act).tasks[u].stack
  {
    match act
    case RepollLeaf => EffectKeepsTasks(s, s.tasks[s.execs.held[f]].stack[s.execs.phase[f].at], s.execs.held[f]);
    case AwaitLeaf(leaf) => EffectKeepsTasks(s, leaf, s.execs.held[f]);
    case _ => NobodyElseStarts(s, f, act, tag);
  }

  lemma NobodyElseStarts(s: State, f: ExecId, act: Action, tag: Tag)
    requires CanAct(s, f, act) && !act.RepollLeaf? && !act.AwaitLeaf?
    requires forall u | u in s.tasks :: RecvLeaf(tag) !in s.tasks[u].stack
    ensures forall u | u in Act(s, f, act).tasks :: RecvLeaf(tag) !in Act(s, f, act).tasks[u].stack
  {}

  lemma EffectBalances(s: State, leaf: Leaf, t: TaskId, tag: Tag)
    requires leaf != RecvLeaf(tag) && tag in s.net.chans
    ensures Balances(s, PollEffect(s, leaf, t), tag, 0, 0)
  {}

  lemma RepollBalances(s: State, f: ExecId, tag: Tag)
    requires CanRepoll(s, f) && tag in s.net.chans && RecvLeaf(tag) !in s.tasks[s.execs.held[f]].stack
    ensures Balances(s, DoRepoll(s, f), tag, 0, 0)
  {
    EffectBalances(s, s.tasks[s.execs.held[f]].stack[s.execs.phase[f].at], s.execs.held[f], tag);
  }

  lemma AwaitBalances(s: State, f: ExecId, leaf: Leaf, tag: Tag)
    requires CanAwait(s, f, leaf) && leaf != RecvLeaf(tag) && tag in s.net.chans
    ensures Balances(s, DoAwait(s, f, leaf), tag, 0, 0)
  {
    EffectBalances(s, leaf, s.execs.held[f], tag);
  }

  lemma ActBalances(s: State, f: ExecId, act: Action, tag: Tag)
    requires Flow(s) && CanAct(s, f, act) && act != AwaitLeaf(RecvLeaf(tag)) && tag in s.net.chans
    requires forall u | u in s.tasks :: RecvLeaf(tag) !in s.tasks[u].stack
    ensures Balances(s, Act(s, f, act), tag, 0, 0)
  {
    match act
    case RepollLeaf => RepollBalances(s, f, tag);
    case AwaitLeaf(leaf) => AwaitBalances(s, f, leaf, tag);
    case JoinSend => JoinBalances(s, f, tag);
    case _ => RestBalances(s, f, act, tag);
  }

  lemma JoinBalances(s: State, f: ExecId, tag: Tag)
    requires Flow(s) && CanJoin(s, f) && tag in s.net.chans
    ensures Balances(s, DoJoin(s, f), tag, 0, 0)
  {
    SlotsFree(s, f, JoinSend);
    OccUpdate(s.net.sends, ExecSender(f), Enqueued(s.tasks[s.execs.held[f]].join), Counted(tag));
  }

  lemma RestBalances(s: State, f: ExecId, act: Action, tag: Tag)
    requires CanAct(s, f, act) && !act.RepollLeaf? && !act.AwaitLeaf? && !act.JoinSend? && tag in s.net.chans
    ensures Balances(s, Act(s, f, act), tag, 0, 0)
  {
    var s' := Act(s, f, act);
    assert s'.net == s.net && s'.react.ring == s.react.ring && s'.react.loop == s.react.loop;
  }

  lemma SendBalances(s: State, a: Sender, tag: Tag)
    requires a in s.net.sends && s.net.sends[a].tag in s.net.chans && tag in s.net.chans
    ensures s.net.sends[a].Enqueued? ==> Balances(s, DoSendCount(s, a), tag, One(s.net.sends[a].tag == tag), 0)
    ensures s.net.sends[a].Counted? ==> Balances(s, DoSendTag(s, a), tag, 0, 0)
    ensures s.net.sends[a].Tagged? ==> Balances(s, DoSendWake(s, a), tag, 0, 0)
  {
    OccUpdate(s.net.sends, a, Counted(s.net.sends[a].tag), Counted(tag));
    OccUpdate(s.net.sends, a, Tagged(s.net.sends[a].tag), Counted(tag));
    OccRemove(s.net.sends, a, Counted(tag));
  }

  lemma LoopBalances(s: State, w: Other, tag: Tag)
    requires CanHappen(s, w) && tag in s.net.chans && (w.HandleEvent? || w.DrainPop? || w.LookupTag?)
    ensures Balances(s, Happen(s, w), tag, 0, One(Looks(s, ByOther(w), tag)))
  {
    if w.DrainPop? && s.react.ring != [] {
      assert s.react.ring == [s.react.ring[0]] + s.react.ring[1..];
    }
  }

  lemma OtherBalances(s: State, w: Other, tag: Tag)
    requires CanHappen(s, w) && tag in s.net.chans
    ensures Balances(s, Happen(s, w), tag, One(Counts(s, ByOther(w), tag)), One(Looks(s, ByOther(w), tag)))
  {
    match w
    case SendEnqueue(n, to, _) => OccUpdate(s.net.sends, ThreadSender(n), Enqueued(to), Counted(tag));
    case SendCount(a) => SendBalances(s, a, tag);
    case SendTag(a) => SendBalances(s, a, tag);
    case SendWake(a) => SendBalances(s, a, tag);
    case HandleEvent | DrainPop | LookupTag => LoopBalances(s, w, tag);
    case _ =>
  }

  lemma BesideAct(s: State, f: ExecId, act: Action, e: ExecId, t: TaskId, tag: Tag)
    requires Shape(s) && Flow(s) && CanAct(s, f, act) && f != e && act != AwaitLeaf(RecvLeaf(tag))
    requires InPollRecv(s, e, t, tag)
    ensures InPollRecv(Act(s, f, act), e, t, tag) && Balances(s, Act(s, f, act), tag, 0, 0)
  {
    OtherExecutor(s, f, act, e, t);
    NobodyStartsToAwait(s, f, act, tag);
    ActBalances(s, f, act, tag);
  }

  lemma BesideOther(s: State, w: Other, e: ExecId, t: TaskId, tag: Tag)
    requires Shape(s) && CanHappen(s, w) && InPollRecv(s, e, t, tag)
    ensures InPollRecv(Happen(s, w), e, t, tag)
    ensures Balances(s, Happen(s, w), tag, One(Counts(s, ByOther(w), tag)), One(Looks(s, ByOther(w), tag)))
  {
    assert s.tasks[t].lock == Some(e);
    OtherThread(s, w, t);
    NobodySpawnedAwaits(s, w, tag);
    OtherBalances(s, w, tag);
  }

  lemma BesideStep(s: State, step: Step, e: ExecId, t: TaskId, tag: Tag)
    requires Shape(s) && Flow(s) && Enabled(s, step) && Beside(step, e, tag) && InPollRecv(s, e, t, tag)
    ensures InPollRecv(Apply(s, step), e, t, tag)
    ensures Balances(s, Apply(s, step), tag, One(Counts(s, step, tag)), One(Looks(s, step, tag)))
  {
    match step
    case ByExecutor(f, act) => BesideAct(s, f, act, e, t, tag);
    case ByOther(w) => BesideOther(s, w, e, t, tag);
  }

  lemma NobodySpawnedAwaits(s: State, w: Other, tag: Tag)
    requires CanHappen(s, w) && forall u | u in s.tasks :: RecvLeaf(tag) !in s.tasks[u].stack
    ensures forall u | u in Happen(s, w).tasks :: RecvLeaf(tag) !in Happen(s, w).tasks[u].stack
  {}

  lemma {:induction false} BesideRun(s: State, window: seq<Step>, e: ExecId, t: TaskId, tag: Tag)
    requires Inv(s) && Possible(s, window) && AllBeside(window, e, tag) && InPollRecv(s, e, t, tag)
    ensures Inv(After(s, window)) && InPollRecv(After(s, window), e, t, tag)
    ensures Balances(s, After(s, window), tag, CountedIn(s, window, tag), LookedIn(s, window, tag))
    decreases |window|
  {
    if window != [] {
      InvStep(s, window[0]);
      BesideStep(s, window[0], e, t, tag);
      BesideRun(Apply(s, window[0]), window[1..], e, t, tag);
    }
  }

  /** Parked, the receiver has a wake-up to come for everything it awaits, or a copy, or was aborted. */
  ghost predicate Safe(s: State, e: ExecId, tag: Tag)
    requires CanRun(s, e)
  {
    var s' := StoreLate(s, e, tag);
    var t := s.execs.held[e];
    TaskWakes(s'.sched, s'.execs, s'.react, s'.net, s'.pool.closures, t, s'.tasks[t])
  }

  /**
    The exact condition: after a test that saw zero, the store at the end of any window is safe if
    and only if no send was counted in the window, or fewer tags of the channel were looked up in it
    than were announced, or the task was aborted or has another copy.
   */
  lemma {:induction false} LateStoreExactly(s: State, window: seq<Step>, e: ExecId, tag: Tag)
    requires Reachable(s) && CanAwait(s, e, RecvLeaf(tag)) && s.net.chans[tag].cnt == 0
    requires Possible(s, window) && AllBeside(window, e, tag)
    ensures var s' := After(s, window);
      && CanRun(s', e) && s'.execs.held[e] == s.execs.held[e]
      && (Safe(s', e, tag)
          <==> || CountedIn(s, window, tag) == 0
               || LookedIn(s, window, tag) < Pending(s, tag) + CountedIn(s, window, tag)
               || s.execs.held[e] in s'.sched.dead || Queued(s'.sched, s'.execs, s.execs.held[e]))
  {
    ReachableInv(s);
    BesideRun(s, window, e, s.execs.held[e], tag);
    LateStoreWakes(After(s, window), e, tag);
    PendingAnnounces(After(s, window), tag);
  }

  /** In particular it is safe when the reactor looks the channel's tag up at no point of the window. */
  lemma {:induction false} SafeWithoutLookup(s: State, window: seq<Step>, e: ExecId, tag: Tag)
    requires Reachable(s) && CanAwait(s, e, RecvLeaf(tag)) && s.net.chans[tag].cnt == 0
    requires Possible(s, window) && AllBeside(window, e, tag) && LookedIn(s, window, tag) == 0
    ensures CanRun(After(s, window), e) && Safe(After(s, window), e, tag)
  {
    LateStoreExactly(s, window, e, tag);
  }

  // ---------------------------------------------------------------- a run that loses one

  function OneExecutor(): State {
    State(Sched(map[], {}, [], [0], map[0 := []], [], []), map[],
          Execs(map[0 := AtRecv], map[], map[]),
          React(map[], map[], map[], [], false, Handling, []),
          Net(map[], map[], {}, map[]),
          Pool(map[], multiset{}, map[]))
  }

  /** Task 1 is in the only executor's inbox, beside an empty channel with tag 7. */
  predicate SpawnedBesideChannel(s: State) {
    && s.sched.dead == {} && s.sched.waiting == [] && s.sched.inbox == map[0 := [1]]
    && s.execs == Execs(map[0 := AtRecv], map[], map[])
    && s.tasks == map[1 := Body(true, [Runnable], None, 8, None, 0)] && 1 in s.sched.strong
    && s.net == Net(map[7 := NewChan(1), 8 := NewChan(1)], map[8 := 1], {}, map[])
    && s.react == React(map[], map[], map[], [], false, Handling, [])
  }

  lemma SpawnBesideChannel() returns (run: seq<Step>)
    ensures Init(OneExecutor()) && Possible(OneExecutor(), run) && SpawnedBesideChannel(After(OneExecutor(), run))
  {
    var s0 := OneExecutor();
    run := [];
    Extend(s0, run, ByOther(NewChannel(7, 1)));
    run := run + [ByOther(NewChannel(7, 1))];
    Extend(s0, run, ByOther(Spawn(1, 8)));
    run := run + [ByOther(Spawn(1, 8))];
    assert After(s0, run).sched.inbox[0] == [1];
  }

  /** Task 1 runs on the only executor, beside an empty channel with tag 7. */
  predicate RunsBesideChannel(s: State) {
    && CanRun(s, 0) && s.execs.held == map[0 := 1] && s.tasks.Keys == {1} && s.tasks[1].stack == []
    && s.sched.dead == {} && s.sched.waiting == [] && s.sched.inbox == map[0 := []]
    && s.net == Net(map[7 := NewChan(1), 8 := NewChan(1)], map[8 := 1], {}, map[])
    && s.react == React(map[], map[], map[], [], false, Handling, [])
  }

  lemma StartRunning(s: State) returns (run: seq<Step>)
    requires SpawnedBesideChannel(s)
    ensures Possible(s, run) && RunsBesideChannel(After(s, run))
  {
    run := [];
    Extend(s, run, ByExecutor(0, Take));
    run := run + [ByExecutor(0, Take)];
    Extend(s, run, ByExecutor(0, Lock));
    run := run + [ByExecutor(0, Lock)];
    Extend(s, run, ByExecutor(0, RepollLeaf));
    run := run + [ByExecutor(0, RepollLeaf)];
  }

  /** A channel with tag 7 and nothing under way. */
  predicate Quiet(s: State, cnt: int) {
    && 7 in s.net.chans && s.net.chans[7].cnt == cnt
    && s.net.closed == {} && s.net.sends == map[] && 7 !in s.net.joins
    && s.react == React(map[], map[], map[], [], false, Handling, [])
  }

  predicate SameWorkers(s: State, s': State) {
    s'.sched == s.sched && s'.tasks == s.tasks && s'.execs == s.execs
  }

  /** A whole send between the test and the store. */
  lemma WholeSend(s: State) returns (run: seq<Step>)
    requires Quiet(s, 0) && s.net.chans[7] == NewChan(1)
    ensures Possible(s, run) && forall step | step in run :: step.ByOther?
    ensures var s' := After(s, run);
      && SameWorkers(s, s') && s'.net.sends == map[] && s'.net.closed == {} && s'.net.joins == s.net.joins
      && s'.react == React(map[], map[], map[], [7], true, Handling, [])
      && 7 in s'.net.chans && s'.net.chans[7].cnt == 1
  {
    Extend(s, [], ByOther(SendEnqueue(0, 7, 42)));
    run := [] + [ByOther(SendEnqueue(0, 7, 42))];
    var rest := SendIsRun(After(s, run), ThreadSender(0));
    RunsJoin(s, run, rest);
    run := run + rest;
  }

  /** The reactor's reaction, which finds no stored waker. */
  lemma WholeDrain(s: State) returns (run: seq<Step>)
    requires s.react == React(map[], map[], map[], [7], true, Handling, [])
    ensures Possible(s, run) && forall step | step in run :: step.ByOther?
    ensures After(s, run) == s.(react := React(map[], map[], map[], [], false, Handling, []))
  {
    run := [];
    Extend(s, run, ByOther(Collect([WakerEvent])));
    run := run + [ByOther(Collect([WakerEvent]))];
    Extend(s, run, ByOther(HandleEvent));
    run := run + [ByOther(HandleEvent)];
    var s2 := After(s, run);
    assert s2 == s.(react := React(map[], map[], map[], [7], false, Draining, []));
    var drained := DrainIsRun(s2);
    assert Drain(s.sched, map[], [7]) == s.sched by {
      assert [7][1..] == [];
    }
    RunsJoin(s, run, drained);
    run := run + drained;
  }

  lemma ValueUnheard(s: State, e: ExecId, tag: Tag)
    requires Shape(s) && AllWake(s) && CanRun(s, e) && Quiet(s, 1) && tag == 7
    requires s.sched.dead == {} && s.sched.waiting == [] && s.sched.inbox == map[e := []]
    requires s.execs.held == map[e := s.execs.held[e]]
    ensures !Safe(s, e, tag)
  {
    LateStoreWakes(s, e, tag);
    assert !Queued(s.sched, s.execs, s.execs.held[e]);
  }

  /** A whole send, and the drain it causes, while the only executor stands between test and store. */
  lemma SendAndDrain(s: State) returns (window: seq<Step>)
    requires RunsBesideChannel(s)
    ensures Possible(s, window) && forall step | step in window :: step.ByOther?
    ensures Quiet(After(s, window), 1) && SameWorkers(s, After(s, window))
  {
    var send := WholeSend(s);
    var drain := WholeDrain(After(s, send));
    RunsJoin(s, send, drain);
    window := send + drain;
  }

  lemma RunGivesReachable(s0: State, run: seq<Step>)
    requires Init(s0) && Possible(s0, run)
    ensures Reachable(After(s0, run)) && Inv(After(s0, run))
  {
    InvInit(s0);
    InvRun(s0, run);
  }

  lemma ReachRunning() returns (s: State)
    ensures Reachable(s) && Inv(s) && RunsBesideChannel(s)
  {
    var spawn := SpawnBesideChannel();
    var start := StartRunning(After(OneExecutor(), spawn));
    RunsJoin(OneExecutor(), spawn, start);
    s := After(OneExecutor(), spawn + start);
    RunGivesReachable(OneExecutor(), spawn + start);
  }

  lemma MayAwait(s: State)
    requires RunsBesideChannel(s)
    ensures CanAwait(s, 0, RecvLeaf(7)) && s.net.chans[7].cnt == 0
  {}

  lemma KeepsWakes(s: State, run: seq<Step>)
    requires Inv(s) && Possible(s, run)
    ensures Shape(After(s, run)) && AllWake(After(s, run))
  {
    InvRun(s, run);
  }

  lemma StillRuns(s: State, s': State)
    requires RunsBesideChannel(s) && Quiet(s', 1) && SameWorkers(s, s') && Shape(s') && AllWake(s')
    ensures CanRun(s', 0) && 7 in s'.net.chans && s'.net.chans[7].cnt == 1 && !Safe(s', 0, 7)
  {
    ValueUnheard(s', 0, 7);
  }

  /**
    poll_recv tests a counter that is zero; then, with the polling executor standing still, a value is
    sent, counted, announced and looked up; then the waker is stored: a value is counted, and nobody
    will wake the receiver.
   */
  lemma SplitPollLosesWakeup() returns (s: State, window: seq<Step>)
    ensures Reachable(s) && CanAwait(s, 0, RecvLeaf(7)) && s.net.chans[7].cnt == 0
    ensures Possible(s, window) && forall step | step in window :: step.ByOther?
    ensures var s' := After(s, window);
      CanRun(s', 0) && 7 in s'.net.chans && s'.net.chans[7].cnt == 1 && !Safe(s', 0, 7)
  {
    s := ReachRunning();
    MayAwait(s);
    window := SendAndDrain(s);
    KeepsWakes(s, window);
    StillRuns(s, After(s, window));
  }
}
