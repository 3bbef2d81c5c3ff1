/**
  What forward_task does in memory is a run of the transition system, from taking the future's lock to
  dropping the handle.
 */
module ExecutorRuns {
  import opened Types
  import opened Scheduler
  import opened Runtime
  import opened Runs
  import opened Executors

  /** How a poll of a future that waits for nothing but its turn can end. */
  datatype End = Yields | Finishes(v: Value)

  datatype NewTask = NewTask(task: TaskId, tag: Tag)

  function LiveOf(s: State): set<TaskId> {
    set t | t in s.tasks && s.tasks[t].live
  }

  function Spawnings(news: seq<NewTask>): seq<Submission>
    decreases |news|
  {
    if news == [] then [] else [Spawned(news[0].task)] + Spawnings(news[1..])
  }

  predicate CanSpawnAll(s: State, news: seq<NewTask>)
    decreases |news|
  {
    news == [] || (CanSpawn(s, news[0].task, news[0].tag)
                   && CanSpawnAll(DoSpawn(s, news[0].task, news[0].tag), news[1..]))
  }

  lemma {:induction false} SubmitAllSnoc(c: Sched, subs: seq<Submission>, sub: Submission)
    ensures SubmitAll(c, subs + [sub]) == Submitted(SubmitAll(c, subs), sub)
    decreases |subs|
  {
    if subs == [] {
      assert subs + [sub] == [sub] && [sub][1..] == [];
    } else {
      assert (subs + [sub])[0] == subs[0] && (subs + [sub])[1..] == subs[1..] + [sub];
      SubmitAllSnoc(Submitted(c, subs[0]), subs[1..], sub);
    }
  }

  /** Nothing but new tasks and their channels: executors, the other bodies and the reactor are as before. */
  ghost predicate OnlySpawned(s: State, s': State, news: seq<NewTask>) {
    && s'.sched == SubmitAll(s.sched, Spawnings(news))
    && s'.execs == s.execs && s'.react == s.react && s'.net.sends == s.net.sends && s'.net.closed == s.net.closed
    && (forall u | u in s.tasks :: u in s'.tasks && s'.tasks[u] == s.tasks[u])
    && (forall tag | tag in s.net.chans :: tag in s'.net.chans && s'.net.chans[tag] == s.net.chans[tag])
    && LiveOf(s') == LiveOf(s) + Spawns(Spawnings(news))
  }

  lemma SpawnOne(s: State, n: NewTask)
    requires CanSpawn(s, n.task, n.tag)
    ensures var s' := DoSpawn(s, n.task, n.tag);
      && s'.sched == Submitted(s.sched, Spawned(n.task))
      && s'.execs == s.execs && s'.react == s.react && s'.net.sends == s.net.sends && s'.net.closed == s.net.closed
      && (forall u | u in s.tasks :: u in s'.tasks && s'.tasks[u] == s.tasks[u])
      && (forall tag | tag in s.net.chans :: tag in s'.net.chans && s'.net.chans[tag] == s.net.chans[tag])
      && LiveOf(s') == LiveOf(s) + {n.task}
  {}

  lemma {:induction false} SpawnsAreRun(s: State, news: seq<NewTask>) returns (run: seq<Step>)
    requires CanSpawnAll(s, news)
    ensures Possible(s, run) && OnlySpawned(s, After(s, run), news)
    decreases |news|
  {
    if news == [] {
      run := [];
    } else {
      var step := ByOther(Spawn(news[0].task, news[0].tag));
      OneStep(s, step);
      SpawnOne(s, news[0]);
      var rest := SpawnsAreRun(Apply(s, step), news[1..]);
      RunsJoin(s, [step], rest);
      run := [step] + rest;
    }
  }

  /** e holds a task that is ready to be polled and awaits nothing. */
  predicate Fresh(s: State, e: ExecId) {
    && CanLock(s, e) && s.tasks[s.execs.held[e]].live && s.tasks[s.execs.held[e]].stack == [Runnable]
  }

  lemma StartPoll(s: State, e: ExecId) returns (run: seq<Step>)
    requires Fresh(s, e)
    ensures Possible(s, run) && After(s, run) == Started(s, e)
  {
    var lock, poll := ByExecutor(e, Lock), ByExecutor(e, RepollLeaf);
    OneStep(s, lock);
    OneStep(DoLock(s, e), poll);
    RunsJoin(s, [lock], [poll]);
    run := [lock] + [poll];
  }

  function Started(s: State, e: ExecId): State
    requires Fresh(s, e)
  {
    DoRepoll(DoLock(s, e), e)
  }

  function Dropped(s: State, e: ExecId): State
    requires InTask(s, e)
  {
    DoDropTask(DoUnlock(s, e), e)
  }

  lemma DropIsRun(s: State, e: ExecId) returns (run: seq<Step>)
    requires InTask(s, e) && At(s, e, Returning)
    ensures Possible(s, run) && After(s, run) == Dropped(s, e)
  {
    var unlock, drop := ByExecutor(e, Unlock), ByExecutor(e, DropTask);
    OneStep(s, unlock);
    OneStep(DoUnlock(s, e), drop);
    RunsJoin(s, [unlock], [drop]);
    run := [unlock] + [drop];
  }

  lemma EndYield(s: State, e: ExecId) returns (run: seq<Step>)
    requires CanRun(s, e)
    ensures Possible(s, run) && After(s, run) == Dropped(DoYield(s, e), e)
  {
    OneStep(s, ByExecutor(e, Yield));
    var rest := DropIsRun(DoYield(s, e), e);
    RunsJoin(s, [ByExecutor(e, Yield)], rest);
    run := [ByExecutor(e, Yield)] + rest;
  }

  /** The future has returned Ready: its value is sent on the join channel, unless the handle is gone. */
  predicate CanSendJoin(s: State, e: ExecId) {
    && InTask(s, e) && ExecSender(e) !in s.net.sends
    && (s.tasks[s.execs.held[e]].join in s.net.closed || HasRoom(s, s.tasks[s.execs.held[e]].join))
  }

  predicate Ended(s: State, s': State, e: ExecId) {
    && InTask(s, e) && InTask(s', e) && s'.execs.held == s.execs.held && s'.execs.ctx == s.execs.ctx
    && s'.sched == s.sched && At(s', e, Returning) && s'.tasks.Keys == s.tasks.Keys
    && (forall u | u in s.tasks && u != s.execs.held[e] :: s'.tasks[u] == s.tasks[u])
    && !s'.tasks[s.execs.held[e]].live
  }

  lemma BeginJoin(s: State, e: ExecId, v: Value) returns (run: seq<Step>)
    requires CanRun(s, e) && s.tasks[s.execs.held[e]].stack == [] && ExecSender(e) !in s.net.sends
    requires HasRoom(s, s.tasks[s.execs.held[e]].join)
    ensures Possible(s, run) && After(s, run) == DoJoin(DoFinish(s, e, v), e)
  {
    Extend(s, [], ByExecutor(e, Finish(v)));
    run := [] + [ByExecutor(e, Finish(v))];
    Extend(s, run, ByExecutor(e, JoinSend));
    run := run + [ByExecutor(e, JoinSend)];
  }

  lemma JoinIsRun(s: State, e: ExecId, v: Value) returns (run: seq<Step>)
    requires CanRun(s, e) && s.tasks[s.execs.held[e]].stack == [] && ExecSender(e) !in s.net.sends
    requires HasRoom(s, s.tasks[s.execs.held[e]].join)
    ensures Possible(s, run) && Ended(s, After(s, run), e)
  {
    run := BeginJoin(s, e, v);
    var sending := SendIsRun(DoJoin(DoFinish(s, e, v), e), ExecSender(e));
    RunsJoin(s, run, sending);
    run := run + sending;
    Extend(s, run, ByExecutor(e, JoinDone));
    run := run + [ByExecutor(e, JoinDone)];
  }

  lemma NoJoinIsRun(s: State, e: ExecId, v: Value) returns (run: seq<Step>)
    requires CanRun(s, e) && s.tasks[s.execs.held[e]].stack == [] && ExecSender(e) !in s.net.sends
    requires s.tasks[s.execs.held[e]].join in s.net.closed
    ensures Possible(s, run) && Ended(s, After(s, run), e)
  {
    Extend(s, [], ByExecutor(e, Finish(v)));
    run := [] + [ByExecutor(e, Finish(v))];
    Extend(s, run, ByExecutor(e, JoinFail));
    run := run + [ByExecutor(e, JoinFail)];
    Extend(s, run, ByExecutor(e, JoinDone));
    run := run + [ByExecutor(e, JoinDone)];
  }

  lemma EndFinish(s: State, e: ExecId, v: Value) returns (run: seq<Step>)
    requires CanRun(s, e) && s.tasks[s.execs.held[e]].stack == [] && CanSendJoin(s, e)
    ensures Possible(s, run)
    ensures exists s1 :: Ended(s, s1, e) && After(s, run) == Dropped(s1, e)
  {
    if s.tasks[s.execs.held[e]].join in s.net.closed {
      run := NoJoinIsRun(s, e, v);
    } else {
      run := JoinIsRun(s, e, v);
    }
    var s1 := After(s, run);
    var rest := DropIsRun(s1, e);
    RunsJoin(s, run, rest);
    run := run + rest;
  }

  /** What forward_task, called with a task that awaits nothing, does to the scheduler, the futures and its executor. */
  ghost predicate ForwardedTo(s: State, s': State, e: ExecId, poll: Poll)
    requires e in s.execs.held
  {
    var t := s.execs.held[e];
    && s'.sched == Forwarded(s.sched, t, Submits(LiveOf(s), t, poll))
    && LiveOf(s') == LiveAfter(LiveOf(s), t, poll)
    && At(s', e, AtReady) && e !in s'.execs.held && e !in s'.execs.ctx
  }

  /** A future that is None: only the lock, the waker and the handle come and go. */
  lemma NothingToPoll(s: State, e: ExecId, poll: Poll) returns (run: seq<Step>)
    requires CanLock(s, e) && !s.tasks[s.execs.held[e]].live
    ensures Possible(s, run) && ForwardedTo(s, After(s, run), e, poll)
  {
    var lock, drop := ByExecutor(e, Lock), ByExecutor(e, DropTask);
    OneStep(s, lock);
    OneStep(DoLock(s, e), drop);
    RunsJoin(s, [lock], [drop]);
    run := [lock] + [drop];
  }

  function EndOf(t: TaskId, end: End): seq<Submission> {
    if end.Yields? then [Woken(t)] else []
  }

  lemma RunToSpawned(s: State, e: ExecId, news: seq<NewTask>) returns (run: seq<Step>)
    requires Fresh(s, e) && CanSpawnAll(Started(s, e), news)
    ensures Possible(s, run) && OnlySpawned(Started(s, e), After(s, run), news)
  {
    run := StartPoll(s, e);
    var spawned := SpawnsAreRun(Started(s, e), news);
    RunsJoin(s, run, spawned);
    run := run + spawned;
  }

  lemma StartedFacts(s: State, e: ExecId)
    requires Fresh(s, e)
    ensures var s1, t := Started(s, e), s.execs.held[e];
      && CanRun(s1, e) && s1.execs.held == s.execs.held && s1.tasks[t].stack == [] && LiveOf(s1) == LiveOf(s)
      && s1.sched == Retain(s.sched, t) && s1.net == s.net && s1.tasks[t].join == s.tasks[t].join
  {}

  lemma YieldTo(s: State, s2: State, e: ExecId, news: seq<NewTask>)
    requires Fresh(s, e) && OnlySpawned(Started(s, e), s2, news)
    ensures CanRun(s2, e)
    ensures var t := s.execs.held[e];
      ForwardedTo(s, Dropped(DoYield(s2, e), e), e, Poll(Spawnings(news) + [Woken(t)], false))
  {
    var t := s.execs.held[e];
    StartedFacts(s, e);
    SubmitAllSnoc(Retain(s.sched, t), Spawnings(news), Woken(t));
    SpawnsSnoc(Spawnings(news), t);
    DropFacts(DoYield(s2, e), e);
  }

  lemma {:induction false} SpawnsSnoc(subs: seq<Submission>, t: TaskId)
    ensures Spawns(subs + [Woken(t)]) == Spawns(subs)
    decreases |subs|
  {
    if subs == [] {
      assert subs + [Woken(t)] == [Woken(t)] && [Woken(t)][1..] == [];
    } else {
      assert (subs + [Woken(t)])[0] == subs[0] && (subs + [Woken(t)])[1..] == subs[1..] + [Woken(t)];
      SpawnsSnoc(subs[1..], t);
    }
  }

  lemma DropFacts(s: State, e: ExecId)
    requires InTask(s, e)
    ensures var s', t := Dropped(s, e), s.execs.held[e];
      && s'.sched == Release(Release(s.sched, t), t) && LiveOf(s') == LiveOf(s)
      && At(s', e, AtReady) && e !in s'.execs.held && e !in s'.execs.ctx
  {}

  lemma FinishTo(s: State, s2: State, s3: State, e: ExecId, news: seq<NewTask>)
    requires Fresh(s, e) && OnlySpawned(Started(s, e), s2, news) && Ended(s2, s3, e)
    ensures ForwardedTo(s, Dropped(s3, e), e, Poll(Spawnings(news), true))
  {
    StartedFacts(s, e);
    DropFacts(s3, e);
    assert LiveOf(s3) == LiveOf(s2) - {s.execs.held[e]};
  }

  /** A poll that spawns, and then wakes itself and returns Pending, or returns Ready. */
  lemma ForwardIsRun(s: State, e: ExecId, news: seq<NewTask>, end: End) returns (run: seq<Step>)
    requires Fresh(s, e) && CanSpawnAll(Started(s, e), news) && CanSendJoin(s, e)
    ensures Possible(s, run)
    ensures ForwardedTo(s, After(s, run), e, Poll(Spawnings(news) + EndOf(s.execs.held[e], end), end.Finishes?))
  {
    run := RunToSpawned(s, e, news);
    var s2 := After(s, run);
    var rest;
    StartedFacts(s, e);
    if end.Yields? {
      YieldTo(s, s2, e, news);
      rest := EndYield(s2, e);
    } else {
      rest := EndFinish(s2, e, end.v);
      var s3 :| Ended(s2, s3, e) && After(s2, rest) == Dropped(s3, e);
      FinishTo(s, s2, s3, e, news);
      assert Spawnings(news) + [] == Spawnings(news);
    }
    RunsJoin(s, run, rest);
    run := run + rest;
  }
}
