/** No executor is ever stuck: it idles, can step, or waits for a future's mutex whose holder can step. */
module Progress {
  import opened Types
  import opened Scheduler
  import opened Runtime
  import opened Structure
  import opened Flows
  import opened Runs
  import opened Invariants
  import opened Theorems

  /** A step of e, or of the send e is in the middle of. */
  ghost predicate CanStep(s: State, e: ExecId) {
    || (exists act :: CanAct(s, e, act))
    || (exists w :: CanHappen(s, w) && BySender(ByOther(w)) && w.a == ExecSender(e))
  }

  /** e waits for its inbox, which is empty, in the idle ring. */
  predicate Idles(s: State, e: ExecId) {
    e in s.execs.phase && s.execs.phase[e].AtRecv? && e in s.sched.idle && e in s.sched.inbox && s.sched.inbox[e] == []
  }

  /** e holds a task whose future another executor, which can step, has locked. */
  ghost predicate WaitsFor(s: State, e: ExecId, f: ExecId) {
    && InTask(s, e) && At(s, e, Holding) && s.tasks[s.execs.held[e]].lock == Some(f) && f != e
    && f in s.execs.phase && InPoll(s.execs.phase[f]) && CanStep(s, f)
  }

  lemma InPollSteps(s: State, e: ExecId)
    requires Locked(s.execs, s.tasks) && Joined(s.net, s.execs, s.tasks) && Flowing(s.net)
    requires e in s.execs.phase && InPoll(s.execs.phase[e])
    ensures CanStep(s, e)
  {
    assert PollOk(s.execs.phase[e], s.tasks[s.execs.held[e]]);
    match s.execs.phase[e]
    case Repoll(_) => assert CanAct(s, e, RepollLeaf);
    case Running => assert CanAct(s, e, Yield);
    case Sending(begun) => SendingSteps(s, e, begun);
    case Returning => assert CanAct(s, e, Unlock);
  }

  lemma SendingSteps(s: State, e: ExecId, begun: bool)
    requires Locked(s.execs, s.tasks) && Joined(s.net, s.execs, s.tasks) && Flowing(s.net) && At(s, e, Sending(begun))
    ensures CanStep(s, e)
  {
    assert PollOk(s.execs.phase[e], s.tasks[s.execs.held[e]]);
    var a := ExecSender(e);
    if !begun {
      JoinIsEmpty(s, e);
      assert CanAct(s, e, JoinSend) || CanAct(s, e, JoinFail);
    } else if a !in s.net.sends {
      assert CanAct(s, e, JoinDone);
    } else {
      SenderSteps(s, a);
    }
  }

  /** Whoever has enqueued can go on to count, to push the tag and to wake the reactor. */
  lemma SenderSteps(s: State, a: Sender)
    requires Flowing(s.net) && a in s.net.sends
    ensures exists w :: CanHappen(s, w) && BySender(ByOther(w)) && w.a == a
  {
    match s.net.sends[a]
    case Enqueued(_) => assert CanHappen(s, SendCount(a)) && BySender(ByOther(SendCount(a)));
    case Counted(_) => assert CanHappen(s, SendTag(a)) && BySender(ByOther(SendTag(a)));
    case Tagged(_) => assert CanHappen(s, SendWake(a)) && BySender(ByOther(SendWake(a)));
  }

  lemma OutsidePollSteps(s: State, e: ExecId)
    requires Inv(s) && e in s.execs.phase && !InPoll(s.execs.phase[e])
    ensures Idles(s, e) || CanStep(s, e) || (At(s, e, Holding) && InTask(s, e) && s.tasks[s.execs.held[e]].lock.Some?)
  {
    match s.execs.phase[e]
    case AtRecv => assert s.sched.inbox[e] != [] ==> CanAct(s, e, Take);
    case Holding => assert s.tasks[s.execs.held[e]].lock.None? ==> CanAct(s, e, Lock);
    case Polled => assert CanAct(s, e, DropTask);
    case AtReady => assert CanAct(s, e, Ready);
  }

  /** In every reachable state every executor idles, can step, or waits for one that can. */
  lemma NoDeadlock(s: State, e: ExecId)
    requires Reachable(s) && e in s.execs.phase
    ensures Idles(s, e) || CanStep(s, e) || exists f :: WaitsFor(s, e, f)
  {
    ReachableInv(s);
    if InPoll(s.execs.phase[e]) {
      InPollSteps(s, e);
    } else {
      OutsidePollSteps(s, e);
      if At(s, e, Holding) && InTask(s, e) && s.tasks[s.execs.held[e]].lock.Some? {
        var f := s.tasks[s.execs.held[e]].lock.value;
        assert LockOk(s.execs, s.execs.held[e], s.tasks[s.execs.held[e]].lock);
        InPollSteps(s, f);
        assert WaitsFor(s, e, f);
      }
    }
  }

  /** While a task waits in the ring no executor idles, so each can step or waits for one that can. */
  lemma WaitingKeepsBusy(s: State, e: ExecId)
    requires Reachable(s) && e in s.execs.phase && s.sched.waiting != []
    ensures CanStep(s, e) || exists f :: WaitsFor(s, e, f)
  {
    FifoDispatch(s);
    NoDeadlock(s, e);
  }
}
