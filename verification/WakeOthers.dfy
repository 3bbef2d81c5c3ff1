/** Senders, the reactor, the pool and other threads keep the promise that no wake-up is lost. */
module WakeOthers {
  import opened Types
  import opened Scheduler
  import opened TokenTable
  import opened Runtime
  import opened References
  import opened Wakeups
  import opened WakeSteps

  lemma WakesSpawn(s: State, t: TaskId, tag: Tag)
    requires Awake(s) && CanSpawn(s, t, tag)
    ensures AllWake(DoSpawn(s, t, tag))
  {
    var c := s.sched.(strong := s.sched.strong[t := 1]);
    var s' := DoSpawn(s, t, tag);
    RegisterKeys(c, t);
    RegisterQueues(c, s.execs, t, t);
    forall u | u in s.tasks
      ensures TaskWakes(s'.sched, s'.execs, s'.react, s'.net, s'.pool.closures, u, s'.tasks[u])
    {
      assert TaskWakes(s.sched, s.execs, s.react, s.net, s.pool.closures, u, s.tasks[u]);
      if Queued(s.sched, s.execs, u) {
        RegisterQueues(c, s.execs, t, u);
      }
    }
  }

  /** The scheduler's queues and the executors did not change, so no copy was lost. */
  lemma WakesQuiet(s: State, s': State)
    requires AllWake(s) && s'.tasks == s.tasks && s'.execs == s.execs
    requires s'.sched == s.sched.(dead := s'.sched.dead) && s.sched.dead <= s'.sched.dead
    requires forall t, k | t in s.tasks && 0 <= k < |s.tasks[t].stack| :: KeepsWait(s, s', t, s.tasks[t].stack[k])
    ensures AllWake(s')
  {
    WakesAround(s, s');
  }

  lemma WakesSendCount(s: State, a: Sender)
    requires Awake(s) && CanAdvance(s, a) && s.net.sends[a].Enqueued?
    ensures AllWake(DoSendCount(s, a))
  {
    var s' := DoSendCount(s, a);
    assert s'.net.sends[a] == Counted(s.net.sends[a].tag);
    forall tag | Counting(s.net.sends, tag) ensures Counting(s'.net.sends, tag) {
      var x :| x in s.net.sends && s.net.sends[x] == Counted(tag);
      assert s'.net.sends[x] == Counted(tag);
    }
    WakesQuiet(s, s');
  }

  lemma WakesSendTag(s: State, a: Sender)
    requires Awake(s) && CanAdvance(s, a) && s.net.sends[a].Counted?
    ensures AllWake(DoSendTag(s, a))
  {
    var s' := DoSendTag(s, a);
    forall tag | Announced(s.react, s.net.sends, tag) ensures Announced(s'.react, s'.net.sends, tag) {
      if Counting(s.net.sends, tag) {
        var x :| x in s.net.sends && s.net.sends[x] == Counted(tag);
        assert x != a ==> s'.net.sends[x] == Counted(tag);
      }
    }
    WakesQuiet(s, s');
  }

  lemma WakesSendWake(s: State, a: Sender)
    requires Awake(s) && CanAdvance(s, a) && s.net.sends[a].Tagged?
    ensures AllWake(DoSendWake(s, a))
  {
    var s' := DoSendWake(s, a);
    forall tag | Counting(s.net.sends, tag) ensures Counting(s'.net.sends, tag) {
      var x :| x in s.net.sends && s.net.sends[x] == Counted(tag);
      assert s'.net.sends[x] == Counted(tag);
    }
    WakesQuiet(s, s');
  }

  lemma WakesSending(s: State, w: Other)
    requires Awake(s) && CanHappen(s, w) && (w.SendEnqueue? || w.SendCount? || w.SendTag? || w.SendWake?)
    ensures AllWake(Happen(s, w))
  {
    match w
    case SendEnqueue(n, tag, v) =>
      EnqueueKeepsWaits(s, Happen(s, w), ThreadSender(n), tag, v);
      WakesQuiet(s, Happen(s, w));
    case SendCount(a) => WakesSendCount(s, a);
    case SendTag(a) => WakesSendTag(s, a);
    case SendWake(a) => WakesSendWake(s, a);
  }

  lemma WakesMaking(s: State, w: Other)
    requires Awake(s) && CanHappen(s, w)
    requires w.Abort? || w.NewChannel? || w.DropReceiver? || w.NewToken? || w.StrayTag?
    ensures AllWake(Happen(s, w))
  {
    WakesQuiet(s, Happen(s, w));
  }

  /** Nobody waits for an aborted task to wake. */
  lemma WakesFree(s: State, t: TaskId)
    requires AllWake(s) && CanFree(s, t)
    ensures AllWake(DoFree(s, t))
  {
    var s' := DoFree(s, t);
    forall u | u in s.tasks && u != t
      ensures TaskWakes(s'.sched, s'.execs, s'.react, s'.net, s'.pool.closures, u, s'.tasks[u])
    {
      assert TaskWakes(s.sched, s.execs, s.react, s.net, s.pool.closures, u, s.tasks[u]);
    }
  }

  lemma WakesDrainPop(s: State)
    requires Awake(s) && s.react.loop.Draining?
    ensures AllWake(DoDrainPop(s))
  {
    WakesQuiet(s, DoDrainPop(s));
  }

  lemma WakesCollect(s: State, events: seq<Event>)
    requires Awake(s) && CanCollect(s, events)
    ensures AllWake(DoCollect(s, events))
  {
    WakesQuiet(s, DoCollect(s, events));
  }

  lemma WakesRunClosure(s: State, id: OffId, v: Value)
    requires Awake(s) && id in s.pool.offs
    ensures AllWake(DoRunClosure(s, id, v))
  {
    WakesQuiet(s, DoRunClosure(s, id, v));
  }

  /** A wake-up of u keeps every other wait, and u itself gets a copy unless it was aborted. */
  lemma WakesWaking(s: State, s': State, u: TaskId)
    requires AllWake(s) && s'.tasks == s.tasks && s'.execs == s.execs
    requires s'.sched == Register(s.sched, u) || s'.sched == WakeByRef(s.sched, u)
    requires forall t, k | t in s.tasks && t != u && 0 <= k < |s.tasks[t].stack| ::
        KeepsWait(s, s', t, s.tasks[t].stack[k])
    ensures AllWake(s')
  {
    RegisterKeys(s.sched, u);
    forall t | Queued(s.sched, s.execs, t) || (t == u && u !in s.sched.dead)
      ensures Queued(s'.sched, s'.execs, t)
    {
      RegisterQueues(s.sched, s.execs, u, t);
      WakeQueues(s.sched, s.execs, u, t);
    }
    WakesAround(s, s');
  }

  /** An event on a token ends no wait but that of its waker. */
  lemma EventKeepsWait(s: State, tok: Token, s': State, t: TaskId, leaf: Leaf)
    requires !(tok in s.react.table && s.react.table[tok] == Awaited(t))
    requires s'.react.table == EventTable(s.react.table, tok) && s'.react.tags == s.react.tags
    requires s'.react.ring == s.react.ring && s'.react.loop == s.react.loop && s'.net == s.net && s'.pool == s.pool
    ensures KeepsWait(s, s', t, leaf)
  {}

  lemma WakesTokenEvent(s: State)
    requires Awake(s) && s.react.batch != [] && s.react.batch[0].TokenEvent?
    ensures AllWake(DoHandle(s))
  {
    var tok := s.react.batch[0].tok;
    forall t, k | t in s.tasks && 0 <= k < |s.tasks[t].stack|
                  && !(tok in s.react.table && s.react.table[tok] == Awaited(t))
      ensures KeepsWait(s, DoHandle(s), t, s.tasks[t].stack[k])
    {
      EventKeepsWait(s, tok, DoHandle(s), t, s.tasks[t].stack[k]);
    }
    if tok in s.react.table && s.react.table[tok].Awaited? {
      WakesWaking(s, DoHandle(s), s.react.table[tok].waker);
    } else {
      WakesQuiet(s, DoHandle(s));
    }
  }

  lemma WakesWakerEvent(s: State)
    requires Awake(s) && s.react.loop.Handling? && s.react.batch != [] && s.react.batch[0].WakerEvent?
    ensures AllWake(DoHandle(s))
  {
    WakesQuiet(s, DoHandle(s));
  }

  lemma WakesLookup(s: State)
    requires Awake(s) && s.react.loop.Lookup?
    ensures AllWake(DoLookup(s))
  {
    var tag := s.react.loop.tag;
    if tag in s.react.tags {
      WakesWaking(s, DoLookup(s), s.react.tags[tag]);
    } else {
      WakesQuiet(s, DoLookup(s));
    }
  }

  lemma WakesOther(s: State, w: Other)
    requires Awake(s) && CanHappen(s, w)
    ensures AllWake(Happen(s, w))
  {
    match w
    case Spawn(t, tag) => WakesSpawn(s, t, tag);
    case SendEnqueue(_, _, _) | SendCount(_) | SendTag(_) | SendWake(_) => WakesSending(s, w);
    case Abort(_) | NewChannel(_, _) | DropReceiver(_) | NewToken(_) | StrayTag(_) => WakesMaking(s, w);
    case Free(t) => WakesFree(s, t);
    case Collect(events) => WakesCollect(s, events);
    case DrainPop => WakesDrainPop(s);
    case RunClosure(id, v) => WakesRunClosure(s, id, v);
    case HandleEvent =>
      if s.react.batch[0].TokenEvent? {
        WakesTokenEvent(s);
      } else {
        WakesWakerEvent(s);
      }
    case LookupTag => WakesLookup(s);
    case WakeClosure(id) => WakesWaking(s, Happen(s, w), s.pool.closures[id]);
  }
}
