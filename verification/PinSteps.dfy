/**
  Every step keeps timers and offloaded operations tied to the task that awaits them, and no tag is left in
  the ring unannounced.
 */
module PinSteps {
  import opened Types
  import opened Runtime
  import opened Structure
  import opened Wakeups
  import opened ShapeSteps
  import opened WakeSteps

  ghost predicate Pins(s: State) {
    AllPinned(s.react, s.pool, s.tasks)
  }

  ghost predicate KeepsPin(s: State, s': State, t: TaskId, leaf: Leaf) {
    Pinned(s.react, s.pool, t, leaf) ==> Pinned(s'.react, s'.pool, t, leaf)
  }

  lemma PinsAround(s: State, s': State)
    requires Pins(s) && s'.tasks.Keys == s.tasks.Keys
    requires forall t | t in s.tasks :: s'.tasks[t].stack == s.tasks[t].stack
    requires forall t, k | t in s.tasks && 0 <= k < |s.tasks[t].stack| :: KeepsPin(s, s', t, s.tasks[t].stack[k])
    ensures Pins(s')
  {
    forall t, k | t in s.tasks && 0 <= k < |s.tasks[t].stack|
      ensures Pinned(s'.react, s'.pool, t, s.tasks[t].stack[k])
    {
      assert KeepsPin(s, s', t, s.tasks[t].stack[k]);
    }
  }

  lemma PinsShrink(s: State, s': State, t: TaskId, b: Body)
    requires Pins(s) && t in s.tasks && s'.tasks == s.tasks[t := b]
    requires |b.stack| <= |s.tasks[t].stack| && b.stack == s.tasks[t].stack[..|b.stack|]
    requires forall u, k | u in s.tasks && 0 <= k < |s.tasks[u].stack| && (u == t ==> k < |b.stack|) ::
               KeepsPin(s, s', u, s.tasks[u].stack[k])
    ensures Pins(s')
  {
    forall u, k | u in s'.tasks && 0 <= k < |s'.tasks[u].stack|
      ensures Pinned(s'.react, s'.pool, u, s'.tasks[u].stack[k])
    {
      assert KeepsPin(s, s', u, s.tasks[u].stack[k]);
    }
  }

  lemma PinsPush(s: State, s': State, t: TaskId, b: Body, leaf: Leaf)
    requires Pins(s) && t in s.tasks && s'.tasks == s.tasks[t := b] && b.stack == s.tasks[t].stack + [leaf]
    requires Pinned(s'.react, s'.pool, t, leaf)
    requires forall u, k | u in s.tasks && 0 <= k < |s.tasks[u].stack| :: KeepsPin(s, s', u, s.tasks[u].stack[k])
    ensures Pins(s')
  {
    forall u, k | u in s'.tasks && 0 <= k < |s'.tasks[u].stack|
      ensures Pinned(s'.react, s'.pool, u, s'.tasks[u].stack[k])
    {
      assert u != t || k < |s.tasks[t].stack| ==> KeepsPin(s, s', u, s.tasks[u].stack[k]);
    }
  }

  /** Polling one leaf unpins no other. */
  lemma EffectKeepsPin(s: State, leaf: Leaf, t: TaskId, r: State, u: TaskId, other: Leaf)
    requires LeafOk(s.react.kinds, s.net, s.pool.offs, leaf) && LeafOk(s.react.kinds, s.net, s.pool.offs, other)
    requires other != leaf || !Exclusive(leaf)
    requires r.react == PollEffect(s, leaf, t).react && r.pool == PollEffect(s, leaf, t).pool
    ensures KeepsPin(s, r, u, other)
  {}

  lemma PinsRepoll(s: State, e: ExecId)
    requires Shape(s) && Pins(s) && CanRepoll(s, e)
    ensures Pins(DoRepoll(s, e))
  {
    var t := s.execs.held[e];
    var i := s.execs.phase[e].at;
    var b := s.tasks[t];
    var s' := DoRepoll(s, e);
    EffectFrame(s, b.stack[i], t);
    NobodyElse(s, t, i);
    forall u, k | u in s.tasks && 0 <= k < |s.tasks[u].stack|
                  && (s.tasks[u].stack[k] != b.stack[i] || !Exclusive(b.stack[i]))
      ensures KeepsPin(s, s', u, s.tasks[u].stack[k])
    {
      EffectKeepsPin(s, b.stack[i], t, s', u, s.tasks[u].stack[k]);
    }
    if LeafReady(s, b.stack[i]) {
      PinsShrink(s, s', t, b.(stack := b.stack[..i]));
    } else {
      PinsAround(s, s');
    }
  }

  lemma PinsAwait(s: State, e: ExecId, leaf: Leaf)
    requires Shape(s) && Pins(s) && CanAwait(s, e, leaf)
    ensures Pins(DoAwait(s, e, leaf))
  {
    var t := s.execs.held[e];
    var s' := DoAwait(s, e, leaf);
    EffectFrame(s, leaf, t);
    forall u, k | u in s.tasks && 0 <= k < |s.tasks[u].stack| ensures KeepsPin(s, s', u, s.tasks[u].stack[k]) {
      EffectKeepsPin(s, leaf, t, s', u, s.tasks[u].stack[k]);
    }
    if LeafReady(s, leaf) {
      PinsAround(s, s');
    } else {
      PinsPush(s, s', t, s'.tasks[t], leaf);
    }
  }

  lemma PinsSleep(s: State, e: ExecId, tok: Token, p: Phase)
    requires Shape(s) && Pins(s) && CanRun(s, e) && tok !in s.react.kinds
    ensures Pins(DoSleep(s, e, tok, p))
  {
    var t := s.execs.held[e];
    var s' := DoSleep(s, e, tok, p);
    forall u, k | u in s.tasks && 0 <= k < |s.tasks[u].stack| ensures KeepsPin(s, s', u, s.tasks[u].stack[k]) {
      assert LeafOk(s.react.kinds, s.net, s.pool.offs, s.tasks[u].stack[k]);
    }
    PinsPush(s, s', t, s'.tasks[t], SleepLeaf(tok));
  }

  lemma PinsOffload(s: State, e: ExecId, id: OffId)
    requires Shape(s) && Pins(s) && CanRun(s, e) && id !in s.pool.offs
    ensures Pins(DoOffload(s, e, id))
  {
    var t := s.execs.held[e];
    var s' := DoOffload(s, e, id);
    forall u, k | u in s.tasks && 0 <= k < |s.tasks[u].stack| ensures KeepsPin(s, s', u, s.tasks[u].stack[k]) {
      assert LeafOk(s.react.kinds, s.net, s.pool.offs, s.tasks[u].stack[k]);
    }
    PinsPush(s, s', t, s'.tasks[t], OffloadLeaf(id));
  }

  lemma PinsRest(s: State, e: ExecId, act: Action)
    requires Pins(s) && CanAct(s, e, act)
    requires act.Take? || act.DropTask? || act.Ready? || act.JoinSend? || act.JoinFail?
    ensures Pins(Act(s, e, act))
  {}

  lemma PinsBody(s: State, e: ExecId, act: Action)
    requires Pins(s) && CanAct(s, e, act)
    requires act.Lock? || act.LeaveTimeout? || act.Finish? || act.JoinDone? || act.Unlock?
    ensures Pins(Act(s, e, act))
  {
    PinsShrink(s, Act(s, e, act), s.execs.held[e], Act(s, e, act).tasks[s.execs.held[e]]);
  }

  lemma PinsAct(s: State, e: ExecId, act: Action)
    requires Shape(s) && Pins(s) && CanAct(s, e, act)
    ensures Pins(Act(s, e, act))
  {
    match act
    case RepollLeaf => PinsRepoll(s, e);
    case EnterTimeout(tok) => PinsSleep(s, e, tok, Running);
    case PollSleep(tok) => PinsSleep(s, e, tok, Returning);
    case AwaitLeaf(leaf) => PinsAwait(s, e, leaf);
    case PollOffload(id) => PinsOffload(s, e, id);
    case Yield => PinsPush(s, DoYield(s, e), s.execs.held[e], DoYield(s, e).tasks[s.execs.held[e]], Runnable);
    case Lock | LeaveTimeout | Finish(_) | JoinDone | Unlock => PinsBody(s, e, act);
    case Take | DropTask | Ready | JoinSend | JoinFail => PinsRest(s, e, act);
  }

  lemma PinsReactor(s: State, w: Other)
    requires Pins(s) && CanHappen(s, w) && (w.HandleEvent? || w.RunClosure? || w.WakeClosure?)
    ensures Pins(Happen(s, w))
  {
    PinsAround(s, Happen(s, w));
  }

  lemma PinsOther(s: State, w: Other)
    requires Pins(s) && CanHappen(s, w)
    ensures Pins(Happen(s, w))
  {
    if w.HandleEvent? || w.RunClosure? || w.WakeClosure? {
      PinsReactor(s, w);
    } else if w.Spawn? {
      assert s.tasks.Keys <= Happen(s, w).tasks.Keys;
    }
  }

  // ---------------------------------------------------------------- tags in the ring

  ghost predicate Owed(s: State) {
    RingOwed(s.react, s.net)
  }

  lemma OwedAct(s: State, e: ExecId, act: Action)
    requires Owed(s) && CanAct(s, e, act) && (act.JoinSend? ==> ExecSender(e) !in s.net.sends)
    ensures Owed(Act(s, e, act))
  {
    var s' := Act(s, e, act);
    if act.JoinSend? {
      KeepsTagged(s.net.sends, s'.net.sends);
    } else {
      ActKeepsRing(s, e, act);
    }
  }

  /** The ring, the loop, the senders and the set of channels are as they were. */
  predicate SameRing(s: State, s': State) {
    && s'.react.ring == s.react.ring && s'.react.mio == s.react.mio && s'.react.loop == s.react.loop
    && s'.react.batch == s.react.batch && s'.net.sends == s.net.sends && s'.net.chans.Keys == s.net.chans.Keys
  }

  lemma EffectKeepsRing(s: State, leaf: Leaf, t: TaskId)
    ensures SameRing(s, PollEffect(s, leaf, t))
  {}

  lemma ActKeepsRing(s: State, e: ExecId, act: Action)
    requires CanAct(s, e, act) && !act.JoinSend?
    ensures SameRing(s, Act(s, e, act))
  {
    match act
    case RepollLeaf => EffectKeepsRing(s, s.tasks[s.execs.held[e]].stack[s.execs.phase[e].at], s.execs.held[e]);
    case AwaitLeaf(leaf) => EffectKeepsRing(s, leaf, s.execs.held[e]);
    case _ =>
  }

  lemma KeepsTagged(sends: map<Sender, SendStage>, sends': map<Sender, SendStage>)
    requires forall a | a in sends && sends[a].Tagged? :: a in sends' && sends'[a].Tagged?
    ensures (exists a :: a in sends && sends[a].Tagged?) ==> exists a :: a in sends' && sends'[a].Tagged?
  {}

  lemma OwedSending(s: State, w: Other)
    requires Owed(s) && CanHappen(s, w) && (w.SendEnqueue? || w.SendCount? || w.SendTag? || w.SendWake?)
    ensures Owed(Happen(s, w))
  {
    var s' := Happen(s, w);
    if w.SendTag? {
      assert s'.net.sends[w.a].Tagged?;
    } else if !w.SendWake? {
      KeepsTagged(s.net.sends, s'.net.sends);
    }
  }

  lemma OwedLoop(s: State, w: Other)
    requires Owed(s) && CanHappen(s, w) && (w.Collect? || w.HandleEvent? || w.DrainPop? || w.LookupTag?)
    ensures Owed(Happen(s, w))
  {}

  lemma OwedOther(s: State, w: Other)
    requires Owed(s) && CanHappen(s, w)
    ensures Owed(Happen(s, w))
  {
    if w.SendEnqueue? || w.SendCount? || w.SendTag? || w.SendWake? {
      OwedSending(s, w);
    } else if w.Collect? || w.HandleEvent? || w.DrainPop? || w.LookupTag? {
      OwedLoop(s, w);
    } else {
      OwedMaking(s, w);
    }
  }

  lemma OwedMaking(s: State, w: Other)
    requires Owed(s) && CanHappen(s, w)
    requires !w.SendEnqueue? && !w.SendCount? && !w.SendTag? && !w.SendWake?
    requires !w.Collect? && !w.HandleEvent? && !w.DrainPop? && !w.LookupTag?
    ensures Owed(Happen(s, w))
  {}
}
