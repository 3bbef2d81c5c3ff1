/** Channels deliver in order and their counters agree; join channels carry one output; offloads run once. */
module Flows {
  import opened Types
  import opened Channel
  import opened Runtime
  import opened Structure

  /** Every channel is in order, with as many uncounted values as senders between enqueue and count. */
  ghost predicate Flowing(n: Net) {
    && (forall tag | tag in n.chans :: Ordered(n.chans[tag], Occ(n.sends, Enqueued(tag))))
    && (forall a | a in n.sends :: n.sends[a].tag in n.chans)
  }

  lemma FlowingPoll(n: Net, tag: Tag)
    requires Flowing(n) && tag in n.chans
    ensures Flowing(n.(chans := n.chans[tag := PollChan(n.chans[tag])])) && !PollResult(n.chans[tag]).Failed?
  {
    PollKeepsOrder(n.chans[tag], Occ(n.sends, Enqueued(tag)));
  }

  lemma FlowingEnqueue(n: Net, a: Sender, tag: Tag, v: Value)
    requires Flowing(n) && tag in n.chans && a !in n.sends
    ensures Flowing(n.(chans := n.chans[tag := Enqueue(n.chans[tag], v)], sends := n.sends[a := Enqueued(tag)]))
  {
    forall other | other in n.chans
      ensures Occ(n.sends[a := Enqueued(tag)], Enqueued(other))
           == Occ(n.sends, Enqueued(other)) + (if other == tag then 1 else 0)
    {
      OccUpdate(n.sends, a, Enqueued(tag), Enqueued(other));
    }
    EnqueueKeepsOrder(n.chans[tag], v, Occ(n.sends, Enqueued(tag)));
  }

  lemma FlowingCount(n: Net, a: Sender)
    requires Flowing(n) && a in n.sends && n.sends[a].Enqueued?
    ensures var tag := n.sends[a].tag;
      Flowing(n.(chans := n.chans[tag := CountOne(n.chans[tag])], sends := n.sends[a := Counted(tag)]))
  {
    var tag := n.sends[a].tag;
    forall other | other in n.chans
      ensures Occ(n.sends[a := Counted(tag)], Enqueued(other))
           == Occ(n.sends, Enqueued(other)) - (if other == tag then 1 else 0)
    {
      OccUpdate(n.sends, a, Counted(tag), Enqueued(other));
    }
  }

  lemma FlowingTag(n: Net, a: Sender)
    requires Flowing(n) && a in n.sends && !n.sends[a].Enqueued?
    ensures Flowing(n.(sends := n.sends[a := Tagged(n.sends[a].tag)])) && Flowing(n.(sends := n.sends - {a}))
  {
    forall tag | tag in n.chans
      ensures Occ(n.sends[a := Tagged(n.sends[a].tag)], Enqueued(tag))
           == Occ(n.sends, Enqueued(tag)) == Occ(n.sends - {a}, Enqueued(tag))
    {
      OccUpdate(n.sends, a, Tagged(n.sends[a].tag), Enqueued(tag));
      OccRemove(n.sends, a, Enqueued(tag));
    }
  }

  lemma FlowingNew(n: Net, tag: Tag, cap: nat)
    requires Flowing(n) && tag !in n.chans
    ensures Flowing(n.(chans := n.chans[tag := NewChan(cap)]))
  {
    OccZero(n.sends, Enqueued(tag));
  }

  // ---------------------------------------------------------------- join channels

  /** Nothing was sent on the join channel, or exactly the output of the task's wrapped future. */
  predicate JoinValue(ch: Chan, output: Option<Value>) {
    ch.cap == 1 && (ch.sent == [] || (output.Some? && ch.sent == [output.value]))
  }

  /** The output was sent, unless the JoinHandle is gone. */
  predicate Delivered(n: Net, tag: Tag) {
    tag in n.closed || (tag in n.chans && n.chans[tag].sent != [])
  }

  ghost predicate Joined(n: Net, x: Execs, tasks: map<TaskId, Body>) {
    && (forall t | t in tasks ::
          && tasks[t].join in n.chans && JoinValue(n.chans[tasks[t].join], tasks[t].output)
          && tasks[t].join in n.joins && n.joins[tasks[t].join] == t
          && (!tasks[t].live ==> Delivered(n, tasks[t].join)))
    && (forall e | e in x.phase && x.phase[e] == Sending(false) && e in x.held && x.held[e] in tasks ::
          tasks[x.held[e]].join in n.chans && n.chans[tasks[x.held[e]].join].sent == [])
    && (forall e | e in x.phase && x.phase[e] == Sending(true) && e in x.held && x.held[e] in tasks ::
          Delivered(n, tasks[x.held[e]].join))
    && (forall e | ExecSender(e) in n.sends :: e in x.phase && x.phase[e] == Sending(true))
  }

  /** A step that keeps the join channels' histories, the joins and the senders among the executors. */
  lemma JoinedAround(n: Net, n': Net, x: Execs, tasks: map<TaskId, Body>)
    requires Joined(n, x, tasks) && n.joins == n'.joins && n.closed <= n'.closed
    requires forall tag | tag in n.chans :: tag in n'.chans && n'.chans[tag].cap == n.chans[tag].cap
               && (tag in n.joins ==> n'.chans[tag].sent == n.chans[tag].sent)
    requires forall e | ExecSender(e) in n'.sends :: ExecSender(e) in n.sends
    ensures Joined(n', x, tasks)
  {}

  lemma JoinedPoll(n: Net, x: Execs, tasks: map<TaskId, Body>, tag: Tag)
    requires Joined(n, x, tasks) && tag in n.chans
    ensures Joined(n.(chans := n.chans[tag := PollChan(n.chans[tag])]), x, tasks)
  {
    JoinedAround(n, n.(chans := n.chans[tag := PollChan(n.chans[tag])]), x, tasks);
  }

  lemma JoinedFree(n: Net, x: Execs, tasks: map<TaskId, Body>, t: TaskId, b: Body)
    requires Joined(n, x, tasks) && t in tasks
    requires b.join == tasks[t].join && b.output == tasks[t].output && b.live == tasks[t].live
    ensures Joined(n, x, tasks[t := b])
  {}

  /** A step of e to a phase that does not send, and that leaves its task's output and join channel alone. */
  lemma JoinedMove(n: Net, x: Execs, tasks: map<TaskId, Body>, e: ExecId, p: Phase, b: Body)
    requires Joined(n, x, tasks) && Locked(x, tasks) && e in x.phase && e in x.held && x.held[e] in tasks
    requires b.join == tasks[x.held[e]].join && b.output == tasks[x.held[e]].output
    requires !b.live ==> !tasks[x.held[e]].live || x.phase[e] == Sending(true)
    requires p == Sending(true) ==> x.phase[e] == Sending(true) || Delivered(n, b.join)
    requires p != Sending(false) && (x.phase[e] == Sending(true) && p != Sending(true) ==> ExecSender(e) !in n.sends)
    ensures Joined(n, x.(phase := x.phase[e := p]), tasks[x.held[e] := b])
  {}

  /** The same with the body unchanged. */
  lemma JoinedStay(n: Net, x: Execs, tasks: map<TaskId, Body>, e: ExecId, p: Phase)
    requires Joined(n, x, tasks) && e in x.phase && e in x.held && x.held[e] in tasks
    requires p != Sending(false) && x.phase[e] != Sending(true)
    requires p == Sending(true) ==> Delivered(n, tasks[x.held[e]].join)
    ensures Joined(n, x.(phase := x.phase[e := p]), tasks)
  {}

  lemma JoinedPhase(n: Net, x: Execs, x': Execs, tasks: map<TaskId, Body>, e: ExecId)
    requires Joined(n, x, tasks) && e in x.phase && e in x'.phase && !x.phase[e].Sending? && !x'.phase[e].Sending?
    requires x'.phase == x.phase[e := x'.phase[e]]
    requires forall f | f in x'.held && f != e :: f in x.held && x.held[f] == x'.held[f]
    ensures Joined(n, x', tasks)
  {}

  lemma JoinedLock(n: Net, x: Execs, tasks: map<TaskId, Body>, e: ExecId, p: Phase, b: Body)
    requires Joined(n, x, tasks) && e in x.phase && e in x.held && x.held[e] in tasks
    requires x.phase[e].Holding? && !p.Sending?
    requires b.join == tasks[x.held[e]].join && b.output == tasks[x.held[e]].output && b.live == tasks[x.held[e]].live
    ensures Joined(n, x.(ctx := x.ctx[e := x.held[e]], phase := x.phase[e := p]), tasks[x.held[e] := b])
  {}

  lemma JoinedFinish(n: Net, x: Execs, tasks: map<TaskId, Body>, e: ExecId, b: Body)
    requires Joined(n, x, tasks) && Locked(x, tasks) && e in x.phase && e in x.held && x.held[e] in tasks
    requires x.phase[e].Running? && tasks[x.held[e]].output.None? && b.join == tasks[x.held[e]].join && b.live
    ensures Joined(n, x.(phase := x.phase[e := Sending(false)]), tasks[x.held[e] := b])
  {}

  /** A finished task's send to its join channel: the channel is still empty, and gets exactly its output. */
  lemma JoinedSend(n: Net, x: Execs, tasks: map<TaskId, Body>, e: ExecId)
    requires Joined(n, x, tasks) && Locked(x, tasks) && e in x.phase && e in x.held && x.held[e] in tasks
    requires x.phase[e] == Sending(false)
    ensures var b := tasks[x.held[e]];
      && b.output.Some? && n.chans[b.join].sent == [] && ExecSender(e) !in n.sends
      && Joined(n.(chans := n.chans[b.join := Enqueue(n.chans[b.join], b.output.value)],
                   sends := n.sends[ExecSender(e) := Enqueued(b.join)]),
                x.(phase := x.phase[e := Sending(true)]), tasks)
  {}

  lemma JoinedSpawn(n: Net, x: Execs, tasks: map<TaskId, Body>, t: TaskId, b: Body)
    requires Joined(n, x, tasks) && t !in tasks && b.join !in n.chans && b.live
    requires forall e | e in x.held :: x.held[e] in tasks
    ensures Joined(n.(chans := n.chans[b.join := NewChan(1)], joins := n.joins[b.join := t]), x, tasks[t := b])
  {}

  // ---------------------------------------------------------------- offloaded operations

  /** A closure is queued until it runs, runs once, and its result is either stored or was returned. */
  predicate OffOk(o: Offload, queued: nat, armed: bool) {
    && queued == (if o.computed.None? then 1 else 0)
    && o.runs == 1 - queued
    && (o.computed.None? ==> armed && o.slot.None? && o.resolved.None?)
    && (o.computed.Some? ==> (o.slot == o.computed && o.resolved.None?) || (o.slot.None? && o.resolved == o.computed))
  }

  ghost predicate OffsOk(p: Pool) {
    && p.closures.Keys <= p.offs.Keys
    && (forall id | id in p.offs :: OffOk(p.offs[id], p.jobs[id], id in p.closures))
    && (forall id | id !in p.offs :: p.jobs[id] == 0)
  }

  lemma OffsTake(p: Pool, id: OffId)
    requires OffsOk(p) && id in p.offs
    ensures OffsOk(TakeSlot(p, id))
  {}

  lemma OffsSubmit(p: Pool, id: OffId, t: TaskId)
    requires OffsOk(p) && id !in p.offs
    ensures OffsOk(Pool(p.closures[id := t], p.jobs + multiset{id}, p.offs[id := Offload(None, None, None, 0)]))
  {}

  lemma OffsRun(p: Pool, id: OffId, o: Offload, v: Value)
    requires OffsOk(p) && p.jobs[id] > 0 && id in p.offs && o == p.offs[id]
    ensures OffsOk(p.(jobs := p.jobs - multiset{id}, offs := p.offs[id := StoreResult(o, v)]))
  {}

  lemma OffsWake(p: Pool, id: OffId)
    requires OffsOk(p) && id in p.closures && p.jobs[id] == 0
    ensures OffsOk(p.(closures := p.closures - {id}))
  {}
}
