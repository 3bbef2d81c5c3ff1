/** The executor in memory: polling one task, and the loop over its inbox. */
module Executors {
  import opened Types
  import opened Scheduler
  import opened TaskManagers
  import opened Spawners

  // ---------------------------------------------------------------- what a poll submits

  /** A poll may wake tasks by reference, its own among them, and spawn new ones. */
  datatype Submission = Woken(task: TaskId) | Spawned(task: TaskId)

  /** One poll of an abstract future: its submissions in order, and whether it returns Ready. */
  datatype Poll = Poll(submits: seq<Submission>, finishes: bool)

  function Submitted(c: Sched, sub: Submission): Sched {
    match sub
    case Woken(t) => WakeByRef(c, t)
    case Spawned(t) => Register(c.(strong := c.strong[t := 1]), t)
  }

  function Spawns(subs: seq<Submission>): set<TaskId>
    decreases |subs|
  {
    if subs == [] then {} else (if subs[0].Spawned? then {subs[0].task} else {}) + Spawns(subs[1..])
  }

  function SubmitAll(c: Sched, subs: seq<Submission>): Sched
    decreases |subs|
  {
    if subs == [] then c else SubmitAll(Submitted(c, subs[0]), subs[1..])
  }

  /** Woken tasks exist, spawned ones are new, and no submission meets a full task ring. */
  predicate CanSubmit(c: Sched, sub: Submission) {
    && (match sub
        case Woken(t) => t in c.strong
        case Spawned(t) => t !in c.strong && t !in c.dead)
    && RoomFor(c, sub.task)
  }

  predicate CanSubmitAll(c: Sched, subs: seq<Submission>)
    decreases |subs|
  {
    subs == [] || (CanSubmit(c, subs[0]) && CanSubmitAll(Submitted(c, subs[0]), subs[1..]))
  }

  /** The live submitted tasks that are left when n idle executors have taken the first ones. */
  function Kept(n: nat, dead: set<TaskId>, subs: seq<Submission>): seq<TaskId>
    decreases |subs|
  {
    if subs == [] then []
    else if subs[0].task in dead then Kept(n, dead, subs[1..])
    else if n > 0 then Kept(n - 1, dead, subs[1..])
    else [subs[0].task] + Kept(0, dead, subs[1..])
  }

  /** The idle executors left after that. */
  function Left(n: nat, dead: set<TaskId>, subs: seq<Submission>): nat
    decreases |subs|
  {
    if subs == [] then n
    else Left(if subs[0].task in dead || n == 0 then n else n - 1, dead, subs[1..])
  }

  lemma {:induction false} KeptJoin(n: nat, dead: set<TaskId>, a: seq<Submission>, b: seq<Submission>)
    ensures Kept(n, dead, a + b) == Kept(n, dead, a) + Kept(Left(n, dead, a), dead, b)
    ensures Left(n, dead, a + b) == Left(Left(n, dead, a), dead, b)
    decreases |a|
  {
    if a == [] {
      assert a + b == b;
    } else {
      assert (a + b)[0] == a[0] && (a + b)[1..] == a[1..] + b;
      KeptJoin(if a[0].task in dead || n == 0 then n else n - 1, dead, a[1..], b);
    }
  }

  lemma {:induction false} SubmitsKeepTasks(c: Sched, subs: seq<Submission>)
    ensures SubmitAll(c, subs).strong.Keys >= c.strong.Keys
    decreases |subs|
  {
    if subs != [] {
      SubmitsKeepTasks(Submitted(c, subs[0]), subs[1..]);
    }
  }

  lemma SubmitKeeps(c: Sched, sub: Submission, e: ExecId)
    requires Sound(c) && CanSubmit(c, sub) && e in c.inbox && c.inbox[e] == [] && e !in c.idle
    ensures var d := Submitted(c, sub);
      && Sound(d) && d.dead == c.dead && e in d.inbox && d.inbox[e] == [] && e !in d.idle
      && d.strong.Keys >= c.strong.Keys
      && d.waiting == c.waiting + Kept(|c.idle|, c.dead, [sub]) && |d.idle| == Left(|c.idle|, c.dead, [sub])
  {
    match sub
    case Woken(t) => SoundRegister(Retain(c, t), t);
    case Spawned(t) =>
      SoundNewTask(c, t);
      SoundRegister(c.(strong := c.strong[t := 1]), t);
  }

  /**
    Submissions go to idle executors in order while there are any, and then to the task ring; e's inbox stays
    empty.
   */
  lemma {:induction false} SubmitsQueue(c: Sched, subs: seq<Submission>, e: ExecId)
    requires Sound(c) && CanSubmitAll(c, subs) && e in c.inbox && c.inbox[e] == [] && e !in c.idle
    ensures var d := SubmitAll(c, subs);
      && Sound(d) && d.dead == c.dead && e in d.inbox && d.inbox[e] == [] && e !in d.idle
      && d.strong.Keys >= c.strong.Keys
      && d.waiting == c.waiting + Kept(|c.idle|, c.dead, subs) && |d.idle| == Left(|c.idle|, c.dead, subs)
    decreases |subs|
  {
    if subs != [] {
      SubmitKeeps(c, subs[0], e);
      SubmitsQueue(Submitted(c, subs[0]), subs[1..], e);
      KeptJoin(|c.idle|, c.dead, [subs[0]], subs[1..]);
      assert [subs[0]] + subs[1..] == subs;
    }
  }

  // ---------------------------------------------------------------- the live tasks of a queue

  /** The tasks of a queue that were not aborted, in order. */
  function Alive(tasks: seq<TaskId>, dead: set<TaskId>): seq<TaskId> {
    if tasks == [] then []
    else (if tasks[0] in dead then [] else [tasks[0]]) + Alive(tasks[1..], dead)
  }

  lemma {:induction false} AliveJoin(a: seq<TaskId>, b: seq<TaskId>, dead: set<TaskId>)
    ensures Alive(a + b, dead) == Alive(a, dead) + Alive(b, dead)
  {
    if a == [] {
      assert a + b == b;
    } else {
      assert (a + b)[1..] == a[1..] + b;
      AliveJoin(a[1..], b, dead);
    }
  }

  lemma {:induction false} KeptAlive(n: nat, dead: set<TaskId>, subs: seq<Submission>)
    ensures Alive(Kept(n, dead, subs), dead) == Kept(n, dead, subs)
    decreases |subs|
  {
    if subs != [] {
      KeptAlive(if subs[0].task in dead || n == 0 then n else n - 1, dead, subs[1..]);
      if n == 0 && subs[0].task !in dead {
        assert Kept(n, dead, subs)[1..] == Kept(0, dead, subs[1..]);
      }
    }
  }

  /** What executor_ready leaves for e to do, and for others: it takes the live tasks one by one. */
  lemma {:induction false} ReadyTakesAlive(c: Sched, e: ExecId)
    requires e in c.inbox && c.inbox[e] == []
    ensures var d := ExecutorReady(c, e);
      && d.dead == c.dead && d.strong.Keys == c.strong.Keys && d.inbox.Keys == c.inbox.Keys
      && d.inbox[e] + Alive(d.waiting, c.dead) == Alive(c.waiting, c.dead)
      && (d.inbox[e] == [] ==> d.waiting == [] && d.idle == c.idle + [e])
      && (d.inbox[e] != [] ==>
            |d.inbox[e]| == 1 && |d.waiting| < |c.waiting| && d.idle == c.idle && d.inbox[e][0] in c.waiting)
    decreases |c.waiting|
  {
    if c.waiting != [] && c.waiting[0] in c.dead {
      ReadyTakesAlive(Discard(c), e);
    }
  }

  /** What e will be given if nobody else submits or takes tasks: its inbox, then the live waiting tasks. */
  function Ahead(c: Sched, e: ExecId): seq<TaskId>
    requires e in c.inbox
  {
    c.inbox[e] + (if c.inbox[e] == [] then [] else Alive(c.waiting, c.dead))
  }

  /**
    Reporting ready leaves e exactly the live waiting tasks as its work, and e waits for a message unless it
    has one.
   */
  lemma ReadyAhead(c: Sched, e: ExecId)
    requires e in c.inbox && c.inbox[e] == [] && e !in c.idle
    requires forall t | t in c.waiting :: t in c.strong
    ensures var d := ExecutorReady(c, e);
      && e in d.inbox && Ahead(d, e) == Alive(c.waiting, c.dead)
      && |d.inbox[e]| <= 1 && (d.inbox[e] == [] <==> e in d.idle)
      && (d.inbox[e] == [] ==> d.waiting == [])
      && forall t | t in d.inbox[e] :: t in d.strong
  {
    ReadyTakesAlive(c, e);
  }

  // ---------------------------------------------------------------- one turn as a function

  /** forward_task: the context waker is made, the poll submits, then waker and task handle are dropped. */
  function Forwarded(c: Sched, t: TaskId, subs: seq<Submission>): Sched {
    Release(Release(SubmitAll(Retain(c, t), subs), t), t)
  }

  function TakeMessage(c: Sched, e: ExecId): Sched {
    c.(inbox := c.inbox[e := []])
  }

  function TurnOf(c: Sched, e: ExecId, t: TaskId, subs: seq<Submission>): Sched {
    ExecutorReady(Forwarded(TakeMessage(c, e), t, subs), e)
  }

  predicate CanTurn(c: Sched, e: ExecId, t: TaskId, subs: seq<Submission>) {
    && t in c.strong && e in c.inbox && c.inbox[e] == [t] && e !in c.idle
    && CanSubmitAll(Retain(TakeMessage(c, e), t), subs)
  }

  lemma ForwardQueues(c: Sched, e: ExecId, t: TaskId, subs: seq<Submission>)
    requires Sound(c) && CanTurn(c, e, t, subs)
    ensures var d := Forwarded(TakeMessage(c, e), t, subs);
      && Sound(d) && d.dead == c.dead && e in d.inbox && d.inbox[e] == [] && e !in d.idle
      && t in d.strong
      && d.waiting == c.waiting + Kept(|c.idle|, c.dead, subs) && |d.idle| == Left(|c.idle|, c.dead, subs)
  {
    SubmitsQueue(Retain(TakeMessage(c, e), t), subs, e);
  }

  /**
    A turn serves the first task of e's work; the rest follows, and after it what the poll submitted and
    nobody idle took.
   */
  lemma TurnServes(c: Sched, e: ExecId, t: TaskId, subs: seq<Submission>)
    requires Sound(c) && CanTurn(c, e, t, subs)
    ensures var d := TurnOf(c, e, t, subs);
      && e in d.inbox && Ahead(c, e) + Kept(|c.idle|, c.dead, subs) == [t] + Ahead(d, e)
      && |d.inbox[e]| <= 1 && (d.inbox[e] == [] <==> e in d.idle) && d.dead == c.dead
      && (d.inbox[e] == [] ==> d.waiting == [])
      && (d.inbox[e] != [] ==> |d.idle| == Left(|c.idle|, c.dead, subs))
      && forall u | u in d.inbox[e] :: u in d.strong
  {
    ForwardQueues(c, e, t, subs);
    var f := Forwarded(TakeMessage(c, e), t, subs);
    ReadyAhead(f, e);
    ReadyTakesAlive(f, e);
    AliveJoin(c.waiting, Kept(|c.idle|, c.dead, subs), c.dead);
    KeptAlive(|c.idle|, c.dead, subs);
  }

  /** Which futures are still Some after a poll of t. */
  function LiveAfter(live: set<TaskId>, t: TaskId, poll: Poll): set<TaskId> {
    if t !in live then live
    else live + Spawns(poll.submits) - (if poll.finishes then {t} else {})
  }

  /** What a poll of t submits: nothing if its future is None. */
  function Submits(live: set<TaskId>, t: TaskId, poll: Poll): seq<Submission> {
    if t in live then poll.submits else []
  }

  /** Every poll of the script, in the turn it belongs to, can make its submissions. */
  predicate CanRunScript(c: Sched, live: set<TaskId>, e: ExecId, script: seq<Poll>)
    decreases |script|
  {
    script == [] || e !in c.inbox || c.inbox[e] == [] ||
    var t := c.inbox[e][0];
    var subs := Submits(live, t, script[0]);
    CanTurn(c, e, t, subs) && CanRunScript(TurnOf(c, e, t, subs), LiveAfter(live, t, script[0]), e, script[1..])
  }

  /** The submissions of the first |polled| turns. */
  function Made(script: seq<Poll>, polled: seq<bool>): seq<Submission> {
    if polled == [] then []
    else
      var i := |polled| - 1;
      Made(script, polled[..i]) + (if polled[i] && i < |script| then script[i].submits else [])
  }

  lemma ServeNext(served: seq<TaskId>, left: seq<TaskId>, work: seq<TaskId>, kept: seq<TaskId>, more: seq<TaskId>,
                  task: TaskId, rest: seq<TaskId>)
    requires served + left == work + kept && left + more == [task] + rest
    ensures (served + [task]) + rest == work + (kept + more) && (more == [] ==> |rest| < |left|)
  {
    assert (served + [task]) + rest == served + ([task] + rest) == (served + left) + more;
  }

  lemma MadeNext(script: seq<Poll>, polled: seq<bool>, wasSome: bool, subs: seq<Submission>)
    requires subs == if wasSome && |polled| < |script| then script[|polled|].submits else []
    ensures Made(script, polled + [wasSome]) == Made(script, polled) + subs
  {
    assert (polled + [wasSome])[..|polled|] == polled;
  }

  function Rest(script: seq<Poll>, i: nat): seq<Poll> {
    if i < |script| then script[i..] else []
  }

  function PollAt(script: seq<Poll>, i: nat): Poll {
    if i < |script| then script[i] else Poll([], false)
  }

  lemma NextTurn(c: Sched, live: set<TaskId>, e: ExecId, script: seq<Poll>, i: nat)
    requires CanRunScript(c, live, e, Rest(script, i))
    requires e in c.inbox && c.inbox[e] != [] && |c.inbox[e]| <= 1 && e !in c.idle && c.inbox[e][0] in c.strong
    ensures var poll, t := PollAt(script, i), c.inbox[e][0];
      var subs := Submits(live, t, poll);
      CanTurn(c, e, t, subs) && CanRunScript(TurnOf(c, e, t, subs), LiveAfter(live, t, poll), e, Rest(script, i + 1))
  {
    if i < |script| {
      HeadAndTail(script[i..], script[i], script[i + 1..]);
    }
  }

  /**
    After some turns: what was served and what is ahead are the work there was at first, followed by
    what the polls submitted beyond the executors that were idle.
   */
  ghost predicate Progress(c: Sched, live: set<TaskId>, e: ExecId, script: seq<Poll>, served: seq<TaskId>,
                           polled: seq<bool>, work: seq<TaskId>, idle: nat) {
    && e in c.inbox && |polled| == |served| && CanRunScript(c, live, e, Rest(script, |served|))
    && served + Ahead(c, e) == work + Kept(idle, c.dead, Made(script, polled))
    && (c.inbox[e] != [] ==> |c.idle| == Left(idle, c.dead, Made(script, polled)))
    && (served != [] && c.inbox[e] == [] ==> c.waiting == [])
  }

  /** The submissions of one more turn: the idle executors that are left take the first of them. */
  lemma KeptNext(idle: nat, dead: set<TaskId>, script: seq<Poll>, polled: seq<bool>, wasSome: bool,
                 subs: seq<Submission>)
    requires subs == if wasSome && |polled| < |script| then script[|polled|].submits else []
    ensures var made, made' := Made(script, polled), Made(script, polled + [wasSome]);
      && Kept(idle, dead, made') == Kept(idle, dead, made) + Kept(Left(idle, dead, made), dead, subs)
      && Left(idle, dead, made') == Left(Left(idle, dead, made), dead, subs)
  {
    MadeNext(script, polled, wasSome, subs);
    KeptJoin(idle, dead, Made(script, polled), subs);
  }

  lemma ProgressTurn(c: Sched, live: set<TaskId>, e: ExecId, script: seq<Poll>, served: seq<TaskId>,
                     polled: seq<bool>, work: seq<TaskId>, idle: nat)
    requires Sound(c) && Progress(c, live, e, script, served, polled, work, idle)
    requires c.inbox[e] != [] && |c.inbox[e]| <= 1 && e !in c.idle && c.inbox[e][0] in c.strong
    ensures var poll, t := PollAt(script, |served|), c.inbox[e][0];
      var subs := Submits(live, t, poll);
      var d := TurnOf(c, e, t, subs);
      && CanTurn(c, e, t, subs)
      && Progress(d, LiveAfter(live, t, poll), e, script, served + [t], polled + [t in live], work, idle)
      && (|served| >= |script| ==> |Ahead(d, e)| < |Ahead(c, e)|)
  {
    var t := c.inbox[e][0];
    var subs := Submits(live, t, PollAt(script, |served|));
    NextTurn(c, live, e, script, |served|);
    TurnServes(c, e, t, subs);
    KeptNext(idle, c.dead, script, polled, t in live, subs);
    ServeMore(c, e, TurnOf(c, e, t, subs), t, served, work, Kept(idle, c.dead, Made(script, polled)),
              Kept(|c.idle|, c.dead, subs));
  }

  lemma ServeMore(c: Sched, e: ExecId, d: Sched, t: TaskId, served: seq<TaskId>, work: seq<TaskId>, kept: seq<TaskId>,
                  more: seq<TaskId>)
    requires e in c.inbox && e in d.inbox
    requires served + Ahead(c, e) == work + kept && Ahead(c, e) + more == [t] + Ahead(d, e)
    ensures (served + [t]) + Ahead(d, e) == work + (kept + more) && (more == [] ==> |Ahead(d, e)| < |Ahead(c, e)|)
  {
    ServeNext(served, Ahead(c, e), work, kept, more, t, Ahead(d, e));
  }

  class Executor {
    const id: ExecId
    const tm: TaskManager

    constructor (id: ExecId, tm: TaskManager)
      ensures this.id == id && this.tm == tm
    {
      this.id, this.tm := id, tm;
    }

    method SubmitOne(sub: Submission)
      requires tm.Valid() && CanSubmit(tm.View(), sub)
      modifies tm`executors, tm`accepted, tm`removed, tm.heap`strong, tm.heap`live
      modifies tm.waitingTasks, tm.waitingTasks.buffer, tm.waitingExecutors, tm.waitingExecutors.buffer
      ensures tm.Valid() && tm.View() == Submitted(old(tm.View()), sub)
      ensures tm.heap.live == old(tm.heap.live) + (if sub.Spawned? then {sub.task} else {})
    {
      match sub
      case Woken(t) => WakeByReference(tm, t);
      case Spawned(t) => Spawners.Submit(tm, t);
    }

    /** Make the submissions of one poll. */
    method Submit(subs: seq<Submission>)
      requires tm.Valid() && CanSubmitAll(tm.View(), subs)
      modifies tm`executors, tm`accepted, tm`removed, tm.heap`strong, tm.heap`live
      modifies tm.waitingTasks, tm.waitingTasks.buffer, tm.waitingExecutors, tm.waitingExecutors.buffer
      ensures tm.Valid() && tm.View() == SubmitAll(old(tm.View()), subs)
      ensures tm.heap.live == old(tm.heap.live) + Spawns(subs)
    {
      for i := 0 to |subs|
        invariant tm.Valid() && CanSubmitAll(tm.View(), subs[i..])
        invariant SubmitAll(tm.View(), subs[i..]) == SubmitAll(old(tm.View()), subs)
        invariant tm.heap.live + Spawns(subs[i..]) == old(tm.heap.live) + Spawns(subs)
      {
        HeadAndTail(subs[i..], subs[i], subs[i + 1..]);
        SubmitOne(subs[i]);
      }
    }

    /** The part under the future's lock; a future that returns Ready becomes None. */
    method PollFuture(task: TaskId, poll: Poll) returns (polled: bool)
      requires tm.Valid() && CanSubmitAll(tm.View(), Submits(tm.heap.live, task, poll))
      modifies tm`executors, tm`accepted, tm`removed, tm.heap`strong, tm.heap`live
      modifies tm.waitingTasks, tm.waitingTasks.buffer, tm.waitingExecutors, tm.waitingExecutors.buffer
      ensures tm.Valid() && tm.View() == SubmitAll(old(tm.View()), Submits(old(tm.heap.live), task, poll))
      ensures polled <==> task in old(tm.heap.live)
      ensures tm.heap.live == LiveAfter(old(tm.heap.live), task, poll)
    {
      polled := task in tm.heap.live;
      if polled {
        Submit(poll.submits);
        if poll.finishes {
          tm.heap.live := tm.heap.live - {task};
        }
      }
    }

    /**
      Poll the task's future if it is still Some. The future is abstract: poll says what it submits
      and whether it returns Ready. The task handle is consumed, and the context waker made and dropped.
     */
    method ForwardTask(task: TaskId, poll: Poll) returns (polled: bool)
      requires tm.Valid() && task in tm.heap.strong
      requires CanSubmitAll(Retain(tm.View(), task), Submits(tm.heap.live, task, poll))
      modifies tm`executors, tm`accepted, tm`removed, tm.heap`strong, tm.heap`live
      modifies tm.waitingTasks, tm.waitingTasks.buffer, tm.waitingExecutors, tm.waitingExecutors.buffer
      ensures tm.Valid() && tm.View() == Forwarded(old(tm.View()), task, Submits(old(tm.heap.live), task, poll))
      ensures polled <==> task in old(tm.heap.live)
      ensures tm.heap.live == LiveAfter(old(tm.heap.live), task, poll)
    {
      SubmitsKeepTasks(Retain(tm.View(), task), Submits(tm.heap.live, task, poll));
      var waker := CloneWaker(tm.heap, task);
      polled := PollFuture(task, poll);
      DropWaker(tm.heap, waker);
      tm.heap.DropArc(task);
    }

    /** Is this executor registered, with either one message in its inbox or a place in the idle ring? */
    ghost predicate Waiting()
      reads this, tm, tm.heap, tm.waitingTasks, tm.waitingTasks.buffer, tm.waitingExecutors, tm.waitingExecutors.buffer
    {
      && tm.Valid() && id in tm.executors && |tm.executors[id]| <= 1
      && (tm.executors[id] == [] <==> id in tm.waitingExecutors.Contents())
      && forall t | t in tm.executors[id] :: t in tm.heap.strong
    }

    ghost function Work(): seq<TaskId>
      reads this, tm, tm.heap, tm.waitingTasks, tm.waitingTasks.buffer, tm.waitingExecutors, tm.waitingExecutors.buffer
      requires Waiting()
      ensures tm.executors[id] == [] <==> Work() == []
    {
      Ahead(tm.View(), id)
    }

    /** One turn of the loop: receive, forward, report ready. */
    method Turn(poll: Poll) returns (task: TaskId, polled: bool)
      requires Waiting() && tm.executors[id] != []
      requires CanTurn(tm.View(), id, tm.executors[id][0], Submits(tm.heap.live, tm.executors[id][0], poll))
      modifies tm`executors, tm`accepted, tm`removed, tm.heap`strong, tm.heap`live
      modifies tm.waitingTasks, tm.waitingTasks.buffer, tm.waitingExecutors, tm.waitingExecutors.buffer
      ensures Waiting() && old(tm.executors[id]) == [task] && (polled <==> task in old(tm.heap.live))
      ensures var subs := Submits(old(tm.heap.live), task, poll);
        && tm.View() == TurnOf(old(tm.View()), id, task, subs)
        && tm.heap.live == LiveAfter(old(tm.heap.live), task, poll)
    {
      task := tm.executors[id][0];
      ghost var subs := Submits(tm.heap.live, task, poll);
      TurnServes(tm.View(), id, task, subs);
      ForwardQueues(tm.View(), id, task, subs);
      tm.executors := tm.executors[id := []];
      polled := ForwardTask(task, poll);
      tm.ExecutorReady(id);
    }

    /**
      The loop, until the inbox is empty and recv would block. It serves its message, then the live
      waiting tasks, then the live tasks its own polls submitted and no idle executor took, in order.
      Turn i makes the i-th poll of the script, and later turns polls that submit nothing.
     */
    method Run(script: seq<Poll>) returns (served: seq<TaskId>, polled: seq<bool>)
      requires Waiting() && CanRunScript(tm.View(), tm.heap.live, id, script)
      modifies tm`executors, tm`accepted, tm`removed, tm.heap`strong, tm.heap`live
      modifies tm.waitingTasks, tm.waitingTasks.buffer, tm.waitingExecutors, tm.waitingExecutors.buffer
      ensures Waiting() && tm.executors[id] == [] && |polled| == |served|
      ensures served == old(Work()) + Kept(|old(tm.waitingExecutors.Contents())|, tm.heap.dead, Made(script, polled))
      ensures served != [] ==> tm.waitingTasks.Contents() == []
    {
      served, polled := [], [];
      assert Rest(script, 0) == script;
      ghost var idle := |tm.waitingExecutors.Contents()|;
      while tm.executors[id] != []
        invariant Waiting()
        invariant Progress(tm.View(), tm.heap.live, id, script, served, polled, old(Work()), idle)
        decreases if |served| < |script| then |script| - |served| else 0, |Work()|
      {
        ProgressTurn(tm.View(), tm.heap.live, id, script, served, polled, old(Work()), idle);
        var task, wasSome := Turn(PollAt(script, |served|));
        served, polled := served + [task], polled + [wasSome];
      }
    }
  }
}
