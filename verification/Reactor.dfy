/** The reactor in memory: its tables, its tag ring and its event loop. */
module Reactors {
  import opened Types
  import opened Scheduler
  import opened TokenTable
  import opened RingBuffer
  import opened TaskManagers
  import opened Runtime
  import opened Runs

  const TAG_CAPACITY: nat := 1024 * 1024

  // ---------------------------------------------------------------- the event loop as a function

  /** Draining the tag ring: every tag with a stored waker wakes it, oldest first. */
  function Drain(c: Sched, tags: map<Tag, TaskId>, ring: seq<Tag>): Sched
    decreases |ring|
  {
    if ring == [] then c
    else Drain(if ring[0] in tags then WakeByRef(c, tags[ring[0]]) else c, tags, ring[1..])
  }

  datatype Work = Work(sched: Sched, table: Table, ring: seq<Tag>)

  function HandleOne(w: Work, tags: map<Tag, TaskId>, ev: Event): Work {
    match ev
    case WakerEvent => Work(Drain(w.sched, tags, w.ring), w.table, [])
    case TokenEvent(tok) => Work(EventSched(w.sched, w.table, tok), EventTable(w.table, tok), w.ring)
  }

  /** One batch of collected events. */
  function HandleAll(w: Work, tags: map<Tag, TaskId>, events: seq<Event>): Work
    decreases |events|
  {
    if events == [] then w else HandleAll(HandleOne(w, tags, events[0]), tags, events[1..])
  }

  // ---------------------------------------------------------------- room for the wake-ups

  // The pushes onto the task ring that wakes end in are unwrapped: these say that none meets a full ring.

  predicate EventFits(table: Table, tok: Token, c: Sched) {
    tok in table && table[tok].Awaited? ==> RoomFor(c, table[tok].waker)
  }

  predicate TagFits(tags: map<Tag, TaskId>, tag: Tag, c: Sched) {
    tag in tags ==> RoomFor(c, tags[tag])
  }

  predicate DrainFits(c: Sched, tags: map<Tag, TaskId>, ring: seq<Tag>)
    decreases |ring|
  {
    ring == [] || (TagFits(tags, ring[0], c)
                   && DrainFits(if ring[0] in tags then WakeByRef(c, tags[ring[0]]) else c, tags, ring[1..]))
  }

  predicate OneFits(w: Work, tags: map<Tag, TaskId>, ev: Event) {
    match ev
    case WakerEvent => DrainFits(w.sched, tags, w.ring)
    case TokenEvent(tok) => EventFits(w.table, tok, w.sched)
  }

  predicate BatchFits(w: Work, tags: map<Tag, TaskId>, events: seq<Event>)
    decreases |events|
  {
    events == [] || (OneFits(w, tags, events[0]) && BatchFits(HandleOne(w, tags, events[0]), tags, events[1..]))
  }

  lemma {:induction false} DrainHasRoom(c: Sched, tags: map<Tag, TaskId>, ring: seq<Tag>)
    requires |c.waiting| + |ring| <= RING_CAPACITY
    ensures DrainFits(c, tags, ring) && |Drain(c, tags, ring).waiting| <= |c.waiting| + |ring|
    decreases |ring|
  {
    if ring != [] {
      DrainHasRoom(if ring[0] in tags then WakeByRef(c, tags[ring[0]]) else c, tags, ring[1..]);
    }
  }

  /** A task ring with room for every tag and every event is room enough. */
  lemma {:induction false} BatchHasRoom(w: Work, tags: map<Tag, TaskId>, events: seq<Event>)
    requires |w.sched.waiting| + |w.ring| + |events| <= RING_CAPACITY
    ensures BatchFits(w, tags, events)
    decreases |events|
  {
    if events != [] {
      DrainHasRoom(w.sched, tags, w.ring);
      BatchHasRoom(HandleOne(w, tags, events[0]), tags, events[1..]);
    }
  }

  // ---------------------------------------------------------------- the loop is a run of the system

  /** The drain loop does what the pop and lookup steps of the transition system do. */
  lemma {:induction false} DrainIsRun(s: State) returns (run: seq<Step>)
    requires s.react.loop.Draining?
    ensures Possible(s, run) && forall step | step in run :: ByReactor(step)
    ensures After(s, run) == s.(sched := Drain(s.sched, s.react.tags, s.react.ring),
                                react := s.react.(ring := [], loop := Handling))
    decreases |s.react.ring|
  {
    var popped := DoDrainPop(s);
    OneStep(s, ByOther(DrainPop));
    if s.react.ring == [] {
      run := [ByOther(DrainPop)];
    } else {
      var looked := DoLookup(popped);
      OneStep(popped, ByOther(LookupTag));
      RunsJoin(s, [ByOther(DrainPop)], [ByOther(LookupTag)]);
      var rest := DrainIsRun(looked);
      RunsJoin(s, [ByOther(DrainPop)] + [ByOther(LookupTag)], rest);
      run := [ByOther(DrainPop)] + [ByOther(LookupTag)] + rest;
    }
  }

  /** Handling a collected batch is a run of the transition system. */
  lemma {:induction false} BatchIsRun(s: State) returns (run: seq<Step>)
    requires s.react.loop.Handling?
    ensures Possible(s, run) && forall step | step in run :: ByReactor(step)
    ensures var w := HandleAll(Work(s.sched, s.react.table, s.react.ring), s.react.tags, s.react.batch);
      After(s, run) == s.(sched := w.sched, react := s.react.(table := w.table, ring := w.ring, batch := []))
    decreases |s.react.batch|
  {
    if s.react.batch == [] {
      run := [];
    } else {
      var first := [ByOther(HandleEvent)];
      var s1 := DoHandle(s);
      OneStep(s, ByOther(HandleEvent));
      if s.react.batch[0].WakerEvent? {
        var drained := DrainIsRun(s1);
        RunsJoin(s, first, drained);
        first := first + drained;
        s1 := After(s, first);
      }
      var rest := BatchIsRun(s1);
      RunsJoin(s, first, rest);
      run := first + rest;
    }
  }

  /**
    A drain leaves every task that was scheduled before or whose tag was in the ring scheduled, unless it was
    aborted.
   */
  lemma {:induction false} DrainWakes(c: Sched, tags: map<Tag, TaskId>, ring: seq<Tag>, t: TaskId)
    requires t !in c.dead
    requires Scheduled(c, t) || exists tag :: tag in ring && tag in tags && tags[tag] == t
    ensures Scheduled(Drain(c, tags, ring), t)
    decreases |ring|
  {
    if ring != [] {
      var d := if ring[0] in tags then WakeByRef(c, tags[ring[0]]) else c;
      if ring[0] in tags {
        WakeSchedules(c, tags[ring[0]], t);
      }
      if !Scheduled(d, t) {
        var tag :| tag in ring && tag in tags && tags[tag] == t;
        assert tag in ring[1..];
      }
      DrainWakes(d, tags, ring[1..], t);
    }
  }

  ghost predicate Scheduled(c: Sched, t: TaskId) {
    t in c.waiting || exists e :: e in c.inbox && t in c.inbox[e]
  }

  lemma WakeSchedules(c: Sched, u: TaskId, t: TaskId)
    requires t !in c.dead
    ensures Scheduled(c, t) || t == u ==> Scheduled(WakeByRef(c, u), t)
    ensures WakeByRef(c, u).dead == c.dead
  {
    var d := WakeByRef(c, u);
    if u !in c.dead && c.idle != [] {
      assert u in d.inbox[c.idle[0]];
      if e :| e in c.inbox && t in c.inbox[e] {
        assert t in d.inbox[e];
      }
    }
  }

  // ---------------------------------------------------------------- the reactor in memory

  class Reactor {
    const tm: TaskManager
    const reactorTagBuffer: LockFreeBoundedRingBuffer<Tag>
    var mioSignalled: bool
    var reactorTags: map<Tag, TaskId>
    var statuses: Table

    ghost predicate Valid()
      reads this, reactorTagBuffer, reactorTagBuffer.buffer, tm, tm.heap
      reads tm.waitingTasks, tm.waitingTasks.buffer, tm.waitingExecutors, tm.waitingExecutors.buffer
    {
      && tm.Valid() && reactorTagBuffer.Valid() && reactorTagBuffer.Capacity() == TAG_CAPACITY
      && reactorTagBuffer as object !in {tm.waitingTasks as object, tm.waitingExecutors as object}
      && reactorTagBuffer.buffer as object !in {tm.waitingTasks.buffer as object, tm.waitingExecutors.buffer as object}
      && (forall tag | tag in reactorTags :: reactorTags[tag] in tm.heap.strong)
      && (forall tok | tok in statuses && statuses[tok].Awaited? :: statuses[tok].waker in tm.heap.strong)
    }

    constructor (tm: TaskManager)
      requires tm.Valid()
      ensures this.tm == tm && fresh(reactorTagBuffer) && fresh(reactorTagBuffer.buffer)
      ensures Valid() && reactorTags == map[] && statuses == map[] && !mioSignalled && reactorTagBuffer.Contents() == []
    {
      this.tm := tm;
      reactorTagBuffer := new LockFreeBoundedRingBuffer<Tag>(TAG_CAPACITY);
      mioSignalled, reactorTags, statuses := false, map[], map[];
    }

    /** Overwriting an entry drops the waker it held. */
    method DropStatus(token: Token)
      requires Valid()
      modifies tm.heap`strong
      ensures Valid() && tm.heap.strong == DropEntry(old(tm.heap.strong), statuses, token)
    {
      if token in statuses && statuses[token].Awaited? {
        DropWaker(tm.heap, statuses[token].waker);
      }
    }

    /** waker is the caller's own handle, which the table takes over. */
    method StatusStore(token: Token, waker: TaskId)
      requires Valid() && waker in tm.heap.strong
      modifies this`statuses, tm.heap`strong
      ensures Valid() && statuses == StoreTable(old(statuses), token, waker)
      ensures tm.heap.strong == DropEntry(old(tm.heap.strong), old(statuses), token)
    {
      DropStatus(token);
      statuses := statuses[token := Awaited(waker)];
    }

    method HasTokenProgressed(token: Token) returns (happened: bool)
      ensures happened == PollReady(statuses, token)
    {
      if token !in statuses {
        return false;
      }
      happened := statuses[token].Happened?;
    }

    method StoreWakerChannel(tag: Tag, waker: TaskId)
      requires Valid() && waker in tm.heap.strong
      modifies this`reactorTags, tm.heap`strong
      ensures Valid() && reactorTags == old(reactorTags)[tag := waker]
      ensures tm.heap.strong == if tag in old(reactorTags) then Bump(old(tm.heap.strong), old(reactorTags)[tag], -1)
                                else old(tm.heap.strong)
    {
      if tag in reactorTags {
        DropWaker(tm.heap, reactorTags[tag]);
      }
      reactorTags := reactorTags[tag := waker];
    }

    /** The unwrapped push needs room. */
    method RegisterReactorTag(tag: Tag)
      requires Valid() && |reactorTagBuffer.Contents()| < TAG_CAPACITY
      modifies reactorTagBuffer, reactorTagBuffer.buffer
      ensures Valid() && reactorTagBuffer.Contents() == old(reactorTagBuffer.Contents()) + [tag]
    {
      var pushed := reactorTagBuffer.Push(tag);
      assert pushed.Pushed?;
    }

    method MioWake()
      modifies this`mioSignalled
      ensures mioSignalled
    {
      mioSignalled := true;
    }

    /** Another task polls the token: its waker replaces the stored one. */
    method Rearm(token: Token, cx: TaskId)
      requires Valid() && cx in tm.heap.strong
      modifies this`statuses, tm.heap`strong
      ensures Valid() && statuses == StoreTable(old(statuses), token, cx)
      ensures tm.heap.strong == StoreStrong(old(tm.heap.strong), old(statuses), token, cx)
    {
      var clone := CloneWaker(tm.heap, cx);
      DropStatus(token);
      statuses := statuses[token := Awaited(clone)];
    }

    /** Reactor::poll with the context waker of task cx. */
    method Poll(token: Token, cx: TaskId) returns (ready: bool)
      requires Valid() && cx in tm.heap.strong
      modifies this`statuses, tm.heap`strong
      ensures Valid() && ready == PollReady(old(statuses), token)
      ensures statuses == PollTable(old(statuses), token, cx)
      ensures tm.heap.strong == PollStrong(old(tm.heap.strong), old(statuses), token, cx)
    {
      if token !in statuses {
        var waker := CloneWaker(tm.heap, cx);
        statuses := statuses[token := Awaited(waker)];
        return false;
      }
      match statuses[token]
      case Awaited(waker) =>
        if waker != cx {
          Rearm(token, cx);
        }
        assert waker == cx ==> statuses[token := Awaited(cx)] == statuses;
        ready := false;
      case Happened =>
        statuses := statuses - {token};
        ready := true;
    }

    /** An I/O or timer event. */
    method HandleToken(token: Token)
      requires Valid() && EventFits(statuses, token, tm.View())
      modifies this`statuses, tm`executors, tm`accepted, tm`removed, tm.heap`strong
      modifies tm.waitingTasks, tm.waitingTasks.buffer, tm.waitingExecutors, tm.waitingExecutors.buffer
      ensures Valid() && statuses == EventTable(old(statuses), token)
      ensures tm.View() == EventSched(old(tm.View()), old(statuses), token)
    {
      var previous := if token in statuses then Some(statuses[token]) else None;
      statuses := statuses[token := Happened];
      if previous.Some? && previous.value.Awaited? {
        Wake(tm, previous.value.waker);
      }
    }

    /** One lookup of the drain: a drained tag wakes the stored waker, if there is one. */
    method WakeTag(tag: Tag)
      requires Valid() && TagFits(reactorTags, tag, tm.View())
      modifies tm`executors, tm`accepted, tm`removed, tm.heap`strong
      modifies tm.waitingTasks, tm.waitingTasks.buffer, tm.waitingExecutors, tm.waitingExecutors.buffer
      ensures Valid() && reactorTagBuffer.Contents() == old(reactorTagBuffer.Contents())
      ensures tm.View() == if tag in reactorTags then WakeByRef(old(tm.View()), reactorTags[tag]) else old(tm.View())
    {
      if tag in reactorTags {
        WakeByReference(tm, reactorTags[tag]);
      }
    }

    /** The waker event: drain the tag ring. */
    method DrainTags()
      requires Valid() && DrainFits(tm.View(), reactorTags, reactorTagBuffer.Contents())
      modifies reactorTagBuffer, reactorTagBuffer.buffer, tm`executors, tm`accepted, tm`removed, tm.heap`strong
      modifies tm.waitingTasks, tm.waitingTasks.buffer, tm.waitingExecutors, tm.waitingExecutors.buffer
      ensures Valid() && reactorTagBuffer.Contents() == []
      ensures tm.View() == Drain(old(tm.View()), reactorTags, old(reactorTagBuffer.Contents()))
    {
      while true
        invariant Valid() && DrainFits(tm.View(), reactorTags, reactorTagBuffer.Contents())
        invariant Drain(tm.View(), reactorTags, reactorTagBuffer.Contents())
               == Drain(old(tm.View()), reactorTags, old(reactorTagBuffer.Contents()))
        decreases |reactorTagBuffer.Contents()|
      {
        ghost var ring := reactorTagBuffer.Contents();
        var next := reactorTagBuffer.Pop();
        if next.None? {
          break;
        }
        HeadAndTail(ring, next.value, reactorTagBuffer.Contents());
        WakeTag(next.value);
      }
    }

    /** What the event loop works on. */
    ghost function Queues(): Work
      reads this, reactorTagBuffer, reactorTagBuffer.buffer, tm, tm.heap
      reads tm.waitingTasks, tm.waitingTasks.buffer, tm.waitingExecutors, tm.waitingExecutors.buffer
      requires Valid()
    {
      Work(tm.View(), statuses, reactorTagBuffer.Contents())
    }

    method HandleEvent(event: Event)
      requires Valid() && OneFits(Queues(), reactorTags, event)
      modifies this`statuses, reactorTagBuffer, reactorTagBuffer.buffer
      modifies tm`executors, tm`accepted, tm`removed, tm.heap`strong
      modifies tm.waitingTasks, tm.waitingTasks.buffer, tm.waitingExecutors, tm.waitingExecutors.buffer
      ensures Valid() && Queues() == HandleOne(old(Queues()), reactorTags, event)
    {
      match event
      case WakerEvent => DrainTags();
      case TokenEvent(token) => HandleToken(token);
    }

    /** One turn of the event loop: handle a collected batch. */
    method HandleEvents(events: seq<Event>)
      requires Valid() && BatchFits(Queues(), reactorTags, events)
      modifies this`statuses, reactorTagBuffer, reactorTagBuffer.buffer
      modifies tm`executors, tm`accepted, tm`removed, tm.heap`strong
      modifies tm.waitingTasks, tm.waitingTasks.buffer, tm.waitingExecutors, tm.waitingExecutors.buffer
      ensures Valid() && Queues() == HandleAll(old(Queues()), reactorTags, events)
    {
      for i := 0 to |events|
        invariant Valid() && BatchFits(Queues(), reactorTags, events[i..])
        invariant HandleAll(Queues(), reactorTags, events[i..]) == HandleAll(old(Queues()), reactorTags, events)
      {
        HeadAndTail(events[i..], events[i], events[i + 1..]);
        HandleEvent(events[i]);
      }
    }
  }
}
