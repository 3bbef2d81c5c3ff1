/**
  The whole runtime as a transition system: executors, tasks and their futures, the reactor and
  its event loop, bounded channels and their senders, and operations offloaded to the pool.

  A future is abstract: it awaits a stack of leaves. The lower entries are the timers of the
  timeouts it is inside, outermost first; the top entry is what it waits for. A poll re-polls the
  stack from the bottom, as nested Timeout::poll calls do, and stops at the first pending top.
 */
module Runtime {
  import opened Types
  import opened Scheduler
  import opened TokenTable
  import opened Channel

  datatype Leaf =
    | Runnable                 // first poll of a new task, or after waking itself
    | SleepLeaf(tok: Token)
    | TokenLeaf(tok: Token)    // Reactor::poll
    | RecvLeaf(tag: Tag)       // BoundedReceiver::recv, also inside a JoinHandle
    | OffloadLeaf(id: OffId)   // connect or bind

  datatype Body = Body(
    live: bool,                // the future is Some
    stack: seq<Leaf>,
    lock: Option<ExecId>,      // who holds the future's mutex
    join: Tag,                 // the channel its JoinHandle receives from
    output: Option<Value>,     // what the wrapped future evaluated to
    polls: nat)                // how often an executor has locked the future to poll it

  datatype Phase =
    | AtRecv                   // waiting on its inbox
    | Holding                  // took a task, not yet locked its future
    | Repoll(at: nat)          // future locked, about to re-poll stack[at]
    | Running                  // the future's own code runs; every entry of the stack was polled
    | Sending(begun: bool)     // the wrapped future finished; its value goes to the join channel
    | Returning                // poll returned, the lock still held
    | Polled                   // lock released, waker and task handle not yet dropped
    | AtReady                  // calling executor_ready

  datatype Execs = Execs(
    phase: map<ExecId, Phase>,
    held: map<ExecId, TaskId>, // the executor's own handle
    ctx: map<ExecId, TaskId>)  // the waker of its poll context

  datatype TokenKind = Timer | Io

  datatype Event = WakerEvent | TokenEvent(tok: Token)

  datatype Loop = Handling | Draining | Lookup(tag: Tag)

  datatype React = React(
    kinds: map<Token, TokenKind>,        // tokens handed out so far
    table: Table,
    tags: map<Tag, TaskId>,              // reactor_tags: the channel wakers
    ring: seq<Tag>,                      // reactor_tag_buffer
    mio: bool,                           // the mio waker was signalled and not yet collected
    loop: Loop,
    batch: seq<Event>)                   // collected events not yet handled

  datatype SendStage = Enqueued(tag: Tag) | Counted(tag: Tag) | Tagged(tag: Tag)

  datatype Sender = ExecSender(e: ExecId) | ThreadSender(n: nat)

  datatype Net = Net(
    chans: map<Tag, Chan>,
    joins: map<Tag, TaskId>,             // which channels are join channels, and of which task
    closed: set<Tag>,                    // receivers that were dropped
    sends: map<Sender, SendStage>)

  datatype Offload = Offload(
    slot: Option<Value>,       // the shared state the closure fills and poll takes
    computed: Option<Value>,   // what the closure produced
    resolved: Option<Value>,   // what the future resolved with
    runs: nat)

  datatype Pool = Pool(
    closures: map<OffId, TaskId>,        // wakers held by offloaded closures
    jobs: multiset<OffId>,               // closures the pool has not run yet
    offs: map<OffId, Offload>)

  datatype State = State(
    sched: Sched,
    tasks: map<TaskId, Body>,
    execs: Execs,
    react: React,
    net: Net,
    pool: Pool)

  // ---------------------------------------------------------------- polling one leaf

  predicate LeafReady(s: State, leaf: Leaf) {
    match leaf
    case Runnable => true
    case SleepLeaf(tok) => PollReady(s.react.table, tok)
    case TokenLeaf(tok) => PollReady(s.react.table, tok)
    case RecvLeaf(tag) => tag in s.net.chans && !PollResult(s.net.chans[tag]).Waiting?
    case OffloadLeaf(id) => id in s.pool.offs && s.pool.offs[id].slot.Some?
  }

  function TokenEffect(s: State, tok: Token, t: TaskId): State {
    s.(react := s.react.(table := PollTable(s.react.table, tok, t)),
       sched := s.sched.(strong := PollStrong(s.sched.strong, s.react.table, tok, t)))
  }

  /** store_waker_channel with a fresh clone of t's waker. */
  function StoreWakerStrong(strong: map<TaskId, int>, tags: map<Tag, TaskId>, tag: Tag, t: TaskId): map<TaskId, int> {
    var kept := Bump(strong, t, 1);
    if tag in tags then Bump(kept, tags[tag], -1) else kept
  }

  /** poll_recv by t: store the waker when the counter is zero, receive otherwise. */
  function RecvEffect(s: State, tag: Tag, t: TaskId): State
    requires tag in s.net.chans
  {
    if PollResult(s.net.chans[tag]).Waiting? then
      s.(react := s.react.(tags := s.react.tags[tag := t]),
         sched := s.sched.(strong := StoreWakerStrong(s.sched.strong, s.react.tags, tag, t)))
    else
      s.(net := s.net.(chans := s.net.chans[tag := PollChan(s.net.chans[tag])]))
  }

  /** A later poll of a connect or bind takes the result, if it is there. */
  function TakeResult(o: Offload): Offload {
    if o.slot.Some? then o.(slot := None, resolved := o.slot) else o
  }

  function TakeSlot(p: Pool, id: OffId): Pool
    requires id in p.offs
  {
    p.(offs := p.offs[id := TakeResult(p.offs[id])])
  }

  /** What polling a leaf does outside the task itself. Polling an old Sleep only reads. */
  function PollEffect(s: State, leaf: Leaf, t: TaskId): State {
    match leaf
    case Runnable => s
    case SleepLeaf(_) => s
    case TokenLeaf(tok) => TokenEffect(s, tok, t)
    case RecvLeaf(tag) => if tag in s.net.chans then RecvEffect(s, tag, t) else s
    case OffloadLeaf(id) => if id in s.pool.offs then s.(pool := TakeSlot(s.pool, id)) else s
  }

  // ---------------------------------------------------------------- executor steps

  predicate At(s: State, e: ExecId, p: Phase) {
    e in s.execs.phase && s.execs.phase[e] == p
  }

  predicate InTask(s: State, e: ExecId) {
    e in s.execs.phase && e in s.execs.held && s.execs.held[e] in s.tasks
  }

  function SetBody(s: State, t: TaskId, b: Body): State {
    s.(tasks := s.tasks[t := b])
  }

  function SetPhase(s: State, e: ExecId, p: Phase): State {
    s.(execs := s.execs.(phase := s.execs.phase[e := p]))
  }

  predicate CanTake(s: State, e: ExecId) {
    At(s, e, AtRecv) && e in s.sched.inbox && s.sched.inbox[e] != []
  }

  function DoTake(s: State, e: ExecId): State
    requires CanTake(s, e)
  {
    var q := s.sched.inbox[e];
    s.(execs := s.execs.(phase := s.execs.phase[e := Holding], held := s.execs.held[e := q[0]]),
       sched := s.sched.(inbox := s.sched.inbox[e := q[1..]]))
  }

  predicate CanLock(s: State, e: ExecId) {
    InTask(s, e) && At(s, e, Holding) && s.tasks[s.execs.held[e]].lock.None?
  }

  /** Lock the future and make the context waker; a future already None is left at once. */
  function DoLock(s: State, e: ExecId): State
    requires CanLock(s, e)
  {
    var t := s.execs.held[e];
    var b := s.tasks[t];
    s.(sched := Retain(s.sched, t),
       tasks := s.tasks[t := b.(polls := b.polls + 1, lock := if b.live then Some(e) else None)],
       execs := s.execs.(ctx := s.execs.ctx[e := t],
                         phase := s.execs.phase[e := if b.live then Repoll(0) else Polled]))
  }

  predicate CanRepoll(s: State, e: ExecId) {
    InTask(s, e) && s.execs.phase[e].Repoll? && s.execs.phase[e].at < |s.tasks[s.execs.held[e]].stack|
  }

  /** stack[i] was ready: everything awaited above it is dropped and the future's code goes on. */
  function Resume(s: State, e: ExecId, t: TaskId, b: Body, i: nat): State
    requires i <= |b.stack|
  {
    SetPhase(SetBody(s, t, b.(stack := b.stack[..i])), e, Running)
  }

  /** stack[i] was pending: poll the next entry, or return Pending. */
  function Pend(s: State, e: ExecId, b: Body, i: nat): State {
    SetPhase(s, e, if i + 1 < |b.stack| then Repoll(i + 1) else Returning)
  }

  function DoRepoll(s: State, e: ExecId): State
    requires CanRepoll(s, e)
  {
    var t := s.execs.held[e];
    var i := s.execs.phase[e].at;
    var b := s.tasks[t];
    var r := PollEffect(s, b.stack[i], t);
    if LeafReady(s, b.stack[i]) then Resume(r, e, t, b, i) else Pend(r, e, b, i)
  }

  predicate CanRun(s: State, e: ExecId) {
    InTask(s, e) && At(s, e, Running)
  }

  /** The future now also awaits leaf. */
  function Push(s: State, t: TaskId, b: Body, leaf: Leaf): State {
    SetBody(s, t, b.(stack := b.stack + [leaf]))
  }

  /** The first poll of a Sleep stores the waker and arms a timer under a fresh token. */
  function DoSleep(s: State, e: ExecId, tok: Token, p: Phase): State
    requires CanRun(s, e)
  {
    var t := s.execs.held[e];
    var stored := s.(react := s.react.(table := StoreTable(s.react.table, tok, t),
                                       kinds := s.react.kinds[tok := Timer]),
                     sched := s.sched.(strong := StoreStrong(s.sched.strong, s.react.table, tok, t)));
    SetPhase(Push(stored, t, s.tasks[t], SleepLeaf(tok)), e, p)
  }

  /** A token has one polling task at a time, and a channel one receiving task. */
  predicate CanAwait(s: State, e: ExecId, leaf: Leaf) {
    && CanRun(s, e)
    && (match leaf
        case TokenLeaf(tok) => tok in s.react.kinds && s.react.kinds[tok].Io?
        case RecvLeaf(tag) => tag in s.net.chans && tag !in s.net.closed
        case _ => false)
    && forall u | u in s.tasks :: leaf !in s.tasks[u].stack
  }

  /** First poll of Reactor::poll or recv. */
  function DoAwait(s: State, e: ExecId, leaf: Leaf): State
    requires CanAwait(s, e, leaf)
  {
    var t := s.execs.held[e];
    var r := PollEffect(s, leaf, t);
    if LeafReady(s, leaf) then r else SetPhase(Push(r, t, s.tasks[t], leaf), e, Returning)
  }

  function NewOffload(): Offload {
    Offload(None, None, None, 0)
  }

  /** First poll of a connect or bind: hand a closure with a cloned waker to the pool. */
  function DoOffload(s: State, e: ExecId, id: OffId): State
    requires CanRun(s, e)
  {
    var t := s.execs.held[e];
    var p := s.pool;
    SetPhase(Push(s.(sched := Retain(s.sched, t),
                     pool := Pool(p.closures[id := t], p.jobs + multiset{id}, p.offs[id := NewOffload()])),
                  t, s.tasks[t], OffloadLeaf(id)), e, Returning)
  }

  function DoYield(s: State, e: ExecId): State
    requires CanRun(s, e)
  {
    var t := s.execs.held[e];
    SetPhase(Push(s.(sched := WakeByRef(s.sched, t)), t, s.tasks[t], Runnable), e, Returning)
  }

  function DoFinish(s: State, e: ExecId, v: Value): State
    requires CanRun(s, e)
  {
    var t := s.execs.held[e];
    SetPhase(SetBody(s, t, s.tasks[t].(output := Some(v))), e, Sending(false))
  }

  /** A send may enqueue when the std channel has room. */
  predicate HasRoom(s: State, tag: Tag) {
    tag in s.net.chans && tag !in s.net.closed && |s.net.chans[tag].queue| < s.net.chans[tag].cap
  }

  function EnqueueAs(s: State, a: Sender, tag: Tag, v: Value): State
    requires HasRoom(s, tag)
  {
    s.(net := s.net.(chans := s.net.chans[tag := Enqueue(s.net.chans[tag], v)],
                     sends := s.net.sends[a := Enqueued(tag)]))
  }

  predicate IsSending(s: State, e: ExecId, begun: bool) {
    InTask(s, e) && At(s, e, Sending(begun)) && s.tasks[s.execs.held[e]].output.Some?
  }

  predicate CanJoin(s: State, e: ExecId) {
    IsSending(s, e, false) && HasRoom(s, s.tasks[s.execs.held[e]].join)
  }

  function DoJoin(s: State, e: ExecId): State
    requires CanJoin(s, e)
  {
    var b := s.tasks[s.execs.held[e]];
    SetPhase(EnqueueAs(s, ExecSender(e), b.join, b.output.value), e, Sending(true))
  }

  /** The wrapped future's send has returned: poll gives Ready and the future becomes None. */
  function DoJoinDone(s: State, e: ExecId): State
    requires InTask(s, e)
  {
    var t := s.execs.held[e];
    SetPhase(SetBody(s, t, s.tasks[t].(live := false)), e, Returning)
  }

  function DoUnlock(s: State, e: ExecId): State
    requires InTask(s, e)
  {
    var t := s.execs.held[e];
    SetPhase(SetBody(s, t, s.tasks[t].(lock := None)), e, Polled)
  }

  function DoDropTask(s: State, e: ExecId): State
    requires InTask(s, e)
  {
    var t := s.execs.held[e];
    s.(sched := Release(Release(s.sched, t), t),
       execs := Execs(s.execs.phase[e := AtReady], s.execs.held - {e}, s.execs.ctx - {e}))
  }

  /** The future inside the innermost timeout finished, and the timeout with it. */
  function DoLeave(s: State, e: ExecId): State
    requires CanRun(s, e) && s.tasks[s.execs.held[e]].stack != []
  {
    var b := s.tasks[s.execs.held[e]];
    Resume(s, e, s.execs.held[e], b, |b.stack| - 1)
  }

  function DoReady(s: State, e: ExecId): State {
    SetPhase(s, e, AtRecv).(sched := ExecutorReady(s.sched, e))
  }

  // ---------------------------------------------------------------- other steps

  predicate FreshTag(s: State, tag: Tag) {
    tag !in s.net.chans && tag !in s.react.ring && s.react.loop != Lookup(tag)
  }

  predicate CanSpawn(s: State, t: TaskId, tag: Tag) {
    t !in s.tasks && FreshTag(s, tag)
  }

  function DoSpawn(s: State, t: TaskId, tag: Tag): State {
    s.(tasks := s.tasks[t := Body(true, [Runnable], None, tag, None, 0)],
       net := s.net.(chans := s.net.chans[tag := NewChan(1)], joins := s.net.joins[tag := t]),
       sched := Register(s.sched.(strong := s.sched.strong[t := 1]), t))
  }

  function DoNewChannel(s: State, tag: Tag, cap: nat): State {
    s.(net := s.net.(chans := s.net.chans[tag := NewChan(cap)]))
  }

  /** A receiver that some future awaits is not dropped under it. */
  predicate CanDropReceiver(s: State, tag: Tag) {
    tag in s.net.chans && forall u | u in s.tasks :: RecvLeaf(tag) !in s.tasks[u].stack
  }

  function Close(s: State, tag: Tag): State {
    s.(net := s.net.(closed := s.net.closed + {tag}))
  }

  /** abort consumes the JoinHandle, so its receiver goes too. */
  function DoAbort(s: State, t: TaskId): State
    requires t in s.tasks
  {
    Close(s.(sched := s.sched.(dead := s.sched.dead + {t})), s.tasks[t].join)
  }

  predicate CanFree(s: State, t: TaskId) {
    && t in s.tasks && s.tasks[t].live && s.tasks[t].lock.None?
    && t in s.sched.dead && t in s.sched.strong && s.sched.strong[t] == 0
  }

  /** The last handle of an aborted task is gone: its future is dropped, and with it everything it awaited. */
  function DoFree(s: State, t: TaskId): State
    requires CanFree(s, t)
  {
    SetBody(s, t, s.tasks[t].(stack := [Runnable]))
  }

  predicate CanAdvance(s: State, a: Sender) {
    a in s.net.sends && s.net.sends[a].tag in s.net.chans
  }

  function DoSendCount(s: State, a: Sender): State
    requires CanAdvance(s, a)
  {
    var tag := s.net.sends[a].tag;
    s.(net := s.net.(chans := s.net.chans[tag := CountOne(s.net.chans[tag])],
                     sends := s.net.sends[a := Counted(tag)]))
  }

  function DoSendTag(s: State, a: Sender): State
    requires CanAdvance(s, a)
  {
    var tag := s.net.sends[a].tag;
    s.(react := s.react.(ring := s.react.ring + [tag]), net := s.net.(sends := s.net.sends[a := Tagged(tag)]))
  }

  function DoSendWake(s: State, a: Sender): State {
    s.(react := s.react.(mio := true), net := s.net.(sends := s.net.sends - {a}))
  }

  predicate CanCollect(s: State, events: seq<Event>) {
    && s.react.loop.Handling? && s.react.batch == []
    && (WakerEvent in events ==> s.react.mio)
    && forall ev | ev in events && ev.TokenEvent? :: ev.tok in s.react.kinds
  }

  function DoCollect(s: State, events: seq<Event>): State {
    s.(react := s.react.(batch := events, mio := s.react.mio && WakerEvent !in events))
  }

  function DoHandle(s: State): State
    requires s.react.batch != []
  {
    var rest := s.react.batch[1..];
    match s.react.batch[0]
    case WakerEvent => s.(react := s.react.(loop := Draining, batch := rest))
    case TokenEvent(tok) =>
      s.(react := s.react.(table := EventTable(s.react.table, tok), batch := rest),
         sched := EventSched(s.sched, s.react.table, tok))
  }

  function DoDrainPop(s: State): State {
    if s.react.ring == [] then s.(react := s.react.(loop := Handling))
    else s.(react := s.react.(ring := s.react.ring[1..], loop := Lookup(s.react.ring[0])))
  }

  function DoLookup(s: State): State
    requires s.react.loop.Lookup?
  {
    var tag := s.react.loop.tag;
    s.(react := s.react.(loop := Draining),
       sched := if tag in s.react.tags then WakeByRef(s.sched, s.react.tags[tag]) else s.sched)
  }

  function StoreResult(o: Offload, v: Value): Offload {
    o.(slot := Some(v), computed := Some(v), runs := o.runs + 1)
  }

  /** A pool worker runs the closure up to storing its result. */
  function DoRunClosure(s: State, id: OffId, v: Value): State
    requires id in s.pool.offs
  {
    var p := s.pool;
    s.(pool := p.(jobs := p.jobs - multiset{id}, offs := p.offs[id := StoreResult(p.offs[id], v)]))
  }

  predicate CanWakeClosure(s: State, id: OffId) {
    id in s.pool.closures && s.pool.jobs[id] == 0
  }

  function DoWakeClosure(s: State, id: OffId): State
    requires CanWakeClosure(s, id)
  {
    s.(sched := Register(s.sched, s.pool.closures[id]),
       pool := s.pool.(closures := s.pool.closures - {id}))
  }

  // ---------------------------------------------------------------- the transition system

  /** What an executor can do next. */
  datatype Action =
    | Take | Lock | RepollLeaf
    | EnterTimeout(tok: Token) | LeaveTimeout | PollSleep(tok: Token)
    | AwaitLeaf(leaf: Leaf) | PollOffload(id: OffId) | Yield
    | Finish(v: Value) | JoinSend | JoinFail | JoinDone
    | Unlock | DropTask | Ready

  predicate CanAct(s: State, e: ExecId, act: Action) {
    match act
    case Take => CanTake(s, e)
    case Lock => CanLock(s, e)
    case RepollLeaf => CanRepoll(s, e)
    case EnterTimeout(tok) => CanRun(s, e) && tok !in s.react.kinds
    case LeaveTimeout => CanRun(s, e) && s.tasks[s.execs.held[e]].stack != []
    case PollSleep(tok) => CanRun(s, e) && tok !in s.react.kinds
    case AwaitLeaf(leaf) => CanAwait(s, e, leaf)
    case PollOffload(id) => CanRun(s, e) && id !in s.pool.offs
    case Yield => CanRun(s, e)
    case Finish(v) => CanRun(s, e) && s.tasks[s.execs.held[e]].stack == []
    case JoinSend => CanJoin(s, e)
    case JoinFail => IsSending(s, e, false) && s.tasks[s.execs.held[e]].join in s.net.closed
    case JoinDone => IsSending(s, e, true) && ExecSender(e) !in s.net.sends
    case Unlock => InTask(s, e) && At(s, e, Returning)
    case DropTask => InTask(s, e) && At(s, e, Polled)
    case Ready => At(s, e, AtReady)
  }

  function Act(s: State, e: ExecId, act: Action): State
    requires CanAct(s, e, act)
  {
    match act
    case Take => DoTake(s, e)
    case Lock => DoLock(s, e)
    case RepollLeaf => DoRepoll(s, e)
    case EnterTimeout(tok) => DoSleep(s, e, tok, Running)
    case LeaveTimeout => DoLeave(s, e)
    case PollSleep(tok) => DoSleep(s, e, tok, Returning)
    case AwaitLeaf(leaf) => DoAwait(s, e, leaf)
    case PollOffload(id) => DoOffload(s, e, id)
    case Yield => DoYield(s, e)
    case Finish(v) => DoFinish(s, e, v)
    case JoinSend => DoJoin(s, e)
    case JoinFail => SetPhase(s, e, Sending(true))
    case JoinDone => DoJoinDone(s, e)
    case Unlock => DoUnlock(s, e)
    case DropTask => DoDropTask(s, e)
    case Ready => DoReady(s, e)
  }

  /** What other threads, the reactor thread and the pool can do. */
  datatype Other =
    // any thread
    | Spawn(t: TaskId, tag: Tag) | Abort(t: TaskId) | NewChannel(tag: Tag, cap: nat)
    | DropReceiver(tag: Tag) | NewToken(tok: Token) | StrayTag(tag: Tag) | Free(t: TaskId)
    | SendEnqueue(n: nat, tag: Tag, v: Value) | SendCount(a: Sender) | SendTag(a: Sender) | SendWake(a: Sender)
    // the reactor thread
    | Collect(events: seq<Event>) | HandleEvent | DrainPop | LookupTag
    // the pool
    | RunClosure(id: OffId, v: Value) | WakeClosure(id: OffId)

  predicate CanHappen(s: State, w: Other) {
    match w
    case Spawn(t, tag) => CanSpawn(s, t, tag)
    case Abort(t) => t in s.tasks && CanDropReceiver(s, s.tasks[t].join)
    case NewChannel(tag, _) => FreshTag(s, tag)
    case DropReceiver(tag) => CanDropReceiver(s, tag)
    case NewToken(tok) => tok !in s.react.kinds
    case StrayTag(tag) => tag !in s.net.chans
    case Free(t) => CanFree(s, t)
    case SendEnqueue(n, tag, _) => ThreadSender(n) !in s.net.sends && HasRoom(s, tag) && tag !in s.net.joins
    case SendCount(a) => CanAdvance(s, a) && s.net.sends[a].Enqueued?
    case SendTag(a) => CanAdvance(s, a) && s.net.sends[a].Counted?
    case SendWake(a) => CanAdvance(s, a) && s.net.sends[a].Tagged?
    case Collect(events) => CanCollect(s, events)
    case HandleEvent => s.react.loop.Handling? && s.react.batch != []
    case DrainPop => s.react.loop.Draining?
    case LookupTag => s.react.loop.Lookup?
    case RunClosure(id, _) => s.pool.jobs[id] > 0 && id in s.pool.offs
    case WakeClosure(id) => CanWakeClosure(s, id)
  }

  function Happen(s: State, w: Other): State
    requires CanHappen(s, w)
  {
    match w
    case Spawn(t, tag) => DoSpawn(s, t, tag)
    case Abort(t) => DoAbort(s, t)
    case NewChannel(tag, cap) => DoNewChannel(s, tag, cap)
    case DropReceiver(tag) => Close(s, tag)
    case NewToken(tok) => s.(react := s.react.(kinds := s.react.kinds[tok := Io]))
    case StrayTag(tag) => s.(react := s.react.(ring := s.react.ring + [tag]))
    case Free(t) => DoFree(s, t)
    case SendEnqueue(n, tag, v) => EnqueueAs(s, ThreadSender(n), tag, v)
    case SendCount(a) => DoSendCount(s, a)
    case SendTag(a) => DoSendTag(s, a)
    case SendWake(a) => DoSendWake(s, a)
    case Collect(events) => DoCollect(s, events)
    case HandleEvent => DoHandle(s)
    case DrainPop => DoDrainPop(s)
    case LookupTag => DoLookup(s)
    case RunClosure(id, v) => DoRunClosure(s, id, v)
    case WakeClosure(id) => DoWakeClosure(s, id)
  }

  datatype Step = ByExecutor(e: ExecId, act: Action) | ByOther(w: Other)

  predicate Enabled(s: State, step: Step) {
    match step
    case ByExecutor(e, act) => CanAct(s, e, act)
    case ByOther(w) => CanHappen(s, w)
  }

  function Apply(s: State, step: Step): State
    requires Enabled(s, step)
  {
    match step
    case ByExecutor(e, act) => Act(s, e, act)
    case ByOther(w) => Happen(s, w)
  }

  /** After build: registered executors, all idle, and nothing else. */
  ghost predicate Init(s: State) {
    && s.sched == Sched(map[], {}, [], s.sched.idle, s.sched.inbox, [], [])
    && NoDup(s.sched.idle)
    && (forall e :: e in s.sched.inbox <==> e in s.sched.idle)
    && (forall e | e in s.sched.inbox :: s.sched.inbox[e] == [])
    && s.tasks == map[]
    && s.execs.phase.Keys == s.sched.inbox.Keys
    && (forall e | e in s.execs.phase :: s.execs.phase[e] == AtRecv)
    && s.execs.held == map[] && s.execs.ctx == map[]
    && s.react == React(map[], map[], map[], [], false, Handling, [])
    && s.net == Net(map[], map[], {}, map[])
    && s.pool == Pool(map[], multiset{}, map[])
  }

  /** The steps of the run can be taken one after the other from s. */
  ghost predicate Possible(s: State, run: seq<Step>)
    decreases |run|
  {
    run == [] || (Enabled(s, run[0]) && Possible(Apply(s, run[0]), run[1..]))
  }

  ghost function After(s: State, run: seq<Step>): State
    requires Possible(s, run)
    decreases |run|
  {
    if run == [] then s else After(Apply(s, run[0]), run[1..])
  }
}
