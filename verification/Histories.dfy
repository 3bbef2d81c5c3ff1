/**
  What happened in a run, read off its steps: which tasks were aborted, what futures evaluated to, what
  operations answered, what callers sent and where. The runtime's own records agree with it, so the
  theorems about those records are about what really happened.
 */
module Histories {
  import opened Types
  import opened Scheduler
  import opened TokenTable
  import opened Channel
  import opened Runtime
  import opened Structure
  import opened References
  import opened ShapeSteps
  import opened Invariants
  import opened Timers

  datatype Log = Log(
    aborted: set<TaskId>,
    joins: map<TaskId, Tag>,             // the join channel each task was spawned with
    finished: map<TaskId, Value>,        // what the wrapped futures evaluated to
    polls: map<TaskId, nat>,             // how often an executor locked the task's future
    computed: map<OffId, Value>,         // what the offloaded operations answered
    caps: map<Tag, nat>,                 // the capacity each channel was made with
    sent: map<Tag, seq<Value>>,          // the values sent on each channel, in order
    closed: set<Tag>,                    // channels whose receiver was dropped
    submitted: seq<TaskId>,              // unaborted submissions, in order
    collected: seq<Event>,               // events the reactor collected, in order
    handled: seq<Event>,                 // events it has handled
    tagged: seq<Tag>,                    // tags pushed onto the tag ring, in order
    popped: seq<Tag>)                    // tags the drain popped

  const EMPTY_LOG := Log({}, map[], map[], map[], map[], map[], map[], {}, [], [], [], [], [])

  function Find<K, V>(m: map<K, V>, k: K): Option<V> {
    if k in m then Some(m[k]) else None
  }

  function Append(sent: map<Tag, seq<Value>>, tag: Tag, v: Value): map<Tag, seq<Value>> {
    sent[tag := (if tag in sent then sent[tag] else []) + [v]]
  }

  function Once(polls: map<TaskId, nat>, t: TaskId): map<TaskId, nat> {
    polls[t := (if t in polls then polls[t] else 0) + 1]
  }

  // ---------------------------------------------------------------- reading a step

  /** The task an executor step works on. */
  function TaskOf(s: State, step: Step): Option<TaskId> {
    match step
    case ByExecutor(e, _) => Find(s.execs.held, e)
    case ByOther(_) => None
  }

  function NoteAborted(step: Step, aborted: set<TaskId>): set<TaskId> {
    if step.ByOther? && step.w.Abort? then aborted + {step.w.t} else aborted
  }

  function NoteJoins(step: Step, joins: map<TaskId, Tag>): map<TaskId, Tag> {
    if step.ByOther? && step.w.Spawn? then joins[step.w.t := step.w.tag] else joins
  }

  function NoteFinished(task: Option<TaskId>, step: Step, finished: map<TaskId, Value>): map<TaskId, Value> {
    if task.Some? && step.ByExecutor? && step.act.Finish? then finished[task.value := step.act.v] else finished
  }

  function NotePolls(task: Option<TaskId>, step: Step, polls: map<TaskId, nat>): map<TaskId, nat> {
    if task.Some? && step.ByExecutor? && step.act.Lock? then Once(polls, task.value) else polls
  }

  function NoteComputed(step: Step, computed: map<OffId, Value>): map<OffId, Value> {
    if step.ByOther? && step.w.RunClosure? then computed[step.w.id := step.w.v] else computed
  }

  function NoteCaps(step: Step, caps: map<Tag, nat>): map<Tag, nat> {
    if step.ByOther? && step.w.NewChannel? then caps[step.w.tag := step.w.cap]
    else if step.ByOther? && step.w.Spawn? then caps[step.w.tag := 1]
    else caps
  }

  /** A caller's send, or the send of a finished task's value on its join channel. */
  function NoteSent(task: Option<TaskId>, step: Step, joins: map<TaskId, Tag>, finished: map<TaskId, Value>,
                    sent: map<Tag, seq<Value>>): map<Tag, seq<Value>> {
    match step
    case ByExecutor(_, act) =>
      if act.JoinSend? && task.Some? && task.value in joins && task.value in finished
      then Append(sent, joins[task.value], finished[task.value])
      else sent
    case ByOther(w) =>
      match w
      case NewChannel(tag, _) => sent[tag := []]
      case Spawn(_, tag) => sent[tag := []]
      case SendEnqueue(_, tag, v) => Append(sent, tag, v)
      case _ => sent
  }

  function NoteClosed(step: Step, joins: map<TaskId, Tag>, closed: set<Tag>): set<Tag> {
    match step
    case ByExecutor(_, _) => closed
    case ByOther(w) =>
      match w
      case DropReceiver(tag) => closed + {tag}
      case Abort(t) => if t in joins then closed + {joins[t]} else closed
      case _ => closed
  }

  function WakerAt(table: Table, tok: Token): Option<TaskId> {
    if tok in table && table[tok].Awaited? then Some(table[tok].waker) else None
  }

  /** The task the step submits to the scheduler: a new task, the running one waking itself, or a woken one. */
  function Submits(s: State, step: Step): Option<TaskId> {
    match step
    case ByExecutor(e, act) => if act.Yield? then TaskOf(s, step) else None
    case ByOther(w) =>
      match w
      case Spawn(t, _) => Some(t)
      case HandleEvent =>
        if s.react.batch == [] || s.react.batch[0].WakerEvent? then None
        else WakerAt(s.react.table, s.react.batch[0].tok)
      case LookupTag => if s.react.loop.Lookup? then Find(s.react.tags, s.react.loop.tag) else None
      case WakeClosure(id) => Find(s.pool.closures, id)
      case _ => None
  }

  function NoteSubmitted(submits: Option<TaskId>, aborted: set<TaskId>, submitted: seq<TaskId>): seq<TaskId> {
    if submits.Some? && submits.value !in aborted then submitted + [submits.value] else submitted
  }

  function NoteCollected(step: Step, collected: seq<Event>): seq<Event> {
    if step.ByOther? && step.w.Collect? then collected + step.w.events else collected
  }

  function NoteHandled(batch: seq<Event>, step: Step, handled: seq<Event>): seq<Event> {
    if step.ByOther? && step.w.HandleEvent? && batch != [] then handled + [batch[0]] else handled
  }

  function NoteTagged(sends: map<Sender, SendStage>, step: Step, tagged: seq<Tag>): seq<Tag> {
    if step.ByExecutor? then tagged
    else
      match step.w
      case StrayTag(tag) => tagged + [tag]
      case SendTag(a) => if a in sends then tagged + [sends[a].tag] else tagged
      case _ => tagged
  }

  function NotePopped(ring: seq<Tag>, step: Step, popped: seq<Tag>): seq<Tag> {
    if step.ByOther? && step.w.DrainPop? && ring != [] then popped + [ring[0]] else popped
  }

  function Note(s: State, step: Step, log: Log): Log {
    var task := TaskOf(s, step);
    Log(NoteAborted(step, log.aborted),
        NoteJoins(step, log.joins),
        NoteFinished(task, step, log.finished),
        NotePolls(task, step, log.polls),
        NoteComputed(step, log.computed),
        NoteCaps(step, log.caps),
        NoteSent(task, step, log.joins, log.finished, log.sent),
        NoteClosed(step, log.joins, log.closed),
        NoteSubmitted(Submits(s, step), log.aborted, log.submitted),
        NoteCollected(step, log.collected),
        NoteHandled(s.react.batch, step, log.handled),
        NoteTagged(s.net.sends, step, log.tagged),
        NotePopped(s.react.ring, step, log.popped))
  }

  ghost function LogFrom(s: State, run: seq<Step>, log: Log): Log
    requires Possible(s, run)
    decreases |run|
  {
    if run == [] then log else LogFrom(Apply(s, run[0]), run[1..], Note(s, run[0], log))
  }

  ghost function LogOf(s0: State, run: seq<Step>): Log
    requires Possible(s0, run)
  {
    LogFrom(s0, run, EMPTY_LOG)
  }

  // ---------------------------------------------------------------- agreement

  ghost predicate BodiesAgree(tasks: map<TaskId, Body>, joins: map<TaskId, Tag>, finished: map<TaskId, Value>,
                              polls: map<TaskId, nat>) {
    && tasks.Keys == joins.Keys && finished.Keys <= tasks.Keys && polls.Keys <= tasks.Keys
    && forall t | t in tasks ::
         && tasks[t].join == joins[t] && tasks[t].output == Find(finished, t)
         && tasks[t].polls == (if t in polls then polls[t] else 0)
  }

  ghost predicate OffsAgree(offs: map<OffId, Offload>, computed: map<OffId, Value>) {
    computed.Keys <= offs.Keys && forall id | id in offs :: offs[id].computed == Find(computed, id)
  }

  /** Each channel has its capacity and its sent values, and no more in its queue than fits. */
  ghost predicate ChansAgree(chans: map<Tag, Chan>, caps: map<Tag, nat>, sent: map<Tag, seq<Value>>) {
    && chans.Keys == caps.Keys == sent.Keys
    && forall tag | tag in chans ::
         chans[tag].cap == caps[tag] && chans[tag].sent == sent[tag] && |chans[tag].queue| <= caps[tag]
  }

  ghost predicate Agrees(s: State, log: Log) {
    && s.sched.dead == log.aborted && s.sched.accepted == log.submitted
    && BodiesAgree(s.tasks, log.joins, log.finished, log.polls)
    && OffsAgree(s.pool.offs, log.computed)
    && ChansAgree(s.net.chans, log.caps, log.sent)
    && s.net.closed == log.closed
    && log.handled + s.react.batch == log.collected
    && log.popped + s.react.ring == log.tagged
  }

  // ---------------------------------------------------------------- tasks

  /** What an executor's step may do to the bodies: only its own task's, the output at Finish, the polls at Lock. */
  lemma BodyAct(s: State, e: ExecId, act: Action, u: TaskId)
    requires CanAct(s, e, act) && u in s.tasks
    ensures Act(s, e, act).tasks.Keys == s.tasks.Keys
    ensures var b, b' := s.tasks[u], Act(s, e, act).tasks[u];
      var mine := e in s.execs.held && s.execs.held[e] == u;
      && b'.join == b.join
      && b'.output == (if mine && act.Finish? then Some(act.v) else b.output)
      && b'.polls == b.polls + One(mine && act.Lock?)
  {
    match act
    case RepollLeaf => EffectKeepsTasks(s, s.tasks[s.execs.held[e]].stack[s.execs.phase[e].at], s.execs.held[e]);
    case AwaitLeaf(leaf) => EffectKeepsTasks(s, leaf, s.execs.held[e]);
    case _ =>
  }

  lemma ActKeepsBodies(s: State, e: ExecId, act: Action)
    requires CanAct(s, e, act)
    ensures Act(s, e, act).tasks.Keys == s.tasks.Keys
    ensures act.Finish? || act.Lock? ==> e in s.execs.held && s.execs.held[e] in s.tasks
  {
    if act.RepollLeaf? {
      EffectKeepsTasks(s, s.tasks[s.execs.held[e]].stack[s.execs.phase[e].at], s.execs.held[e]);
    } else if act.AwaitLeaf? {
      EffectKeepsTasks(s, act.leaf, s.execs.held[e]);
    }
  }

  lemma BodiesAct(s: State, e: ExecId, act: Action, joins: map<TaskId, Tag>, finished: map<TaskId, Value>,
                  polls: map<TaskId, nat>)
    requires CanAct(s, e, act) && BodiesAgree(s.tasks, joins, finished, polls)
    ensures var step := ByExecutor(e, act);
      var task := TaskOf(s, step);
      BodiesAgree(Act(s, e, act).tasks, joins, NoteFinished(task, step, finished), NotePolls(task, step, polls))
  {
    ActKeepsBodies(s, e, act);
    forall u | u in s.tasks {
      BodyAct(s, e, act, u);
    }
    NewBodies(s.tasks, Act(s, e, act).tasks, TaskOf(s, ByExecutor(e, act)), ByExecutor(e, act), joins, finished, polls);
  }

  lemma NewBodies(tasks: map<TaskId, Body>, tasks': map<TaskId, Body>, task: Option<TaskId>, step: Step,
                  joins: map<TaskId, Tag>, finished: map<TaskId, Value>, polls: map<TaskId, nat>)
    requires BodiesAgree(tasks, joins, finished, polls) && tasks'.Keys == tasks.Keys && step.ByExecutor?
    requires step.act.Finish? || step.act.Lock? ==> task.Some? && task.value in tasks
    requires forall u | u in tasks ::
               && tasks'[u].join == tasks[u].join
               && tasks'[u].output ==
                    (if task == Some(u) && step.act.Finish? then Some(step.act.v) else tasks[u].output)
               && tasks'[u].polls == tasks[u].polls + One(task == Some(u) && step.act.Lock?)
    ensures BodiesAgree(tasks', joins, NoteFinished(task, step, finished), NotePolls(task, step, polls))
  {}

  lemma BodiesOther(s: State, w: Other, joins: map<TaskId, Tag>, finished: map<TaskId, Value>, polls: map<TaskId, nat>)
    requires CanHappen(s, w) && BodiesAgree(s.tasks, joins, finished, polls)
    ensures BodiesAgree(Happen(s, w).tasks, NoteJoins(ByOther(w), joins), finished, polls)
  {
    forall u | u in s.tasks {
      BodyOther(s, w, u);
    }
    TasksOther(s, w);
    MoreBodies(s.tasks, Happen(s, w).tasks, ByOther(w), joins, finished, polls);
  }

  lemma BodyOther(s: State, w: Other, u: TaskId)
    requires CanHappen(s, w) && u in s.tasks
    ensures u in Happen(s, w).tasks
    ensures var b, b' := s.tasks[u], Happen(s, w).tasks[u];
      b'.join == b.join && b'.output == b.output && b'.polls == b.polls
  {
    OtherThread(s, w, u);
  }

  lemma MoreBodies(tasks: map<TaskId, Body>, tasks': map<TaskId, Body>, step: Step, joins: map<TaskId, Tag>,
                   finished: map<TaskId, Value>, polls: map<TaskId, nat>)
    requires BodiesAgree(tasks, joins, finished, polls) && step.ByOther?
    requires tasks'.Keys == (if step.w.Spawn? then tasks.Keys + {step.w.t} else tasks.Keys)
    requires step.w.Spawn? ==>
               step.w.t !in tasks && tasks'[step.w.t] == Body(true, [Runnable], None, step.w.tag, None, 0)
    requires forall u | u in tasks ::
               && tasks'[u].join == tasks[u].join && tasks'[u].output == tasks[u].output
               && tasks'[u].polls == tasks[u].polls
    ensures BodiesAgree(tasks', NoteJoins(step, joins), finished, polls)
  {}

  lemma TasksOther(s: State, w: Other)
    requires CanHappen(s, w)
    ensures Happen(s, w).tasks.Keys == (if w.Spawn? then s.tasks.Keys + {w.t} else s.tasks.Keys)
    ensures w.Spawn? ==> w.t !in s.tasks && Happen(s, w).tasks[w.t] == Body(true, [Runnable], None, w.tag, None, 0)
  {}

  // ---------------------------------------------------------------- aborts and submissions

  /** The scheduler's history and its abort flags. */
  ghost predicate SameRecords(c: Sched, d: Sched) {
    d.dead == c.dead && d.accepted == c.accepted
  }

  lemma SchedAct(s: State, e: ExecId, act: Action)
    requires CanAct(s, e, act) && !act.Yield?
    ensures SameRecords(s.sched, Act(s, e, act).sched)
  {
    match act
    case RepollLeaf => EffectRecords(s, s.tasks[s.execs.held[e]].stack[s.execs.phase[e].at], s.execs.held[e]);
    case AwaitLeaf(leaf) => EffectRecords(s, leaf, s.execs.held[e]);
    case Ready => ReadyRecords(s.sched, e);
    case _ => SchedRest(s, e, act);
  }

  lemma EffectRecords(s: State, leaf: Leaf, t: TaskId)
    ensures SameRecords(s.sched, PollEffect(s, leaf, t).sched)
  {}

  lemma SchedRest(s: State, e: ExecId, act: Action)
    requires CanAct(s, e, act) && !act.Yield? && !act.RepollLeaf? && !act.AwaitLeaf? && !act.Ready?
    ensures SameRecords(s.sched, Act(s, e, act).sched)
  {}

  lemma {:induction false} ReadyRecords(c: Sched, e: ExecId)
    ensures SameRecords(c, ExecutorReady(c, e))
    decreases |c.waiting|
  {
    if c.waiting != [] && c.waiting[0] in c.dead {
      ReadyRecords(Discard(c), e);
    }
  }

  lemma RegisterRecords(c: Sched, t: TaskId)
    ensures Register(c, t).dead == c.dead && WakeByRef(c, t).dead == c.dead
    ensures Register(c, t).accepted == WakeByRef(c, t).accepted == NoteSubmitted(Some(t), c.dead, c.accepted)
  {}

  lemma SchedOther(s: State, w: Other)
    requires CanHappen(s, w)
    ensures Happen(s, w).sched.dead == NoteAborted(ByOther(w), s.sched.dead)
    ensures Happen(s, w).sched.accepted == NoteSubmitted(Submits(s, ByOther(w)), s.sched.dead, s.sched.accepted)
  {
    match w
    case Spawn(t, _) => RegisterRecords(s.sched.(strong := s.sched.strong[t := 1]), t);
    case HandleEvent => HandleRecords(s);
    case LookupTag =>
      if s.react.loop.tag in s.react.tags {
        RegisterRecords(s.sched, s.react.tags[s.react.loop.tag]);
      }
    case WakeClosure(id) => RegisterRecords(s.sched, s.pool.closures[id]);
    case _ =>
  }

  lemma HandleRecords(s: State)
    requires s.react.batch != []
    ensures DoHandle(s).sched.dead == s.sched.dead
    ensures DoHandle(s).sched.accepted
         == NoteSubmitted(Submits(s, ByOther(HandleEvent)), s.sched.dead, s.sched.accepted)
  {
    if s.react.batch[0].TokenEvent? && WakerAt(s.react.table, s.react.batch[0].tok).Some? {
      RegisterRecords(s.sched, s.react.table[s.react.batch[0].tok].waker);
    }
  }

  // ---------------------------------------------------------------- offloads

  lemma OffsAct(s: State, e: ExecId, act: Action, computed: map<OffId, Value>)
    requires CanAct(s, e, act) && OffsAgree(s.pool.offs, computed)
    ensures OffsAgree(Act(s, e, act).pool.offs, computed)
  {
    match act
    case RepollLeaf => EffectOffs(s, s.tasks[s.execs.held[e]].stack[s.execs.phase[e].at], s.execs.held[e], computed);
    case AwaitLeaf(leaf) => EffectOffs(s, leaf, s.execs.held[e], computed);
    case _ =>
  }

  lemma EffectOffs(s: State, leaf: Leaf, t: TaskId, computed: map<OffId, Value>)
    requires OffsAgree(s.pool.offs, computed)
    ensures OffsAgree(PollEffect(s, leaf, t).pool.offs, computed)
  {}

  lemma OffsOther(s: State, w: Other, computed: map<OffId, Value>)
    requires CanHappen(s, w) && OffsAgree(s.pool.offs, computed)
    ensures OffsAgree(Happen(s, w).pool.offs, NoteComputed(ByOther(w), computed))
  {}

  // ---------------------------------------------------------------- channels

  lemma PollAgrees(chans: map<Tag, Chan>, caps: map<Tag, nat>, sent: map<Tag, seq<Value>>, tag: Tag)
    requires ChansAgree(chans, caps, sent) && tag in chans
    ensures ChansAgree(chans[tag := PollChan(chans[tag])], caps, sent)
  {}

  lemma EnqueueAgrees(chans: map<Tag, Chan>, caps: map<Tag, nat>, sent: map<Tag, seq<Value>>, tag: Tag, v: Value)
    requires ChansAgree(chans, caps, sent) && tag in chans && |chans[tag].queue| < chans[tag].cap
    ensures ChansAgree(chans[tag := Enqueue(chans[tag], v)], caps, Append(sent, tag, v))
  {}

  lemma NewAgrees(chans: map<Tag, Chan>, caps: map<Tag, nat>, sent: map<Tag, seq<Value>>, tag: Tag, cap: nat)
    requires ChansAgree(chans, caps, sent) && tag !in chans
    ensures ChansAgree(chans[tag := NewChan(cap)], caps[tag := cap], sent[tag := []])
  {}

  lemma EffectChans(s: State, leaf: Leaf, t: TaskId, caps: map<Tag, nat>, sent: map<Tag, seq<Value>>)
    requires ChansAgree(s.net.chans, caps, sent)
    ensures var r := PollEffect(s, leaf, t);
      ChansAgree(r.net.chans, caps, sent) && r.net.closed == s.net.closed
  {
    if leaf.RecvLeaf? && leaf.tag in s.net.chans {
      PollAgrees(s.net.chans, caps, sent, leaf.tag);
    }
  }

  /** An executor's step sends only at JoinSend, and what the task's future evaluated to. */
  lemma ChansAct(s: State, e: ExecId, act: Action, caps: map<Tag, nat>, sent: map<Tag, seq<Value>>)
    requires CanAct(s, e, act) && !act.JoinSend? && ChansAgree(s.net.chans, caps, sent)
    ensures ChansAgree(Act(s, e, act).net.chans, caps, sent) && Act(s, e, act).net.closed == s.net.closed
  {
    match act
    case RepollLeaf => RepollChans(s, e, caps, sent);
    case AwaitLeaf(leaf) => AwaitChans(s, e, leaf, caps, sent);
    case _ => SameNet(s, e, act);
  }

  lemma RepollChans(s: State, e: ExecId, caps: map<Tag, nat>, sent: map<Tag, seq<Value>>)
    requires CanRepoll(s, e) && ChansAgree(s.net.chans, caps, sent)
    ensures ChansAgree(DoRepoll(s, e).net.chans, caps, sent) && DoRepoll(s, e).net.closed == s.net.closed
  {
    EffectChans(s, s.tasks[s.execs.held[e]].stack[s.execs.phase[e].at], s.execs.held[e], caps, sent);
  }

  lemma AwaitChans(s: State, e: ExecId, leaf: Leaf, caps: map<Tag, nat>, sent: map<Tag, seq<Value>>)
    requires CanAwait(s, e, leaf) && ChansAgree(s.net.chans, caps, sent)
    ensures ChansAgree(DoAwait(s, e, leaf).net.chans, caps, sent) && DoAwait(s, e, leaf).net.closed == s.net.closed
  {
    EffectChans(s, leaf, s.execs.held[e], caps, sent);
  }

  lemma SameNet(s: State, e: ExecId, act: Action)
    requires CanAct(s, e, act) && !act.RepollLeaf? && !act.AwaitLeaf? && !act.JoinSend?
    ensures Act(s, e, act).net == s.net
  {}

  lemma JoinChans(s: State, e: ExecId, joins: map<TaskId, Tag>, finished: map<TaskId, Value>, polls: map<TaskId, nat>,
                  caps: map<Tag, nat>, sent: map<Tag, seq<Value>>)
    requires CanJoin(s, e) && BodiesAgree(s.tasks, joins, finished, polls) && ChansAgree(s.net.chans, caps, sent)
    ensures var step := ByExecutor(e, JoinSend);
      ChansAgree(DoJoin(s, e).net.chans, caps, NoteSent(TaskOf(s, step), step, joins, finished, sent))
    ensures DoJoin(s, e).net.closed == s.net.closed
  {
    var t := s.execs.held[e];
    EnqueueAgrees(s.net.chans, caps, sent, joins[t], finished[t]);
  }

  lemma ChansOther(s: State, w: Other, joins: map<TaskId, Tag>, finished: map<TaskId, Value>, caps: map<Tag, nat>,
                   sent: map<Tag, seq<Value>>)
    requires CanHappen(s, w) && ChansAgree(s.net.chans, caps, sent)
    ensures var step := ByOther(w);
      ChansAgree(Happen(s, w).net.chans, NoteCaps(step, caps), NoteSent(None, step, joins, finished, sent))
  {
    match w
    case NewChannel(tag, cap) => NewAgrees(s.net.chans, caps, sent, tag, cap);
    case Spawn(_, tag) => NewAgrees(s.net.chans, caps, sent, tag, 1);
    case SendEnqueue(_, tag, v) => EnqueueAgrees(s.net.chans, caps, sent, tag, v);
    case SendCount(a) => assert s.net.sends[a].tag in s.net.chans;
    case _ => SameChans(s, w);
  }

  lemma SameChans(s: State, w: Other)
    requires CanHappen(s, w) && !w.NewChannel? && !w.Spawn? && !w.SendEnqueue? && !w.SendCount?
    ensures Happen(s, w).net.chans == s.net.chans
  {}

  lemma ClosedOther(s: State, w: Other, joins: map<TaskId, Tag>, finished: map<TaskId, Value>, polls: map<TaskId, nat>)
    requires CanHappen(s, w) && BodiesAgree(s.tasks, joins, finished, polls)
    ensures Happen(s, w).net.closed == NoteClosed(ByOther(w), joins, s.net.closed)
  {}

  // ---------------------------------------------------------------- events and tags

  lemma ReactorNoted(s: State, e: ExecId, act: Action)
    requires CanAct(s, e, act)
    ensures Act(s, e, act).react.batch == s.react.batch && Act(s, e, act).react.ring == s.react.ring
  {
    match act
    case RepollLeaf => EffectQueues(s, s.tasks[s.execs.held[e]].stack[s.execs.phase[e].at], s.execs.held[e]);
    case AwaitLeaf(leaf) => EffectQueues(s, leaf, s.execs.held[e]);
    case _ =>
  }

  lemma EffectQueues(s: State, leaf: Leaf, t: TaskId)
    ensures PollEffect(s, leaf, t).react.batch == s.react.batch && PollEffect(s, leaf, t).react.ring == s.react.ring
  {}

  lemma QueuesOther(s: State, w: Other, log: Log)
    requires CanHappen(s, w)
    requires log.handled + s.react.batch == log.collected && log.popped + s.react.ring == log.tagged
    ensures NoteHandled(s.react.batch, ByOther(w), log.handled) + Happen(s, w).react.batch
         == NoteCollected(ByOther(w), log.collected)
    ensures NotePopped(s.react.ring, ByOther(w), log.popped) + Happen(s, w).react.ring
         == NoteTagged(s.net.sends, ByOther(w), log.tagged)
  {
    var batch, ring := s.react.batch, s.react.ring;
    match w
    case HandleEvent => assert log.handled + batch == (log.handled + [batch[0]]) + batch[1..];
    case DrainPop => assert ring != [] ==> log.popped + ring == (log.popped + [ring[0]]) + ring[1..];
    case StrayTag(tag) => assert log.popped + (ring + [tag]) == (log.popped + ring) + [tag];
    case SendTag(a) =>
      assert log.popped + (ring + [s.net.sends[a].tag]) == (log.popped + ring) + [s.net.sends[a].tag];
    case _ =>
  }

  // ---------------------------------------------------------------- runs

  lemma SchedNoted(s: State, e: ExecId, act: Action)
    requires CanAct(s, e, act)
    ensures Act(s, e, act).sched.dead == s.sched.dead
    ensures Act(s, e, act).sched.accepted
         == NoteSubmitted(Submits(s, ByExecutor(e, act)), s.sched.dead, s.sched.accepted)
  {
    if act.Yield? {
      RegisterRecords(s.sched, s.execs.held[e]);
    } else {
      SchedAct(s, e, act);
    }
  }

  lemma ChansNoted(s: State, e: ExecId, act: Action, log: Log)
    requires CanAct(s, e, act) && BodiesAgree(s.tasks, log.joins, log.finished, log.polls)
    requires ChansAgree(s.net.chans, log.caps, log.sent)
    ensures var step := ByExecutor(e, act);
      ChansAgree(Act(s, e, act).net.chans, log.caps, NoteSent(TaskOf(s, step), step, log.joins, log.finished, log.sent))
    ensures Act(s, e, act).net.closed == s.net.closed
  {
    if act.JoinSend? {
      JoinChans(s, e, log.joins, log.finished, log.polls, log.caps, log.sent);
    } else {
      ChansAct(s, e, act, log.caps, log.sent);
    }
  }

  lemma AgreesAct(s: State, e: ExecId, act: Action, log: Log)
    requires CanAct(s, e, act) && Agrees(s, log)
    ensures Agrees(Act(s, e, act), Note(s, ByExecutor(e, act), log))
  {
    BodiesAct(s, e, act, log.joins, log.finished, log.polls);
    OffsAct(s, e, act, log.computed);
    SchedNoted(s, e, act);
    ChansNoted(s, e, act, log);
    ReactorNoted(s, e, act);
  }

  lemma AgreesOther(s: State, w: Other, log: Log)
    requires CanHappen(s, w) && Agrees(s, log)
    ensures Agrees(Happen(s, w), Note(s, ByOther(w), log))
  {
    BodiesOther(s, w, log.joins, log.finished, log.polls);
    SchedOther(s, w);
    OffsOther(s, w, log.computed);
    ChansOther(s, w, log.joins, log.finished, log.caps, log.sent);
    ClosedOther(s, w, log.joins, log.finished, log.polls);
    QueuesOther(s, w, log);
  }

  lemma {:induction false} AgreesFrom(s: State, run: seq<Step>, log: Log)
    requires Possible(s, run) && Agrees(s, log)
    ensures Agrees(After(s, run), LogFrom(s, run, log))
    decreases |run|
  {
    if run != [] {
      match run[0] {
        case ByExecutor(e, act) => AgreesAct(s, e, act, log);
        case ByOther(w) => AgreesOther(s, w, log);
      }
      AgreesFrom(Apply(s, run[0]), run[1..], Note(s, run[0], log));
    }
  }

  /** In every run from build, the runtime's records are what the steps of the run say. */
  lemma {:induction false} RecordsAgree(s0: State, run: seq<Step>)
    requires Init(s0) && Possible(s0, run)
    ensures Agrees(After(s0, run), LogOf(s0, run))
  {
    AgreesFrom(s0, run, EMPTY_LOG);
  }
}
