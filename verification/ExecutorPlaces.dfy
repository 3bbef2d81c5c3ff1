/**
  The task manager with its ring and send operations interleaved: every executor is in exactly one
  place, so dispatch never blocks and the idle ring never overflows. Work conservation holds until a
  submission that found no idle executor and an executor that found no task stand before their pushes
  at the same time, and no longer.
 */
module ExecutorPlaces {
  import opened Types
  import opened Scheduler

  const IDLE_CAPACITY: nat := 128 * 1000
  const INBOX_CAPACITY: nat := 10_000

  datatype Place =
    | AtRecv               // blocked on its inbox, or about to take its one message
    | Busy                 // forwarding a task
    | Popping              // in executor_ready, about to pop waiting_tasks
    | GotTask(t: TaskId)   // popped a live task, about to send it to itself
    | GotNone              // found waiting_tasks empty, about to push itself onto the idle ring

  datatype Submitter =
    | Checked(t: TaskId)             // the task was not aborted
    | Popped(e: ExecId, t: TaskId)   // popped an idle executor, about to send
    | NoExecutor(t: TaskId)          // found no idle executor, about to push the task

  datatype Split = Split(
    place: map<ExecId, Place>,
    inbox: map<ExecId, seq<TaskId>>,
    idle: seq<ExecId>,
    waiting: seq<TaskId>,
    subs: map<nat, Submitter>,
    dead: set<TaskId>)

  datatype Move =
    | Receive(e: ExecId) | EndPoll(e: ExecId) | PopTask(e: ExecId) | SendSelf(e: ExecId) | PushIdle(e: ExecId)
    | Submit(k: nat, t: TaskId) | PopExecutor(k: nat) | SendOther(k: nat) | PushTask(k: nat)
    | Abort(t: TaskId)

  predicate CanMove(s: Split, m: Move) {
    match m
    case Receive(e) => e in s.place && e in s.inbox && s.place[e].AtRecv? && s.inbox[e] != []
    case EndPoll(e) => e in s.place && s.place[e].Busy?
    case PopTask(e) => e in s.place && s.place[e].Popping?
    case SendSelf(e) => e in s.place && e in s.inbox && s.place[e].GotTask? && |s.inbox[e]| < INBOX_CAPACITY
    case PushIdle(e) => e in s.place && s.place[e].GotNone? && |s.idle| < IDLE_CAPACITY
    case Submit(k, t) => k !in s.subs && t !in s.dead
    case PopExecutor(k) => k in s.subs && s.subs[k].Checked?
    case SendOther(k) =>
      k in s.subs && s.subs[k].Popped? && s.subs[k].e in s.inbox && |s.inbox[s.subs[k].e]| < INBOX_CAPACITY
    case PushTask(k) => k in s.subs && s.subs[k].NoExecutor?
    case Abort(_) => true
  }

  function Moved(s: Split, m: Move): Split
    requires CanMove(s, m)
  {
    match m
    case Receive(e) => s.(place := s.place[e := Busy], inbox := s.inbox[e := s.inbox[e][1..]])
    case EndPoll(e) => s.(place := s.place[e := Popping])
    case PopTask(e) =>
      if s.waiting == [] then s.(place := s.place[e := GotNone])
      else if s.waiting[0] in s.dead then s.(waiting := s.waiting[1..])
      else s.(place := s.place[e := GotTask(s.waiting[0])], waiting := s.waiting[1..])
    case SendSelf(e) => s.(place := s.place[e := AtRecv], inbox := s.inbox[e := s.inbox[e] + [s.place[e].t]])
    case PushIdle(e) => s.(place := s.place[e := AtRecv], idle := s.idle + [e])
    case Submit(k, t) => s.(subs := s.subs[k := Checked(t)])
    case PopExecutor(k) =>
      if s.idle == [] then s.(subs := s.subs[k := NoExecutor(s.subs[k].t)])
      else s.(subs := s.subs[k := Popped(s.idle[0], s.subs[k].t)], idle := s.idle[1..])
    case SendOther(k) =>
      var e := s.subs[k].e;
      s.(inbox := s.inbox[e := s.inbox[e] + [s.subs[k].t]], subs := s.subs - {k})
    case PushTask(k) => s.(waiting := s.waiting + [s.subs[k].t], subs := s.subs - {k})
    case Abort(t) => s.(dead := s.dead + {t})
  }

  /** Submitter k has popped e. */
  predicate Holds(s: Split, k: nat, e: ExecId) {
    k in s.subs && s.subs[k].Popped? && s.subs[k].e == e
  }

  /**
    Exactly one of: once in the idle ring, popped by one submitter, one message in its inbox, or
    away from its inbox.
   */
  ghost predicate InOnePlace(s: Split, e: ExecId) {
    && e in s.place && e in s.inbox
    && (e in s.idle ==> s.place[e].AtRecv? && s.inbox[e] == [] && forall k :: !Holds(s, k, e))
    && (forall k :: Holds(s, k, e) ==> s.place[e].AtRecv? && s.inbox[e] == [])
    && (forall j, k :: Holds(s, j, e) && Holds(s, k, e) ==> j == k)
    && (if s.place[e].AtRecv?
        then |s.inbox[e]| <= 1 && (s.inbox[e] == [] ==> e in s.idle || exists k :: Holds(s, k, e))
        else s.inbox[e] == [])
  }

  ghost predicate Conserved(s: Split) {
    && NoDup(s.idle)
    && (forall e | e in s.idle :: e in s.place)
    && (forall k | k in s.subs && s.subs[k].Popped? :: s.subs[k].e in s.place)
    && (forall e | e in s.place :: InOnePlace(s, e))
  }

  lemma ConservedExecutor(s: Split, m: Move, f: ExecId)
    requires Conserved(s) && CanMove(s, m) && f in s.place
    requires m.Receive? || m.EndPoll? || m.PopTask? || m.SendSelf? || m.PushIdle?
    ensures InOnePlace(Moved(s, m), f)
  {
    var s' := Moved(s, m);
    assert InOnePlace(s, f) && InOnePlace(s, m.e);
    assert forall k :: Holds(s', k, f) <==> Holds(s, k, f);
  }

  lemma ConservedPop(s: Split, k: nat, f: ExecId)
    requires Conserved(s) && CanMove(s, PopExecutor(k)) && f in s.place
    ensures InOnePlace(Moved(s, PopExecutor(k)), f)
  {
    var s' := Moved(s, PopExecutor(k));
    assert InOnePlace(s, f);
    assert forall j :: Holds(s', j, f) <==> if j == k then s.idle != [] && s.idle[0] == f else Holds(s, j, f);
    if s.idle != [] {
      assert f in s'.idle ==> f in s.idle && f != s.idle[0];
      assert f in s.idle && f != s.idle[0] ==> f in s'.idle;
      if f == s.idle[0] {
        assert Holds(s', k, f);
      } else if s.inbox[f] == [] && s.place[f].AtRecv? && f !in s.idle {
        var j :| Holds(s, j, f);
        assert Holds(s', j, f);
      }
    }
  }

  lemma ConservedSend(s: Split, k: nat, f: ExecId)
    requires Conserved(s) && CanMove(s, SendOther(k)) && f in s.place
    ensures InOnePlace(Moved(s, SendOther(k)), f)
  {
    var s' := Moved(s, SendOther(k));
    assert Holds(s, k, s.subs[k].e);
    assert InOnePlace(s, f);
    assert forall j :: Holds(s', j, f) <==> j != k && Holds(s, j, f);
    if f != s.subs[k].e && s.inbox[f] == [] && s.place[f].AtRecv? && f !in s.idle {
      var j :| Holds(s, j, f);
      assert Holds(s', j, f);
    }
  }

  lemma ConservedRest(s: Split, m: Move, f: ExecId)
    requires Conserved(s) && CanMove(s, m) && f in s.place && (m.Submit? || m.PushTask? || m.Abort?)
    ensures InOnePlace(Moved(s, m), f)
  {
    assert InOnePlace(s, f);
    assert forall j :: Holds(Moved(s, m), j, f) <==> Holds(s, j, f);
  }

  lemma ConservedStep(s: Split, m: Move)
    requires Conserved(s) && CanMove(s, m)
    ensures Conserved(Moved(s, m)) && Moved(s, m).place.Keys == s.place.Keys
  {
    forall f | f in s.place ensures InOnePlace(Moved(s, m), f) {
      match m
      case PopExecutor(k) => ConservedPop(s, k, f);
      case SendOther(k) => ConservedSend(s, k, f);
      case Submit(_, _) | PushTask(_) | Abort(_) => ConservedRest(s, m, f);
      case _ => ConservedExecutor(s, m, f);
    }
    RingsKeep(s, m);
  }

  /** The idle ring has no duplicate, and it and the submitters name registered executors. */
  lemma RingsKeep(s: Split, m: Move)
    requires Conserved(s) && CanMove(s, m)
    ensures var s' := Moved(s, m);
      && s'.place.Keys == s.place.Keys && NoDup(s'.idle) && (forall e | e in s'.idle :: e in s'.place)
      && (forall k | k in s'.subs && s'.subs[k].Popped? :: s'.subs[k].e in s'.place)
  {
    if m.PushIdle? {
      assert InOnePlace(s, m.e);
    }
  }

  ghost predicate CanAll(s: Split, moves: seq<Move>)
    decreases |moves|
  {
    moves == [] || (CanMove(s, moves[0]) && CanAll(Moved(s, moves[0]), moves[1..]))
  }

  ghost function MovedAll(s: Split, moves: seq<Move>): Split
    requires CanAll(s, moves)
    decreases |moves|
  {
    if moves == [] then s else MovedAll(Moved(s, moves[0]), moves[1..])
  }

  /** After registration every executor is idle. */
  ghost predicate Registered(s: Split) {
    && NoDup(s.idle) && s.waiting == [] && s.subs == map[]
    && (forall e :: e in s.place <==> e in s.idle)
    && (forall e | e in s.place :: s.place[e].AtRecv? && e in s.inbox && s.inbox[e] == [])
  }

  lemma {:induction false} ConservedRun(s: Split, moves: seq<Move>)
    requires Conserved(s) && CanAll(s, moves)
    ensures Conserved(MovedAll(s, moves)) && MovedAll(s, moves).place.Keys == s.place.Keys
    decreases |moves|
  {
    if moves != [] {
      ConservedStep(s, moves[0]);
      ConservedRun(Moved(s, moves[0]), moves[1..]);
    }
  }

  lemma SelfSendFits(s: Split, e: ExecId)
    requires Conserved(s) && |s.place| <= IDLE_CAPACITY && e in s.place
    ensures |s.inbox[e]| <= 1
    ensures s.place[e].GotTask? ==> CanMove(s, SendSelf(e)) && s.inbox[e] == []
    ensures s.place[e].GotNone? ==> CanMove(s, PushIdle(e))
  {
    assert InOnePlace(s, e);
    if s.place[e].GotNone? {
      NoDupSize(s.idle, s.place.Keys - {e});
    }
  }

  lemma OtherSendFits(s: Split, k: nat)
    requires Conserved(s) && k in s.subs && s.subs[k].Popped?
    ensures CanMove(s, SendOther(k)) && s.inbox[s.subs[k].e] == []
  {
    assert Holds(s, k, s.subs[k].e) && InOnePlace(s, s.subs[k].e);
  }

  /**
    In every interleaving every executor is in one place, a send finds an empty inbox, and a push onto the
    idle ring finds room.
   */
  lemma DispatchNeverBlocks(s0: Split, moves: seq<Move>)
    requires Registered(s0) && |s0.place| <= IDLE_CAPACITY && CanAll(s0, moves)
    ensures var s := MovedAll(s0, moves);
      && s.place.Keys == s0.place.Keys && NoDup(s.idle)
      && (forall e | e in s.place :: InOnePlace(s, e))
      && (forall e | e in s.place && s.place[e].GotTask? :: CanMove(s, SendSelf(e)) && s.inbox[e] == [])
      && (forall e | e in s.place && s.place[e].GotNone? :: CanMove(s, PushIdle(e)))
      && (forall k | k in s.subs && s.subs[k].Popped? :: CanMove(s, SendOther(k)) && s.inbox[s.subs[k].e] == [])
  {
    ConservedRun(s0, moves);
    var s := MovedAll(s0, moves);
    forall e | e in s.place {
      SelfSendFits(s, e);
    }
    forall k | k in s.subs && s.subs[k].Popped? {
      OtherSendFits(s, k);
    }
  }

  // ---------------------------------------------------------------- work conservation at this grain

  ghost predicate Conserving(s: Split) {
    s.waiting == [] || s.idle == []
  }

  /** Submitter k found no idle executor, executor e found no task, and neither has pushed yet. */
  predicate Crossed(s: Split, k: nat, e: ExecId) {
    k in s.subs && s.subs[k].NoExecutor? && e in s.place && s.place[e].GotNone?
  }

  ghost predicate Overlap(s: Split) {
    exists k, e :: Crossed(s, k, e)
  }

  /** Besides work conservation: what the callers between a failed pop and their push found is still so. */
  ghost predicate Guarded(s: Split) {
    && Conserving(s)
    && ((exists k :: k in s.subs && s.subs[k].NoExecutor?) ==> s.idle == [])
    && ((exists e :: e in s.place && s.place[e].GotNone?) ==> s.waiting == [])
  }

  lemma GuardedStep(s: Split, m: Move)
    requires Guarded(s) && !Overlap(s) && CanMove(s, m)
    ensures Guarded(Moved(s, m))
  {
    var s' := Moved(s, m);
    forall k | k in s'.subs && s'.subs[k].NoExecutor? ensures s'.idle == [] {
      if m.PushIdle? {
        assert Crossed(s, k, m.e);
      }
    }
    forall e | e in s'.place && s'.place[e].GotNone? ensures s'.waiting == [] {
      if m.PushTask? {
        assert Crossed(s, m.k, e);
      }
    }
  }

  /** No state before the last of the run has a submission and an executor_ready call crossed. */
  ghost predicate NeverOverlaps(s: Split, moves: seq<Move>)
    requires CanAll(s, moves)
    decreases |moves|
  {
    moves == [] || (!Overlap(s) && NeverOverlaps(Moved(s, moves[0]), moves[1..]))
  }

  lemma {:induction false} GuardedRun(s: Split, moves: seq<Move>)
    requires Guarded(s) && CanAll(s, moves) && NeverOverlaps(s, moves)
    ensures Guarded(MovedAll(s, moves))
    decreases |moves|
  {
    if moves != [] {
      GuardedStep(s, moves[0]);
      GuardedRun(Moved(s, moves[0]), moves[1..]);
    }
  }

  /** The two pushes are possible next, and leave both rings non-empty. */
  ghost predicate Strands(s: Split, k: nat, e: ExecId) {
    && CanMove(s, PushIdle(e)) && CanMove(Moved(s, PushIdle(e)), PushTask(k))
    && !Conserving(Moved(Moved(s, PushIdle(e)), PushTask(k)))
  }

  /**
    Work conservation over runs: it holds as long as no submission and executor_ready call have
    crossed, and the first crossing is exactly what lets two pushes strand a task.
   */
  lemma {:induction false} ConservingUntilCrossed(s0: Split, moves: seq<Move>)
    requires Registered(s0) && CanAll(s0, moves) && NeverOverlaps(s0, moves)
    ensures var s := MovedAll(s0, moves);
      Conserving(s) && forall k, e :: Crossed(s, k, e) <==> Strands(s, k, e)
  {
    GuardedRun(s0, moves);
  }

  lemma {:induction false} ThenMove(s0: Split, moves: seq<Move>, m: Move)
    requires CanAll(s0, moves) && CanMove(MovedAll(s0, moves), m)
    ensures CanAll(s0, moves + [m]) && MovedAll(s0, moves + [m]) == Moved(MovedAll(s0, moves), m)
    decreases |moves|
  {
    if moves == [] {
      assert [m][1..] == [];
      assert moves + [m] == [m];
      assert CanAll(Moved(s0, m), []);
    } else {
      assert (moves + [m])[1..] == moves[1..] + [m];
      ThenMove(Moved(s0, moves[0]), moves[1..], m);
    }
  }

  /** The only executor receives a first task and polls it. */
  lemma ServeOne(e: ExecId, first: TaskId) returns (s0: Split, moves: seq<Move>)
    ensures Registered(s0) && CanAll(s0, moves)
    ensures MovedAll(s0, moves) == Split(map[e := Popping], map[e := []], [], [], map[], {})
  {
    s0 := Split(map[e := AtRecv], map[e := []], [e], [], map[], {});
    ThenMove(s0, [], Submit(0, first));
    moves := [] + [Submit(0, first)];
    ThenMove(s0, moves, PopExecutor(0));
    moves := moves + [PopExecutor(0)];
    ThenMove(s0, moves, SendOther(0));
    moves := moves + [SendOther(0)];
    assert MovedAll(s0, moves).inbox[e] == [first];
    ThenMove(s0, moves, Receive(e));
    moves := moves + [Receive(e)];
    ThenMove(s0, moves, EndPoll(e));
    moves := moves + [EndPoll(e)];
  }

  /** From registration, with one executor: its executor_ready call crosses the second submission. */
  lemma StrandedTask(e: ExecId, first: TaskId, t: TaskId) returns (s0: Split, moves: seq<Move>)
    ensures Registered(s0) && CanAll(s0, moves)
    ensures MovedAll(s0, moves).waiting == [t] && MovedAll(s0, moves).idle == [e]
  {
    s0, moves := ServeOne(e, first);
    ThenMove(s0, moves, PopTask(e));
    moves := moves + [PopTask(e)];
    ThenMove(s0, moves, Submit(1, t));
    moves := moves + [Submit(1, t)];
    ThenMove(s0, moves, PopExecutor(1));
    moves := moves + [PopExecutor(1)];
    ThenMove(s0, moves, PushIdle(e));
    moves := moves + [PushIdle(e)];
    ThenMove(s0, moves, PushTask(1));
    moves := moves + [PushTask(1)];
  }

  // ---------------------------------------------------------------- the two methods as whole calls

  /** The two models agree on the rings, the inboxes and the abort flags. */
  predicate Matches(s: Split, c: Sched) {
    s.waiting == c.waiting && s.idle == c.idle && s.inbox == c.inbox && s.dead == c.dead
  }

  /** The moves of one submission, made without interruption, do what the whole call does. */
  lemma SubmissionIsRegister(s: Split, c: Sched, k: nat, t: TaskId) returns (moves: seq<Move>)
    requires Conserved(s) && Matches(s, c) && k !in s.subs && t !in s.dead
    ensures CanAll(s, moves) && Matches(MovedAll(s, moves), Register(c, t))
    ensures MovedAll(s, moves).place == s.place && MovedAll(s, moves).subs == s.subs
  {
    ThenMove(s, [], Submit(k, t));
    moves := [] + [Submit(k, t)];
    ThenMove(s, moves, PopExecutor(k));
    moves := moves + [PopExecutor(k)];
    if s.idle == [] {
      ThenMove(s, moves, PushTask(k));
      moves := moves + [PushTask(k)];
    } else {
      assert InOnePlace(s, s.idle[0]);
      ThenMove(s, moves, SendOther(k));
      moves := moves + [SendOther(k)];
    }
    assert MovedAll(s, moves).subs == s.subs;
  }

  lemma {:induction false} CallIsReady(s: Split, c: Sched, e: ExecId) returns (moves: seq<Move>)
    requires Matches(s, c) && e in s.place && s.place[e].Popping? && e in s.inbox && s.inbox[e] == []
    requires |s.idle| < IDLE_CAPACITY
    ensures CanAll(s, moves) && Matches(MovedAll(s, moves), ExecutorReady(c, e))
    ensures MovedAll(s, moves).place == s.place[e := AtRecv] && MovedAll(s, moves).subs == s.subs
    decreases |s.waiting|
  {
    ThenMove(s, [], PopTask(e));
    moves := [] + [PopTask(e)];
    var s1 := MovedAll(s, moves);
    if s.waiting == [] {
      ThenMove(s, moves, PushIdle(e));
      moves := moves + [PushIdle(e)];
    } else if s.waiting[0] in s.dead {
      var rest := CallIsReady(s1, Discard(c), e);
      MovesJoin(s, moves, rest);
      moves := moves + rest;
    } else {
      ThenMove(s, moves, SendSelf(e));
      moves := moves + [SendSelf(e)];
    }
  }

  lemma {:induction false} MovesJoin(s: Split, first: seq<Move>, second: seq<Move>)
    requires CanAll(s, first) && CanAll(MovedAll(s, first), second)
    ensures CanAll(s, first + second) && MovedAll(s, first + second) == MovedAll(MovedAll(s, first), second)
    decreases |first|
  {
    if first == [] {
      assert first + second == second;
    } else {
      assert (first + second)[0] == first[0] && (first + second)[1..] == first[1..] + second;
      MovesJoin(Moved(s, first[0]), first[1..], second);
    }
  }

  /** So do the moves of one executor_ready call. */
  lemma CallIsExecutorReady(s: Split, c: Sched, e: ExecId) returns (moves: seq<Move>)
    requires Conserved(s) && |s.place| <= IDLE_CAPACITY && Matches(s, c) && e in s.place && s.place[e].Popping?
    ensures CanAll(s, moves) && Matches(MovedAll(s, moves), ExecutorReady(c, e))
    ensures MovedAll(s, moves).place == s.place[e := AtRecv] && MovedAll(s, moves).subs == s.subs
  {
    assert InOnePlace(s, e);
    NoDupSize(s.idle, s.place.Keys - {e});
    moves := CallIsReady(s, c, e);
  }
}
