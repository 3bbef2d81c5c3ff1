/** The leaf futures in memory: sleep, I/O readiness, timeout, and the offloaded connect and bind. */
module Leaves {
  import opened Types
  import opened Scheduler
  import opened TokenTable
  import opened TaskManagers
  import opened Reactors
  import opened HoochPools
  import opened Runtime

  class Sleep {
    const reactor: Reactor
    const mioToken: Token
    var hasPolled: bool
    var timerArmed: bool

    constructor (reactor: Reactor, token: Token)
      ensures this.reactor == reactor && mioToken == token && !hasPolled && !timerArmed
    {
      this.reactor, mioToken, hasPolled, timerArmed := reactor, token, false, false;
    }

    /** The first poll stores the waker and arms the timer; later polls only look. */
    method Poll(cx: TaskId) returns (ready: bool)
      requires reactor.Valid() && cx in reactor.tm.heap.strong
      modifies this, reactor`statuses, reactor.tm.heap`strong
      ensures reactor.Valid() && hasPolled && (timerArmed <==> old(timerArmed) || !old(hasPolled))
      ensures ready == (old(hasPolled) && PollReady(old(reactor.statuses), mioToken))
      ensures reactor.statuses == if old(hasPolled) then old(reactor.statuses)
                                  else StoreTable(old(reactor.statuses), mioToken, cx)
      ensures reactor.tm.heap.strong == if old(hasPolled) then old(reactor.tm.heap.strong)
              else StoreStrong(old(reactor.tm.heap.strong), old(reactor.statuses), mioToken, cx)
    {
      if !hasPolled {
        var waker := CloneWaker(reactor.tm.heap, cx);
        reactor.StatusStore(mioToken, waker);
        timerArmed := true;
        hasPolled := true;
        return false;
      }
      ready := reactor.HasTokenProgressed(mioToken);
    }
  }

  /** A pending poll has the effect of storing the caller's waker, also when it was stored already. */
  lemma PendingStores(strong: map<TaskId, int>, table: Table, tok: Token, t: TaskId)
    requires !PollReady(table, tok) && t in strong
    ensures PollTable(table, tok, t) == StoreTable(table, tok, t)
    ensures PollStrong(strong, table, tok, t) == StoreStrong(strong, table, tok, t)
  {}

  /** An entry that has happened holds no waker to drop. */
  lemma ConsumedStores(strong: map<TaskId, int>, table: Table, tok: Token, t: TaskId)
    requires PollReady(table, tok)
    ensures StoreTable(table - {tok}, tok, t) == StoreTable(table, tok, t)
    ensures StoreStrong(strong, table - {tok}, tok, t) == StoreStrong(strong, table, tok, t)
  {}

  /** What a non-blocking read attempt may answer. */
  datatype Attempt = Bytes(num: nat) | WouldBlock | IoError

  datatype ReadPoll = Read(num: nat) | ReadError | ReadPending

  /** HoochTcpStream::read: try, and while the attempt would block, await the stream's token and try again. */
  class ReadFuture {
    const reactor: Reactor
    const token: Token
    var awaiting: bool

    constructor (reactor: Reactor, token: Token)
      ensures this.reactor == reactor && this.token == token && !awaiting
    {
      this.reactor, this.token, awaiting := reactor, token, false;
    }

    /** Await the token once: a pending wait has stored the caller's waker, a finished one has taken the event. */
    method Wait(cx: TaskId) returns (woken: bool)
      requires reactor.Valid() && cx in reactor.tm.heap.strong
      modifies this`awaiting, reactor`statuses, reactor.tm.heap`strong
      ensures reactor.Valid() && cx in reactor.tm.heap.strong
      ensures woken == PollReady(old(reactor.statuses), token) && awaiting == !woken
      ensures reactor.statuses == if woken then old(reactor.statuses) - {token}
                                  else StoreTable(old(reactor.statuses), token, cx)
      ensures reactor.tm.heap.strong == if woken then old(reactor.tm.heap.strong)
                                        else StoreStrong(old(reactor.tm.heap.strong), old(reactor.statuses), token, cx)
    {
      if !PollReady(reactor.statuses, token) {
        PendingStores(reactor.tm.heap.strong, reactor.statuses, token, cx);
      }
      woken := reactor.Poll(token, cx);
      awaiting := !woken;
    }

    /**
      io gives the answers of this poll's attempts; two are enough, since a consumed event leaves the
      token vacant. A pending poll has stored exactly the caller's waker, a finished one none; a
      finished one reports its last attempt, and an event it had been woken for is always followed by
      an attempt.
     */
    method Poll(cx: TaskId, io: seq<Attempt>) returns (res: ReadPoll, tries: nat)
      requires reactor.Valid() && cx in reactor.tm.heap.strong && |io| >= 2
      modifies this`awaiting, reactor`statuses, reactor.tm.heap`strong
      ensures reactor.Valid() && tries <= 2 && (awaiting <==> res.ReadPending?)
      ensures forall i | 0 <= i < tries :: io[i].WouldBlock? <==> i + 1 < tries || res.ReadPending?
      ensures !res.ReadPending? ==>
                tries > 0 && res == (if io[tries - 1].Bytes? then Read(io[tries - 1].num) else ReadError)
      ensures tries == 0 <==> old(awaiting) && !PollReady(old(reactor.statuses), token)
      ensures res.ReadPending? ==>
                && reactor.statuses == StoreTable(old(reactor.statuses), token, cx)
                && reactor.tm.heap.strong == StoreStrong(old(reactor.tm.heap.strong), old(reactor.statuses), token, cx)
      ensures !res.ReadPending? ==>
                && reactor.tm.heap.strong == old(reactor.tm.heap.strong)
                && reactor.statuses == if old(awaiting) || tries > 1 then old(reactor.statuses) - {token}
                                       else old(reactor.statuses)
    {
      tries := 0;
      if awaiting {
        var woken := Wait(cx);
        if !woken {
          return ReadPending, tries;
        }
      }
      while true
        invariant reactor.Valid() && cx in reactor.tm.heap.strong && !awaiting && tries <= 1
        invariant forall i | 0 <= i < tries :: io[i].WouldBlock?
        invariant tries == 0 ==> !old(awaiting) || PollReady(old(reactor.statuses), token)
        invariant reactor.tm.heap.strong == old(reactor.tm.heap.strong)
        invariant old(awaiting) || tries > 0 ==> PollReady(old(reactor.statuses), token)
        invariant reactor.statuses
               == if old(awaiting) || tries > 0 then old(reactor.statuses) - {token} else old(reactor.statuses)
        decreases 2 - tries
      {
        var attempt := io[tries];
        tries := tries + 1;
        match attempt
        case Bytes(num) => return Read(num), tries;
        case IoError => return ReadError, tries;
        case WouldBlock =>
          if PollReady(old(reactor.statuses), token) {
            ConsumedStores(old(reactor.tm.heap.strong), old(reactor.statuses), token, cx);
          }
          var woken := Wait(cx);
          if !woken {
            return ReadPending, tries;
          }
      }
    }
  }

  datatype TimeoutPoll = Elapsed | Finished(read: ReadPoll) | NotYet

  class Timeout {
    const fut: ReadFuture
    const sleep: Sleep

    constructor (fut: ReadFuture, sleep: Sleep)
      requires fut.reactor == sleep.reactor && fut.token != sleep.mioToken
      ensures this.fut == fut && this.sleep == sleep
    {
      this.fut, this.sleep := fut, sleep;
    }

    /** Has the timer been set and its event handled? */
    predicate Expired()
      reads sleep, sleep.reactor
    {
      sleep.hasPolled && PollReady(sleep.reactor.statuses, sleep.mioToken)
    }

    /** Is the waker of cx stored for both leaves? */
    predicate BothArmed(cx: TaskId)
      reads this, sleep, sleep.reactor
    {
      && fut.token in sleep.reactor.statuses && sleep.reactor.statuses[fut.token] == Awaited(cx)
      && sleep.mioToken in sleep.reactor.statuses && sleep.reactor.statuses[sleep.mioToken] == Awaited(cx)
    }

    /**
      An expired timer ends the timeout and the inner future, here a read, is not polled. Otherwise the
      result is the inner future's, and a pending poll by the task that polled first leaves both leaves
      armed.
     */
    method Poll(cx: TaskId, io: seq<Attempt>) returns (res: TimeoutPoll, tries: nat)
      requires fut.reactor == sleep.reactor && fut.token != sleep.mioToken && |io| >= 2
      requires sleep.reactor.Valid() && cx in sleep.reactor.tm.heap.strong
      modifies sleep, fut`awaiting, sleep.reactor`statuses, sleep.reactor.tm.heap`strong
      ensures sleep.reactor.Valid() && sleep.hasPolled && tries <= 2
      ensures res.Elapsed? <==> old(Expired())
      ensures res.Elapsed? ==>
                && tries == 0 && fut.awaiting == old(fut.awaiting)
                && sleep.reactor.statuses == old(sleep.reactor.statuses)
                && sleep.reactor.tm.heap.strong == old(sleep.reactor.tm.heap.strong)
      ensures !res.Elapsed? ==>
                && (tries == 0 <==> old(fut.awaiting) && !PollReady(old(sleep.reactor.statuses), fut.token))
                && (fut.awaiting <==> res.NotYet?)
      ensures res.Finished? ==>
                tries > 0 && res.read == (if io[tries - 1].Bytes? then Read(io[tries - 1].num) else ReadError)
      ensures res.NotYet? && (!old(sleep.hasPolled) || (sleep.mioToken in old(sleep.reactor.statuses)
                              && old(sleep.reactor.statuses)[sleep.mioToken] == Awaited(cx)))
              ==> BothArmed(cx)
    {
      tries := 0;
      var elapsed := sleep.Poll(cx);
      if elapsed {
        return Elapsed, tries;
      }
      var read;
      read, tries := fut.Poll(cx, io);
      res := if read.ReadPending? then NotYet else Finished(read);
    }
  }

  datatype OffloadPoll = Resolved(value: Value) | Unresolved

  /** AsyncHoochTcpStream and AsyncHoochTcpListener: the same future around a connect or a bind. */
  class OffloadedSocket {
    const pool: HoochPool
    const heap: TaskHeap
    const id: OffId
    var hasPolled: bool
    var state: Option<Value>
    ghost var submissions: nat
    ghost var computed: Option<Value>
    ghost var resolved: Option<Value>
    ghost var runs: nat

    /** This operation as the transition system records it. */
    ghost function Record(): Offload
      reads this
    {
      Offload(state, computed, resolved, runs)
    }

    ghost predicate Valid()
      reads this
    {
      submissions == (if hasPolled then 1 else 0) && (!hasPolled ==> Record() == NewOffload())
    }

    constructor (pool: HoochPool, heap: TaskHeap, id: OffId)
      ensures this.pool == pool && this.heap == heap && this.id == id
      ensures Valid() && !hasPolled && Record() == NewOffload()
    {
      this.pool, this.heap, this.id := pool, heap, id;
      hasPolled, state, submissions := false, None, 0;
      computed, resolved, runs := None, None, 0;
    }

    /** The first poll submits the closure with a cloned waker; later ones take the result once it is stored. */
    method Poll(cx: TaskId) returns (res: OffloadPoll)
      requires Valid() && pool.Valid() && pool.numThreads > 0 && cx in heap.strong
      modifies this, heap`strong, pool`cursor, pool`submitted, pool`ran, pool.senders
      ensures Valid() && pool.Valid() && hasPolled && submissions == 1
      ensures pool.submitted == old(pool.submitted) + (if old(hasPolled) then [] else [Job(id, cx)])
      ensures heap.strong == if old(hasPolled) then old(heap.strong) else Bump(old(heap.strong), cx, 1)
      ensures Record() == if old(hasPolled) then TakeResult(old(Record())) else NewOffload()
      ensures res.Resolved? <==> old(hasPolled) && old(state).Some?
      ensures res.Resolved? ==> old(state) == Some(res.value) && resolved == Some(res.value) && state.None?
    {
      if !hasPolled {
        hasPolled := true;
        var waker := CloneWaker(heap, cx);
        var worker := pool.Execute(Job(id, waker));
        submissions := submissions + 1;
        return Unresolved;
      }
      if state.None? {
        return Unresolved;
      }
      resolved := state;
      res := Resolved(state.value);
      state := None;
    }

    /** The closure on its worker thread: store the result, then consume the captured waker. */
    method RunClosure(tm: TaskManager, job: Job, result: Value)
      requires Valid() && hasPolled && tm.Valid() && job.waker in tm.heap.strong && RoomFor(tm.View(), job.waker)
      modifies this`state, this`computed, this`runs, tm`executors, tm`accepted, tm`removed, tm.heap`strong
      modifies tm.waitingTasks, tm.waitingTasks.buffer, tm.waitingExecutors, tm.waitingExecutors.buffer
      ensures Valid() && tm.Valid() && Record() == StoreResult(old(Record()), result)
      ensures state == Some(result) && computed == Some(result) && runs == old(runs) + 1
      ensures tm.View() == Register(old(tm.View()), job.waker)
    {
      state, computed, runs := Some(result), Some(result), runs + 1;
      Wake(tm, job.waker);
    }
  }
}
