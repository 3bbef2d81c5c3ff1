/**
  One channel with the receiver's poll split into its test, its try_recv and its decrement, and
  every sender into enqueue and count: the counter never underflows and try_recv never fails.
 */
module ChannelCount {
  import opened Types

  datatype Receiver = Away | Tested | Took(v: Value)   // Tested: it saw a non-zero counter

  datatype Counter = Counter(
    cap: nat,
    queue: seq<Value>,
    cnt: int,
    sending: set<nat>,        // senders between enqueue and count
    receiver: Receiver,
    sent: seq<Value>,
    received: seq<Value>,
    failures: nat)

  datatype CountStep = Enqueue(a: nat, v: Value) | Count(a: nat) | Test | TryRecv | Decrement

  predicate CanCount(c: Counter, step: CountStep) {
    match step
    case Enqueue(a, _) => a !in c.sending && |c.queue| < c.cap
    case Count(a) => a in c.sending
    case Test => c.receiver.Away?
    case TryRecv => c.receiver.Tested?
    case Decrement => c.receiver.Took?
  }

  function CountOf(c: Counter, step: CountStep): Counter
    requires CanCount(c, step)
  {
    match step
    case Enqueue(a, v) => c.(queue := c.queue + [v], sent := c.sent + [v], sending := c.sending + {a})
    case Count(a) => c.(cnt := c.cnt + 1, sending := c.sending - {a})
    case Test => if c.cnt == 0 then c else c.(receiver := Tested)
    case TryRecv =>
      if c.queue == [] then c.(receiver := Away, failures := c.failures + 1)
      else c.(receiver := Took(c.queue[0]), queue := c.queue[1..], received := c.received + [c.queue[0]])
    case Decrement => c.(receiver := Away, cnt := c.cnt - 1)
  }

  /** The queue and the value taken but not yet subtracted make up the counter and the sends not yet added. */
  ghost predicate Balanced(c: Counter) {
    && |c.queue| + (if c.receiver.Took? then 1 else 0) == c.cnt + |c.sending|
    && c.cnt >= (if c.receiver.Away? then 0 else 1)
    && c.received + c.queue == c.sent
    && c.failures == 0
    && (c.receiver.Tested? ==> c.queue != [])
    && (c.receiver.Took? ==> c.received != [] && c.receiver.v == c.received[|c.received| - 1])
  }

  lemma BalancedStep(c: Counter, step: CountStep)
    requires Balanced(c) && CanCount(c, step)
    ensures Balanced(CountOf(c, step))
  {
    match step
    case Enqueue(a, v) => assert c.received + (c.queue + [v]) == c.sent + [v];
    case TryRecv => assert c.received + c.queue == (c.received + [c.queue[0]]) + c.queue[1..];
    case _ =>
  }

  ghost predicate CanCountAll(c: Counter, steps: seq<CountStep>)
    decreases |steps|
  {
    steps == [] || (CanCount(c, steps[0]) && CanCountAll(CountOf(c, steps[0]), steps[1..]))
  }

  ghost function CountAll(c: Counter, steps: seq<CountStep>): Counter
    requires CanCountAll(c, steps)
    decreases |steps|
  {
    if steps == [] then c else CountAll(CountOf(c, steps[0]), steps[1..])
  }

  lemma {:induction false} BalancedRun(c: Counter, steps: seq<CountStep>)
    requires Balanced(c) && CanCountAll(c, steps)
    ensures Balanced(CountAll(c, steps))
    decreases |steps|
  {
    if steps != [] {
      BalancedStep(c, steps[0]);
      BalancedRun(CountOf(c, steps[0]), steps[1..]);
    }
  }

  /** The values the senders enqueue, in order. */
  function ValuesIn(steps: seq<CountStep>): seq<Value>
    decreases |steps|
  {
    if steps == [] then []
    else (if steps[0].Enqueue? then [steps[0].v] else []) + ValuesIn(steps[1..])
  }

  lemma {:induction false} SentAreEnqueued(c: Counter, steps: seq<CountStep>)
    requires CanCountAll(c, steps)
    ensures CountAll(c, steps).sent == c.sent + ValuesIn(steps)
    decreases |steps|
  {
    if steps != [] {
      SentAreEnqueued(CountOf(c, steps[0]), steps[1..]);
    }
  }

  /** From a new channel, in every interleaving: order is kept, the counter stays non-negative, try_recv never fails. */
  lemma CountsAgree(cap: nat, steps: seq<CountStep>)
    requires CanCountAll(Counter(cap, [], 0, {}, Away, [], [], 0), steps)
    ensures var c := CountAll(Counter(cap, [], 0, {}, Away, [], [], 0), steps);
      && |c.queue| + (if c.receiver.Took? then 1 else 0) == c.cnt + |c.sending|
      && c.cnt >= 0 && c.failures == 0
      && c.received + c.queue == ValuesIn(steps)
      && (c.receiver.Tested? ==> c.queue != [])
      && (c.receiver.Took? ==> c.cnt > 0 && c.received != [] && c.receiver.v == c.received[|c.received| - 1])
  {
    BalancedRun(Counter(cap, [], 0, {}, Away, [], [], 0), steps);
    SentAreEnqueued(Counter(cap, [], 0, {}, Away, [], [], 0), steps);
  }
}
