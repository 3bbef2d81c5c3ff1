/**
  The bounded channel as a value: the std queue, the separate counter the receiver looks at, and
  the history of what was sent and received.
 */
module Channel {
  import opened Types

  datatype Chan = Chan(
    cap: nat,
    queue: seq<Value>,
    cnt: int,
    sent: seq<Value>,
    received: seq<Value>,
    errors: nat)          // how often poll_recv returned an error

  datatype Received = Waiting | Got(value: Value) | Failed

  function NewChan(cap: nat): Chan {
    Chan(cap, [], 0, [], [], 0)
  }

  function Enqueue(ch: Chan, v: Value): Chan {
    ch.(queue := ch.queue + [v], sent := ch.sent + [v])
  }

  function CountOne(ch: Chan): Chan {
    ch.(cnt := ch.cnt + 1)
  }

  // BoundedReceiver::poll_recv, the part that does not touch the reactor
  function PollResult(ch: Chan): Received {
    if ch.cnt == 0 then Waiting
    else if ch.queue == [] then Failed
    else Got(ch.queue[0])
  }

  function PollChan(ch: Chan): Chan {
    match PollResult(ch)
    case Waiting => ch
    case Failed => ch.(errors := ch.errors + 1)
    case Got(v) => ch.(queue := ch.queue[1..], cnt := ch.cnt - 1, received := ch.received + [v])
  }

  /** Received and queued values are the sent ones in order; `uncounted` sends have enqueued but not counted. */
  ghost predicate Ordered(ch: Chan, uncounted: nat) {
    && ch.received + ch.queue == ch.sent
    && |ch.queue| == ch.cnt + uncounted
    && ch.cnt >= 0
    && ch.errors == 0
  }

  lemma EnqueueKeepsOrder(ch: Chan, v: Value, uncounted: nat)
    requires Ordered(ch, uncounted)
    ensures Ordered(Enqueue(ch, v), uncounted + 1)
  {
    assert ch.received + (ch.queue + [v]) == ch.sent + [v];
  }

  lemma PollKeepsOrder(ch: Chan, uncounted: nat)
    requires Ordered(ch, uncounted)
    ensures Ordered(PollChan(ch), uncounted) && !PollResult(ch).Failed?
  {
    if ch.queue != [] {
      assert ch.received + ch.queue == ch.received + [ch.queue[0]] + ch.queue[1..];
    }
  }
}
