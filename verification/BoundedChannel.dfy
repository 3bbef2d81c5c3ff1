/** The bounded channel in memory: what one sender or receiver call does when no other runs meanwhile. */
module BoundedChannels {
  import opened Types
  import opened Channel
  import opened TaskManagers
  import opened Runtime
  import opened Reactors

  datatype SendResult = Sent | Disconnected

  /** The state senders and receiver share. */
  class BoundedChannel {
    const reactor: Reactor
    const reactorTag: Tag
    const bound: nat
    var queue: seq<Value>
    var queueCnt: int
    var receiverDropped: bool
    var cloneCount: int
    ghost var senders: nat
    ghost var sent: seq<Value>
    ghost var received: seq<Value>
    ghost var errors: nat

    ghost function View(): Chan
      reads this
    {
      Chan(bound, queue, queueCnt, sent, received, errors)
    }

    /** Counters agree between calls: every sent value was counted, and cloneCount is the number of senders. */
    ghost predicate Valid()
      reads this
    {
      Ordered(View(), 0) && cloneCount == senders
    }

    constructor (reactor: Reactor, tag: Tag, bound: nat)
      ensures this.reactor == reactor && reactorTag == tag && View() == NewChan(bound) && !receiverDropped
      ensures Valid() && senders == 1
    {
      this.reactor, reactorTag, this.bound := reactor, tag, bound;
      queue, queueCnt, receiverDropped, cloneCount := [], 0, false, 1;
      senders, sent, received, errors := 1, [], [], 0;
    }

    /** BoundedSender::send. A full queue would block; the push onto the tag ring, if reached, is unwrapped. */
    method Send(v: Value) returns (res: SendResult)
      requires Valid() && reactor.Valid()
      requires receiverDropped || (|queue| < bound && |reactor.reactorTagBuffer.Contents()| < TAG_CAPACITY)
      modifies this`queue, this`queueCnt, this`sent
      modifies reactor.reactorTagBuffer, reactor.reactorTagBuffer.buffer, reactor`mioSignalled
      ensures Valid() && reactor.Valid() && (res.Disconnected? <==> receiverDropped)
      ensures View() == (if receiverDropped then old(View()) else CountOne(Enqueue(old(View()), v)))
      ensures queue == (if receiverDropped then old(queue) else old(queue) + [v])
      ensures sent == (if receiverDropped then old(sent) else old(sent) + [v])
      ensures reactor.reactorTagBuffer.Contents()
           == old(reactor.reactorTagBuffer.Contents()) + (if receiverDropped then [] else [reactorTag])
      ensures reactor.mioSignalled == (old(reactor.mioSignalled) || !receiverDropped)
    {
      if receiverDropped {
        return Disconnected;
      }
      EnqueueKeepsOrder(View(), v, 0);
      queue, sent := queue + [v], sent + [v];
      queueCnt := queueCnt + 1;
      reactor.RegisterReactorTag(reactorTag);
      reactor.MioWake();
      res := Sent;
    }

    /** BoundedReceiver::poll_recv with the context waker of task cx. */
    method PollRecv(cx: TaskId) returns (res: Received)
      requires reactor.Valid() && cx in reactor.tm.heap.strong
      modifies this`queue, this`queueCnt, this`received, this`errors, reactor`reactorTags, reactor.tm.heap`strong
      ensures reactor.Valid() && (old(Valid()) ==> Valid() && !res.Failed?)
      ensures res == PollResult(old(View())) && View() == PollChan(old(View()))
      ensures res.Got? ==> old(queue) == [res.value] + queue && received == old(received) + [res.value]
      ensures reactor.reactorTags == if res.Waiting? then old(reactor.reactorTags)[reactorTag := cx]
                                        else old(reactor.reactorTags)
      ensures reactor.tm.heap.strong == if res.Waiting?
              then StoreWakerStrong(old(reactor.tm.heap.strong), old(reactor.reactorTags), reactorTag, cx)
              else old(reactor.tm.heap.strong)
    {
      if Valid() {
        PollKeepsOrder(View(), 0);
      }
      if queueCnt == 0 {
        var waker := CloneWaker(reactor.tm.heap, cx);
        reactor.StoreWakerChannel(reactorTag, waker);
        return Waiting;
      }
      if queue == [] {
        errors := errors + 1;
        return Failed;
      }
      var v := queue[0];
      queue, received := queue[1..], received + [v];
      queueCnt := queueCnt - 1;
      res := Got(v);
    }

    method CloneSender()
      requires Valid() && senders > 0
      modifies this`cloneCount, this`senders
      ensures Valid() && senders == old(senders) + 1
    {
      cloneCount := cloneCount + 1;
      senders := senders + 1;
    }

    /** The tag would be removed when the old count is zero, but a dropped sender is itself still counted. */
    method DropSender() returns (removesTag: bool)
      requires Valid() && senders > 0
      modifies this`cloneCount, this`senders
      ensures Valid() && senders == old(senders) - 1 && !removesTag
    {
      var count := cloneCount;
      cloneCount := cloneCount - 1;
      senders := senders - 1;
      removesTag := count == 0;
    }
  }
}
