/** The cyclic buffer every queue of the runtime is built on, and that it is a bounded FIFO queue. */
module RingBuffer {
  import opened Types

  datatype Slot<+T> = Uninit | Init(value: T)

  datatype PushResult = Pushed | Full(message: string)

  /** The buffer as a value: slots, cyclic indices, and the separate count. */
  datatype Ring<T> = Ring(slots: seq<Slot<T>>, start: nat, end: nat, count: nat)

  function New<T>(bound: nat): Ring<T> {
    Ring(seq(bound, _ => Uninit), 0, 0, 0)
  }

  function Next(i: nat, capacity: nat): nat {
    if i + 1 < capacity then i + 1 else 0
  }

  /** The slot k places after start. */
  function At(start: nat, k: nat, capacity: nat): nat {
    if start + k < capacity then start + k else if start + k < 2 * capacity then start + k - capacity else 0
  }

  /** How far slot i lies after start. */
  function Offset(i: nat, start: nat, capacity: nat): int {
    if i >= start then i - start else i + capacity - start
  }

  /** The live slots are the count slots from start on, cyclically, and end is the one after them. */
  ghost predicate Good<T>(r: Ring<T>) {
    && r.count <= |r.slots|
    && (|r.slots| == 0 ==> r.start == 0 && r.end == 0)
    && (|r.slots| > 0 ==> r.start < |r.slots| && r.end == At(r.start, r.count, |r.slots|))
    && forall i | 0 <= i < |r.slots| :: r.slots[i].Init? <==> Offset(i, r.start, |r.slots|) < r.count
  }

  lemma AtOffset(start: nat, k: nat, n: nat)
    requires start < n && k < n
    ensures At(start, k, n) < n && Offset(At(start, k, n), start, n) == k
  {}

  /** The values in the buffer, oldest first. */
  ghost function Queue<T>(r: Ring<T>): seq<T>
    requires Good(r)
  {
    seq(r.count, k requires 0 <= k < r.count =>
      AtOffset(r.start, k, |r.slots|); r.slots[At(r.start, k, |r.slots|)].value)
  }

  /** end is start + count modulo the capacity. */
  lemma EndIsModulo<T>(r: Ring<T>)
    requires Good(r) && |r.slots| > 0
    ensures r.end == (r.start + r.count) % |r.slots|
  {
    var n, x := |r.slots|, r.start + r.count;
    if x / n >= 2 {
      AtLeastTwice(x / n, n);
    }
  }

  lemma AtLeastTwice(q: nat, n: nat)
    requires q >= 2
    ensures q * n >= 2 * n
  {}

  // A Good ring never takes the guards on the indices; they make the two functions total.

  function PushRing<T>(r: Ring<T>, v: T): (Ring<T>, PushResult) {
    if r.count == |r.slots| || r.end >= |r.slots| then (r, Full("Buffer is full"))
    else (r.(slots := r.slots[r.end := Init(v)], count := r.count + 1, end := Next(r.end, |r.slots|)), Pushed)
  }

  function PopRing<T>(r: Ring<T>): (Ring<T>, Option<T>) {
    if (r.start == r.end && r.count == 0) || r.start >= |r.slots| || r.slots[r.start].Uninit? then (r, None)
    else (r.(slots := r.slots[r.start := Uninit],
             count := if r.count == 0 then 0 else r.count - 1,
             start := Next(r.start, |r.slots|)),
          Some(r.slots[r.start].value))
  }

  /** push fails exactly when the buffer is full, never overwrites a live slot, and appends. */
  lemma PushRefines<T>(r: Ring<T>, v: T)
    requires Good(r)
    ensures var (r', res) := PushRing(r, v);
      && Good(r') && |r'.slots| == |r.slots|
      && (res.Full? <==> |Queue(r)| == |r.slots|)
      && Queue(r') == (if res.Full? then Queue(r) else Queue(r) + [v])
      && (!res.Full? ==> r.slots[r.end].Uninit?)
  {
    var n := |r.slots|;
    if r.count < n {
      var r' := PushRing(r, v).0;
      AtOffset(r.start, r.count, n);
      forall i | 0 <= i < n ensures r'.slots[i].Init? <==> Offset(i, r.start, n) < r'.count {
        assert i != r.end ==> Offset(i, r.start, n) != r.count;
      }
      forall k | 0 <= k < r.count ensures At(r.start, k, n) != r.end && At(r.start, k, n) < n {
        AtOffset(r.start, k, n);
      }
      assert Queue(r') == Queue(r) + [v];
    }
  }

  /** pop gives None exactly when the buffer is empty, reads only a live slot, and removes the oldest value. */
  lemma PopRefines<T>(r: Ring<T>)
    requires Good(r)
    ensures var (r', res) := PopRing(r);
      && Good(r') && |r'.slots| == |r.slots|
      && (res.None? <==> Queue(r) == [])
      && (res.Some? ==> Queue(r) == [res.value] + Queue(r') && r.slots[r.start] == Init(res.value))
      && (res.None? ==> r' == r)
  {
    var n := |r.slots|;
    if r.count > 0 {
      var r' := PopRing(r).0;
      AtOffset(r.start, 0, n);
      forall i | 0 <= i < n ensures r'.slots[i].Init? <==> Offset(i, r'.start, n) < r'.count {
        assert i != r.start ==> Offset(i, r'.start, n) == Offset(i, r.start, n) - 1;
      }
      forall k | 0 <= k < r'.count ensures At(r'.start, k, n) == At(r.start, k + 1, n) != r.start {
        AtOffset(r.start, k + 1, n);
      }
      assert Queue(r) == [PopRing(r).1.value] + Queue(r');
    }
  }

  // ---------------------------------------------------------------- every operation sequence

  datatype Op<T> = Push(v: T) | Pop

  datatype Result<T> = Accepted | Rejected | Taken(value: T) | Empty

  /** What a bounded queue that holds q answers. */
  function FifoStep<T>(capacity: nat, q: seq<T>, op: Op<T>): (seq<T>, Result<T>) {
    match op
    case Push(v) => if |q| == capacity then (q, Rejected) else (q + [v], Accepted)
    case Pop => if q == [] then (q, Empty) else (q[1..], Taken(q[0]))
  }

  function FifoRun<T>(capacity: nat, q: seq<T>, ops: seq<Op<T>>): seq<Result<T>>
    decreases |ops|
  {
    if ops == [] then []
    else var (q', res) := FifoStep(capacity, q, ops[0]); [res] + FifoRun(capacity, q', ops[1..])
  }

  function RingStep<T>(r: Ring<T>, op: Op<T>): (Ring<T>, Result<T>) {
    match op
    case Push(v) => var (r', res) := PushRing(r, v); (r', if res.Full? then Rejected else Accepted)
    case Pop => var (r', res) := PopRing(r); (r', if res.None? then Empty else Taken(res.value))
  }

  function RingRun<T>(r: Ring<T>, ops: seq<Op<T>>): seq<Result<T>>
    decreases |ops|
  {
    if ops == [] then []
    else var (r', res) := RingStep(r, ops[0]); [res] + RingRun(r', ops[1..])
  }

  lemma {:induction false} RunRefines<T>(r: Ring<T>, ops: seq<Op<T>>)
    requires Good(r)
    ensures RingRun(r, ops) == FifoRun(|r.slots|, Queue(r), ops)
    decreases |ops|
  {
    if ops != [] {
      if ops[0].Push? {
        PushRefines(r, ops[0].v);
      } else {
        PopRefines(r);
      }
      RunRefines(RingStep(r, ops[0]).0, ops[1..]);
    }
  }

  /** For every capacity and every sequence of operations, a new buffer answers like a bounded FIFO queue. */
  lemma BufferIsFifo<T>(capacity: nat, ops: seq<Op<T>>)
    ensures RingRun(New<T>(capacity), ops) == FifoRun(capacity, [], ops)
  {
    assert Queue(New<T>(capacity)) == [];
    RunRefines(New<T>(capacity), ops);
  }

  // ---------------------------------------------------------------- the buffer in memory

  class LockFreeBoundedRingBuffer<T> {
    const buffer: array<Slot<T>>
    var start: nat
    var end: nat
    var count: nat

    ghost function Value(): Ring<T>
      reads this, buffer
    {
      Ring(buffer[..], start, end, count)
    }

    ghost predicate Valid()
      reads this, buffer
    {
      Good(Value())
    }

    ghost function Contents(): seq<T>
      reads this, buffer
      requires Valid()
    {
      Queue(Value())
    }

    constructor (bound: nat)
      ensures fresh(buffer) && buffer.Length == bound && Value() == New(bound)
      ensures Valid() && Contents() == []
    {
      buffer := new Slot<T>[bound](_ => Uninit);
      start, end, count := 0, 0, 0;
    }

    function Capacity(): nat {
      buffer.Length
    }

    method Len() returns (n: nat)
      requires Valid()
      ensures n == |Contents()|
    {
      n := count;
    }

    /** Overwrites only a slot that holds nothing. */
    method InsertValue(idx: nat, value: T)
      requires idx < buffer.Length && buffer[idx].Uninit?
      modifies buffer
      ensures buffer[..] == old(buffer[..])[idx := Init(value)]
    {
      buffer[idx] := Init(value);
    }

    /** Reads only an initialised slot, and leaves it uninitialised. */
    method GetValue(idx: nat) returns (value: T)
      requires idx < buffer.Length && buffer[idx].Init?
      modifies buffer
      ensures Init(value) == old(buffer[idx])
      ensures buffer[..] == old(buffer[..])[idx := Uninit]
    {
      value := buffer[idx].value;
      buffer[idx] := Uninit;
    }

    method Push(value: T) returns (res: PushResult)
      requires Valid()
      modifies this, buffer
      ensures Valid() && (Value(), res) == PushRing(old(Value()), value)
      ensures res.Full? <==> |old(Contents())| == Capacity()
      ensures Contents() == if res.Full? then old(Contents()) else old(Contents()) + [value]
    {
      PushRefines(Value(), value);
      var len := Len();
      if len == Capacity() {
        return Full("Buffer is full");
      }
      var currentEnd := end;
      var newEnd := if currentEnd + 1 < Capacity() then currentEnd + 1 else 0;
      InsertValue(currentEnd, value);
      count := count + 1;
      end := newEnd;
      res := Pushed;
    }

    method Pop() returns (res: Option<T>)
      requires Valid()
      modifies this, buffer
      ensures Valid() && (Value(), res) == PopRing(old(Value()))
      ensures res.None? <==> old(Contents()) == []
      ensures res.Some? ==> old(Contents()) == [res.value] + Contents()
      ensures res.None? ==> Contents() == old(Contents())
    {
      PopRefines(Value());
      var currentStart := start;
      var currentEnd := end;
      if currentStart == currentEnd && count == 0 {
        return None;
      }
      var value := GetValue(currentStart);
      count := count - 1;
      var newStart := if currentStart + 1 >= Capacity() then 0 else currentStart + 1;
      start := newStart;
      res := Some(value);
    }
  }
}
