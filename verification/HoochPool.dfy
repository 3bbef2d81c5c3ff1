/** The thread pool: round-robin choice of a worker, and each worker's queue. */
module HoochPools {
  import opened Types

  const WORKER_QUEUE: nat := 1024

  /** A connect or bind closure, with the waker it captured. */
  datatype Job = Job(id: OffId, waker: TaskId)

  /** The jobs at positions w, w + n, w + 2n, ... */
  function Share(jobs: seq<Job>, n: nat, w: nat): seq<Job>
    requires n > 0
  {
    if jobs == [] then []
    else
      var rest := Share(jobs[..|jobs| - 1], n, w);
      if (|jobs| - 1) % n == w then rest + [jobs[|jobs| - 1]] else rest
  }

  lemma ShareAppend(jobs: seq<Job>, job: Job, n: nat, w: nat)
    requires n > 0
    ensures Share(jobs + [job], n, w) == Share(jobs, n, w) + (if |jobs| % n == w then [job] else [])
  {
    assert (jobs + [job])[..|jobs|] == jobs;
  }

  /** Worker w of n gets one job of every full round, and one more if the last round reached it. */
  lemma {:induction false} ShareSize(jobs: seq<Job>, n: nat, w: nat)
    requires w < n
    ensures |Share(jobs, n, w)| == |jobs| / n + (if w < |jobs| % n then 1 else 0)
    decreases |jobs|
  {
    if jobs == [] {
      ZeroRounds(n);
    } else {
      var k := |jobs| - 1;
      ShareSize(jobs[..k], n, w);
      NextRound(k, n);
    }
  }

  lemma ZeroRounds(n: nat)
    requires n > 0
    ensures 0 / n == 0 && 0 % n == 0
  {}

  lemma NextRound(k: nat, n: nat)
    requires n > 0
    ensures if k % n == n - 1 then (k + 1) % n == 0 && (k + 1) / n == k / n + 1
            else (k + 1) % n == k % n + 1 && (k + 1) / n == k / n
  {
    var q, r := k / n, k % n;
    assert k == q * n + r;
    if r == n - 1 {
      assert k + 1 == q * n + n == (q + 1) * n + 0;
      DivUnique(k + 1, n, q + 1, 0);
    } else {
      DivUnique(k + 1, n, q, r + 1);
    }
  }

  lemma NextCursor(k: nat, n: nat)
    requires n > 0
    ensures (k % n + 1) % n == (k + 1) % n
  {
    NextRound(k, n);
    if k % n + 1 < n {
      DivUnique(k % n + 1, n, 0, k % n + 1);
    } else {
      DivUnique(n, n, 1, 0);
    }
  }

  lemma DivUnique(x: nat, n: nat, q: nat, r: nat)
    requires r < n && x == q * n + r
    ensures x / n == q && x % n == r
  {
    var q', r' := x / n, x % n;
    assert x == q' * n + r';
    if q > q' {
      MulMono(q' + 1, q, n);
    } else if q < q' {
      MulMono(q + 1, q', n);
    }
  }

  lemma MulMono(a: nat, b: nat, n: nat)
    requires a <= b
    ensures a * n <= b * n
  {}

  /** After any number of jobs no worker was given more than one job more than another. */
  lemma SharesBalanced(jobs: seq<Job>, n: nat, v: nat, w: nat)
    requires v < n && w < n
    ensures |Share(jobs, n, v)| <= |Share(jobs, n, w)| + 1
  {
    ShareSize(jobs, n, v);
    ShareSize(jobs, n, w);
  }

  class HoochPool {
    const numThreads: nat
    const senders: array<seq<Job>>
    var cursor: nat
    ghost var submitted: seq<Job>
    ghost var ran: seq<seq<Job>>

    /** The cursor is the next round-robin position, and every worker's jobs, run or queued, are its share in order. */
    ghost predicate Valid()
      reads this, senders
    {
      && senders.Length == |ran| == numThreads
      && (if numThreads == 0 then cursor == 0 && submitted == [] else cursor == |submitted| % numThreads)
      && forall w | 0 <= w < numThreads ::
           ran[w] + senders[w] == Share(submitted, numThreads, w) && |senders[w]| <= WORKER_QUEUE
    }

    constructor (numThreads: nat)
      ensures Valid() && this.numThreads == numThreads && submitted == [] && cursor == 0
      ensures fresh(senders) && ran == seq(numThreads, _ => [])
    {
      this.numThreads := numThreads;
      senders := new seq<Job>[numThreads](_ => []);
      ran := seq(numThreads, _ => []);
      cursor, submitted := 0, [];
      new;
      if numThreads > 0 {
        ZeroRounds(numThreads);
      }
    }

    /** Without threads the remainder would divide by zero. */
    method GetAndUpdateIndex() returns (idx: nat)
      requires numThreads > 0 && cursor < numThreads
      modifies this`cursor
      ensures idx == old(cursor) && cursor == (idx + 1) % numThreads
    {
      var current := cursor;
      cursor := (current + 1) % numThreads;
      idx := current;
    }

    /**
      Job k goes to worker k modulo the number of workers. When that worker's queue is full the send
      blocks until the worker has received its oldest job, so no job is lost or overtaken either way.
     */
    method Execute(job: Job) returns (worker: nat)
      requires Valid() && numThreads > 0
      modifies this`cursor, this`submitted, this`ran, senders
      ensures Valid() && submitted == old(submitted) + [job]
      ensures worker == |old(submitted)| % numThreads
      ensures var full := |old(senders[worker])| == WORKER_QUEUE;
        && senders[..] == old(senders[..])[worker := old(senders[worker])[if full then 1 else 0..] + [job]]
        && ran == (if full then old(ran)[worker := old(ran)[worker] + [old(senders[worker])[0]]] else old(ran))
    {
      NextCursor(|submitted|, numThreads);
      forall w | 0 <= w < numThreads {
        ShareAppend(submitted, job, numThreads, w);
      }
      worker := GetAndUpdateIndex();
      if |senders[worker]| == WORKER_QUEUE {
        var received := RunOne(worker);
      }
      senders[worker] := senders[worker] + [job];
      submitted := submitted + [job];
    }

    /** One turn of a worker's loop: receive the oldest job and run it. */
    method RunOne(w: nat) returns (boxedFn: Job)
      requires senders.Length == |ran| == numThreads && w < numThreads && senders[w] != []
      modifies senders, this`ran
      ensures old(senders[w]) == [boxedFn] + senders[w] && senders[..] == old(senders[..])[w := senders[w]]
      ensures ran == old(ran)[w := old(ran)[w] + [boxedFn]]
    {
      boxedFn := senders[w][0];
      senders[w] := senders[w][1..];
      ran := ran[w := ran[w] + [boxedFn]];
    }

    /** The worker loop, up to the next blocking receive: its queued jobs run in order. */
    method RunWorker(w: nat) returns (jobs: seq<Job>)
      requires Valid() && w < numThreads
      modifies senders, this`ran
      ensures Valid() && jobs == old(senders[w]) && senders[..] == old(senders[..])[w := []]
      ensures ran == old(ran)[w := old(ran)[w] + jobs]
    {
      jobs := [];
      ghost var ran0 := ran;
      assert ran0[w] + jobs == ran0[w];
      while senders[w] != []
        invariant |ran| == senders.Length == numThreads
        invariant jobs + senders[w] == old(senders[w])
        invariant ran == ran0[w := ran0[w] + jobs]
        invariant forall v | 0 <= v < numThreads && v != w :: senders[v] == old(senders[v])
        decreases |senders[w]|
      {
        var boxedFn := RunOne(w);
        assert ran0[w] + (jobs + [boxedFn]) == (ran0[w] + jobs) + [boxedFn];
        jobs := jobs + [boxedFn];
      }
      assert jobs == old(senders[w]);
      assert ran[w] + senders[w] == ran0[w] + old(senders[w]);
    }
  }

  // ---------------------------------------------------------------- callers that interleave

  /** Callers between the load and the store of the cursor, and the indices chosen so far. */
  datatype Cursor = Cursor(cursor: nat, loaded: map<nat, nat>, chosen: seq<nat>)

  datatype CursorStep = Load(caller: nat) | Store(caller: nat)

  function CursorApply(c: Cursor, n: nat, step: CursorStep): Cursor
    requires n > 0
  {
    match step
    case Load(k) => if k in c.loaded then c else c.(loaded := c.loaded[k := c.cursor])
    case Store(k) =>
      if k !in c.loaded then c
      else Cursor((c.loaded[k] + 1) % n, c.loaded - {k}, c.chosen + [c.loaded[k]])
  }

  function CursorRun(c: Cursor, n: nat, steps: seq<CursorStep>): Cursor
    requires n > 0
    decreases |steps|
  {
    if steps == [] then c else CursorRun(CursorApply(c, n, steps[0]), n, steps[1..])
  }

  ghost predicate InRange(c: Cursor, n: nat) {
    c.cursor < n && (forall k | k in c.loaded :: c.loaded[k] < n) && (forall i | 0 <= i < |c.chosen| :: c.chosen[i] < n)
  }

  /** However callers interleave, every chosen index names a worker. */
  lemma {:induction false} ChosenInRange(c: Cursor, n: nat, steps: seq<CursorStep>)
    requires n > 0 && InRange(c, n)
    ensures InRange(CursorRun(c, n, steps), n)
    decreases |steps|
  {
    if steps != [] {
      ChosenInRange(CursorApply(c, n, steps[0]), n, steps[1..]);
    }
  }

  /** The choices so far were 0, 1, ..., n - 1, 0, ... and the cursor is the next one. */
  ghost predicate Rotating(c: Cursor, n: nat)
    requires n > 0
  {
    c.cursor == |c.chosen| % n && forall i | 0 <= i < |c.chosen| :: c.chosen[i] == i % n
  }

  /** No caller loads the cursor while another is between its load and its store. */
  predicate Sequential(c: Cursor, n: nat, steps: seq<CursorStep>)
    requires n > 0
    decreases |steps|
  {
    steps == [] || ((steps[0].Load? ==> c.loaded == map[]) && Sequential(CursorApply(c, n, steps[0]), n, steps[1..]))
  }

  /** Callers that do not overlap are served in rotation, whatever order they come in. */
  lemma {:induction false} SequentialRotates(c: Cursor, n: nat, steps: seq<CursorStep>)
    requires n > 0 && Rotating(c, n) && Sequential(c, n, steps)
    requires |c.loaded| <= 1 && forall k | k in c.loaded :: c.loaded[k] == c.cursor
    ensures Rotating(CursorRun(c, n, steps), n)
    decreases |steps|
  {
    if steps != [] {
      var c' := CursorApply(c, n, steps[0]);
      if steps[0].Store? && steps[0].caller in c.loaded {
        OnlyKey(c.loaded, steps[0].caller);
        NextCursor(|c.chosen|, n);
      }
      SequentialRotates(c', n, steps[1..]);
    }
  }

  lemma OnlyKey(m: map<nat, nat>, k: nat)
    requires |m| <= 1 && k in m
    ensures m - {k} == map[]
  {
    SubsetSize({k}, m.Keys);
    forall j | j in m ensures j == k {
      SubsetSize({j, k}, m.Keys);
    }
  }

  /** A second caller that loads before the first has stored can be given the first one's worker. */
  lemma OverlapRepeats(c: Cursor, n: nat, j: nat, k: nat)
    requires n > 1 && Rotating(c, n) && j in c.loaded && c.loaded[j] == c.cursor && k !in c.loaded
    ensures var d := CursorRun(c, n, [Load(k), Store(j), Store(k)]);
      d.chosen == c.chosen + [c.cursor, c.cursor] && !Rotating(d, n)
  {
    var c1 := CursorApply(c, n, Load(k));
    var c2 := CursorApply(c1, n, Store(j));
    assert [Load(k), Store(j), Store(k)][1..] == [Store(j), Store(k)];
    assert [Store(j), Store(k)][1..] == [Store(k)];
    assert CursorRun(c2, n, [Store(k)]) == CursorApply(c2, n, Store(k));
    assert CursorRun(c1, n, [Store(j), Store(k)]) == CursorApply(c2, n, Store(k));
    var d := CursorRun(c, n, [Load(k), Store(j), Store(k)]);
    assert d.chosen == (c.chosen + [c.cursor]) + [c.cursor];
    var m := |c.chosen|;
    assert d.chosen[m] == d.chosen[m + 1];
    NextRound(m, n);
  }

  /** The rotation survives every schedule whose loads wait their turn from here on. */
  ghost predicate KeepsRotating(c: Cursor, n: nat)
    requires n > 0
  {
    forall steps | Sequential(c, n, steps) :: Rotating(CursorRun(c, n, steps), n)
  }

  lemma LoadAlone(c: Cursor, n: nat, k: nat)
    requires n > 0 && Rotating(c, n) && c.loaded == map[]
    ensures KeepsRotating(CursorApply(c, n, Load(k)), n)
  {
    var c1 := CursorApply(c, n, Load(k));
    forall steps | Sequential(c1, n, steps) ensures Rotating(CursorRun(c1, n, steps), n) {
      SequentialRotates(c1, n, steps);
    }
  }

  lemma LoadBeside(c: Cursor, n: nat, j: nat, k: nat)
    requires n > 1 && Rotating(c, n) && j in c.loaded && c.loaded[j] == c.cursor && k !in c.loaded
    ensures !KeepsRotating(CursorApply(c, n, Load(k)), n)
  {
    var c1 := CursorApply(c, n, Load(k));
    var steps := [Store(j), Store(k)];
    OverlapRepeats(c, n, j, k);
    assert [Load(k), Store(j), Store(k)][1..] == steps && steps[1..] == [Store(k)] && [Store(k)][1..] == [];
    assert Sequential(CursorApply(c1, n, Store(j)), n, [Store(k)]);
    assert Sequential(c1, n, steps) && !Rotating(CursorRun(c1, n, steps), n);
  }

  /**
    The exact condition: a caller's load keeps the rotation in every schedule whose later loads
    wait their turn if and only if no other caller is between its load and its store.
   */
  lemma {:induction false} RotationNeedsTurns(c: Cursor, n: nat, k: nat)
    requires n > 1 && Rotating(c, n) && k !in c.loaded && forall j | j in c.loaded :: c.loaded[j] == c.cursor
    ensures c.loaded == map[] <==> KeepsRotating(CursorApply(c, n, Load(k)), n)
  {
    if c.loaded == map[] {
      LoadAlone(c, n, k);
    } else {
      var j :| j in c.loaded;
      LoadBeside(c, n, j, k);
    }
  }
}
