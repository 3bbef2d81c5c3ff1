/** Reference counts: a task's strong count is the number of handles and wakers that exist. */
module References {
  import opened Types
  import opened Scheduler
  import opened TokenTable
  import opened Runtime
  import opened Structure

  /** Handles of t that the scheduler holds: in the waiting ring, and in the executors' inboxes. */
  ghost function Queue(c: Sched, t: TaskId): nat {
    multiset(c.waiting)[t] + Occ(c.inbox, [t])
  }

  /** What the strong count leaves for holders outside the scheduler. */
  ghost function Balance(c: Sched, t: TaskId): int {
    (if t in c.strong then c.strong[t] else 0) - Queue(c, t)
  }

  /** Wakers in the token table, the tag map and offloaded closures; executors' handles and poll contexts. */
  ghost function Outside(x: Execs, table: Table, tags: map<Tag, TaskId>, closures: map<OffId, TaskId>, t: TaskId): nat {
    Occ(table, Awaited(t)) + Occ(tags, t) + Occ(closures, t) + Occ(x.held, t) + Occ(x.ctx, t)
  }

  function One(b: bool): int { if b then 1 else 0 }

  /** Submitting u consumes one handle of u, whatever becomes of it. */
  lemma RegisterBalance(c: Sched, u: TaskId, t: TaskId)
    requires u in c.strong && (c.idle != [] ==> c.idle[0] in c.inbox && c.inbox[c.idle[0]] == [])
    ensures Balance(Register(c, u), t) == Balance(c, t) - One(t == u)
  {
    if u !in c.dead && c.idle != [] {
      assert c.inbox[c.idle[0]] + [u] == [u];
      OccUpdate(c.inbox, c.idle[0], [u], [t]);
    }
  }

  lemma RetainBalance(c: Sched, u: TaskId, n: int, t: TaskId)
    requires u in c.strong
    ensures Balance(c.(strong := Bump(c.strong, u, n)), t) == Balance(c, t) + (if t == u then n else 0)
  {}

  lemma WakeBalance(c: Sched, u: TaskId, t: TaskId)
    requires u in c.strong && (c.idle != [] ==> c.idle[0] in c.inbox && c.inbox[c.idle[0]] == [])
    ensures Balance(WakeByRef(c, u), t) == Balance(c, t)
  {
    RetainBalance(c, u, 1, t);
    RegisterBalance(Retain(c, u), u, t);
  }

  lemma PopBalance(c: Sched, t: TaskId)
    requires c.waiting != []
    ensures Balance(c.(waiting := c.waiting[1..]), t) == Balance(c, t) + One(t == c.waiting[0])
  {
    assert c.waiting == [c.waiting[0]] + c.waiting[1..];
  }

  /** executor_ready only moves handles, or drops them with the entries it discards. */
  lemma {:induction false} ReadyBalance(c: Sched, e: ExecId, t: TaskId)
    requires e in c.inbox && c.inbox[e] == []
    requires forall u | u in c.waiting :: u in c.strong
    ensures Balance(ExecutorReady(c, e), t) == Balance(c, t)
    decreases |c.waiting|
  {
    if c.waiting != [] {
      var u := c.waiting[0];
      PopBalance(c, t);
      if u in c.dead {
        ReadyBalance(Discard(c), e, t);
      } else {
        assert c.inbox[e] + [u] == [u];
        OccUpdate(c.inbox, e, [u], [t]);
      }
    }
  }

  /** Reactor::poll moves its counts with the table. */
  lemma PollTableBalance(c: Sched, table: Table, tok: Token, u: TaskId, t: TaskId)
    requires u in c.strong && KnownWakers(c.strong.Keys, table)
    ensures var d := c.(strong := PollStrong(c.strong, table, tok, u));
      && d.strong.Keys == c.strong.Keys
      && Balance(d, t) - Occ(PollTable(table, tok, u), Awaited(t)) == Balance(c, t) - Occ(table, Awaited(t))
  {
    OccUpdate(table, tok, Awaited(u), Awaited(t));
    OccRemove(table, tok, Awaited(t));
  }

  lemma StoreTableBalance(c: Sched, table: Table, tok: Token, u: TaskId, t: TaskId)
    requires u in c.strong && KnownWakers(c.strong.Keys, table)
    ensures var d := c.(strong := StoreStrong(c.strong, table, tok, u));
      && d.strong.Keys == c.strong.Keys
      && Balance(d, t) - Occ(StoreTable(table, tok, u), Awaited(t)) == Balance(c, t) - Occ(table, Awaited(t))
  {
    OccUpdate(table, tok, Awaited(u), Awaited(t));
  }

  lemma StoreWakerBalance(c: Sched, tags: map<Tag, TaskId>, tag: Tag, u: TaskId, t: TaskId)
    requires u in c.strong && KnownValues(c.strong.Keys, tags)
    ensures var d := c.(strong := StoreWakerStrong(c.strong, tags, tag, u));
      && d.strong.Keys == c.strong.Keys
      && Balance(d, t) - Occ(tags[tag := u], t) == Balance(c, t) - Occ(tags, t)
  {
    OccUpdate(tags, tag, u, t);
  }

  /** An event consumes the waker it finds. */
  lemma EventBalance(c: Sched, table: Table, tok: Token, t: TaskId)
    requires KnownWakers(c.strong.Keys, table)
    requires c.idle != [] ==> c.idle[0] in c.inbox && c.inbox[c.idle[0]] == []
    ensures Balance(EventSched(c, table, tok), t) - Occ(EventTable(table, tok), Awaited(t))
         == Balance(c, t) - Occ(table, Awaited(t))
  {
    OccUpdate(table, tok, Happened, Awaited(t));
    if tok in table && table[tok].Awaited? {
      RegisterBalance(c, table[tok].waker, t);
    }
  }

  lemma RegisterKeys(c: Sched, u: TaskId)
    ensures Register(c, u).strong.Keys == c.strong.Keys && WakeByRef(c, u).strong.Keys == c.strong.Keys
    ensures Register(c, u).dead == c.dead && WakeByRef(c, u).dead == c.dead
  {}
}
