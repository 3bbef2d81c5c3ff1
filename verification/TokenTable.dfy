/**
  The reactor's token table as a value: what one locked operation does to it and to the reference
  counts of the wakers it stores. A stored waker is the TaskId it would wake.
 */
module TokenTable {
  import opened Types
  import opened Scheduler

  datatype Status = Awaited(waker: TaskId) | Happened

  type Table = map<Token, Status>

  /** The handle given up when the entry at tok is overwritten. */
  function DropEntry(strong: map<TaskId, int>, table: Table, tok: Token): map<TaskId, int> {
    if tok in table && table[tok].Awaited? then Bump(strong, table[tok].waker, -1) else strong
  }

  // Reactor::poll
  predicate PollReady(table: Table, tok: Token) {
    tok in table && table[tok].Happened?
  }

  function PollTable(table: Table, tok: Token, t: TaskId): Table {
    if PollReady(table, tok) then table - {tok} else table[tok := Awaited(t)]
  }

  function PollStrong(strong: map<TaskId, int>, table: Table, tok: Token, t: TaskId): map<TaskId, int> {
    if PollReady(table, tok) || (tok in table && table[tok] == Awaited(t)) then strong
    else DropEntry(Bump(strong, t, 1), table, tok)
  }

  // Reactor::status_store, with a fresh clone of t's waker
  function StoreTable(table: Table, tok: Token, t: TaskId): Table {
    table[tok := Awaited(t)]
  }

  function StoreStrong(strong: map<TaskId, int>, table: Table, tok: Token, t: TaskId): map<TaskId, int> {
    DropEntry(Bump(strong, t, 1), table, tok)
  }

  // An event for tok: mark it happened, and consume the stored waker.
  function EventTable(table: Table, tok: Token): Table {
    table[tok := Happened]
  }

  function EventSched(c: Sched, table: Table, tok: Token): Sched {
    if tok in table && table[tok].Awaited? then Register(c, table[tok].waker) else c
  }

  // ---------------------------------------------------------------- accounting over histories

  /** What can happen to one token that is used only through Reactor::poll. */
  datatype TokenOp = PollOp(task: TaskId) | EventOp

  function RunTable(table: Table, tok: Token, ops: seq<TokenOp>): Table {
    if ops == [] then table
    else
      var before := RunTable(table, tok, ops[..|ops| - 1]);
      match ops[|ops| - 1]
      case PollOp(t) => PollTable(before, tok, t)
      case EventOp => EventTable(before, tok)
  }

  /** The i-th operation is a poll that returned Ready. */
  predicate ReadyAt(table: Table, tok: Token, ops: seq<TokenOp>, i: nat) {
    i < |ops| && ops[i].PollOp? && PollReady(RunTable(table, tok, ops[..i]), tok)
  }

  /** The i-th operation is an event that did not find the token already happened. */
  predicate FreshEventAt(table: Table, tok: Token, ops: seq<TokenOp>, i: nat) {
    i < |ops| && ops[i].EventOp? && !PollReady(RunTable(table, tok, ops[..i]), tok)
  }

  function Readies(table: Table, tok: Token, ops: seq<TokenOp>): nat {
    if ops == [] then 0
    else Readies(table, tok, ops[..|ops| - 1]) + (if ReadyAt(table, tok, ops, |ops| - 1) then 1 else 0)
  }

  function FreshEvents(table: Table, tok: Token, ops: seq<TokenOp>): nat {
    if ops == [] then 0
    else FreshEvents(table, tok, ops[..|ops| - 1]) + (if FreshEventAt(table, tok, ops, |ops| - 1) then 1 else 0)
  }

  /** Every fresh event is answered by exactly one Ready, taken or still to be taken. */
  lemma {:induction false} EventsAreAnswered(table: Table, tok: Token, ops: seq<TokenOp>)
    requires tok !in table
    ensures Readies(table, tok, ops) + (if PollReady(RunTable(table, tok, ops), tok) then 1 else 0)
         == FreshEvents(table, tok, ops)
  {
    if ops != [] {
      EventsAreAnswered(table, tok, ops[..|ops| - 1]);
    }
  }

  /** Two Ready results have an event strictly between them. */
  lemma {:induction false} EventBetweenReadies(table: Table, tok: Token, ops: seq<TokenOp>, i: nat, j: nat)
    requires i < j && ReadyAt(table, tok, ops, i) && ReadyAt(table, tok, ops, j)
    ensures exists k :: i < k < j && ops[k].EventOp?
  {
    if forall k | i < k < j :: !ops[k].EventOp? {
      NoReadyWithoutEvent(table, tok, ops, i, j);
    }
  }

  lemma {:induction false} NoReadyWithoutEvent(table: Table, tok: Token, ops: seq<TokenOp>, i: nat, j: nat)
    requires i < j < |ops| && ReadyAt(table, tok, ops, i)
    requires forall k | i < k < j :: ops[k].PollOp?
    ensures !PollReady(RunTable(table, tok, ops[..j]), tok)
  {
    assert ops[..j][..j - 1] == ops[..j - 1];
    if j > i + 1 {
      NoReadyWithoutEvent(table, tok, ops, i, j - 1);
    }
  }
}
