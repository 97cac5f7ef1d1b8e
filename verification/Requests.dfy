/**
 What becomes of each request, from its arrival at the dispatcher to its end, whatever the other goroutines do between
 its own moves (agent/daemon.go, handleReverseRPC; agent/handlers.go).
 */
module Requests {
  import opened Threads
  import opened AgentRuntime

  /** The goroutine makes no move of its own. */
  ghost predicate Still(labels: seq<Label>, thread: Thread) {
    forall i :: 0 <= i < |labels| ==>
      !(labels[i].Step? && labels[i].thread == thread) && !(labels[i].Timeout? && labels[i].thread == thread)
  }

  /** Only others move from a to b. */
  ghost predicate Meanwhile(a: Agent, labels: seq<Label>, b: Agent, thread: Thread) {
    Interleaving(a, labels, b) && Still(labels, thread)
  }

  /** The request has arrived, and its handler makes its first move in m. */
  ghost predicate Arrives(a: Agent, thread: Thread, request: Request, labels: seq<Label>, m: Agent) {
    Inv(a) && Enabled(a, Arrive(thread, request)) && Meanwhile(Exec(a, Arrive(thread, request)), labels, m, thread)
  }

  /** Any request can arrive at any time, any part of the pool can be swept, and the agent can be shut down. */
  lemma NothingIsTurnedAway(a: Agent, thread: Thread, request: Request, idle: set<Tx>)
    ensures Enabled(a, Arrive(thread, request)) <==> thread !in a.threads
    ensures Enabled(a, Reap(idle)) <==> idle != {} && idle <= a.pool
    ensures Enabled(a, CloseAll)
  {
  }

  lemma {:induction false} OthersLeaveIt(a: Agent, labels: seq<Label>, b: Agent, thread: Thread)
    requires Inv(a) && thread in a.threads && Meanwhile(a, labels, b, thread)
    ensures Inv(b) && thread in b.threads && b.threads[thread] == a.threads[thread]
    decreases |labels|
  {
    if labels != [] {
      ExecKeepsInv(a, labels[0]);
      OneOtherLeavesIt(a, labels[0], thread);
      OthersLeaveIt(Exec(a, labels[0]), labels[1..], b, thread);
    }
  }

  lemma OneOtherLeavesIt(a: Agent, l: Label, thread: Thread)
    requires Enabled(a, l) && thread in a.threads && !(l.Step? && l.thread == thread) && !(l.Timeout? && l.thread == thread)
    ensures thread in Exec(a, l).threads && Exec(a, l).threads[thread] == a.threads[thread]
  {
    if l.Step? { MoveOfAnother(a, l, thread); }
  }

  lemma MoveOfAnother(a: Agent, l: Label, thread: Thread)
    requires Enabled(a, l) && l.Step? && l.thread != thread && thread in a.threads
    ensures thread in Exec(a, l).threads && Exec(a, l).threads[thread] == a.threads[thread]
  {
    match a.threads[l.thread]
    case QueryHold =>
    case BeginHold =>
    case BeginSetUp(_) =>
    case LookUp(_) =>
    case PopFirst(_) =>
    case _ =>
  }

  lemma AtItsFirstMove(a: Agent, thread: Thread, request: Request, labels: seq<Label>, m: Agent)
    requires Arrives(a, thread, request, labels, m)
    ensures Inv(m) && thread in m.threads && m.threads[thread] == First(request)
  {
    ExecKeepsInv(a, Arrive(thread, request));
    OthersLeaveIt(Exec(a, Arrive(thread, request)), labels, m, thread);
  }

  predicate Ended(a: Agent, thread: Thread) {
    thread in a.threads && a.threads[thread].Done?
  }

  /** The same but for where one goroutine is. */
  predicate OnlyMoves(a: Agent, b: Agent, thread: Thread) {
    thread in b.threads && b == a.(threads := a.threads[thread := b.threads[thread]])
  }

  // ---- commit and rollback ----

  /** Open and in no pool: whoever popped it has it. */
  lemma PoppedIsOwned(a: Agent, thread: Thread, tx: Tx)
    requires Inv(a) && thread in a.threads && a.threads[thread] == Popped(tx)
    ensures tx in a.finals && a.finals[tx] == 0 && tx !in a.pool && tx !in a.reaping
  {
    assert thread in Where(a.threads, OwnsTest(tx));
    assert Ledger(a, tx) == One(tx in a.finals);
  }

  predicate Finishes(request: Request, tx: Tx) {
    request == Commit(tx) || request == Rollback(tx)
  }

  /** The first move of a commit or rollback takes the transaction out of the pool, or ends without it. */
  lemma FinishPops(a: Agent, thread: Thread, request: Request, tx: Tx, labels: seq<Label>, m: Agent, move: Label)
    requires Finishes(request, tx) && Arrives(a, thread, request, labels, m) && move.Step? && move.thread == thread
    ensures Enabled(m, move)
    ensures tx in m.pool ==> !Ended(Exec(m, move), thread) && Exec(m, move).pool == m.pool - {tx}
    ensures tx !in m.pool ==> Ended(Exec(m, move), thread) && OnlyMoves(m, Exec(m, move), thread)
  {
    AtItsFirstMove(a, thread, request, labels, m);
  }

  /** The second move ends the transaction, once. */
  lemma FinishEnds(a: Agent, thread: Thread, request: Request, tx: Tx, labels: seq<Label>, m: Agent, move: Label,
                   more: seq<Label>, n: Agent, last: Label)
    requires Finishes(request, tx) && Arrives(a, thread, request, labels, m) && tx in m.pool
    requires move.Step? && move.thread == thread && last.Step? && last.thread == thread
    requires Enabled(m, move) && Meanwhile(Exec(m, move), more, n, thread)
    ensures Enabled(n, last)
    ensures var b := Exec(n, last);
      Ended(b, thread) && tx in b.finals && b.finals[tx] == 1 && tx !in b.pool && b.slots == n.slots
  {
    AtItsFirstMove(a, thread, request, labels, m);
    ExecKeepsInv(m, move);
    OthersLeaveIt(Exec(m, move), more, n, thread);
    LastFinishMove(n, thread, tx, last);
  }

  lemma LastFinishMove(n: Agent, thread: Thread, tx: Tx, last: Label)
    requires Inv(n) && thread in n.threads && n.threads[thread] == Popped(tx) && last.Step? && last.thread == thread
    ensures Enabled(n, last)
    ensures var b := Exec(n, last);
      Ended(b, thread) && tx in b.finals && b.finals[tx] == 1 && tx !in b.pool && b.slots == n.slots
  {
    PoppedIsOwned(n, thread, tx);
  }

  lemma FinishedStep(a: Agent, l: Label, tx: Tx)
    requires Inv(a) && Enabled(a, l) && tx in a.finals && a.finals[tx] == 1
    ensures var b := Exec(a, l); Inv(b) && tx in b.finals && b.finals[tx] == 1 && tx !in b.pool && tx !in b.reaping
  {
    ExecKeepsInv(a, l);
    var b := Exec(a, l);
    FinalsGrow(a, l, tx);
    assert Ledger(b, tx) == One(tx in b.finals);
  }

  lemma FinalsGrow(a: Agent, l: Label, tx: Tx)
    requires Enabled(a, l) && tx in a.finals
    ensures tx in Exec(a, l).finals && (a.finals[tx] > 0 ==> Exec(a, l).finals[tx] >= a.finals[tx])
  {
  }

  /** A transaction that has ended has no second end, and is in no pool again. */
  lemma {:induction false} EndedForGood(a: Agent, labels: seq<Label>, b: Agent, tx: Tx)
    requires Inv(a) && Interleaving(a, labels, b) && tx in a.finals && a.finals[tx] == 1
    ensures tx in b.finals && b.finals[tx] == 1 && tx !in b.pool && tx !in b.reaping
    decreases |labels|
  {
    if labels != [] {
      FinishedStep(a, labels[0], tx);
      EndedForGood(Exec(a, labels[0]), labels[1..], b, tx);
    } else {
      assert Ledger(a, tx) == One(tx in a.finals);
    }
  }

  // ---- a query in a transaction ----

  /** A query of an absent transaction ends unused; of a pooled one it comes to its use, and then ends. */
  lemma TxQueryLooksUp(a: Agent, thread: Thread, tx: Tx, labels: seq<Label>, m: Agent, move: Label)
    requires Arrives(a, thread, TxQuery(tx), labels, m) && move.Step? && move.thread == thread
    ensures Enabled(m, move) && OnlyMoves(m, Exec(m, move), thread)
    ensures tx !in m.pool <==> Ended(Exec(m, move), thread)
  {
    AtItsFirstMove(a, thread, TxQuery(tx), labels, m);
  }

  lemma TxQueryIsUsed(a: Agent, thread: Thread, tx: Tx, labels: seq<Label>, m: Agent, look: Label,
                      more: seq<Label>, n: Agent, touch: Label, rest: seq<Label>, o: Agent, use: Label)
    requires Arrives(a, thread, TxQuery(tx), labels, m) && tx in m.pool
    requires look.Step? && look.thread == thread && touch.Step? && touch.thread == thread && use.Step? && use.thread == thread
    requires Enabled(m, look) && Meanwhile(Exec(m, look), more, n, thread)
    ensures Enabled(n, touch) && OnlyMoves(n, Exec(n, touch), thread) && Exec(n, touch).threads[thread] == Use(tx)
    ensures Meanwhile(Exec(n, touch), rest, o, thread) ==>
      Enabled(o, use) && OnlyMoves(o, Exec(o, use), thread) && Ended(Exec(o, use), thread)
  {
    AtItsFirstMove(a, thread, TxQuery(tx), labels, m);
    ExecKeepsInv(m, look);
    OthersLeaveIt(Exec(m, look), more, n, thread);
    ExecKeepsInv(n, touch);
    if Meanwhile(Exec(n, touch), rest, o, thread) {
      OthersLeaveIt(Exec(n, touch), rest, o, thread);
    }
  }

  // ---- who needs a slot ----

  predicate InATx(request: Request) {
    request.TxQuery? || request.Commit? || request.Rollback?
  }

  predicate Waiting(pc: PC) {
    pc.QueryWait? || pc.BeginWait?
  }

  /** Commits, rollbacks and queries in a transaction never wait for a slot, never hold one, and are never stuck. */
  lemma InATxNeedsNoSlot(a: Agent, thread: Thread, request: Request, labels: seq<Label>, b: Agent)
    requires Enabled(a, Arrive(thread, request)) && InATx(request)
    requires Interleaving(Exec(a, Arrive(thread, request)), labels, b)
    ensures thread in b.threads && !Waiting(b.threads[thread]) && !Holds(b.threads[thread])
    ensures Moves(labels, thread) <= 3
    ensures !Ended(b, thread) ==> forall ok, newTx :: Enabled(b, Step(thread, ok, newTx))
  {
    UngatedHandlersNeverWait(Exec(a, Arrive(thread, request)), labels, b, thread);
  }

  /** At its own slot, before or behind it. */
  predicate Gated(pc: PC) {
    Waiting(pc) || pc.Done? || Holds(pc)
  }

  lemma GatedStep(a: Agent, l: Label, thread: Thread)
    requires Enabled(a, l) && thread in a.threads && Gated(a.threads[thread])
    ensures thread in Exec(a, l).threads && Gated(Exec(a, l).threads[thread])
  {
    if l.Step? && l.thread == thread {
      match a.threads[thread]
      case QueryHold =>
      case BeginHold =>
      case BeginSetUp(_) =>
      case _ =>
    } else if !l.Timeout? {
      OneOtherLeavesIt(a, l, thread);
    }
  }

  lemma {:induction false} StaysGated(a: Agent, labels: seq<Label>, b: Agent, thread: Thread)
    requires thread in a.threads && Gated(a.threads[thread]) && Interleaving(a, labels, b)
    ensures thread in b.threads && Gated(b.threads[thread])
    decreases |labels|
  {
    if labels != [] {
      GatedStep(a, labels[0], thread);
      StaysGated(Exec(a, labels[0]), labels[1..], b, thread);
    }
  }

  /** A query outside a transaction and the opening of one begin by waiting, and do nothing without holding a slot. */
  lemma OthersNeedASlot(a: Agent, thread: Thread, request: Request, labels: seq<Label>, b: Agent)
    requires Inv(a) && Enabled(a, Arrive(thread, request)) && !InATx(request)
    requires Interleaving(Exec(a, Arrive(thread, request)), labels, b)
    ensures Waiting(Exec(a, Arrive(thread, request)).threads[thread])
    ensures thread in b.threads
    ensures !Waiting(b.threads[thread]) && !Ended(b, thread) ==>
      thread in Where(b.threads, HoldsTest()) && (b.cap > 0 ==> 0 < b.slots <= b.cap)
  {
    var arrived := Exec(a, Arrive(thread, request));
    ExecKeepsInv(a, Arrive(thread, request));
    StaysGated(arrived, labels, b, thread);
    InterleavingKeepsInv(arrived, labels, b);
    if Holds(b.threads[thread]) { assert thread in Where(b.threads, HoldsTest()); }
  }

  /** The wait ends with a free slot, which is taken, or with the time-out, and then nothing was done. */
  lemma TheWaitEnds(a: Agent, thread: Thread, request: Request, labels: seq<Label>, m: Agent, ok: bool, newTx: Tx)
    requires Arrives(a, thread, request, labels, m) && !InATx(request)
    ensures Enabled(m, Step(thread, ok, newTx)) <==> m.cap == 0 || m.slots < m.cap
    ensures Enabled(m, Step(thread, ok, newTx)) ==>
      var b := Exec(m, Step(thread, ok, newTx));
      && Holds(b.threads[thread]) && b.slots == (if m.cap == 0 then m.slots else m.slots + 1)
      && b.pool == m.pool && b.finals == m.finals
    ensures Enabled(m, Timeout(thread)) && OnlyMoves(m, Exec(m, Timeout(thread)), thread) && Ended(Exec(m, Timeout(thread)), thread)
  {
    AtItsFirstMove(a, thread, request, labels, m);
  }

  /** With its slot a query takes a connection, runs, and gives the slot back; or it gives the slot back at once. */
  lemma QueryRuns(a: Agent, thread: Thread, labels: seq<Label>, m: Agent, take: Label, more: seq<Label>, n: Agent,
                  open: Label, rest: seq<Label>, o: Agent, last: Label)
    requires Arrives(a, thread, Query, labels, m) && take.Step? && take.thread == thread && Enabled(m, take)
    requires Meanwhile(Exec(m, take), more, n, thread)
    requires open.Step? && open.thread == thread && last.Step? && last.thread == thread
    ensures Enabled(n, open) <==> (open.ok ==> ConnsInUse(n) < n.maxConns)
    ensures Enabled(n, open) && !open.ok ==> Ended(Exec(n, open), thread) && GivesSlotBack(n, Exec(n, open))
    ensures Enabled(n, open) && open.ok ==> OnlyMoves(n, Exec(n, open), thread) && Runs(Exec(n, open).threads[thread])
    ensures Enabled(n, open) && open.ok && Meanwhile(Exec(n, open), rest, o, thread) ==>
      Enabled(o, last) && Ended(Exec(o, last), thread) && GivesSlotBack(o, Exec(o, last))
  {
    AtItsFirstMove(a, thread, Query, labels, m);
    ExecKeepsInv(m, take);
    OthersLeaveIt(Exec(m, take), more, n, thread);
    HolderHasASlot(n, thread);
    if Enabled(n, open) && open.ok && Meanwhile(Exec(n, open), rest, o, thread) {
      ExecKeepsInv(n, open);
      OthersLeaveIt(Exec(n, open), rest, o, thread);
      HolderHasASlot(o, thread);
    }
  }

  /** Nothing else changes. */
  predicate GivesSlotBack(a: Agent, b: Agent) {
    && a.slots - b.slots == (if a.cap == 0 then 0 else 1)
    && b.pool == a.pool && b.finals == a.finals && b.reaping == a.reaping
  }

  lemma HolderHasASlot(a: Agent, thread: Thread)
    requires Inv(a) && thread in a.threads && Holds(a.threads[thread])
    ensures SlotHeld(a)
  {
    assert thread in Where(a.threads, HoldsTest());
  }

  /** With its slot a begin opens a transaction, or none. */
  lemma BeginOpens(a: Agent, thread: Thread, labels: seq<Label>, m: Agent, take: Label, more: seq<Label>, n: Agent, open: Label)
    requires Arrives(a, thread, BeginTx, labels, m) && take.Step? && take.thread == thread && Enabled(m, take)
    requires Meanwhile(Exec(m, take), more, n, thread)
    requires open.Step? && open.thread == thread
    ensures Enabled(n, open) <==> (open.ok ==> ConnsInUse(n) < n.maxConns && open.newTx !in n.finals)
    ensures Enabled(n, open) && !open.ok ==> Ended(Exec(n, open), thread) && GivesSlotBack(n, Exec(n, open))
    ensures Enabled(n, open) && open.ok ==>
      var b := Exec(n, open);
      Holds(b.threads[thread]) && b.finals == n.finals[open.newTx := 0] && b.pool == n.pool && b.slots == n.slots
  {
    AtItsFirstMove(a, thread, BeginTx, labels, m);
    ExecKeepsInv(m, take);
    OthersLeaveIt(Exec(m, take), more, n, thread);
    HolderHasASlot(n, thread);
  }

  /** The transaction opened is pooled when its schema could be set, and ended when not; then the slot is back. */
  lemma BeginPools(a: Agent, thread: Thread, labels: seq<Label>, m: Agent, take: Label, more: seq<Label>, n: Agent,
                   open: Label, rest: seq<Label>, o: Agent, prepare: Label, tail: seq<Label>, p: Agent, last: Label)
    requires Arrives(a, thread, BeginTx, labels, m) && take.Step? && take.thread == thread && Enabled(m, take)
    requires Meanwhile(Exec(m, take), more, n, thread)
    requires open.Step? && open.thread == thread && open.ok && Enabled(n, open) && Meanwhile(Exec(n, open), rest, o, thread)
    requires prepare.Step? && prepare.thread == thread && last.Step? && last.thread == thread
    ensures Enabled(o, prepare)
    ensures var b := Exec(o, prepare);
      if prepare.ok then b.pool == o.pool + {open.newTx} && b.finals == o.finals && b.slots == o.slots
      else
        && Ended(b, thread) && open.newTx in b.finals && b.finals[open.newTx] == 1 && b.pool == o.pool
        && o.slots - b.slots == (if o.cap == 0 then 0 else 1)
    ensures prepare.ok && Meanwhile(Exec(o, prepare), tail, p, thread) ==>
      Enabled(p, last) && Ended(Exec(p, last), thread) && GivesSlotBack(p, Exec(p, last))
  {
    AtItsSetUp(a, thread, labels, m, take, more, n, open, rest, o);
    SetUpStep(o, thread, open.newTx, prepare);
    if prepare.ok && Meanwhile(Exec(o, prepare), tail, p, thread) {
      ExecKeepsInv(o, prepare);
      OthersLeaveIt(Exec(o, prepare), tail, p, thread);
      HolderHasASlot(p, thread);
    }
  }

  lemma AtItsSetUp(a: Agent, thread: Thread, labels: seq<Label>, m: Agent, take: Label, more: seq<Label>, n: Agent,
                   open: Label, rest: seq<Label>, o: Agent)
    requires Arrives(a, thread, BeginTx, labels, m) && take.Step? && take.thread == thread && Enabled(m, take)
    requires Meanwhile(Exec(m, take), more, n, thread)
    requires open.Step? && open.thread == thread && open.ok && Enabled(n, open) && Meanwhile(Exec(n, open), rest, o, thread)
    ensures Inv(o) && thread in o.threads && o.threads[thread] == BeginSetUp(open.newTx)
  {
    AtItsFirstMove(a, thread, BeginTx, labels, m);
    ExecKeepsInv(m, take);
    OthersLeaveIt(Exec(m, take), more, n, thread);
    ExecKeepsInv(n, open);
    OthersLeaveIt(Exec(n, open), rest, o, thread);
  }

  lemma SetUpStep(o: Agent, thread: Thread, tx: Tx, prepare: Label)
    requires Inv(o) && thread in o.threads && o.threads[thread] == BeginSetUp(tx)
    requires prepare.Step? && prepare.thread == thread
    ensures Enabled(o, prepare)
    ensures var b := Exec(o, prepare);
      && thread in b.threads
      && if prepare.ok
         then b.pool == o.pool + {tx} && b.finals == o.finals && b.slots == o.slots && b.threads[thread] == BeginAdded
         else
           && Ended(b, thread) && tx in b.finals && b.finals[tx] == 1 && b.pool == o.pool
           && o.slots - b.slots == (if o.cap == 0 then 0 else 1)
  {
    HolderHasASlot(o, thread);
    OpenedIsOwned(o, thread, tx);
  }

  lemma OpenedIsOwned(a: Agent, thread: Thread, tx: Tx)
    requires Inv(a) && thread in a.threads && a.threads[thread] == BeginSetUp(tx)
    ensures tx in a.finals && a.finals[tx] == 0
  {
    assert thread in Where(a.threads, OwnsTest(tx));
    assert Ledger(a, tx) == One(tx in a.finals);
  }

  // ---- the reaper and the shutdown ----

  /** A sweep takes the idle transactions out of the pool, and each is then ended once. */
  lemma ReapedAreEnded(a: Agent, idle: set<Tx>, labels: seq<Label>, b: Agent, tx: Tx)
    requires Inv(a) && Enabled(a, Reap(idle)) && tx in idle && Interleaving(Exec(a, Reap(idle)), labels, b)
    ensures Exec(a, Reap(idle)).pool == a.pool - idle
    ensures tx !in b.pool && tx in b.finals
    ensures Enabled(b, ReaperRollback(tx)) || b.finals[tx] == 1
    ensures Enabled(b, ReaperRollback(tx)) ==> Exec(b, ReaperRollback(tx)).finals == b.finals[tx := 1]
  {
    Reaped(a, idle, tx);
    ReapingGoesOn(Exec(a, Reap(idle)), labels, b, tx);
    if tx in b.reaping { RollbackEnds(b, tx); }
  }

  lemma RollbackEnds(b: Agent, tx: Tx)
    requires tx in b.reaping && tx in b.finals && b.finals[tx] == 0
    ensures Exec(b, ReaperRollback(tx)).finals == b.finals[tx := 1]
  {
  }

  lemma Reaped(a: Agent, idle: set<Tx>, tx: Tx)
    requires Inv(a) && Enabled(a, Reap(idle)) && tx in idle
    ensures var b := Exec(a, Reap(idle));
      Inv(b) && b.pool == a.pool - idle && tx in b.reaping && tx in b.finals && b.finals[tx] == 0
  {
    ExecKeepsInv(a, Reap(idle));
    PooledIsOpen(a, tx);
  }

  lemma PooledIsOpen(a: Agent, tx: Tx)
    requires Inv(a) && tx in a.pool
    ensures tx in a.finals && a.finals[tx] == 0
  {
    assert Ledger(a, tx) == One(tx in a.finals);
  }

  lemma {:induction false} ReapingGoesOn(a: Agent, labels: seq<Label>, b: Agent, tx: Tx)
    requires Inv(a) && Interleaving(a, labels, b) && tx in a.reaping && tx in a.finals && a.finals[tx] == 0
    ensures tx !in b.pool && tx in b.finals
    ensures if tx in b.reaping then b.finals[tx] == 0 else b.finals[tx] == 1
    decreases |labels|
  {
    if labels == [] {
      assert Ledger(a, tx) == One(tx in a.finals);
    } else {
      var m := Exec(a, labels[0]);
      ExecKeepsInv(a, labels[0]);
      FinalsGrow(a, labels[0], tx);
      ReapedOrEnded(a, labels[0], tx);
      assert Ledger(m, tx) == One(tx in m.finals);
      if tx in m.reaping { ReapingGoesOn(m, labels[1..], b, tx); } else { EndedForGood(m, labels[1..], b, tx); }
    }
  }

  /** Only the rollback of the reaper takes a transaction from it. */
  lemma ReapedOrEnded(a: Agent, l: Label, tx: Tx)
    requires Inv(a) && Enabled(a, l) && tx in a.reaping && tx in a.finals
    ensures tx in Exec(a, l).reaping || (tx in Exec(a, l).finals && Exec(a, l).finals[tx] == a.finals[tx] + 1)
  {
  }

  /** Shutting down ends every pooled transaction. */
  lemma ShutdownEndsThePool(a: Agent, tx: Tx)
    requires Inv(a)
    ensures var b := Exec(a, CloseAll);
      b.pool == {} && (tx in a.pool ==> tx in b.finals && b.finals[tx] == 1) && b.slots == a.slots && b.threads == a.threads
  {
    assert Ledger(a, tx) == One(tx in a.finals);
  }
}
