/**
 The local agent's request handlers as an interleaving system (agent/daemon.go, agent/handlers.go,
 agent/semaphore.go, agent/txpool.go). Every label is one atomic section of one goroutine.
 */
module AgentRuntime {
  import opened Threads

  type Tx = nat

  datatype Request = Query | BeginTx | TxQuery(tx: Tx) | Commit(tx: Tx) | Rollback(tx: Tx)

  /** Where a handler goroutine is. The first seven are the gated handlers'. */
  datatype PC =
    | QueryWait | QueryHold | QueryRun
    | BeginWait | BeginHold | BeginSetUp(tx: Tx) | BeginAdded
    | LookUp(tx: Tx) | Touch(tx: Tx) | Use(tx: Tx)
    | PopFirst(tx: Tx) | Popped(tx: Tx)
    | Done

  /** Holding a query slot. */
  predicate Holds(pc: PC) {
    pc.QueryHold? || pc.QueryRun? || pc.BeginHold? || pc.BeginSetUp? || pc.BeginAdded?
  }

  /** The one transaction this goroutine alone must still hand over or finish. */
  predicate Owns(pc: PC, tx: Tx) {
    pc == BeginSetUp(tx) || pc == Popped(tx)
  }

  predicate Runs(pc: PC) { pc.QueryRun? }

  /**
   cap 0 is the nil semaphore. `finals` counts the Commit and Rollback calls each opened transaction has had;
   `reaping` are those the reaper has taken out of the pool and not yet rolled back.
   */
  datatype Agent = Agent(cap: nat, maxConns: nat, slots: nat, threads: map<Thread, PC>,
                         pool: set<Tx>, reaping: set<Tx>, finals: map<Tx, nat>)

  datatype Label =
    | Arrive(thread: Thread, request: Request)
    | Timeout(thread: Thread)
    | Step(thread: Thread, ok: bool, newTx: Tx)
    | Reap(idle: set<Tx>)
    | ReaperRollback(tx: Tx)
    | CloseAll

  function HoldsTest(): PC -> bool { pc => Holds(pc) }
  function RunsTest(): PC -> bool { pc => Runs(pc) }
  function OwnsTest(tx: Tx): PC -> bool { pc => Owns(pc, tx) }

  function OpenTxs(finals: map<Tx, nat>): set<Tx> {
    set tx | tx in finals && finals[tx] == 0
  }

  /** Database connections in use: one per running query and one pinned by each open transaction. */
  function ConnsInUse(a: Agent): nat {
    |Where(a.threads, RunsTest())| + |OpenTxs(a.finals)|
  }

  function First(request: Request): PC {
    match request
    case Query => QueryWait
    case BeginTx => BeginWait
    case TxQuery(tx) => LookUp(tx)
    case Commit(tx) => PopFirst(tx)
    case Rollback(tx) => PopFirst(tx)
  }

  predicate SlotFree(a: Agent) { a.cap == 0 || a.slots < a.cap }

  /** Release receives from the channel, so it would block on an empty one. */
  predicate SlotHeld(a: Agent) { a.cap == 0 || a.slots > 0 }

  /** A step can be taken now; the rest of the world decides `ok` and names a new transaction. */
  ghost predicate CanStep(a: Agent, l: Label)
    requires l.Step?
  {
    && l.thread in a.threads
    && match a.threads[l.thread]
       case QueryWait => SlotFree(a)
       case BeginWait => SlotFree(a)
       case QueryHold => if l.ok then ConnsInUse(a) < a.maxConns else SlotHeld(a)
       case QueryRun => SlotHeld(a)
       case BeginHold => if l.ok then ConnsInUse(a) < a.maxConns && l.newTx !in a.finals else SlotHeld(a)
       case BeginSetUp(_) => l.ok || SlotHeld(a)
       case BeginAdded => SlotHeld(a)
       case Done => false
       case _ => true
  }

  ghost predicate Enabled(a: Agent, l: Label) {
    match l
    case Arrive(thread, _) => thread !in a.threads
    case Timeout(thread) => thread in a.threads && (a.threads[thread].QueryWait? || a.threads[thread].BeginWait?)
    case Step(_, _, _) => CanStep(a, l)
    case Reap(idle) => idle != {} && idle <= a.pool
    case ReaperRollback(tx) => tx in a.reaping
    case CloseAll => true
  }

  function Acquire(a: Agent): Agent { a.(slots := if a.cap == 0 then 0 else a.slots + 1) }

  function Release(a: Agent): Agent
    requires SlotHeld(a)
  {
    a.(slots := if a.cap == 0 then 0 else a.slots - 1)
  }

  function At(a: Agent, thread: Thread, pc: PC): Agent { a.(threads := a.threads[thread := pc]) }

  function Finish(a: Agent, txs: set<Tx>): Agent {
    a.(finals := map tx | tx in a.finals :: if tx in txs then a.finals[tx] + 1 else a.finals[tx])
  }

  function Exec(a: Agent, l: Label): Agent
    requires Enabled(a, l)
  {
    match l
    case Arrive(thread, request) => At(a, thread, First(request))
    case Timeout(thread) => At(a, thread, Done)
    case Reap(idle) => a.(pool := a.pool - idle, reaping := a.reaping + idle)
    case ReaperRollback(tx) => Finish(a.(reaping := a.reaping - {tx}), {tx})
    case CloseAll => Finish(a.(pool := {}), a.pool)
    case Step(thread, ok, newTx) =>
      match a.threads[thread]
      case QueryWait => At(Acquire(a), thread, QueryHold)
      case QueryHold => if ok then At(a, thread, QueryRun) else At(Release(a), thread, Done)
      case QueryRun => At(Release(a), thread, Done)
      case BeginWait => At(Acquire(a), thread, BeginHold)
      case BeginHold =>
        if ok then At(a.(finals := a.finals[newTx := 0]), thread, BeginSetUp(newTx)) else At(Release(a), thread, Done)
      case BeginSetUp(tx) =>
        if ok then At(a.(pool := a.pool + {tx}), thread, BeginAdded) else At(Release(Finish(a, {tx})), thread, Done)
      case BeginAdded => At(Release(a), thread, Done)
      case LookUp(tx) => At(a, thread, if tx in a.pool then Touch(tx) else Done)
      case Touch(tx) => At(a, thread, Use(tx))
      case Use(tx) => At(a, thread, Done)
      case PopFirst(tx) => if tx in a.pool then At(a.(pool := a.pool - {tx}), thread, Popped(tx)) else At(a, thread, Done)
      case Popped(tx) => At(Finish(a, {tx}), thread, Done)
  }

  // ---- counting ----

  function One(b: bool): nat { if b then 1 else 0 }

  /** How many hands the transaction is in: a handler's, the pool's, the reaper's, and how often it was finished. */
  function Ledger(a: Agent, tx: Tx): nat {
    |Where(a.threads, OwnsTest(tx))| + One(tx in a.pool) + One(tx in a.reaping) +
    (if tx in a.finals then a.finals[tx] else 0)
  }

  // ---- the invariant ----

  ghost predicate SlotsMatch(a: Agent) {
    if a.cap == 0 then a.slots == 0 else a.slots == |Where(a.threads, HoldsTest())| && a.slots <= a.cap
  }

  ghost predicate LedgerBalances(a: Agent) {
    forall tx: Tx :: Ledger(a, tx) == One(tx in a.finals)
  }

  ghost predicate Inv(a: Agent) {
    SlotsMatch(a) && LedgerBalances(a) && ConnsInUse(a) <= a.maxConns
  }

  lemma SlotsAfter(a: Agent, l: Label)
    requires SlotsMatch(a) && Enabled(a, l)
    ensures SlotsMatch(Exec(a, l))
  {
    match l
    case Arrive(thread, request) => CountAfter(a.threads, thread, First(request), HoldsTest());
    case Timeout(thread) => CountAfter(a.threads, thread, Done, HoldsTest());
    case Step(thread, _, _) =>
      CountAfter(a.threads, thread, Exec(a, l).threads[thread], HoldsTest());
      SlotMoves(a, l);
      if Holds(a.threads[thread]) { assert thread in Where(a.threads, HoldsTest()); }
    case _ =>
  }

  /** One move takes, keeps or gives back the slot of the goroutine that makes it. */
  lemma SlotMoves(a: Agent, l: Label)
    requires Enabled(a, l) && l.Step?
    ensures var b := Exec(a, l);
      && l.thread in b.threads && b.threads == a.threads[l.thread := b.threads[l.thread]] && b.cap == a.cap
      && var was, holds := Holds(a.threads[l.thread]), Holds(b.threads[l.thread]);
      && (!was && holds ==> SlotFree(a))
      && b.slots == if a.cap == 0 && was != holds then 0 else a.slots + One(holds) - One(was)
  {
  }

  /** The sections that hand a transaction over or finish it. */
  predicate MovesTx(pc: PC) {
    pc.BeginHold? || pc.BeginSetUp? || pc.PopFirst? || pc.Popped?
  }

  lemma StepKeepsLedger(a: Agent, l: Label, tx: Tx)
    requires LedgerBalances(a) && Enabled(a, l) && l.Step?
    ensures Ledger(Exec(a, l), tx) == One(tx in Exec(a, l).finals)
  {
    match a.threads[l.thread]
    case BeginHold => BeginKeepsLedger(a, l, tx);
    case BeginSetUp(_) => SetUpKeepsLedger(a, l, tx);
    case PopFirst(_) => PopKeepsLedger(a, l, tx);
    case Popped(_) => FinishKeepsLedger(a, l, tx);
    case _ => OthersKeepLedger(a, l, tx);
  }

  lemma OthersKeepLedger(a: Agent, l: Label, tx: Tx)
    requires LedgerBalances(a) && Enabled(a, l) && l.Step? && !MovesTx(a.threads[l.thread])
    ensures Ledger(Exec(a, l), tx) == One(tx in Exec(a, l).finals)
  {
    OthersMoveNoTx(a, l);
    CountAfter(a.threads, l.thread, Exec(a, l).threads[l.thread], OwnsTest(tx));
    assert Ledger(a, tx) == One(tx in a.finals);
  }

  lemma OthersMoveNoTx(a: Agent, l: Label)
    requires Enabled(a, l) && l.Step? && !MovesTx(a.threads[l.thread])
    ensures var b := Exec(a, l);
      && b.pool == a.pool && b.reaping == a.reaping && b.finals == a.finals
      && l.thread in b.threads && b.threads == a.threads[l.thread := b.threads[l.thread]]
      && forall tx :: Owns(b.threads[l.thread], tx) == Owns(a.threads[l.thread], tx)
  {
  }

  lemma BeginKeepsLedger(a: Agent, l: Label, tx: Tx)
    requires LedgerBalances(a) && Enabled(a, l) && l.Step? && a.threads[l.thread].BeginHold?
    ensures Ledger(Exec(a, l), tx) == One(tx in Exec(a, l).finals)
  {
    CountAfter(a.threads, l.thread, if l.ok then BeginSetUp(l.newTx) else Done, OwnsTest(tx));
    assert Ledger(a, tx) == One(tx in a.finals);
  }

  lemma SetUpKeepsLedger(a: Agent, l: Label, tx: Tx)
    requires LedgerBalances(a) && Enabled(a, l) && l.Step? && a.threads[l.thread].BeginSetUp?
    ensures Ledger(Exec(a, l), tx) == One(tx in Exec(a, l).finals)
  {
    CountAfter(a.threads, l.thread, if l.ok then BeginAdded else Done, OwnsTest(tx));
    assert Ledger(a, tx) == One(tx in a.finals);
    if Owns(a.threads[l.thread], tx) { assert l.thread in Where(a.threads, OwnsTest(tx)); }
  }

  lemma PopKeepsLedger(a: Agent, l: Label, tx: Tx)
    requires LedgerBalances(a) && Enabled(a, l) && l.Step? && a.threads[l.thread].PopFirst?
    ensures Ledger(Exec(a, l), tx) == One(tx in Exec(a, l).finals)
  {
    CountAfter(a.threads, l.thread, Exec(a, l).threads[l.thread], OwnsTest(tx));
    assert Ledger(a, tx) == One(tx in a.finals);
  }

  lemma FinishKeepsLedger(a: Agent, l: Label, tx: Tx)
    requires LedgerBalances(a) && Enabled(a, l) && l.Step? && a.threads[l.thread].Popped?
    ensures Ledger(Exec(a, l), tx) == One(tx in Exec(a, l).finals)
  {
    CountAfter(a.threads, l.thread, Done, OwnsTest(tx));
    assert Ledger(a, tx) == One(tx in a.finals);
    if Owns(a.threads[l.thread], tx) { assert l.thread in Where(a.threads, OwnsTest(tx)); }
  }

  lemma LedgerAfter(a: Agent, l: Label)
    requires LedgerBalances(a) && Enabled(a, l)
    ensures LedgerBalances(Exec(a, l))
  {
    forall tx: Tx ensures Ledger(Exec(a, l), tx) == One(tx in Exec(a, l).finals) {
      assert Ledger(a, tx) == One(tx in a.finals);
      match l
      case Arrive(thread, request) => CountAfter(a.threads, thread, First(request), OwnsTest(tx));
      case Timeout(thread) => CountAfter(a.threads, thread, Done, OwnsTest(tx));
      case Step(_, _, _) => StepKeepsLedger(a, l, tx);
      case _ =>
    }
  }

  /** Only a query that starts running or a transaction that is opened takes a connection, and both wait for one. */
  lemma ConnsAfter(a: Agent, l: Label)
    requires Inv(a) && Enabled(a, l)
    ensures ConnsInUse(Exec(a, l)) <= a.maxConns && Exec(a, l).maxConns == a.maxConns
  {
    var b := Exec(a, l);
    match l
    case Arrive(thread, request) => CountAfter(a.threads, thread, First(request), RunsTest());
    case Timeout(thread) => CountAfter(a.threads, thread, Done, RunsTest());
    case Step(_, _, _) => ConnsAfterStep(a, l);
    case _ => FewerOpen(a.finals, b.finals);
  }

  lemma ConnsAfterStep(a: Agent, l: Label)
    requires Inv(a) && Enabled(a, l) && l.Step?
    ensures ConnsInUse(Exec(a, l)) <= a.maxConns
  {
    match a.threads[l.thread]
    case QueryHold => ConnsAfterQuery(a, l);
    case BeginHold => ConnsAfterBegin(a, l);
    case BeginSetUp(_) => ConnsAfterEnd(a, l);
    case Popped(_) => ConnsAfterEnd(a, l);
    case _ => ConnsAfterOthers(a, l);
  }

  lemma ConnsAfterQuery(a: Agent, l: Label)
    requires Inv(a) && Enabled(a, l) && l.Step? && a.threads[l.thread].QueryHold?
    ensures ConnsInUse(Exec(a, l)) <= a.maxConns
  {
    CountAfter(a.threads, l.thread, if l.ok then QueryRun else Done, RunsTest());
  }

  lemma ConnsAfterBegin(a: Agent, l: Label)
    requires Inv(a) && Enabled(a, l) && l.Step? && a.threads[l.thread].BeginHold?
    ensures ConnsInUse(Exec(a, l)) <= a.maxConns
  {
    CountAfter(a.threads, l.thread, if l.ok then BeginSetUp(l.newTx) else Done, RunsTest());
    if l.ok { OneMoreOpen(a.finals, l.newTx); }
  }

  lemma ConnsAfterEnd(a: Agent, l: Label)
    requires Inv(a) && Enabled(a, l) && l.Step? && (a.threads[l.thread].BeginSetUp? || a.threads[l.thread].Popped?)
    ensures ConnsInUse(Exec(a, l)) <= a.maxConns
  {
    CountAfter(a.threads, l.thread, Exec(a, l).threads[l.thread], RunsTest());
    FewerOpen(a.finals, Exec(a, l).finals);
  }

  lemma ConnsAfterOthers(a: Agent, l: Label)
    requires Inv(a) && Enabled(a, l) && l.Step?
    requires !a.threads[l.thread].QueryHold? && !a.threads[l.thread].BeginHold?
    requires !a.threads[l.thread].BeginSetUp? && !a.threads[l.thread].Popped?
    ensures ConnsInUse(Exec(a, l)) <= a.maxConns
  {
    var now := Exec(a, l).threads[l.thread];
    CountAfter(a.threads, l.thread, now, RunsTest());
    assert Exec(a, l).threads == a.threads[l.thread := now];
  }

  lemma OneMoreOpen(finals: map<Tx, nat>, tx: Tx)
    requires tx !in finals
    ensures |OpenTxs(finals[tx := 0])| == |OpenTxs(finals)| + 1
  {
    assert OpenTxs(finals[tx := 0]) == OpenTxs(finals) + {tx};
  }

  lemma FewerOpen(before: map<Tx, nat>, after: map<Tx, nat>)
    requires after.Keys == before.Keys && forall tx :: tx in before ==> before[tx] <= after[tx]
    ensures |OpenTxs(after)| <= |OpenTxs(before)|
  {
    SubsetIsNoBigger(OpenTxs(after), OpenTxs(before));
  }

  lemma SubsetIsNoBigger<T>(a: set<T>, b: set<T>)
    requires a <= b
    ensures |a| <= |b|
  {
    assert b == a + (b - a);
  }

  lemma ExecKeepsInv(a: Agent, l: Label)
    requires Inv(a) && Enabled(a, l)
    ensures Inv(Exec(a, l))
  {
    SlotsAfter(a, l);
    LedgerAfter(a, l);
    ConnsAfter(a, l);
  }

  // ---- every interleaving ----

  ghost predicate Interleaving(a: Agent, labels: seq<Label>, b: Agent)
    decreases |labels|
  {
    if labels == [] then a == b
    else Enabled(a, labels[0]) && Interleaving(Exec(a, labels[0]), labels[1..], b)
  }

  function Idle(cap: nat, maxConns: nat): Agent {
    Agent(cap, maxConns, 0, map[], {}, {}, map[])
  }

  lemma IdleInv(cap: nat, maxConns: nat)
    ensures Inv(Idle(cap, maxConns))
  {
    var a := Idle(cap, maxConns);
    assert Where(a.threads, HoldsTest()) == {} && Where(a.threads, RunsTest()) == {} && OpenTxs(a.finals) == {};
    forall tx: Tx ensures Ledger(a, tx) == 0 { assert Where(a.threads, OwnsTest(tx)) == {}; }
  }

  lemma {:induction false} InterleavingKeepsInv(a: Agent, labels: seq<Label>, b: Agent)
    requires Inv(a) && Interleaving(a, labels, b)
    ensures Inv(b) && b.cap == a.cap && b.maxConns == a.maxConns
    decreases |labels|
  {
    if labels != [] {
      ExecKeepsInv(a, labels[0]);
      InterleavingKeepsInv(Exec(a, labels[0]), labels[1..], b);
    }
  }

  /** Slots in use are the gated handlers in flight, and never more than the cap. */
  lemma SlotsAreHandlersInFlight(cap: nat, maxConns: nat, labels: seq<Label>, b: Agent)
    requires cap > 0 && Interleaving(Idle(cap, maxConns), labels, b)
    ensures b.slots == |Where(b.threads, HoldsTest())| <= cap
  {
    IdleInv(cap, maxConns);
    InterleavingKeepsInv(Idle(cap, maxConns), labels, b);
  }

  /**
   Every opened transaction is in exactly one place: one handler that set it up or popped it, the pool, the reaper,
   or finished; and it is finished at most once, by whoever gets it first.
   */
  lemma EveryTxIsInOnePlace(cap: nat, maxConns: nat, labels: seq<Label>, b: Agent, tx: Tx)
    requires Interleaving(Idle(cap, maxConns), labels, b) && tx in b.finals
    ensures |Where(b.threads, OwnsTest(tx))| + One(tx in b.pool) + One(tx in b.reaping) + b.finals[tx] == 1
    ensures b.finals[tx] <= 1
  {
    IdleInv(cap, maxConns);
    InterleavingKeepsInv(Idle(cap, maxConns), labels, b);
    assert Ledger(b, tx) == One(tx in b.finals);
  }

  // ---- nothing gets stuck ----

  /** Handlers of commits, rollbacks and queries inside a transaction. */
  predicate NeverWaits(pc: PC) {
    pc.LookUp? || pc.Touch? || pc.Use? || pc.PopFirst? || pc.Popped?
  }

  function MovesLeft(pc: PC): nat {
    match pc
    case LookUp(_) => 3
    case Touch(_) => 2
    case Use(_) => 1
    case PopFirst(_) => 2
    case Popped(_) => 1
    case _ => 0
  }

  function Moves(labels: seq<Label>, thread: Thread): nat {
    if labels == [] then 0
    else (if labels[0].Step? && labels[0].thread == thread then 1 else 0) + Moves(labels[1..], thread)
  }

  /** Where a handler that never waits can be after k of its own moves. */
  predicate Within(pc: PC, left: int) {
    (pc.Done? || NeverWaits(pc)) && MovesLeft(pc) <= left
  }

  /**
   Whatever the others do meanwhile, such a handler can take its next step, and it is done after three of its own: it
   waits for no slot and no connection.
   */
  lemma {:induction false} UngatedHandlersNeverWait(a: Agent, labels: seq<Label>, b: Agent, thread: Thread)
    requires thread in a.threads && NeverWaits(a.threads[thread]) && Interleaving(a, labels, b)
    ensures thread in b.threads && Within(b.threads[thread], MovesLeft(a.threads[thread]) - Moves(labels, thread))
    ensures Moves(labels, thread) <= 3
    ensures !b.threads[thread].Done? ==> forall ok, newTx :: Enabled(b, Step(thread, ok, newTx))
    decreases |labels|
  {
    if labels != [] {
      var m := Exec(a, labels[0]);
      OwnMoves(a, labels[0], thread);
      if m.threads[thread].Done? {
        DoneStaysDone(m, labels[1..], b, thread);
      } else {
        UngatedHandlersNeverWait(m, labels[1..], b, thread);
      }
    }
  }

  lemma OwnMoves(a: Agent, l: Label, thread: Thread)
    requires thread in a.threads && NeverWaits(a.threads[thread]) && Enabled(a, l)
    ensures thread in Exec(a, l).threads
    ensures if l.Step? && l.thread == thread
            then Within(Exec(a, l).threads[thread], MovesLeft(a.threads[thread]) - 1)
            else Exec(a, l).threads[thread] == a.threads[thread]
  {
    if l.Step? && l.thread == thread { OwnMove(a, l); }
  }

  lemma OwnMove(a: Agent, l: Label)
    requires Enabled(a, l) && l.Step? && NeverWaits(a.threads[l.thread])
    ensures l.thread in Exec(a, l).threads && Within(Exec(a, l).threads[l.thread], MovesLeft(a.threads[l.thread]) - 1)
  {
  }

  lemma {:induction false} DoneStaysDone(a: Agent, labels: seq<Label>, b: Agent, thread: Thread)
    requires thread in a.threads && a.threads[thread].Done? && Interleaving(a, labels, b)
    ensures thread in b.threads && b.threads[thread].Done? && Moves(labels, thread) == 0
    decreases |labels|
  {
    if labels != [] {
      DoneStaysDone(Exec(a, labels[0]), labels[1..], b, thread);
    }
  }

  /** Nothing is left to do: no handler runs and no transaction is open. */
  ghost predicate Quiet(a: Agent) {
    (forall t :: t in a.threads ==> a.threads[t].Done?) && a.pool == {} && a.reaping == {}
  }

  /** Progress by the agent itself: no new request, no timeout, no failing call. */
  predicate Progress(l: Label) { (l.Step? && l.ok) || l.Reap? || l.ReaperRollback? }

  lemma {:induction false} UnusedTx(finals: map<Tx, nat>) returns (tx: Tx)
    ensures tx !in finals
  {
    var bound := UpperBound(finals.Keys);
    tx := bound;
  }

  lemma {:induction false} UpperBound(txs: set<Tx>) returns (bound: Tx)
    ensures forall tx :: tx in txs ==> tx < bound
    decreases txs
  {
    if txs == {} { return 0; }
    var tx :| tx in txs;
    var rest := UpperBound(txs - {tx});
    bound := if tx < rest then rest else tx + 1;
    forall other | other in txs ensures other < bound {
      if other != tx { assert other in txs - {tx}; }
    }
  }

  /** With no handler past the wait for a connection, no running query and nothing pooled, all connections are free. */
  lemma ConnectionsAreFree(a: Agent)
    requires Inv(a) && a.pool == {} && a.reaping == {}
    requires forall t :: t in a.threads ==> !Runs(a.threads[t]) && !a.threads[t].BeginSetUp? && !a.threads[t].Popped?
    ensures ConnsInUse(a) == 0
  {
    assert Where(a.threads, RunsTest()) == {};
    forall tx | tx in a.finals ensures a.finals[tx] == 1 {
      assert Where(a.threads, OwnsTest(tx)) == {};
      assert Ledger(a, tx) == One(tx in a.finals);
    }
    assert OpenTxs(a.finals) == {};
  }

  /** Past every wait: the next move needs nothing that another goroutine holds. */
  predicate Runnable(pc: PC) {
    pc.QueryRun? || pc.BeginSetUp? || pc.BeginAdded? || NeverWaits(pc)
  }

  lemma RunnableRuns(a: Agent, t: Thread)
    requires Inv(a) && t in a.threads && Runnable(a.threads[t])
    ensures Enabled(a, Step(t, true, 0))
  {
    if Holds(a.threads[t]) { assert t in Where(a.threads, HoldsTest()); }
  }

  /** With at least one connection to hand out, no state short of quiet is stuck, whatever the cap. */
  lemma SomeStepIsEnabled(a: Agent) returns (l: Label)
    requires Inv(a) && !Quiet(a) && a.maxConns > 0
    ensures Progress(l) && Enabled(a, l)
  {
    if a.reaping != {} {
      var tx :| tx in a.reaping;
      return ReaperRollback(tx);
    }
    if a.pool != {} { return Reap(a.pool); }
    if t :| t in a.threads && Runnable(a.threads[t]) {
      RunnableRuns(a, t);
      return Step(t, true, 0);
    }
    ConnectionsAreFree(a);
    var newTx := UnusedTx(a.finals);
    if t :| t in a.threads && Holds(a.threads[t]) {
      return Step(t, true, newTx);
    }
    var t :| t in a.threads && !a.threads[t].Done?;
    assert Where(a.threads, HoldsTest()) == {};
    return Step(t, true, newTx);
  }
}
