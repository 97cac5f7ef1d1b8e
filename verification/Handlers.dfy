/**
 The agent's handlers as the source runs them, one call at a time: a query slot taken and given back, transactions
 moved between the database and the pool (agent/semaphore.go, agent/daemon.go, agent/handlers.go). AgentRuntime
 interleaves their atomic sections.
 */
module Handlers {
  import opened Wrappers
  import opened TxPool

  /** A buffered channel of tokens; capacity 0 is the nil semaphore, which never limits. */
  class QuerySemaphore {
    const capacity: nat
    var held: nat

    ghost predicate Valid() reads this {
      held <= capacity
    }

    constructor (capacity: int)
      ensures Valid() && held == 0
      ensures this.capacity == if capacity <= 0 then 0 else capacity
    {
      this.capacity := if capacity <= 0 then 0 else capacity;
      held := 0;
    }

    /** The moment a slot is free or the context has fired; with both, `slotFirst` is what the select picks. */
    method Acquire(fired: bool, slotFirst: bool) returns (ok: bool)
      requires Valid() && (capacity == 0 || held < capacity || fired)
      modifies this
      ensures Valid()
      ensures ok ==> held == if capacity == 0 then old(held) else old(held) + 1
      ensures !ok ==> held == old(held) && fired && capacity > 0
      ensures capacity == 0 || (old(held) < capacity && !fired) ==> ok
    {
      if capacity == 0 {
        return true;
      }
      if held < capacity && (slotFirst || !fired) {
        held := held + 1;
        return true;
      }
      return false;
    }

    method Release()
      requires Valid() && (capacity == 0 || held > 0)
      modifies this
      ensures Valid() && held == if capacity == 0 then old(held) else old(held) - 1
    {
      if capacity > 0 {
        held := held - 1;
      }
    }
  }

  /** The transactions opened so far and how often each was committed or rolled back. */
  class Database {
    var finals: map<nat, nat>

    constructor ()
      ensures finals == map[]
    {
      finals := map[];
    }

    method Begin(tx: nat)
      requires tx !in finals
      modifies this
      ensures finals == old(finals)[tx := 0]
    {
      finals := finals[tx := 0];
    }

    /** Commit or Rollback: either way the transaction has had its one end. */
    method Finish(tx: nat)
      requires tx in finals
      modifies this
      ensures finals == old(finals)[tx := old(finals)[tx] + 1]
    {
      finals := finals[tx := finals[tx] + 1];
    }
  }

  /** Every pooled transaction is open, and pooled under one id. */
  ghost predicate PoolIsOpen(held: map<string, nat>, finals: map<nat, nat>) {
    && (forall id :: id in held ==> held[id] in finals && finals[held[id]] == 0)
    && forall a, b :: a in held && b in held && held[a] == held[b] ==> a == b
  }

  /** What the world answers one request: whether the context fires first, and whether each database call succeeds. */
  datatype Reply = Reply(fired: bool, slotFirst: bool, begun: bool, schemaApplied: bool, tx: nat, id: string, now: int)

  class Agent {
    const sem: QuerySemaphore
    const txs: TxPool
    const db: Database

    constructor (capacity: int)
      ensures fresh(sem) && fresh(txs) && fresh(db) && Valid()
      ensures txs.Held() == map[] && sem.held == 0
    {
      sem := new QuerySemaphore(capacity);
      txs := new TxPool();
      db := new Database();
    }

    ghost predicate Valid() reads sem, txs, txs.Entries(), db {
      sem.Valid() && txs.Valid() && PoolIsOpen(txs.Held(), db.finals)
    }

    /** A new transaction is pooled only when it is open with its schema applied; otherwise nothing of it is left open. */
    method HandleBeginTx(r: Reply) returns (id: Option<string>)
      requires Valid() && r.tx !in db.finals && r.id !in txs.txs
      modifies txs, db
      ensures Valid()
      ensures id == if r.begun && r.schemaApplied then Some(r.id) else None
      ensures txs.Held() == if id.Some? then old(txs.Held())[r.id := r.tx] else old(txs.Held())
      ensures id.None? ==> forall tx :: tx in db.finals && db.finals[tx] == 0 ==> tx in old(db.finals) && old(db.finals)[tx] == 0
      ensures forall tx :: tx in old(db.finals) ==> tx in db.finals && db.finals[tx] == old(db.finals)[tx]
    {
      if !r.begun {
        return None;
      }
      db.Begin(r.tx);
      if !r.schemaApplied {
        db.Finish(r.tx);
        return None;
      }
      txs.Add(r.tx, r.id, r.now);
      return Some(r.id);
    }

    /**
     Commit and Rollback alike: whoever pops the transaction ends it, once, and it is never found again. No slot is
     needed, so this works even when every slot is taken.
     */
    method HandleFinish(id: string) returns (found: bool)
      requires Valid()
      modifies txs, db
      ensures Valid() && found == (id in old(txs.txs))
      ensures txs.Held() == old(txs.Held()) - {id}
      ensures db.finals == if found then old(db.finals)[old(txs.Held())[id] := 1] else old(db.finals)
    {
      var tx := txs.Pop(id);
      if tx.None? {
        return false;
      }
      db.Finish(tx.value);
      return true;
    }

    /**
     One begin request from the dispatcher: the slot is back when the handler is done, whatever happened inside, and a
     request that got no slot changed nothing.
     */
    method DispatchBeginTx(r: Reply) returns (served: bool, id: Option<string>)
      requires Valid() && r.tx !in db.finals && r.id !in txs.txs
      requires sem.capacity == 0 || sem.held < sem.capacity || r.fired
      modifies sem, txs, db
      ensures Valid() && sem.held == old(sem.held)
      ensures id.Some? ==> txs.Held() == old(txs.Held())[r.id := r.tx] && id.value == r.id
      ensures id.None? ==> txs.Held() == old(txs.Held())
      ensures !served ==> r.fired && id.None? && db.finals == old(db.finals)
    {
      id := None;
      served := sem.Acquire(r.fired, r.slotFirst);
      if !served {
        return;
      }
      id := HandleBeginTx(r);
      sem.Release();
    }
  }
}
