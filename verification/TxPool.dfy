/** The agent's pool of open transactions and its idle sweep (agent/txpool.go, agent/daemon.go). */
module TxPool {
  import opened Wrappers

  /** Nanoseconds. */
  const SECOND: int := 1_000_000_000
  const TX_IDLE_TIMEOUT: int := 60 * SECOND
  const SWEEP_PERIOD: int := 15 * SECOND

  type Stamps = map<string, int>

  /** What a sweep at `now` keeps. */
  function KeptBy(stamps: Stamps, now: int): Stamps {
    map id | id in stamps && stamps[id] >= now - TX_IDLE_TIMEOUT :: stamps[id]
  }

  class TxEntry {
    const tx: nat
    var lastUsed: int

    constructor (tx: nat, now: int)
      ensures this.tx == tx && lastUsed == now
    {
      this.tx := tx;
      lastUsed := now;
    }
  }

  class TxPool {
    var txs: map<string, TxEntry>

    constructor ()
      ensures txs == map[]
    {
      txs := map[];
    }

    ghost predicate Valid()
      reads this
    {
      forall a, b | a in txs && b in txs && txs[a] == txs[b] :: a == b
    }

    function Entries(): set<TxEntry>
      reads this
    {
      set id | id in txs :: txs[id]
    }

    function Uses(): Stamps
      reads this, Entries()
    {
      map id | id in txs :: txs[id].lastUsed
    }

    function Held(): map<string, nat>
      reads this, Entries()
    {
      map id | id in txs :: txs[id].tx
    }

    /** `id` is the v4 UUID the source mints. */
    method Add(tx: nat, id: string, now: int)
      requires Valid() && id !in txs
      modifies this
      ensures Valid() && fresh(Entries() - old(Entries()))
      ensures Uses() == old(Uses())[id := now] && Held() == old(Held())[id := tx]
    {
      var e := new TxEntry(tx, now);
      txs := txs[id := e];
      assert Entries() - {e} <= old(Entries());
    }

    /** The locked half of Get: the entry found may leave the pool before it is touched. */
    method Look(id: string) returns (e: TxEntry?)
      ensures e == if id in txs then txs[id] else null
    {
      if id in txs { e := txs[id]; } else { e := null; }
    }

    /** The unlocked half of Get: only the use of an entry that is still pooled shows in the pool. */
    method Touch(e: TxEntry, now: int)
      requires Valid()
      modifies e
      ensures Valid() && txs == old(txs) && e.lastUsed == now
      ensures forall id :: id in txs ==> Uses()[id] == if txs[id] == e then now else old(Uses())[id]
    {
      e.lastUsed := now;
    }

    method Get(id: string, now: int) returns (tx: Option<nat>)
      requires Valid()
      modifies Entries()
      ensures Valid() && txs == old(txs) && Held() == old(Held())
      ensures tx == if id in txs then Some(old(Held())[id]) else None
      ensures Uses() == if id in txs then old(Uses())[id := now] else old(Uses())
    {
      var e := Look(id);
      if e == null { return None; }
      Touch(e, now);
      return Some(e.tx);
    }

    method Pop(id: string) returns (tx: Option<nat>)
      requires Valid()
      modifies this
      ensures Valid() && Entries() <= old(Entries())
      ensures tx == if id in old(txs) then Some(old(Held())[id]) else None
      ensures Uses() == old(Uses()) - {id} && Held() == old(Held()) - {id}
    {
      if id !in txs { return None; }
      var e := txs[id];
      txs := txs - {id};
      return Some(e.tx);
    }

    /** The ids a sweep removes, in the order the map range happens to give. */
    method IdleIds(cutoff: int) returns (toReap: seq<string>)
      requires Valid()
      ensures forall id :: id in toReap <==> id in txs && txs[id].lastUsed < cutoff
      ensures forall i, j :: 0 <= i < j < |toReap| ==> toReap[i] != toReap[j]
    {
      toReap := [];
      var left := txs.Keys;
      while left != {}
        invariant left <= txs.Keys
        invariant forall id :: id in toReap <==> id in txs && id !in left && txs[id].lastUsed < cutoff
        invariant forall i, j :: 0 <= i < j < |toReap| ==> toReap[i] != toReap[j]
      {
        var id :| id in left;
        if txs[id].lastUsed < cutoff { toReap := toReap + [id]; }
        left := left - {id};
      }
    }

    /** The entries under these ids leave the pool; their transactions are returned in the same order. */
    method RemoveAll(ids: seq<string>) returns (removed: seq<nat>)
      requires forall i :: 0 <= i < |ids| ==> ids[i] in txs
      requires forall i, j :: 0 <= i < j < |ids| ==> ids[i] != ids[j]
      modifies this
      ensures txs == old(txs) - (set id | id in ids)
      ensures |removed| == |ids| && forall k :: 0 <= k < |ids| ==> removed[k] == old(txs)[ids[k]].tx
    {
      var all := txs;
      removed := [];
      for i := 0 to |ids|
        invariant txs == all - (set k | 0 <= k < i :: ids[k])
        invariant |removed| == i && forall k :: 0 <= k < i ==> removed[k] == all[ids[k]].tx
      {
        var e := txs[ids[i]];
        txs := txs - {ids[i]};
        removed := removed + [e.tx];
      }
    }

    /** Rolls back each removed transaction exactly once: `reaped` are those handed to rollback goroutines. */
    method ReapIdle(now: int) returns (reaped: seq<nat>)
      requires Valid()
      modifies this
      ensures Valid() && Entries() <= old(Entries())
      ensures Uses() == KeptBy(old(Uses()), now)
      ensures forall id :: id in Uses() <==> id in old(Uses()) && now - old(Uses())[id] <= 60_000_000_000
      ensures forall id :: id in Held() <==> id in Uses()
      ensures forall id :: id in Held() ==> Held()[id] == old(Held())[id]
      ensures |reaped| == |old(txs).Keys - txs.Keys|
      ensures forall id :: id in old(txs).Keys - txs.Keys ==> old(Held())[id] in reaped
    {
      ghost var all, uses, held := txs, Uses(), Held();
      var toReap := IdleIds(now - TX_IDLE_TIMEOUT);
      reaped := RemoveAll(toReap);
      assert forall id :: id in txs <==> id in all && uses[id] >= now - TX_IDLE_TIMEOUT;
      assert forall id :: id in txs ==> txs[id] == all[id] && Uses()[id] == uses[id] && Held()[id] == held[id];
      assert Uses() == KeptBy(uses, now);
      DistinctCount(toReap, all.Keys - txs.Keys);
      forall id | id in all.Keys - txs.Keys ensures all[id].tx in reaped {
        var k :| 0 <= k < |toReap| && toReap[k] == id;
        assert reaped[k] == all[id].tx;
      }
    }

    method CloseAll() returns (rolledBack: set<nat>)
      requires Valid()
      modifies this
      ensures Valid() && txs == map[] && rolledBack == old(Held()).Values
    {
      rolledBack := {};
      var all, left := txs, txs.Keys;
      while left != {}
        invariant left <= all.Keys && txs == map id | id in left :: all[id]
        invariant forall id :: id in all.Keys - left ==> all[id].tx in rolledBack
        invariant forall tx :: tx in rolledBack ==> exists id :: id in all && all[id].tx == tx
      {
        var id :| id in left;
        rolledBack := rolledBack + {txs[id].tx};
        txs := txs - {id};
        left := left - {id};
      }
      assert forall id :: id in all ==> old(Held())[id] == all[id].tx;
    }
  }

  lemma DistinctCount(s: seq<string>, members: set<string>)
    requires forall i, j :: 0 <= i < j < |s| ==> s[i] != s[j]
    requires forall id :: id in members <==> id in s
    ensures |members| == |s|
  {
    if s == [] {
      assert members == {};
    } else {
      var last := s[|s| - 1];
      var front := s[..|s| - 1];
      assert s == front + [last];
      DistinctCount(front, members - {last});
    }
  }

  // ---- the idle bound ----

  /** The pool's stored uses, the clock and the time of the last sweep. */
  datatype Clocked = Clocked(uses: Stamps, now: int, swept: int)

  datatype Event =
    | Wait(time: int)
    | Store(id: string, stamp: int)
    | Remove(id: string)
    | Sweep

  /** A ticker that fires every SWEEP_PERIOD: no time passes beyond the next sweep. */
  predicate OnTime(c: Clocked, e: Event) {
    match e
    case Wait(time) => time >= 0 && c.now + time <= c.swept + SWEEP_PERIOD
    case Store(_, stamp) => stamp <= c.now
    case _ => true
  }

  /** Add and Get read the clock before they store; what is stored must not predate the last sweep's cutoff. */
  predicate Timely(c: Clocked, e: Event) {
    e.Store? ==> e.stamp >= c.swept - TX_IDLE_TIMEOUT
  }

  function After(c: Clocked, e: Event): Clocked {
    match e
    case Wait(time) => c.(now := c.now + time)
    case Store(id, stamp) => c.(uses := c.uses[id := stamp])
    case Remove(id) => c.(uses := c.uses - {id})
    case Sweep => c.(uses := KeptBy(c.uses, c.now), swept := c.now)
  }

  ghost predicate Timeline(c: Clocked, events: seq<Event>, d: Clocked)
    decreases |events|
  {
    if events == [] then c == d
    else OnTime(c, events[0]) && Timeline(After(c, events[0]), events[1..], d)
  }

  ghost predicate TimelyTimeline(c: Clocked, events: seq<Event>)
    decreases |events|
  {
    events != [] ==> Timely(c, events[0]) && TimelyTimeline(After(c, events[0]), events[1..])
  }

  ghost predicate Fresh(c: Clocked) {
    && c.swept <= c.now <= c.swept + SWEEP_PERIOD
    && forall id :: id in c.uses ==> c.swept - TX_IDLE_TIMEOUT <= c.uses[id] <= c.now
  }

  ghost predicate Bounded(c: Clocked) {
    forall id :: id in c.uses ==> c.now - c.uses[id] <= 75_000_000_000
  }

  /** Idle bound: no pooled transaction's stored last use is ever more than 75s old. */
  lemma {:induction false} IdleBound(c: Clocked, events: seq<Event>, d: Clocked)
    requires Fresh(c) && Timeline(c, events, d) && TimelyTimeline(c, events)
    ensures Bounded(d)
    decreases |events|
  {
    if events != [] {
      assert Fresh(After(c, events[0]));
      IdleBound(After(c, events[0]), events[1..], d);
    }
  }

  /** The condition is exact: a stamp stored too late is past the bound by the time of the next sweep. */
  lemma LateStampBreaksTheBound(c: Clocked, id: string, stamp: int)
    requires Fresh(c) && OnTime(c, Store(id, stamp))
    ensures Timely(c, Store(id, stamp)) <==>
      forall events, d | Timeline(c, [Store(id, stamp)] + events, d) && TimelyTimeline(After(c, Store(id, stamp)), events) :: Bounded(d)
  {
    var store := Store(id, stamp);
    if Timely(c, store) {
      forall events, d | Timeline(c, [store] + events, d) && TimelyTimeline(After(c, store), events) ensures Bounded(d) {
        assert ([store] + events)[1..] == events;
        IdleBound(After(c, store), events, d);
      }
    } else {
      var stored := After(c, store);
      var rest := Wait(c.swept + SWEEP_PERIOD - c.now);
      var d := After(stored, rest);
      assert [rest][1..] == [] && ([store] + [rest])[1..] == [rest];
      assert Timeline(d, [], d) && Timeline(stored, [rest], d) && Timeline(c, [store] + [rest], d);
      assert TimelyTimeline(d, []) && TimelyTimeline(stored, [rest]);
      assert d.uses[id] == stamp && !Bounded(d);
    }
  }
}
