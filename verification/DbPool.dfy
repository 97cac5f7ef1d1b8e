/** The lazy cache of database handles, under any interleaving of Get and Close (agent/dbpool.go). */
module DbPool {
  import opened Threads
  import opened Wrappers

  type Uuid = string
  type Handle = nat

  /** One Get in flight; the lock is released between the look-up, the open and the re-check. */
  datatype PC =
    | LookUp(uuid: Uuid)
    | Missed(uuid: Uuid)
    | Opened(uuid: Uuid, handle: Handle)
    | Discard(uuid: Uuid, handle: Handle, existing: Handle)
    | Returned(uuid: Uuid, handle: Handle)
    | Failed

  datatype Pool = Pool(
    registered: set<Uuid>,
    fallback: Option<Handle>,
    cache: map<Uuid, Handle>,
    openedFor: map<Handle, Uuid>,
    closed: set<Handle>,
    threads: map<Thread, PC>)

  datatype Label =
    | Arrive(thread: Thread, uuid: Uuid)
    | Step(thread: Thread, ok: bool, newHandle: Handle)
    | Close

  /** A handle sql.Open has not returned before. */
  predicate Unused(p: Pool, h: Handle) {
    h !in p.openedFor && h !in p.closed && p.fallback != Some(h)
  }

  function Fallback(p: Pool): set<Handle> {
    if p.fallback.Some? then {p.fallback.value} else {}
  }

  ghost predicate Enabled(p: Pool, l: Label) {
    match l
    case Arrive(thread, _) => thread !in p.threads
    case Step(thread, ok, newHandle) =>
      && thread in p.threads && !p.threads[thread].Returned? && !p.threads[thread].Failed?
      && (p.threads[thread].Missed? && ok ==> Unused(p, newHandle))
    case Close => true
  }

  function At(p: Pool, thread: Thread, pc: PC): Pool { p.(threads := p.threads[thread := pc]) }

  function Exec(p: Pool, l: Label): Pool
    requires Enabled(p, l)
  {
    match l
    case Arrive(thread, uuid) => At(p, thread, LookUp(uuid))
    case Close => p.(closed := p.closed + p.cache.Values + Fallback(p), cache := map[], fallback := None)
    case Step(thread, ok, newHandle) =>
      match p.threads[thread]
      case LookUp(uuid) => At(p, thread, if uuid in p.cache then Returned(uuid, p.cache[uuid]) else Missed(uuid))
      case Missed(uuid) =>
        if uuid in p.registered then
          if ok then At(p.(openedFor := p.openedFor[newHandle := uuid]), thread, Opened(uuid, newHandle))
          else At(p, thread, Failed)
        else At(p, thread, if p.fallback.Some? then Returned(uuid, p.fallback.value) else Failed)
      case Opened(uuid, h) =>
        if uuid in p.cache then At(p, thread, Discard(uuid, h, p.cache[uuid]))
        else At(p.(cache := p.cache[uuid := h]), thread, Returned(uuid, h))
      case Discard(uuid, h, existing) => At(p.(closed := p.closed + {h}), thread, Returned(uuid, existing))
  }

  // ---- every handle is accounted for ----

  predicate Holds(pc: PC, h: Handle) {
    (pc.Opened? || pc.Discard?) && pc.handle == h
  }

  function HoldsTest(h: Handle): PC -> bool { pc => Holds(pc, h) }

  predicate CachedAs(p: Pool, h: Handle, uuid: Uuid) {
    uuid in p.cache && p.cache[uuid] == h
  }

  /** In how many places an opened handle is: held by a Get that opened it, cached for its uuid, closed. */
  function Places(p: Pool, h: Handle): nat
    requires h in p.openedFor
  {
    |Where(p.threads, HoldsTest(h))| +
    (if CachedAs(p, h, p.openedFor[h]) then 1 else 0) +
    (if h in p.closed then 1 else 0)
  }

  ghost predicate Accounted(p: Pool) {
    Owned(p) && forall h :: h in p.openedFor ==> Places(p, h) == 1
  }

  lemma StepAccounts(p: Pool, l: Label, h: Handle)
    requires Accounted(p) && Enabled(p, l) && l.Step? && h in Exec(p, l).openedFor
    ensures Places(Exec(p, l), h) == 1
  {
    if h in p.openedFor { StepKeepsPlaces(p, l, h); } else { OpenedHandleIsHeld(p, l, h); }
  }

  lemma OpenedHandleIsHeld(p: Pool, l: Label, h: Handle)
    requires Accounted(p) && Enabled(p, l) && l.Step? && h in Exec(p, l).openedFor && h !in p.openedFor
    ensures Places(Exec(p, l), h) == 1
  {
    var q := Exec(p, l);
    CountAfter(p.threads, l.thread, q.threads[l.thread], HoldsTest(h));
    assert q.threads == p.threads[l.thread := q.threads[l.thread]];
    NobodyHoldsTheUnopened(p, h);
  }

  /** A step moves a handle from one place to another, or leaves it where it is. */
  lemma StepKeepsPlaces(p: Pool, l: Label, h: Handle)
    requires Accounted(p) && Enabled(p, l) && l.Step? && h in p.openedFor
    ensures h in Exec(p, l).openedFor && Places(Exec(p, l), h) == 1
  {
    match p.threads[l.thread]
    case Opened(_, _) => CachingKeepsPlaces(p, l, h);
    case Discard(_, _, _) => DiscardingKeepsPlaces(p, l, h);
    case _ => LookingKeepsPlaces(p, l, h);
  }

  lemma LookingKeepsPlaces(p: Pool, l: Label, h: Handle)
    requires Accounted(p) && Enabled(p, l) && l.Step? && h in p.openedFor
    requires p.threads[l.thread].LookUp? || p.threads[l.thread].Missed?
    ensures h in Exec(p, l).openedFor && Places(Exec(p, l), h) == 1
  {
    var now := Exec(p, l).threads[l.thread];
    CountAfter(p.threads, l.thread, now, HoldsTest(h));
    assert Exec(p, l).threads == p.threads[l.thread := now];
    assert Places(p, h) == 1;
  }

  lemma CachingKeepsPlaces(p: Pool, l: Label, h: Handle)
    requires Accounted(p) && Enabled(p, l) && l.Step? && h in p.openedFor && p.threads[l.thread].Opened?
    ensures h in Exec(p, l).openedFor && Places(Exec(p, l), h) == 1
  {
    var pc, now := p.threads[l.thread], Exec(p, l).threads[l.thread];
    CountAfter(p.threads, l.thread, now, HoldsTest(h));
    assert Exec(p, l).threads == p.threads[l.thread := now];
    assert Places(p, h) == 1;
    if Holds(pc, h) {
      assert l.thread in Where(p.threads, HoldsTest(h));
      assert p.openedFor[h] == pc.uuid;
    }
  }

  lemma DiscardingKeepsPlaces(p: Pool, l: Label, h: Handle)
    requires Accounted(p) && Enabled(p, l) && l.Step? && h in p.openedFor && p.threads[l.thread].Discard?
    ensures h in Exec(p, l).openedFor && Places(Exec(p, l), h) == 1
  {
    var pc, now := p.threads[l.thread], Exec(p, l).threads[l.thread];
    CountAfter(p.threads, l.thread, now, HoldsTest(h));
    assert Exec(p, l).threads == p.threads[l.thread := now];
    assert Places(p, h) == 1;
    if Holds(pc, h) {
      assert l.thread in Where(p.threads, HoldsTest(h));
    }
  }

  lemma NobodyHoldsTheUnopened(p: Pool, h: Handle)
    requires Accounted(p) && h !in p.openedFor
    ensures Where(p.threads, HoldsTest(h)) == {}
  {
    forall t | t in p.threads ensures !HoldsTest(h)(p.threads[t]) {}
  }

  lemma CloseAccounts(p: Pool, h: Handle)
    requires Accounted(p) && h in p.openedFor
    ensures Places(Exec(p, Close), h) == 1
  {
    assert Places(p, h) == 1;
    if h in p.cache.Values {
      var uuid :| uuid in p.cache && p.cache[uuid] == h;
      assert CachedAs(p, h, p.openedFor[h]);
    }
  }

  lemma ArriveAccounts(p: Pool, l: Label, h: Handle)
    requires Accounted(p) && Enabled(p, l) && l.Arrive? && h in p.openedFor
    ensures Places(Exec(p, l), h) == 1
  {
    CountAfter(p.threads, l.thread, LookUp(l.uuid), HoldsTest(h));
    assert Places(p, h) == 1;
  }

  lemma ExecAccounts(p: Pool, l: Label)
    requires Accounted(p) && Enabled(p, l)
    ensures Accounted(Exec(p, l))
  {
    ExecKeepsOwners(p, l);
    forall h | h in Exec(p, l).openedFor ensures Places(Exec(p, l), h) == 1 {
      match l
      case Arrive(_, _) => ArriveAccounts(p, l, h);
      case Step(_, _, _) => StepAccounts(p, l, h);
      case Close => CloseAccounts(p, h);
    }
  }

  ghost predicate Owned(p: Pool) {
    && (p.fallback.Some? ==> p.fallback.value !in p.openedFor)
    && (forall uuid :: uuid in p.cache ==> p.cache[uuid] in p.openedFor && p.openedFor[p.cache[uuid]] == uuid)
    && (forall t, h :: t in p.threads && Holds(p.threads[t], h) ==> h in p.openedFor && p.openedFor[h] == p.threads[t].uuid)
  }

  lemma ExecKeepsOwners(p: Pool, l: Label)
    requires Owned(p) && Enabled(p, l)
    ensures Owned(Exec(p, l))
  {
    if l.Step? {
      if p.threads[l.thread].Opened? { CachingKeepsOwners(p, l); } else { OthersKeepOwners(p, l); }
    }
  }

  lemma CachingKeepsOwners(p: Pool, l: Label)
    requires Owned(p) && Enabled(p, l) && l.Step? && p.threads[l.thread].Opened?
    ensures Owned(Exec(p, l))
  {
    assert Holds(p.threads[l.thread], p.threads[l.thread].handle);
  }

  lemma OthersKeepOwners(p: Pool, l: Label)
    requires Owned(p) && Enabled(p, l) && l.Step? && !p.threads[l.thread].Opened?
    ensures Owned(Exec(p, l))
  {
  }

  ghost predicate Interleaving(p: Pool, labels: seq<Label>, q: Pool)
    decreases |labels|
  {
    if labels == [] then p == q
    else Enabled(p, labels[0]) && Interleaving(Exec(p, labels[0]), labels[1..], q)
  }

  function New(registered: set<Uuid>, fallback: Option<Handle>): Pool {
    Pool(registered, fallback, map[], map[], {}, map[])
  }

  /** Every handle a Get opens is cached, held by the Get that opened it, or closed: never two, never none. */
  lemma {:induction false} NoHandleIsLost(p: Pool, labels: seq<Label>, q: Pool)
    requires Accounted(p) && Interleaving(p, labels, q)
    ensures Accounted(q)
    decreases |labels|
  {
    if labels != [] {
      ExecAccounts(p, labels[0]);
      NoHandleIsLost(Exec(p, labels[0]), labels[1..], q);
    }
  }

  /** Any goroutine can ask for any connection at any time, and an open can fail or return any unused handle. */
  lemma CallsArePossible(p: Pool, t: Thread, uuid: Uuid, newHandle: Handle)
    ensures Enabled(p, Arrive(t, uuid)) <==> t !in p.threads
    ensures Enabled(p, Close)
    ensures t in p.threads && p.threads[t].Missed? ==>
      Enabled(p, Step(t, false, newHandle)) && (Unused(p, newHandle) ==> Enabled(p, Step(t, true, newHandle)))
  {
  }

  // ---- one handle per connection, until Close ----

  ghost predicate Agreed(p: Pool) {
    && (forall t :: t in p.threads && p.threads[t].Returned? && p.threads[t].uuid in p.registered ==>
          CachedAs(p, p.threads[t].handle, p.threads[t].uuid))
    && (forall t :: t in p.threads && p.threads[t].Discard? ==>
          p.threads[t].uuid in p.registered && CachedAs(p, p.threads[t].existing, p.threads[t].uuid))
    && (forall t :: t in p.threads && p.threads[t].Opened? ==> p.threads[t].uuid in p.registered)
    && (forall uuid :: uuid in p.cache ==> uuid in p.registered)
  }

  lemma ExecAgrees(p: Pool, l: Label)
    requires Agreed(p) && Enabled(p, l) && !l.Close?
    ensures Agreed(Exec(p, l))
  {
    if l.Step? {
      if p.threads[l.thread].Opened? { CachingAgrees(p, l); } else { OthersAgree(p, l); }
    }
  }

  lemma CachingAgrees(p: Pool, l: Label)
    requires Agreed(p) && Enabled(p, l) && l.Step? && p.threads[l.thread].Opened?
    ensures Agreed(Exec(p, l))
  {
    var q := Exec(p, l);
    forall t | t in q.threads && t != l.thread ensures t in p.threads && q.threads[t] == p.threads[t] {}
  }

  lemma OthersAgree(p: Pool, l: Label)
    requires Agreed(p) && Enabled(p, l) && l.Step? && !p.threads[l.thread].Opened?
    ensures Agreed(Exec(p, l))
  {
    var q := Exec(p, l);
    forall t | t in q.threads && t != l.thread ensures t in p.threads && q.threads[t] == p.threads[t] {}
  }

  lemma {:induction false} GetsAgree(p: Pool, labels: seq<Label>, q: Pool)
    requires Agreed(p) && Interleaving(p, labels, q) && forall i :: 0 <= i < |labels| ==> !labels[i].Close?
    ensures Agreed(q) && q.registered == p.registered
    decreases |labels|
  {
    if labels != [] {
      ExecAgrees(p, labels[0]);
      GetsAgree(Exec(p, labels[0]), labels[1..], q);
    }
  }

  /**
   Before Close, all Gets of one registered connection return one handle, which is open and cached, however many
   of them missed the cache at the same time.
   */
  lemma OneHandlePerConnection(registered: set<Uuid>, fallback: Option<Handle>, labels: seq<Label>, q: Pool, t: Thread, u: Thread)
    requires Interleaving(New(registered, fallback), labels, q) && forall i :: 0 <= i < |labels| ==> !labels[i].Close?
    requires t in q.threads && u in q.threads && q.threads[t].Returned? && q.threads[u].Returned?
    requires q.threads[t].uuid == q.threads[u].uuid && q.threads[t].uuid in registered
    ensures q.threads[t].handle == q.threads[u].handle
    ensures CachedAs(q, q.threads[t].handle, q.threads[t].uuid) && q.threads[t].handle !in q.closed
  {
    var p := New(registered, fallback);
    GetsAgree(p, labels, q);
    NoHandleIsLost(p, labels, q);
    assert CachedAs(q, q.threads[t].handle, q.threads[t].uuid) && CachedAs(q, q.threads[u].handle, q.threads[u].uuid);
    assert Places(q, q.threads[t].handle) == 1;
  }

  // ---- connections that are not registered ----

  ghost predicate OnlyRegisteredCached(p: Pool) {
    && (forall uuid :: uuid in p.cache ==> uuid in p.registered)
    && (forall t :: t in p.threads && p.threads[t].Opened? ==> p.threads[t].uuid in p.registered)
  }

  /** Looking, or at its end: with the fallback if there is one, and else with nothing. */
  predicate LooksForFallback(pc: PC, uuid: Uuid, fallback: Option<Handle>) {
    pc == LookUp(uuid) || pc == Missed(uuid) || pc == Ended(uuid, fallback)
  }

  lemma StepToFallback(p: Pool, l: Label, t: Thread, uuid: Uuid)
    requires Enabled(p, l) && !l.Close? && OnlyRegisteredCached(p) && uuid !in p.registered
    requires t in p.threads && LooksForFallback(p.threads[t], uuid, p.fallback)
    ensures var q := Exec(p, l);
      && OnlyRegisteredCached(q) && q.registered == p.registered && q.fallback == p.fallback
      && t in q.threads && LooksForFallback(q.threads[t], uuid, q.fallback)
  {
  }

  /** Before Close a Get of an unregistered connection gets the fallback, and fails exactly when there is none. */
  lemma {:induction false} UnregisteredGetsFallback(p: Pool, labels: seq<Label>, q: Pool, t: Thread, uuid: Uuid)
    requires OnlyRegisteredCached(p) && uuid !in p.registered
    requires t in p.threads && LooksForFallback(p.threads[t], uuid, p.fallback)
    requires Interleaving(p, labels, q) && forall i :: 0 <= i < |labels| ==> !labels[i].Close?
    ensures t in q.threads
    ensures q.threads[t].Returned? ==> p.fallback == Some(q.threads[t].handle)
    ensures q.threads[t].Failed? ==> p.fallback == None
    decreases |labels|
  {
    if labels != [] {
      StepToFallback(p, labels[0], t, uuid);
      UnregisteredGetsFallback(Exec(p, labels[0]), labels[1..], q, t, uuid);
    }
  }

  // ---- Close while Gets are in flight ----

  /** A Get that may still put a handle in the cache. */
  predicate MayCache(p: Pool, pc: PC) {
    (pc.LookUp? || pc.Missed? || pc.Opened?) && pc.uuid in p.registered
  }

  predicate Over(pc: PC) { pc.Returned? || pc.Failed? }

  ghost predicate AllOver(p: Pool) { forall t :: t in p.threads ==> Over(p.threads[t]) }

  ghost predicate AllClosed(p: Pool) { forall h :: h in p.openedFor ==> h in p.closed }

  /** The Gets in flight go on; nothing new arrives and Close is not called again. */
  ghost predicate GoesOn(p: Pool, labels: seq<Label>, q: Pool) {
    Interleaving(p, labels, q) && forall i :: 0 <= i < |labels| ==> labels[i].Step?
  }

  /** What every interleaving keeps, also across Close. */
  ghost predicate Sane(p: Pool) {
    Accounted(p) && forall t :: t in p.threads && p.threads[t].Opened? ==> p.threads[t].uuid in p.registered
  }

  lemma ExecKeepsSane(p: Pool, l: Label)
    requires Sane(p) && Enabled(p, l)
    ensures Sane(Exec(p, l)) && Exec(p, l).registered == p.registered
  {
    ExecAccounts(p, l);
    OpenedForRegistered(p, l);
  }

  lemma OpenedForRegistered(p: Pool, l: Label)
    requires Enabled(p, l)
    requires forall t :: t in p.threads && p.threads[t].Opened? ==> p.threads[t].uuid in p.registered
    ensures var q := Exec(p, l);
      && q.registered == p.registered
      && forall t :: t in q.threads && q.threads[t].Opened? ==> q.threads[t].uuid in q.registered
  {
  }

  lemma {:induction false} InterleavingKeepsSane(p: Pool, labels: seq<Label>, q: Pool)
    requires Sane(p) && Interleaving(p, labels, q)
    ensures Sane(q) && q.registered == p.registered
    decreases |labels|
  {
    if labels != [] {
      ExecKeepsSane(p, labels[0]);
      InterleavingKeepsSane(Exec(p, labels[0]), labels[1..], q);
    }
  }

  /** With an empty cache and no Get that may fill it, the cache stays empty. */
  ghost predicate Drained(p: Pool) {
    p.cache == map[] && forall t :: t in p.threads ==> !MayCache(p, p.threads[t])
  }

  lemma {:induction false} StaysDrained(p: Pool, labels: seq<Label>, q: Pool)
    requires Sane(p) && Drained(p) && GoesOn(p, labels, q)
    ensures Drained(q)
    decreases |labels|
  {
    if labels != [] {
      ExecKeepsSane(p, labels[0]);
      assert Drained(Exec(p, labels[0]));
      StaysDrained(Exec(p, labels[0]), labels[1..], q);
    }
  }

  lemma DrainedAndOverIsClosed(p: Pool)
    requires Sane(p) && Drained(p) && AllOver(p)
    ensures AllClosed(p)
  {
    forall h | h in p.openedFor ensures h in p.closed {
      assert Where(p.threads, HoldsTest(h)) == {};
      assert Places(p, h) == 1;
    }
  }

  // ---- a Get that may still cache does, whatever the others do ----

  function MovesLeft(pc: PC): nat {
    match pc
    case LookUp(_) => 4
    case Missed(_) => 3
    case Opened(_, _) => 2
    case Discard(_, _, _) => 1
    case _ => 0
  }

  ghost predicate CacheGrows(p: Pool, q: Pool) {
    forall uuid :: uuid in p.cache ==> CachedAs(q, p.cache[uuid], uuid)
  }

  lemma {:induction false} JoinInterleavings(p: Pool, labels: seq<Label>, q: Pool, more: seq<Label>, r: Pool)
    requires GoesOn(p, labels, q) && GoesOn(q, more, r)
    ensures GoesOn(p, labels + more, r)
    decreases |labels|
  {
    if labels == [] {
      assert labels + more == more;
    } else {
      var all := labels + more;
      assert all[0] == labels[0] && all[1..] == labels[1..] + more;
      JoinInterleavings(Exec(p, labels[0]), labels[1..], q, more, r);
    }
  }

  lemma OneStepGoesOn(p: Pool, l: Label)
    requires Enabled(p, l) && l.Step?
    ensures GoesOn(p, [l], Exec(p, l))
  {
    assert [l][1..] == [];
  }

  /** One goroutine runs to its end on its own; every open fails. */
  lemma {:induction false} FinishOne(p: Pool, t: Thread) returns (labels: seq<Label>, q: Pool)
    requires t in p.threads
    ensures GoesOn(p, labels, q) && q.threads.Keys == p.threads.Keys && Over(q.threads[t])
    ensures forall u :: u in p.threads && u != t ==> q.threads[u] == p.threads[u]
    ensures CacheGrows(p, q)
    decreases MovesLeft(p.threads[t])
  {
    if Over(p.threads[t]) {
      return [], p;
    }
    var l := Step(t, false, 0);
    var m := Exec(p, l);
    StepGrows(p, l);
    OneStepGoesOn(p, l);
    var rest;
    rest, q := FinishOne(m, t);
    JoinInterleavings(p, [l], m, rest, q);
    labels := [l] + rest;
    assert forall uuid :: uuid in p.cache ==> uuid in m.cache && m.cache[uuid] == p.cache[uuid];
  }

  /** A step of one goroutine brings it nearer its end, and takes nothing out of the cache. */
  lemma StepGrows(p: Pool, l: Label)
    requires Enabled(p, l) && l.Step?
    ensures var q := Exec(p, l);
      && q.threads.Keys == p.threads.Keys
      && (forall u :: u in p.threads && u != l.thread ==> q.threads[u] == p.threads[u])
      && MovesLeft(q.threads[l.thread]) < MovesLeft(p.threads[l.thread])
      && CacheGrows(p, q)
  {
  }

  ghost function Unfinished(p: Pool): set<Thread> {
    set t | t in p.threads && !Over(p.threads[t])
  }

  lemma {:induction false} FinishAll(p: Pool) returns (labels: seq<Label>, q: Pool)
    ensures GoesOn(p, labels, q) && AllOver(q) && CacheGrows(p, q)
    decreases Unfinished(p)
  {
    if Unfinished(p) == {} {
      assert AllOver(p) by {
        forall t | t in p.threads ensures Over(p.threads[t]) { assert t !in Unfinished(p); }
      }
      return [], p;
    }
    var t :| t in Unfinished(p);
    var first, m := FinishOne(p, t);
    assert t in Unfinished(p) && t !in Unfinished(m);
    assert Unfinished(m) < Unfinished(p);
    var more;
    more, q := FinishAll(m);
    JoinInterleavings(p, first, m, more, q);
    labels := first + more;
  }

  lemma {:induction false} Above(handles: set<Handle>) returns (bound: Handle)
    ensures forall h :: h in handles ==> h < bound
    decreases handles
  {
    if handles == {} { return 0; }
    var h :| h in handles;
    var rest := Above(handles - {h});
    bound := if h < rest then rest else h + 1;
    forall other | other in handles ensures other < bound {
      if other != h { assert other in handles - {h}; }
    }
  }

  /** With an empty cache, a Get of a registered connection that is still on its way caches the handle it opens. */
  lemma {:induction false} CacheIt(p: Pool, t: Thread) returns (labels: seq<Label>, q: Pool)
    requires t in p.threads && MayCache(p, p.threads[t]) && p.cache == map[]
    ensures GoesOn(p, labels, q) && p.threads[t].uuid in q.cache
    decreases MovesLeft(p.threads[t])
  {
    var unused := Above(p.openedFor.Keys + p.closed + Fallback(p));
    var l := Step(t, true, unused);
    assert unused !in p.openedFor.Keys + p.closed + Fallback(p);
    var m := Exec(p, l);
    OneStepGoesOn(p, l);
    if p.threads[t].Opened? {
      return [l], m;
    }
    labels, q := CacheIt(m, t);
    JoinInterleavings(p, [l], m, labels, q);
    labels := [l] + labels;
  }

  lemma OpenHandleRemains(p: Pool, t: Thread) returns (labels: seq<Label>, q: Pool)
    requires Sane(p) && p.cache == map[] && t in p.threads && MayCache(p, p.threads[t])
    ensures GoesOn(p, labels, q) && AllOver(q) && !AllClosed(q)
  {
    var first, m := CacheIt(p, t);
    var more;
    more, q := FinishAll(m);
    JoinInterleavings(p, first, m, more, q);
    labels := first + more;
    InterleavingKeepsSane(p, labels, q);
    var uuid := p.threads[t].uuid;
    var h := q.cache[uuid];
    assert CachedAs(q, h, uuid) && h in q.openedFor && Places(q, h) == 1;
  }

  /**
   Close leaves nothing open exactly when no Get of a registered connection is between its arrival and its re-check:
   then, and only then, every handle ever opened is closed once the Gets in flight have ended, however they go on.
   */
  lemma CloseIsExact(p: Pool)
    requires Sane(p)
    ensures (forall t :: t in p.threads ==> !MayCache(p, p.threads[t])) <==>
      forall labels, q | GoesOn(Exec(p, Close), labels, q) && AllOver(q) :: AllClosed(q)
  {
    var closed := Exec(p, Close);
    ExecKeepsSane(p, Close);
    if t :| t in p.threads && MayCache(p, p.threads[t]) {
      var labels, q := OpenHandleRemains(closed, t);
    } else {
      forall labels, q | GoesOn(closed, labels, q) && AllOver(q) ensures AllClosed(q) {
        StaysDrained(closed, labels, q);
        InterleavingKeepsSane(closed, labels, q);
        DrainedAndOverIsClosed(q);
      }
    }
  }

  /** And every interleaving, with any Closes in it, ends in a pool of which that is true. */
  lemma EveryPoolIsSane(registered: set<Uuid>, fallback: Option<Handle>, labels: seq<Label>, p: Pool)
    requires Interleaving(New(registered, fallback), labels, p)
    ensures Sane(p)
  {
    InterleavingKeepsSane(New(registered, fallback), labels, p);
  }

  // ---- the cache the source updates in place ----

  /** The fields behind the mutex, and what became of each handle. Find, Keep and Close hold the lock. */
  class DbCache {
    const registered: set<Uuid>
    var fallback: Option<Handle>
    var cache: map<Uuid, Handle>
    var openedFor: map<Handle, Uuid>
    var closed: set<Handle>

    constructor (registered: set<Uuid>, fallback: Option<Handle>)
      ensures Contents(map[]) == New(registered, fallback)
    {
      this.registered, this.fallback := registered, fallback;
      cache, openedFor, closed := map[], map[], {};
    }

    /** The state of the interleaving system, seen by the given goroutines. */
    function Contents(threads: map<Thread, PC>): Pool
      reads this
    {
      Pool(registered, fallback, cache, openedFor, closed, threads)
    }

    method Find(uuid: Uuid) returns (h: Option<Handle>)
      ensures h == if uuid in cache then Some(cache[uuid]) else None
    {
      if uuid in cache {
        return Some(cache[uuid]);
      }
      return None;
    }

    method Open(uuid: Uuid, newHandle: Handle, ghost t: Thread)
      requires uuid in registered && Unused(Contents(map[]), newHandle)
      modifies this`openedFor
      ensures Contents(map[t := Opened(uuid, newHandle)]) ==
        Exec(old(Contents(map[t := Missed(uuid)])), Step(t, true, newHandle))
    {
      openedFor := openedFor[newHandle := uuid];
    }

    /** The re-check: a handle cached meanwhile wins, and the one just opened is closed. */
    method Keep(uuid: Uuid, h: Handle, ghost t: Thread, ghost step: Label) returns (kept: Handle)
      requires Enabled(Contents(map[t := Opened(uuid, h)]), step) && step.Step? && step.thread == t
      modifies this`cache, this`closed
      ensures Contents(map[t := Returned(uuid, kept)]) ==
        var next := Exec(old(Contents(map[t := Opened(uuid, h)])), step);
        if uuid in old(cache) then Exec(next, step) else next
      ensures if uuid in old(cache) then kept == old(cache)[uuid] && cache == old(cache) && closed == old(closed) + {h}
              else kept == h && cache == old(cache)[uuid := h] && closed == old(closed)
    {
      if uuid in cache {
        closed := closed + {h};
        return cache[uuid];
      }
      cache := cache[uuid := h];
      return h;
    }

    method Close()
      modifies this
      ensures forall threads :: Contents(threads) == Exec(old(Contents(threads)), Label.Close)
    {
      closed := closed + cache.Values + (if fallback.Some? then {fallback.value} else {});
      cache, fallback := map[], None;
    }

    /** The rest of a Get that missed the cache, while nothing else runs. */
    method Miss(uuid: Uuid, ok: bool, newHandle: Handle, ghost t: Thread, ghost start: Pool, ghost labels: seq<Label>)
      returns (h: Option<Handle>, ghost all: seq<Label>)
      requires Unused(Contents(map[]), newHandle) && uuid !in cache
      requires Interleaving(start, labels, Contents(map[t := Missed(uuid)]))
      modifies this
      ensures Interleaving(start, all, Contents(map[t := Ended(uuid, h)]))
      ensures uuid in registered ==>
        && (if ok then h == Some(newHandle) && cache == old(cache)[uuid := newHandle] else h == None && cache == old(cache))
        && fallback == old(fallback) && closed == old(closed)
      ensures uuid !in registered ==> h == old(fallback) && Contents(map[]) == old(Contents(map[]))
    {
      ghost var step := Step(t, ok, newHandle);
      ghost var p := Exec(Contents(map[t := Missed(uuid)]), step);
      OneMore(start, labels, Contents(map[t := Missed(uuid)]), step);
      all := labels + [step];
      if uuid !in registered {
        h := fallback;
        assert Contents(map[t := Ended(uuid, h)]) == p;
        return;
      }
      if !ok {
        h := None;
        assert Contents(map[t := Ended(uuid, h)]) == p;
        return;
      }
      Open(uuid, newHandle, t);
      OneMore(start, all, p, step);
      all := all + [step];
      var kept := Keep(uuid, newHandle, t, step);
      h := Some(kept);
    }

    /** A Get on its own takes the interleaving system's steps of goroutine `t`, from its arrival to its end, in a row. */
    method Get(uuid: Uuid, ok: bool, newHandle: Handle, ghost t: Thread) returns (h: Option<Handle>, ghost all: seq<Label>)
      requires Unused(Contents(map[]), newHandle)
      modifies this
      ensures Interleaving(old(Contents(map[])), all, Contents(map[t := Ended(uuid, h)]))
      ensures uuid in old(cache) ==> h == Some(old(cache)[uuid]) && Contents(map[]) == old(Contents(map[]))
      ensures uuid !in old(cache) && uuid in registered ==>
        && (if ok then h == Some(newHandle) && cache == old(cache)[uuid := newHandle] else h == None && cache == old(cache))
        && fallback == old(fallback) && closed == old(closed)
      ensures uuid !in old(cache) && uuid !in registered ==> h == old(fallback) && Contents(map[]) == old(Contents(map[]))
    {
      ghost var start := Contents(map[]);
      ghost var arrive, step := Arrive(t, uuid), Step(t, ok, newHandle);
      ghost var p := Exec(start, arrive);
      OneMore(start, [], start, arrive);
      OneMore(start, [] + [arrive], p, step);
      all := [] + [arrive] + [step];
      h := Find(uuid);
      if h.Some? {
        assert Contents(map[t := Ended(uuid, h)]) == Exec(p, step);
        return;
      }
      assert Contents(map[t := Missed(uuid)]) == Exec(p, step);
      h, all := Miss(uuid, ok, newHandle, t, start, all);
    }
  }

  function Ended(uuid: Uuid, h: Option<Handle>): PC {
    if h.Some? then Returned(uuid, h.value) else Failed
  }

  lemma OneMore(p: Pool, labels: seq<Label>, q: Pool, l: Label)
    requires Interleaving(p, labels, q) && Enabled(q, l)
    ensures Interleaving(p, labels + [l], Exec(q, l))
    decreases |labels|
  {
    if labels == [] {
      assert [l][1..] == [];
    } else {
      OneMore(Exec(p, labels[0]), labels[1..], q, l);
      assert (labels + [l])[1..] == labels[1..] + [l];
    }
  }
}
