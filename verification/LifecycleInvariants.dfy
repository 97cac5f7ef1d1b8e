/** What every deploy run keeps of the record store, whatever runs came before and wherever they died. */
module LifecycleInvariants {
  import opened Wrappers
  import opened Records
  import opened Text
  import opened Targeting
  import opened Lifecycle

  // ---- the invariants of the record store ----

  ghost predicate RecordOK(id: string, d: Deployment) {
    && d.id == id && id != ""
    && (d.provider.Ssh? || d.provider.Managed?)
    && !Blank(d.identifier) && d.project != ""
    && (StepRank(d.step) >= StepRank(AgentPaired) ==> d.agent != "")
    && (d.agent != "" ==> !Blank(d.host) && d.conn != "")
    && (d.provider.Ssh? ==> d.instanceId == "" && d.resourceName == "")
    && (d.provider.Managed? ==> d.resourceName != "")
  }

  ghost predicate RecordsOK(store: Store) {
    forall id :: id in store ==> RecordOK(id, store[id])
  }

  /** A box has one agent: all records that know an agent for a host know the same one. */
  ghost predicate OneAgentPerHost(store: Store) {
    forall a, b | a in store && b in store && store[a].host == store[b].host && store[a].agent != "" && store[b].agent != "" ::
      store[a].agent == store[b].agent
  }

  predicate SameTarget(a: Deployment, b: Deployment) {
    a.host == b.host && a.identifier == b.identifier
  }

  ghost predicate OneUsablePerTarget(store: Store) {
    forall a, b | a in store && b in store && Usable(store[a]) && Usable(store[b]) && SameTarget(store[a], store[b]) ::
      a == b
  }

  ghost predicate OneRecordPerConn(store: Store) {
    forall a, b :: a in store && b in store && store[a].conn != "" && store[a].conn == store[b].conn ==> a == b
  }

  predicate Overlap(u: VM, v: VM) {
    u.name == v.name || u.instance == v.instance || u.host == v.host
  }

  ghost predicate VMsDistinct(vms: set<VM>) {
    && (forall v :: v in vms ==> v.name != "" && v.instance != "" && !Blank(v.host))
    && (forall u, v | u in vms && v in vms && Overlap(u, v) :: u == v)
  }

  ghost predicate StoreInv(store: Store) {
    RecordsOK(store) && OneAgentPerHost(store) && OneUsablePerTarget(store) && OneRecordPerConn(store)
  }

  ghost predicate Sound(w: World) {
    StoreInv(w.store) && VMsDistinct(w.vms)
  }

  // ---- what the current run knows about the store ----

  /** No other record claims this run's connection or target, and the others on the box agree on its agent. */
  ghost predicate OthersFit(store: Store, st: RunState) {
    && (forall id :: id in store && id != st.depID ==> store[id].conn != st.conn)
    && (forall id :: id in store && id != st.depID && store[id].host == st.host && store[id].agent != "" ==>
          store[id].agent == st.boxAgent)
    && (forall id | id in store && id != st.depID && store[id].host == st.host && store[id].identifier == st.cfg.identifier ::
          !Usable(store[id]))
  }

  ghost predicate DecidedInv(store: Store, st: RunState) {
    && OthersFit(store, st) && st.instance == "" && st.resourceName == ""
    && (!Provisions(st) ==> !Blank(st.host))
    && (st.reuse ==>
          && st.cfg.provider.Managed? && st.boxRecord.Some? && st.boxRecord.value.id in store
          && store[st.boxRecord.value.id] == st.boxRecord.value
          && st.boxRecord.value.provider == st.cfg.provider
          && st.boxRecord.value.host == st.host && st.boxRecord.value.project == st.cfg.project
          && st.boxRecord.value.identifier == st.cfg.identifier)
    && (match st.prior
        case Some(p) =>
          && st.depID in store && store[st.depID] == p && p.agent == st.boxAgent && p.agent != "" && p.conn == st.conn
          && p.host == st.host && p.project == st.cfg.project && p.identifier == st.cfg.identifier
        case None =>
          if st.reuse then st.depID == st.boxRecord.value.id && st.boxRecord.value.agent == ""
          else st.depID !in store)
  }

  /**
   From the pending record until the box is recorded: the record holds the reserved name, and besides it what it held
   before, the agent of the record it continues or none.
   */
  ghost predicate PendingInv(w: World, st: RunState) {
    && Provisions(st)
    && (forall id :: id in w.store && id != st.depID ==> w.store[id].conn != st.conn)
    && st.depID in w.store && st.resourceName != ""
    && var rec := w.store[st.depID];
    && rec.provider == st.cfg.provider && rec.resourceName == st.resourceName
    && rec.project == st.cfg.project && rec.identifier == st.cfg.identifier
    && (match st.prior
        case Some(p) => rec.agent == p.agent == st.boxAgent && rec.agent != "" && rec.conn == st.conn
        case None =>
          && rec.agent == ""
          && (if st.phase == Acknowledged then rec.instanceId in {"", st.instance} && rec.host in {"", st.host}
              else rec.instanceId == "" && rec.host == "" && rec.conn == "" && !Usable(rec)))
    && (if st.phase == Reserved
        then forall v :: v in w.vms ==> v.name != st.resourceName
        else && VM(st.resourceName, st.instance, st.host, st.cfg.provider, st.cfg.project, st.cfg.identifier) in w.vms
             && (forall id :: id in w.store && id != st.depID ==> w.store[id].host != st.host))
  }

  ghost predicate BoxedInv(store: Store, st: RunState) {
    && OthersFit(store, st) && !Blank(st.host)
    && st.depID in store
    && var rec := store[st.depID];
    && rec.host == st.host && rec.identifier == st.cfg.identifier && rec.conn == st.conn && rec.agent == st.boxAgent
  }

  ghost predicate PairedInv(store: Store, st: RunState) {
    && OthersFit(store, st) && !Blank(st.host)
    && st.depID in store && st.agent != "" && (st.boxAgent != "" ==> st.agent == st.boxAgent)
    && var rec := store[st.depID];
    && rec.host == st.host && rec.identifier == st.cfg.identifier && rec.conn == st.conn
  }

  ghost predicate RunInv(w: World, st: RunState) {
    && Acceptable(st.cfg) && st.conn != "" && st.depID != ""
    && match st.phase
       case Decided => DecidedInv(w.store, st)
       case Reserved => PendingInv(w, st)
       case Created => PendingInv(w, st)
       case Acknowledged => PendingInv(w, st)
       case Boxed => BoxedInv(w.store, st)
       case Paired => PairedInv(w.store, st)
       case Finished => st.depID in w.store
  }

  ghost predicate Inv(s: Sys) {
    Sound(s.world) && (s.run.Some? ==> RunInv(s.world, s.run.value))
  }

  // ---- replacing one record ----

  lemma PutKeepsAgents(store: Store, id: string, rec: Deployment)
    requires OneAgentPerHost(store)
    requires forall o | o in store && o != id && store[o].host == rec.host && store[o].agent != "" ::
      rec.agent == "" || store[o].agent == rec.agent
    ensures OneAgentPerHost(Put(store, id, rec))
  {
  }

  lemma PutKeepsUsables(store: Store, id: string, rec: Deployment)
    requires OneUsablePerTarget(store)
    requires forall o | o in store && o != id && SameTarget(store[o], rec) :: !Usable(store[o]) || !Usable(rec)
    ensures OneUsablePerTarget(Put(store, id, rec))
  {
    var s' := Put(store, id, rec);
    forall a, b | a in s' && b in s' && Usable(s'[a]) && Usable(s'[b]) && SameTarget(s'[a], s'[b])
      ensures a == b
    {
      if a != b && (a == id || b == id) {
        var o := if a == id then b else a;
        assert SameTarget(store[o], rec);
      }
    }
  }

  lemma PutKeepsConns(store: Store, id: string, rec: Deployment)
    requires OneRecordPerConn(store)
    requires forall o | o in store && o != id :: rec.conn == "" || store[o].conn != rec.conn
    ensures OneRecordPerConn(Put(store, id, rec))
  {
  }

  /** What a write owes the store invariants: that the other records leave room for the new one. */
  ghost predicate Fits(store: Store, id: string, rec: Deployment) {
    && RecordOK(id, rec.(id := id))
    && (forall o | o in store && o != id && store[o].host == rec.host && store[o].agent != "" ::
          rec.agent == "" || store[o].agent == rec.agent)
    && (forall o | o in store && o != id && SameTarget(store[o], rec) :: !Usable(store[o]) || !Usable(rec))
    && (forall o | o in store && o != id :: rec.conn == "" || store[o].conn != rec.conn)
  }

  lemma PutKeepsStoreInv(store: Store, id: string, rec: Deployment)
    requires StoreInv(store) && Fits(store, id, rec)
    ensures StoreInv(Put(store, id, rec))
  {
    PutKeepsAgents(store, id, rec);
    PutKeepsUsables(store, id, rec);
    PutKeepsConns(store, id, rec);
  }

  // ---- deciding ----

  lemma PickedAreRecorded(deps: seq<Deployment>, store: Store, test: Deployment -> bool)
    requires Lists(deps, store)
    ensures Latest(deps, test).None? ==> forall id :: id in store ==> !test(store[id])
    ensures Latest(deps, test).Some? ==>
      var d := Latest(deps, test).value; d.id in store && store[d.id] == d && test(d)
  {
    var r := Latest(deps, test);
    if r.Some? {
      var k: nat :| IsLatestAt(deps, test, k) && deps[k] == r.value;
    } else {
      forall id | id in store ensures !test(store[id]) {
        assert store[id] in deps;
      }
    }
  }

  /** pickBoxAgent finds THE agent of the host. */
  lemma BoxAgentIsTheAgent(deps: seq<Deployment>, store: Store, host: string)
    requires Lists(deps, store) && OneAgentPerHost(store)
    ensures forall id :: id in store && store[id].host == host && store[id].agent != "" ==>
      store[id].agent == PickBoxAgent(deps, host)
  {
    PickedAreRecorded(deps, store, BoxAgentTest(host));
    var r := Latest(deps, BoxAgentTest(host));
    forall id | id in store && store[id].host == host && store[id].agent != ""
      ensures store[id].agent == PickBoxAgent(deps, host)
    {
      assert BoxAgentTest(host)(store[id]);
    }
  }

  /** pickPriorDeployment finds THE usable record of a host and identifier, whatever the listing order. */
  lemma PriorIsTheUsable(deps: seq<Deployment>, store: Store, host: string, identifier: string)
    requires Lists(deps, store) && RecordsOK(store) && OneUsablePerTarget(store)
    ensures var p := PickPrior(deps, host, identifier);
      && (p.Some? ==> p.value.id in store && store[p.value.id] == p.value && IsPrior(p.value, host, identifier))
      && (forall id :: id in store && IsPrior(store[id], host, identifier) ==> p == Some(store[id]))
  {
    PickedAreRecorded(deps, store, PriorTest(host, identifier));
    var p := PickPrior(deps, host, identifier);
    forall id | id in store && IsPrior(store[id], host, identifier) ensures p == Some(store[id]) {
      assert PriorTest(host, identifier)(store[id]);
      assert p.Some? && IsPrior(p.value, host, identifier);
      assert store[p.value.id] == p.value && p.value.id == id;
    }
  }

  lemma StartEstablishesRunInv(s: Sys, l: Label)
    requires Sound(s.world) && Enabled(s, l) && l.Start?
    ensures RunInv(s.world, Exec(s, l).run.value)
  {
    var store := s.world.store;
    var st := Exec(s, l).run.value;
    PriorIsTheUsable(l.deps, store, st.host, l.cfg.identifier);
    BoxAgentIsTheAgent(l.deps, store, st.host);
    PickedAreRecorded(l.deps, store, ManagedBoxTest(l.cfg.project, l.cfg.identifier));
    if st.prior.Some? {
      assert RecordOK(st.prior.value.id, store[st.prior.value.id]);
      assert st.prior.value.agent != "";
    }
    OthersFitAtStart(s, l);
    if st.reuse {
      var b := st.boxRecord.value;
      assert RecordOK(b.id, store[b.id]);
      assert IsManagedBox(b, l.cfg.project, l.cfg.identifier);
      assert st.prior.None? ==> !IsPrior(store[b.id], st.host, l.cfg.identifier);
    }
  }

  lemma OthersFitAtStart(s: Sys, l: Label)
    requires Sound(s.world) && Enabled(s, l) && l.Start?
    ensures OthersFit(s.world.store, Exec(s, l).run.value)
  {
    var store := s.world.store;
    var st := Exec(s, l).run.value;
    PriorIsTheUsable(l.deps, store, st.host, l.cfg.identifier);
    BoxAgentIsTheAgent(l.deps, store, st.host);
    if st.prior.Some? {
      assert RecordOK(st.prior.value.id, store[st.prior.value.id]);
    }
    forall id | id in store && id != st.depID
      ensures store[id].conn != st.conn
    {
      assert RecordOK(id, store[id]);
    }
  }

  // ---- one step ----

  lemma PendingFits(store: Store, st: RunState, name: string, now: int)
    requires StoreInv(store) && DecidedInv(store, st) && Provisions(st) && Acceptable(st.cfg) && st.depID != "" && name != ""
    ensures Fits(store, st.depID, PendingMutation(Load(store, st.depID), st, name, now))
  {
    if st.prior.Some? {
      assert RecordOK(st.depID, store[st.depID]);
    }
  }

  lemma ReserveKeepsInv(s: Sys, l: Label)
    requires Inv(s) && Enabled(s, l) && l.Reserve?
    ensures Inv(Exec(s, l))
  {
    var st, w := s.run.value, s.world;
    PendingFits(w.store, st, l.name, l.now);
    PutKeepsStoreInv(w.store, st.depID, PendingMutation(Load(w.store, st.depID), st, l.name, l.now));
  }

  lemma CreateKeepsInv(s: Sys, l: Label)
    requires Inv(s) && Enabled(s, l) && l.Create?
    ensures Inv(Exec(s, l))
  {
    var st, w := s.run.value, s.world;
    var vm := VM(st.resourceName, l.instance, l.host, st.cfg.provider, st.cfg.project, st.cfg.identifier);
    assert VMsDistinct(w.vms + {vm});
    assert PendingInv(Exec(s, l).world, Exec(s, l).run.value);
  }

  lemma AcknowledgedFits(w: World, st: RunState, rec: Deployment, host: string)
    requires Sound(w) && PendingInv(w, st) && st.phase == Created && host in {"", st.host}
    requires rec == InstanceMutation(w.store[st.depID], st.instance, host)
    ensures Fits(w.store, st.depID, rec)
    ensures st.prior.None? ==> !Usable(rec)
  {
    assert RecordOK(st.depID, w.store[st.depID]);
  }

  lemma AcknowledgeKeepsInv(s: Sys, l: Label)
    requires Inv(s) && Enabled(s, l) && l.Acknowledge?
    ensures Inv(Exec(s, l))
  {
    var st, w := s.run.value, s.world;
    if l.written {
      var host := if l.hostKnown then st.host else "";
      var rec := InstanceMutation(w.store[st.depID], st.instance, host);
      AcknowledgedFits(w, st, rec, host);
      PutKeepsStoreInv(w.store, st.depID, rec);
    }
  }

  // ---- recording the box ----

  /** The run is at stepRecordBox. */
  predicate AtRecordBox(st: RunState) {
    st.phase == Acknowledged || (st.phase == Decided && !Provisions(st))
  }

  lemma NewBoxFits(w: World, st: RunState, rec: Deployment, now: int)
    requires Sound(w) && RunInv(w, st) && st.phase == Acknowledged
    requires rec == BoxMutation(w.store[st.depID], st, now)
    ensures Fits(w.store, st.depID, rec) && rec.agent == st.boxAgent
  {
  }

  lemma KnownBoxFits(w: World, st: RunState, rec: Deployment, now: int)
    requires Sound(w) && RunInv(w, st) && st.phase == Decided && !Provisions(st)
    requires rec == BoxMutation(Load(w.store, st.depID), ReuseHandles(st), now)
    ensures Fits(w.store, st.depID, rec) && rec.agent == st.boxAgent
  {
    if st.prior.Some? { assert RecordOK(st.depID, w.store[st.depID]); }
    if st.reuse { assert RecordOK(st.boxRecord.value.id, w.store[st.boxRecord.value.id]); }
  }

  lemma RecordedBoxFits(w: World, st: RunState, rec: Deployment, now: int)
    requires Sound(w) && RunInv(w, st) && AtRecordBox(st)
    requires rec == BoxMutation(Load(w.store, st.depID), ReuseHandles(st), now)
    ensures Fits(w.store, st.depID, rec) && rec.agent == st.boxAgent
  {
    if st.phase == Acknowledged {
      NewBoxFits(w, st, rec, now);
    } else {
      KnownBoxFits(w, st, rec, now);
    }
  }

  lemma RecordBoxKeepsInv(s: Sys, l: Label)
    requires Inv(s) && Enabled(s, l) && l.RecordBox?
    ensures Inv(Exec(s, l))
  {
    var st, w := s.run.value, s.world;
    var rec := BoxMutation(Load(w.store, st.depID), ReuseHandles(st), l.now);
    RecordedBoxFits(w, st, rec, l.now);
    PutKeepsStoreInv(w.store, st.depID, rec);
    BoxedAfterRecord(s, l);
  }

  /** A write of the run's own record leaves what it knows about the others true. */
  lemma OwnWriteKeepsOthers(store: Store, st: RunState, st': RunState, rec: Deployment)
    requires OthersFit(store, st)
    requires st'.depID == st.depID && st'.conn == st.conn && st'.host == st.host && st'.boxAgent == st.boxAgent
    requires st'.cfg == st.cfg
    ensures OthersFit(Put(store, st.depID, rec), st')
  {
  }

  lemma BoxedAfterRecord(s: Sys, l: Label)
    requires Inv(s) && Enabled(s, l) && l.RecordBox?
    ensures RunInv(Exec(s, l).world, Exec(s, l).run.value)
  {
    var st, w := s.run.value, s.world;
    var rec := BoxMutation(Load(w.store, st.depID), ReuseHandles(st), l.now);
    RecordedBoxFits(w, st, rec, l.now);
    assert OthersFit(w.store, st);
    OwnWriteKeepsOthers(w.store, st, Exec(s, l).run.value, rec);
  }

  // ---- pairing, finishing, dying ----

  lemma AgentWriteKeepsStoreInv(store: Store, st: RunState, rec: Deployment)
    requires StoreInv(store) && st.depID in store && OthersFit(store, st) && !Blank(st.host) && st.conn != ""
    requires store[st.depID].host == st.host && store[st.depID].identifier == st.cfg.identifier
    requires store[st.depID].conn == st.conn
    requires rec.agent != "" && (st.boxAgent != "" ==> rec.agent == st.boxAgent)
    requires rec == store[st.depID].(agent := rec.agent, teamConn := rec.teamConn, step := rec.step, lastError := rec.lastError)
    ensures StoreInv(Put(store, st.depID, rec))
  {
    assert RecordOK(st.depID, store[st.depID]);
    PutKeepsStoreInv(store, st.depID, rec);
  }

  lemma PairKeepsInv(s: Sys, l: Label)
    requires Inv(s) && Enabled(s, l) && l.Pair?
    ensures Inv(Exec(s, l))
  {
    var st, w := s.run.value, s.world;
    var rec := PairMutation(w.store[st.depID], FirstNonEmpty(st.boxAgent, l.newAgent));
    AgentWriteKeepsStoreInv(w.store, st, rec);
    OwnWriteKeepsOthers(w.store, st, Exec(s, l).run.value, rec);
  }

  lemma FinalizeKeepsInv(s: Sys, l: Label)
    requires Inv(s) && Enabled(s, l) && l.Finalize?
    ensures Inv(Exec(s, l))
  {
    var st, w := s.run.value, s.world;
    AgentWriteKeepsStoreInv(w.store, st, FinalMutation(w.store[st.depID], st));
  }

  lemma FailKeepsInv(s: Sys, l: Label)
    requires Inv(s) && Enabled(s, l) && l.Fail?
    ensures Inv(Exec(s, l))
  {
    var st, w := s.run.value, s.world;
    var before := w.store[st.depID];
    var rec := before.(lastError := l.message);
    assert RecordOK(st.depID, before);
    forall o | o in w.store && o != st.depID && SameTarget(w.store[o], rec) ensures !Usable(w.store[o]) || !Usable(rec) {
      assert SameTarget(w.store[o], before);
    }
    PutKeepsStoreInv(w.store, st.depID, rec);
  }

  lemma ExecKeepsInv(s: Sys, l: Label)
    requires Inv(s) && Enabled(s, l)
    ensures Inv(Exec(s, l))
  {
    match l
    case Start(_, _, _, _) => StartEstablishesRunInv(s, l);
    case Reserve(_, _) => ReserveKeepsInv(s, l);
    case Create(_, _) => CreateKeepsInv(s, l);
    case Acknowledge(_, _) => AcknowledgeKeepsInv(s, l);
    case RecordBox(_) => RecordBoxKeepsInv(s, l);
    case Pair(_, _) => PairKeepsInv(s, l);
    case Finalize => FinalizeKeepsInv(s, l);
    case Crash =>
    case Fail(_) => FailKeepsInv(s, l);
  }

  // ---- every sequence of runs ----

  /** `t` is reached from `s` by the labels in order: runs one after another, each cut off anywhere. */
  ghost predicate Runs(s: Sys, labels: seq<Label>, t: Sys)
    decreases |labels|
  {
    if labels == [] then s == t
    else Enabled(s, labels[0]) && Runs(Exec(s, labels[0]), labels[1..], t)
  }

  /** Steps of the run in progress only. */
  ghost predicate Continues(s: Sys, labels: seq<Label>, t: Sys)
    decreases |labels|
  {
    if labels == [] then s == t
    else Enabled(s, labels[0]) && !labels[0].Start? && Continues(Exec(s, labels[0]), labels[1..], t)
  }

  lemma {:induction false} RunsKeepInv(s: Sys, labels: seq<Label>, t: Sys)
    requires Inv(s) && Runs(s, labels, t)
    ensures Inv(t)
    decreases |labels|
  {
    if labels != [] {
      ExecKeepsInv(s, labels[0]);
      RunsKeepInv(Exec(s, labels[0]), labels[1..], t);
    }
  }

  /** The store invariants hold after every sequence of runs, each cut off anywhere. */
  lemma StoreInvariantsAlwaysHold(labels: seq<Label>, t: Sys)
    requires Runs(EMPTY, labels, t)
    ensures OneAgentPerHost(t.world.store) && OneUsablePerTarget(t.world.store) && OneRecordPerConn(t.world.store)
    ensures forall id :: id in t.world.store && t.world.store[id].step in {AgentPaired, Released, Finalized} ==>
      t.world.store[id].agent != ""
  {
    RunsKeepInv(EMPTY, labels, t);
  }

  // ---- usable records stay usable ----

  lemma ExecKeepsUsable(s: Sys, l: Label, id: string)
    requires Inv(s) && Enabled(s, l) && id in s.world.store && Usable(s.world.store[id])
    ensures id in Exec(s, l).world.store && Usable(Exec(s, l).world.store[id])
  {
    if !l.Start? {
      OnlyOwnRecordChanges(s, l);
      if id == s.run.value.depID { OwnRecordStaysUsable(s, l); }
    }
  }

  lemma OwnRecordStaysUsable(s: Sys, l: Label)
    requires Inv(s) && Enabled(s, l) && !l.Start?
    requires s.run.value.depID in s.world.store && Usable(s.world.store[s.run.value.depID])
    ensures var id := s.run.value.depID; id in Exec(s, l).world.store && Usable(Exec(s, l).world.store[id])
  {
    var st := s.run.value;
    assert RecordOK(st.depID, s.world.store[st.depID]);
    if l.RecordBox? {
      RecordedBoxFits(s.world, st, BoxMutation(Load(s.world.store, st.depID), ReuseHandles(st), l.now), l.now);
    }
  }

  /** A usable record never becomes unusable, although a re-deploy lowers its checkpoint. */
  lemma {:induction false} UsableForever(s: Sys, labels: seq<Label>, t: Sys, id: string)
    requires Inv(s) && Runs(s, labels, t) && id in s.world.store && Usable(s.world.store[id])
    ensures id in t.world.store && Usable(t.world.store[id])
    decreases |labels|
  {
    if labels != [] {
      ExecKeepsUsable(s, labels[0], id);
      ExecKeepsInv(s, labels[0]);
      UsableForever(Exec(s, labels[0]), labels[1..], t, id);
    }
  }
}
