/**
 What a record's handles say about the provider's VMs: the half of the lifecycle that needs runs to be careful, and
 the half that does not.
 */
module Handles {
  import opened Wrappers
  import opened Records
  import opened Text
  import opened Targeting
  import opened Lifecycle
  import opened LifecycleInvariants

  /** The record's handles are those of the VM at its host. */
  predicate Describes(d: Deployment, v: VM) {
    d.host == v.host && d.instanceId == v.instance && d.resourceName == v.name && d.provider == v.provider
  }

  ghost predicate HandlesNameTheBox(store: Store, vms: set<VM>) {
    forall id :: id in store && store[id].provider.Managed? && store[id].host != "" ==>
      exists v :: v in vms && Describes(store[id], v)
  }

  /** destroy can still find the VM: by its instance id or by the name reserved for it. */
  predicate Names(d: Deployment, v: VM) {
    d.instanceId == v.instance || d.resourceName == v.name
  }

  ghost predicate NoLostVM(w: World) {
    forall v :: v in w.vms ==> exists id :: id in w.store && Names(w.store[id], v)
  }

  ghost predicate WorldInv(w: World) {
    Sound(w) && HandlesNameTheBox(w.store, w.vms) && NoLostVM(w)
  }

  // ---- careful runs: every record's handles are those of the VM at its host ----

  /** A run that creates a VM continues no recorded deployment: its pending record is a new one. */
  predicate Harmless(st: RunState) {
    Provisions(st) ==> st.prior.None?
  }

  /** Starts that respect the one rule of a run that creates a VM. */
  ghost predicate Careful(s: Sys, l: Label) {
    Enabled(s, l) && (l.Start? ==> Harmless(Exec(s, l).run.value))
  }

  ghost predicate CarefulInv(s: Sys) {
    && Inv(s)
    && HandlesNameTheBox(s.world.store, s.world.vms)
    && (s.run.Some? ==> Harmless(s.run.value))
  }

  /** With no host given, a VM-creating run continues nothing. */
  lemma NoHostIsHarmless(cfg: Config, deps: seq<Deployment>, store: Store, newID: string, newConn: string)
    requires Lists(deps, store) && RecordsOK(store) && Blank(cfg.hostFlag)
    requires DecideBox(cfg, deps, newID, newConn).Some?
    ensures Harmless(DecideBox(cfg, deps, newID, newConn).value)
  {
    var st := DecideBox(cfg, deps, newID, newConn).value;
    PickedAreRecorded(deps, store, PriorTest(st.host, cfg.identifier));
    assert st.prior.Some? ==> RecordOK(st.prior.value.id, store[st.prior.value.id]);
  }

  lemma PutKeepsHandles(store: Store, id: string, rec: Deployment, vms: set<VM>)
    requires HandlesNameTheBox(store, vms)
    requires rec.provider.Managed? && rec.host != "" ==> exists v :: v in vms && Describes(rec, v)
    ensures HandlesNameTheBox(Put(store, id, rec), vms)
  {
    var s' := Put(store, id, rec);
    forall o | o in s' && s'[o].provider.Managed? && s'[o].host != ""
      ensures exists v :: v in vms && Describes(s'[o], v)
    {
      if o == id {
        var v :| v in vms && Describes(rec, v);
        assert Describes(s'[o], v);
      }
    }
  }

  lemma NewVMKeepsHandles(store: Store, vms: set<VM>, vm: VM)
    requires HandlesNameTheBox(store, vms)
    ensures HandlesNameTheBox(store, vms + {vm})
  {
    forall id | id in store && store[id].provider.Managed? && store[id].host != ""
      ensures exists v :: v in vms + {vm} && Describes(store[id], v)
    {
      var v :| v in vms && Describes(store[id], v);
      assert v in vms + {vm};
    }
  }

  /** A write that leaves host, handles and provider alone. */
  lemma SameHandlesKept(store: Store, id: string, rec: Deployment, vms: set<VM>)
    requires HandlesNameTheBox(store, vms) && id in store
    requires rec.host == store[id].host && rec.provider == store[id].provider
    requires rec.instanceId == store[id].instanceId && rec.resourceName == store[id].resourceName
    ensures HandlesNameTheBox(Put(store, id, rec), vms)
  {
    if rec.provider.Managed? && rec.host != "" {
      var v :| v in vms && Describes(store[id], v);
      assert Describes(rec, v);
    }
    PutKeepsHandles(store, id, rec, vms);
  }

  /** The handles written are those of the VM at the host, wherever they came from. */
  lemma RecordedBoxDescribesTheVM(w: World, st: RunState, rec: Deployment, now: int)
    requires Sound(w) && RunInv(w, st) && AtRecordBox(st) && Harmless(st) && HandlesNameTheBox(w.store, w.vms)
    requires rec == BoxMutation(Load(w.store, st.depID), ReuseHandles(st), now)
    requires rec.provider.Managed?
    ensures exists v :: v in w.vms && Describes(rec, v)
  {
    if Provisions(st) {
      assert Describes(rec, VM(st.resourceName, st.instance, st.host, st.cfg.provider, st.cfg.project, st.cfg.identifier));
    } else if st.reuse {
      var b := st.boxRecord.value;
      var v :| v in w.vms && Describes(w.store[b.id], v);
      assert Describes(rec, v);
    } else {
      var v :| v in w.vms && Describes(w.store[st.depID], v);
      assert Describes(rec, v);
    }
  }

  lemma AcknowledgementDescribesTheVM(w: World, st: RunState, host: string)
    requires Sound(w) && PendingInv(w, st) && st.phase == Created && Harmless(st) && host in {"", st.host}
    requires HandlesNameTheBox(w.store, w.vms)
    ensures HandlesNameTheBox(Put(w.store, st.depID, InstanceMutation(w.store[st.depID], st.instance, host)), w.vms)
  {
    var rec := InstanceMutation(w.store[st.depID], st.instance, host);
    var vm := VM(st.resourceName, st.instance, st.host, st.cfg.provider, st.cfg.project, st.cfg.identifier);
    assert rec.host != "" ==> Describes(rec, vm);
    PutKeepsHandles(w.store, st.depID, rec, w.vms);
  }

  lemma ExecKeepsHandles(s: Sys, l: Label)
    requires CarefulInv(s) && Careful(s, l)
    ensures HandlesNameTheBox(Exec(s, l).world.store, Exec(s, l).world.vms)
  {
    if !l.Start? && !l.Crash? {
      var st, w := s.run.value, s.world;
      match l
      case Reserve(_, _) => PutKeepsHandles(w.store, st.depID, PendingMutation(Load(w.store, st.depID), st, l.name, l.now), w.vms);
      case Create(_, _) =>
        NewVMKeepsHandles(w.store, w.vms,
          VM(st.resourceName, l.instance, l.host, st.cfg.provider, st.cfg.project, st.cfg.identifier));
      case Acknowledge(_, _) =>
        if l.written { AcknowledgementDescribesTheVM(w, st, if l.hostKnown then st.host else ""); }
      case RecordBox(_) =>
        var rec := BoxMutation(Load(w.store, st.depID), ReuseHandles(st), l.now);
        if rec.provider.Managed? { RecordedBoxDescribesTheVM(w, st, rec, l.now); }
        PutKeepsHandles(w.store, st.depID, rec, w.vms);
      case Pair(_, _) =>
        SameHandlesKept(w.store, st.depID, PairMutation(w.store[st.depID], FirstNonEmpty(st.boxAgent, l.newAgent)), w.vms);
      case Finalize => SameHandlesKept(w.store, st.depID, FinalMutation(w.store[st.depID], st), w.vms);
      case Fail(_) => SameHandlesKept(w.store, st.depID, w.store[st.depID].(lastError := l.message), w.vms);
    }
  }

  lemma ExecKeepsCarefulInv(s: Sys, l: Label)
    requires CarefulInv(s) && Careful(s, l)
    ensures CarefulInv(Exec(s, l))
  {
    ExecKeepsInv(s, l);
    ExecKeepsHandles(s, l);
  }

  /** Sequences of careful runs. */
  ghost predicate History(s: Sys, labels: seq<Label>, t: Sys)
    decreases |labels|
  {
    if labels == [] then s == t
    else Careful(s, labels[0]) && History(Exec(s, labels[0]), labels[1..], t)
  }

  lemma {:induction false} HistoryKeepsCarefulInv(s: Sys, labels: seq<Label>, t: Sys)
    requires CarefulInv(s) && History(s, labels, t)
    ensures CarefulInv(t)
    decreases |labels|
  {
    if labels != [] {
      ExecKeepsCarefulInv(s, labels[0]);
      HistoryKeepsCarefulInv(Exec(s, labels[0]), labels[1..], t);
    }
  }

  /** Managed runs that were given no --host are careful. */
  lemma {:induction false} RunsWithoutHostAreCareful(s: Sys, labels: seq<Label>, t: Sys)
    requires Inv(s) && Runs(s, labels, t)
    requires forall i :: 0 <= i < |labels| && labels[i].Start? && labels[i].cfg.provider.Managed? ==>
      Blank(labels[i].cfg.hostFlag)
    ensures History(s, labels, t)
    decreases |labels|
  {
    if labels != [] {
      var l := labels[0];
      if l.Start? && l.cfg.provider.Managed? {
        NoHostIsHarmless(l.cfg, l.deps, s.world.store, l.newID, l.newConn);
      }
      ExecKeepsInv(s, l);
      RunsWithoutHostAreCareful(Exec(s, l), labels[1..], t);
    }
  }
}
