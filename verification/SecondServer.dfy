/** A managed re-deploy never creates a second server behind the user's back (app/deploy_targeting.go). */
module SecondServer {
  import opened Wrappers
  import opened Records
  import opened Targeting
  import opened Lifecycle
  import opened LifecycleInvariants

  /** One project under one identifier. */
  datatype App = App(project: string, identifier: string)

  predicate RecordOf(d: Deployment, app: App) {
    d.provider.Managed? && d.project == app.project && d.identifier == app.identifier
  }

  predicate ServerOf(v: VM, app: App) {
    v.project == app.project && v.identifier == app.identifier
  }

  predicate RunOf(cfg: Config, app: App) {
    cfg.provider.Managed? && cfg.project == app.project && cfg.identifier == app.identifier
  }

  ghost predicate NoRecordOf(store: Store, app: App) {
    forall id :: id in store ==> !RecordOf(store[id], app)
  }

  ghost predicate NoServerOf(vms: set<VM>, app: App) {
    forall v :: v in vms ==> !ServerOf(v, app)
  }

  ghost predicate AtMostOneServer(vms: set<VM>, app: App) {
    forall u, v | u in vms && v in vms && ServerOf(u, app) && ServerOf(v, app) :: u == v
  }

  ghost predicate OneProvider(store: Store, app: App, provider: Provider) {
    forall id :: id in store && RecordOf(store[id], app) ==> store[id].provider == provider
  }

  ghost predicate AppInv(s: Sys, app: App, provider: Provider) {
    && OneProvider(s.world.store, app, provider)
    && AtMostOneServer(s.world.vms, app)
    && (NoServerOf(s.world.vms, app) || !NoRecordOf(s.world.store, app))
    && (s.run.Some? && RunOf(s.run.value.cfg, app) ==>
          var st := s.run.value;
          && st.cfg.provider == provider
          && (Provisions(st) && st.phase == Decided ==> NoRecordOf(s.world.store, app))
          && (st.phase == Reserved ==> NoServerOf(s.world.vms, app)))
  }

  /** The app's managed runs name one provider and never ask for a new VM; all other runs are free. */
  predicate Unforced(l: Label, app: App, provider: Provider) {
    l.Start? && RunOf(l.cfg, app) ==> l.cfg.provider == provider && !l.cfg.newVM
  }

  /** The record still belongs to its app; an ssh run leaves a managed record its provider. */
  predicate KeepsOwner(before: Deployment, after: Deployment, ssh: bool) {
    && after.project == before.project && after.identifier == before.identifier
    && (before.provider.Managed? ==> after.provider.Managed? && (ssh ==> after.provider == before.provider))
  }

  /** No step moves a record to another project or identifier, and a managed record stays managed. */
  lemma RecordsKeepTheirOwner(s: Sys, l: Label, id: string)
    requires Inv(s) && Enabled(s, l) && id in s.world.store
    ensures id in Exec(s, l).world.store
    ensures KeepsOwner(s.world.store[id], Exec(s, l).world.store[id], s.run.Some? && s.run.value.cfg.provider.Ssh?)
  {
    if !l.Start? {
      OnlyOwnRecordChanges(s, l);
      if id == s.run.value.depID { OwnRecordKeepsItsOwner(s, l); }
    }
  }

  lemma OwnRecordKeepsItsOwner(s: Sys, l: Label)
    requires Inv(s) && Enabled(s, l) && s.run.Some? && s.run.value.depID in s.world.store
    ensures var st := s.run.value;
      && st.depID in Exec(s, l).world.store
      && KeepsOwner(s.world.store[st.depID], Exec(s, l).world.store[st.depID], st.cfg.provider.Ssh?)
  {
    var st := s.run.value;
    assert RecordOK(st.depID, s.world.store[st.depID]);
    if l.RecordBox? { RecordedBoxKeepsItsOwner(s.world, st, l.now); }
  }

  lemma RecordedBoxKeepsItsOwner(w: World, st: RunState, now: int)
    requires Sound(w) && RunInv(w, st) && AtRecordBox(st)
    requires st.depID in w.store
    ensures KeepsOwner(w.store[st.depID], BoxMutation(w.store[st.depID], ReuseHandles(st), now), st.cfg.provider.Ssh?)
  {
    assert RecordOK(st.depID, w.store[st.depID]);
  }

  lemma StillRecorded(s: Sys, l: Label, app: App)
    requires Inv(s) && Enabled(s, l) && !NoRecordOf(s.world.store, app)
    ensures !NoRecordOf(Exec(s, l).world.store, app)
  {
    var id :| id in s.world.store && RecordOf(s.world.store[id], app);
    RecordsKeepTheirOwner(s, l, id);
    assert RecordOf(Exec(s, l).world.store[id], app);
  }

  lemma WritesKeepOneProvider(s: Sys, l: Label, app: App, provider: Provider)
    requires Inv(s) && Enabled(s, l) && AppInv(s, app, provider) && !l.Start?
    ensures OneProvider(Exec(s, l).world.store, app, provider)
  {
    var store, store' := s.world.store, Exec(s, l).world.store;
    OnlyOwnRecordChanges(s, l);
    forall id | id in store' && RecordOf(store'[id], app) ensures store'[id].provider == provider {
      if id == s.run.value.depID { OwnProvider(s, l, app, provider); }
    }
  }

  lemma OwnProvider(s: Sys, l: Label, app: App, provider: Provider)
    requires Inv(s) && Enabled(s, l) && AppInv(s, app, provider) && !l.Start?
    requires var id := s.run.value.depID; id in Exec(s, l).world.store && RecordOf(Exec(s, l).world.store[id], app)
    ensures Exec(s, l).world.store[s.run.value.depID].provider == provider
  {
    var st := s.run.value;
    if st.depID in s.world.store { OwnRecordKeepsItsOwner(s, l); }
  }

  lemma StartKeepsAppInv(s: Sys, l: Label, app: App, provider: Provider)
    requires Inv(s) && Enabled(s, l) && AppInv(s, app, provider) && Unforced(l, app, provider) && l.Start?
    ensures AppInv(Exec(s, l), app, provider)
  {
    var st := Exec(s, l).run.value;
    if RunOf(st.cfg, app) && Provisions(st) {
      PickedAreRecorded(l.deps, s.world.store, ManagedBoxTest(app.project, app.identifier));
      var found := PickManagedBox(l.deps, app.project, app.identifier);
      if found.Some? {
        assert RecordOK(found.value.id, s.world.store[found.value.id]);
        assert RecordOf(s.world.store[found.value.id], app);
      }
      forall id | id in s.world.store ensures !RecordOf(s.world.store[id], app) {
        assert !ManagedBoxTest(app.project, app.identifier)(s.world.store[id]);
      }
    }
  }

  lemma CreateKeepsAppInv(s: Sys, l: Label, app: App, provider: Provider)
    requires Inv(s) && Enabled(s, l) && AppInv(s, app, provider) && l.Create?
    ensures AppInv(Exec(s, l), app, provider)
  {
    var st := s.run.value;
    var t := Exec(s, l);
    assert t.world.store == s.world.store;
    if RunOf(st.cfg, app) {
      assert RecordOf(s.world.store[st.depID], app);
    } else {
      assert forall v | v in t.world.vms && ServerOf(v, app) :: v in s.world.vms;
    }
  }

  lemma ExecKeepsAppInv(s: Sys, l: Label, app: App, provider: Provider)
    requires Inv(s) && Enabled(s, l) && AppInv(s, app, provider) && Unforced(l, app, provider)
    ensures AppInv(Exec(s, l), app, provider)
  {
    if l.Start? { StartKeepsAppInv(s, l, app, provider); }
    else if l.Create? { CreateKeepsAppInv(s, l, app, provider); }
    else {
      WritesKeepOneProvider(s, l, app, provider);
      if !NoRecordOf(s.world.store, app) { StillRecorded(s, l, app); }
    }
  }

  /**
   No silent second server: over every sequence of runs in which the app's managed runs name one provider and never
   pass --new-vm, at most one VM is ever created for it, however the runs die and whatever else is deployed meanwhile.
   */
  lemma NoSecondServer(labels: seq<Label>, t: Sys, app: App, provider: Provider, u: VM, v: VM)
    requires Runs(EMPTY, labels, t)
    requires forall i :: 0 <= i < |labels| ==> Unforced(labels[i], app, provider)
    requires u in t.world.vms && v in t.world.vms && ServerOf(u, app) && ServerOf(v, app)
    ensures u == v
  {
    RunsKeepAppInv(EMPTY, labels, t, app, provider);
  }

  lemma {:induction false} RunsKeepAppInv(s: Sys, labels: seq<Label>, t: Sys, app: App, provider: Provider)
    requires Inv(s) && AppInv(s, app, provider) && Runs(s, labels, t)
    requires forall i :: 0 <= i < |labels| ==> Unforced(labels[i], app, provider)
    ensures AppInv(t, app, provider)
    decreases |labels|
  {
    if labels != [] {
      ExecKeepsAppInv(s, labels[0], app, provider);
      ExecKeepsInv(s, labels[0]);
      RunsKeepAppInv(Exec(s, labels[0]), labels[1..], t, app, provider);
    }
  }
}
