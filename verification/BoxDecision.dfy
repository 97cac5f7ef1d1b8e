/**
 Which server a run gets and when it is refused, for every listing of every store the pipeline can leave behind
 (app/deploy_targeting.go, decideDeployBox and pickPriorDeployment).
 */
module BoxDecision {
  import opened Wrappers
  import opened Records
  import opened Text
  import opened Targeting
  import opened Lifecycle
  import opened LifecycleInvariants

  /** A record of a managed server of the project under the identifier; a record without a project is anyone's. */
  predicate IsBoxOf(d: Deployment, project: string, identifier: string) {
    d.provider.Managed? && d.identifier == identifier && (d.project == project || d.project == "" || project == "")
  }

  /** The first of the newest boxes listed; none when no box is listed. */
  ghost predicate NewestBox(deps: seq<Deployment>, project: string, identifier: string, box: Option<Deployment>) {
    match box
    case None => forall i :: 0 <= i < |deps| ==> !IsBoxOf(deps[i], project, identifier)
    case Some(b) =>
      exists k: nat ::
        && k < |deps| && deps[k] == b && IsBoxOf(deps[k], project, identifier)
        && forall i | 0 <= i < |deps| && IsBoxOf(deps[i], project, identifier) ::
             deps[i].createdAt <= b.createdAt && (i < k ==> deps[i].createdAt < b.createdAt)
  }

  lemma NewestIsPicked(deps: seq<Deployment>, project: string, identifier: string, box: Option<Deployment>)
    requires NewestBox(deps, project, identifier, box)
    ensures PickManagedBox(deps, project, identifier) == box
  {
    var test := ManagedBoxTest(project, identifier);
    assert forall i :: 0 <= i < |deps| ==> (test(deps[i]) <==> IsBoxOf(deps[i], project, identifier));
    if box.Some? {
      var k: nat :|
        && k < |deps| && deps[k] == box.value && IsBoxOf(deps[k], project, identifier)
        && forall i | 0 <= i < |deps| && IsBoxOf(deps[i], project, identifier) ::
             deps[i].createdAt <= box.value.createdAt && (i < k ==> deps[i].createdAt < box.value.createdAt);
      assert IsLatestAt(deps, test, k);
    }
    LatestIsUnique(deps, test, box, PickManagedBox(deps, project, identifier));
  }

  /** The recorded box is the run's own: same provider, and no new one is asked for. */
  predicate Reusable(cfg: Config, box: Option<Deployment>) {
    cfg.provider.Managed? && box.Some? && box.value.provider == cfg.provider && !cfg.newVM
  }

  function HostOf(cfg: Config, box: Option<Deployment>): string {
    if Reusable(cfg, box) then box.value.host else cfg.hostFlag
  }

  /** A record of the target that a run can continue: it got as far as pairing its agent. */
  predicate Continuable(d: Deployment, host: string, identifier: string) {
    d.host == host && d.identifier == identifier &&
    (d.provider.K8s? || d.agent != "" || d.step in {AgentPaired, Released, Finalized})
  }

  /** Another project has the target. */
  ghost predicate Taken(store: Store, host: string, cfg: Config) {
    exists id :: id in store && Continuable(store[id], host, cfg.identifier) && store[id].project != cfg.project
  }

  lemma PickedIsContinuable(deps: seq<Deployment>, store: Store, host: string, identifier: string)
    requires StoreInv(store) && Lists(deps, store)
    ensures var p := PickPrior(deps, host, identifier);
      && (p.Some? ==> p.value.id in store && store[p.value.id] == p.value && Continuable(p.value, host, identifier))
      && (p.Some? ==> RecordOK(p.value.id, p.value) && p.value.conn != "")
      && forall id :: id in store && Continuable(store[id], host, identifier) ==> p == Some(store[id])
  {
    PriorIsTheUsable(deps, store, host, identifier);
  }

  /**
   A run is refused exactly when the newest box is its own and has no host, or when another project has its target; any
   other run lands on its own box, or on the host it was given.
   */
  lemma RefusedExactly(store: Store, deps: seq<Deployment>, cfg: Config, newID: string, newConn: string, box: Option<Deployment>)
    requires StoreInv(store) && Lists(deps, store) && Acceptable(cfg)
    requires NewestBox(deps, cfg.project, cfg.identifier, box)
    ensures var decided := DecideBox(cfg, deps, newID, newConn);
      && (decided.None? <==> (Reusable(cfg, box) && Blank(box.value.host)) || Taken(store, HostOf(cfg, box), cfg))
      && (decided.Some? ==> decided.value.host == HostOf(cfg, box))
  {
    NewestIsPicked(deps, cfg.project, cfg.identifier, box);
    PickedIsContinuable(deps, store, HostOf(cfg, box), cfg.identifier);
  }

  /** Nothing else keeps a run of ssh or a managed provider from starting, whatever engine, database or flags it has. */
  lemma StartsExactly(w: World, deps: seq<Deployment>, cfg: Config, newID: string, newConn: string, box: Option<Deployment>)
    requires StoreInv(w.store) && Lists(deps, w.store) && FreshID(w, newID) && FreshConn(w, newConn)
    requires NewestBox(deps, cfg.project, cfg.identifier, box)
    ensures Enabled(Sys(w, None), Start(cfg, deps, newID, newConn)) <==>
      && (cfg.provider.Managed? || (cfg.provider.Ssh? && !Blank(cfg.hostFlag)))
      && !Blank(cfg.identifier) && cfg.project != ""
      && !(Reusable(cfg, box) && Blank(box.value.host)) && !Taken(w.store, HostOf(cfg, box), cfg)
  {
    if Acceptable(cfg) { RefusedExactly(w.store, deps, cfg, newID, newConn, box); }
  }

  /** A managed run creates a VM exactly when no box is recorded, the newest has another provider, or a new one is asked for. */
  lemma CreatesExactly(deps: seq<Deployment>, cfg: Config, newID: string, newConn: string, box: Option<Deployment>)
    requires NewestBox(deps, cfg.project, cfg.identifier, box) && DecideBox(cfg, deps, newID, newConn).Some?
    ensures Provisions(DecideBox(cfg, deps, newID, newConn).value) <==>
      cfg.provider.Managed? && (box.None? || box.value.provider != cfg.provider || cfg.newVM)
  {
    NewestIsPicked(deps, cfg.project, cfg.identifier, box);
  }

  /**
   What a run continues: the continuable record of its target under that record's id and connection; else the box it
   re-uses under that id; else nothing, under new ones. Any paired record of the host gives it its agent.
   */
  lemma ContinuesExactly(store: Store, deps: seq<Deployment>, cfg: Config, newID: string, newConn: string, box: Option<Deployment>)
    requires StoreInv(store) && Lists(deps, store) && Acceptable(cfg)
    requires NewestBox(deps, cfg.project, cfg.identifier, box) && DecideBox(cfg, deps, newID, newConn).Some?
    ensures var st, host := DecideBox(cfg, deps, newID, newConn).value, HostOf(cfg, box);
      && (forall id :: id in store && Continuable(store[id], host, cfg.identifier) ==>
            st.prior == Some(store[id]) && st.depID == id && st.conn == store[id].conn)
      && ((forall id :: id in store ==> !Continuable(store[id], host, cfg.identifier)) ==>
            st.prior == None && st.conn == newConn && st.depID == if Reusable(cfg, box) then box.value.id else newID)
      && (forall id :: id in store && store[id].host == host && store[id].agent != "" ==> st.boxAgent == store[id].agent)
      && ((forall id :: id in store && store[id].host == host ==> store[id].agent == "") ==> st.boxAgent == "")
  {
    var host := HostOf(cfg, box);
    PicksOfTheRun(deps, cfg, newID, newConn, box);
    PickedIsContinuable(deps, store, host, cfg.identifier);
    AgentOfTheHost(deps, store, host);
    forall id | id in store && Continuable(store[id], host, cfg.identifier)
      ensures store[id].conn != "" && store[id].id == id
    {
      assert RecordOK(id, store[id]);
    }
  }

  lemma PicksOfTheRun(deps: seq<Deployment>, cfg: Config, newID: string, newConn: string, box: Option<Deployment>)
    requires NewestBox(deps, cfg.project, cfg.identifier, box) && DecideBox(cfg, deps, newID, newConn).Some?
    ensures var st, host := DecideBox(cfg, deps, newID, newConn).value, HostOf(cfg, box);
      && st.prior == PickPrior(deps, host, cfg.identifier) && st.boxAgent == PickBoxAgent(deps, host)
      && st.conn == (if st.prior.Some? && st.prior.value.conn != "" then st.prior.value.conn else newConn)
      && st.depID == if st.prior.Some? then st.prior.value.id else if Reusable(cfg, box) then box.value.id else newID
  {
    NewestIsPicked(deps, cfg.project, cfg.identifier, box);
  }

  lemma AgentOfTheHost(deps: seq<Deployment>, store: Store, host: string)
    requires StoreInv(store) && Lists(deps, store)
    ensures forall id :: id in store && store[id].host == host && store[id].agent != "" ==> PickBoxAgent(deps, host) == store[id].agent
    ensures (forall id :: id in store && store[id].host == host ==> store[id].agent == "") ==> PickBoxAgent(deps, host) == ""
  {
    BoxAgentIsTheAgent(deps, store, host);
    PickedAreRecorded(deps, store, BoxAgentTest(host));
  }
}
