/** Stores the pipeline's invariants allow, in which the plan shows one database and the deploy reaches another. */
module PlanDiffers {
  import opened Wrappers
  import opened Records
  import opened Text
  import opened Targeting
  import opened Lifecycle
  import opened LifecycleInvariants
  import opened Handles
  import opened PlanApply

  /** Nothing but --deployment is stated. */
  const UNSTATED: Settings := Settings("", "", Ssh, "", MySQL, false, "", "", "", false)

  predicate Trimmed(s: string) {
    s != "" && !IsSpace(s[0]) && !IsSpace(s[|s| - 1])
  }

  lemma TrimKeeps(s: string)
    requires Trimmed(s)
    ensures TrimSpace(s) == s && !Blank(s)
  {
  }

  // ---- two boxes of one app, the older one selected ----

  /** A finished deployment on a managed box, and the VM it is on. */
  predicate Serves(d: Deployment, v: VM) {
    && Trimmed(d.id) && Trimmed(d.host) && Trimmed(d.identifier) && Trimmed(d.project)
    && d.provider.Managed? && d.instanceId != "" && d.resourceName != "" && d.agent != "" && d.conn != ""
    && d.teamConn == "" && d.engine.MySQL? && !d.externalDB && d.step == Finalized
    && v == VM(d.resourceName, d.instanceId, d.host, d.provider, d.project, d.identifier)
  }

  /** Two boxes of one app: nothing is shared but the app itself. */
  predicate TwoBoxes(a: Deployment, u: VM, b: Deployment, v: VM) {
    && Serves(a, u) && Serves(b, v)
    && a.provider == b.provider && a.project == b.project && a.identifier == b.identifier
    && a.id != b.id && a.instanceId != b.instanceId && a.resourceName != b.resourceName
    && a.host != b.host && a.agent != b.agent && a.conn != b.conn
    && a.createdAt < b.createdAt
  }

  function BothOf(a: Deployment, u: VM, b: Deployment, v: VM): World {
    World(map[a.id := a, b.id := b], {u, v})
  }

  lemma TwoBoxesStore(a: Deployment, u: VM, b: Deployment, v: VM)
    requires TwoBoxes(a, u, b, v)
    ensures StoreInv(map[a.id := a, b.id := b]) && Lists([a, b], map[a.id := a, b.id := b])
  {
    assert RecordOK(a.id, a) && RecordOK(b.id, b);
    assert [a, b][0] == a && [a, b][1] == b;
  }

  lemma TwoBoxesAreSound(a: Deployment, u: VM, b: Deployment, v: VM)
    requires TwoBoxes(a, u, b, v)
    ensures WorldInv(BothOf(a, u, b, v))
  {
    var w := BothOf(a, u, b, v);
    TwoBoxesStore(a, u, b, v);
    assert Describes(w.store[a.id], u) && Describes(w.store[b.id], v);
    assert Names(w.store[a.id], u) && Names(w.store[b.id], v);
  }

  lemma LatestOfTwo(a: Deployment, b: Deployment, test: Deployment -> bool)
    requires test(b) && a.createdAt < b.createdAt
    ensures Latest([a, b], test) == Some(b)
  {
    assert [a, b][..1] == [a] && [a][..0] == [];
  }

  lemma TheRunGoesToTheNewer(a: Deployment, u: VM, b: Deployment, v: VM, cfg: Config, newID: string, newConn: string)
    requires TwoBoxes(a, u, b, v)
    requires cfg.provider == a.provider && cfg.project == a.project && cfg.identifier == a.identifier && !cfg.newVM
    ensures NewerBoxPreferred(a, [a, b]) && DecideBox(cfg, [a, b], newID, newConn).Some?
  {
    TrimKeeps(b.host);
    LatestOfTwo(a, b, ManagedBoxTest(a.project, a.identifier));
    LatestOfTwo(a, b, PriorTest(b.host, a.identifier));
  }

  lemma TheNewerIsDeployed(a: Deployment, u: VM, b: Deployment, v: VM, s: Settings, newID: string, newConn: string)
    requires TwoBoxes(a, u, b, v)
    requires s.provider == a.provider && s.project == a.project && s.identifier == a.identifier && !s.newVM && s.connection == ""
    ensures NewerBoxPreferred(a, [a, b]) && Apply(s, "", "", map[], [a, b], newID, newConn).Some?
  {
    TheRunGoesToTheNewer(a, u, b, v, ApplyConfig(s, a.identifier, ApplyEngine(s, a.identifier, map[], [a, b])), newID, newConn);
  }

  /** `--deployment` of the older box, as after a --new-vm run: the plan is about that box, the deploy goes to the newer. */
  lemma OlderBoxPlannedNewerDeployed(a: Deployment, u: VM, b: Deployment, v: VM, newID: string, newConn: string, newAgent: string)
    requires TwoBoxes(a, u, b, v) && FreshConn(BothOf(a, u, b, v), newConn)
    ensures WorldInv(BothOf(a, u, b, v)) && Lists([a, b], BothOf(a, u, b, v).store)
    ensures AdoptRecord(UNSTATED, a, {}).Some?
    ensures var applied := Apply(AdoptRecord(UNSTATED, a, {}).value, "", "", map[], [a, b], newID, newConn);
      applied.Some? && RunPlan(PlanByID(a, "", [a, b]), map[]) != At(applied.value.Push(newAgent))
  {
    TwoBoxesStore(a, u, b, v);
    TwoBoxesAreSound(a, u, b, v);
    TrimKeeps(a.id);
    TrimKeeps(a.host);
    TrimKeeps(a.project);
    AdoptedSettings(UNSTATED, a);
    TheNewerIsDeployed(a, u, b, v, AdoptRecord(UNSTATED, a, {}).value, newID, newConn);
    PlanMatchesApplyOnABox(BothOf(a, u, b, v), a, [a, b], [a, b], UNSTATED, "", "", map[], newID, newConn, newAgent);
  }

  // ---- one ssh box on a team connection ----

  predicate OnTeam(d: Deployment) {
    && Trimmed(d.id) && Trimmed(d.host) && Trimmed(d.identifier) && Trimmed(d.project) && Trimmed(d.teamConn)
    && d.provider.Ssh? && d.instanceId == "" && d.resourceName == "" && d.agent != "" && d.conn != ""
    && d.engine.Postgres? && d.externalDB && d.step == Finalized
  }

  lemma OneBoxIsSound(d: Deployment)
    requires OnTeam(d)
    ensures WorldInv(World(map[d.id := d], {})) && Lists([d], map[d.id := d])
  {
  }

  lemma TheRunContinuesTheBox(d: Deployment, cfg: Config, newID: string, newConn: string)
    requires OnTeam(d) && cfg.provider.Ssh? && cfg.hostFlag == d.host && cfg.project == d.project && cfg.identifier == d.identifier
    ensures DecideBox(cfg, [d], newID, newConn).Some?
  {
    assert [d][..0] == [];
    assert Latest([d], PriorTest(d.host, d.identifier)) == Some(d);
  }

  /** The team connection was Postgres when the record was written and is MySQL now: the schemas differ. */
  lemma EngineIsMisread(d: Deployment, store: string, newID: string, newConn: string, newAgent: string)
    requires OnTeam(d) && SanitizeDBName(d.identifier) != "public"
    ensures WorldInv(World(map[d.id := d], {})) && Lists([d], map[d.id := d])
    ensures AdoptRecord(UNSTATED, d, {}).Some?
    ensures var conns := map[d.teamConn := Connection(MySQL, "", store)];
      var applied := Apply(AdoptRecord(UNSTATED, d, {}).value, "", "", conns, [d], newID, newConn);
      applied.Some? && RunPlan(PlanByID(d, "", [d]), conns) != At(applied.value.Push(newAgent))
  {
    var conns := map[d.teamConn := Connection(MySQL, "", store)];
    OneBoxIsSound(d);
    TrimKeeps(d.id);
    TrimKeeps(d.host);
    TrimKeeps(d.project);
    TrimKeeps(d.teamConn);
    AdoptedTeamSettings(UNSTATED, d);
    var s := AdoptRecord(UNSTATED, d, {}).value;
    TheRunContinuesTheBox(d, ApplyConfig(s, d.identifier, ApplyEngine(s, d.identifier, conns, [d])), newID, newConn);
    PlanMatchesApplyOnATeamConnection(World(map[d.id := d], {}), d, [d], [d], UNSTATED, "", "", conns, newID, newConn, newAgent);
  }

  /** Selected by host and identifier: the plan is about the team connection, the deploy about the box's own database. */
  lemma TeamConnectionIsForgotten(d: Deployment, conns: map<string, Connection>, newID: string, newConn: string, newAgent: string)
    requires OnTeam(d) && newConn != "" && newConn != d.conn
    ensures WorldInv(World(map[d.id := d], {})) && Lists([d], map[d.id := d])
    ensures var s := Settings(d.project, d.identifier, Ssh, d.host, MySQL, false, "", "", "", false);
      var applied := Apply(s, "", "", conns, [d], newID, newConn);
      applied.Some? && RunPlan(PlanByHost(d, "", [d]), conns) != At(applied.value.Push(newAgent))
  {
    OneBoxIsSound(d);
    TrimKeeps(d.host);
    TrimKeeps(d.teamConn);
    HostPlanMatchesApply(World(map[d.id := d], {}), d, [d], [d],
                         Settings(d.project, d.identifier, Ssh, d.host, MySQL, false, "", "", "", false), "", "", conns,
                         newID, newConn, newAgent);
  }

  // ---- such stores exist ----

  const DO: Provider := Managed("digitalocean")
  const OLDER: Deployment :=
    Deployment("shop-1", DO, "i-1", "nuzur-shop-a", false, "10.0.0.1", "shop", "p1", "agent-1", "conn-1", "", MySQL, false,
               1, Finalized, "")
  const NEWER: Deployment :=
    Deployment("shop-2", DO, "i-2", "nuzur-shop-b", false, "10.0.0.2", "shop", "p1", "agent-2", "conn-2", "", MySQL, false,
               2, Finalized, "")
  const OLDER_VM: VM := VM("nuzur-shop-a", "i-1", "10.0.0.1", DO, "p1", "shop")
  const NEWER_VM: VM := VM("nuzur-shop-b", "i-2", "10.0.0.2", DO, "p1", "shop")
  const ON_TEAM: Deployment :=
    Deployment("shop-1", Ssh, "", "", false, "10.0.0.1", "shop", "p1", "agent-1", "conn-1", "team-1", Postgres, true,
               1, Finalized, "")

  lemma TwoBoxesExist()
    ensures TwoBoxes(OLDER, OLDER_VM, NEWER, NEWER_VM)
  {
    assert "shop-1"[5] != "shop-2"[5] && "i-1"[2] != "i-2"[2] && "nuzur-shop-a"[11] != "nuzur-shop-b"[11];
    assert "10.0.0.1"[7] != "10.0.0.2"[7] && "agent-1"[6] != "agent-2"[6] && "conn-1"[5] != "conn-2"[5];
  }

  lemma TeamBoxExists()
    ensures OnTeam(ON_TEAM) && SanitizeDBName(ON_TEAM.identifier) != "public"
  {
    assert |SanitizeDBName("shop")| != |"public"|;
  }
}
