/**
 `deploy --plan` and `deploy` on the same selection: which database each one reaches
 (app/command_deploy_plan.go, app/deploy_targeting.go, app/command_deploy.go).
 */
module PlanApply {
  import opened Wrappers
  import opened Records
  import opened Text
  import opened Targeting
  import opened Lifecycle
  import opened LifecycleInvariants

  datatype Target =
    | Remote(teamConn: string, store: string, schema: string, engine: Engine)
    | Local(agent: string, conn: string, schema: string, engine: Engine)

  /** A team connection as nuzur resolves it; a MySQL connection names no database. */
  datatype Connection = Connection(engine: Engine, name: string, store: string)

  ghost predicate ConnectionOK(c: Connection) {
    c.engine != NoEngine && (c.engine.MySQL? ==> c.name == "")
  }

  // ---- the plan side ----

  datatype PlanInput = PlanInput(
    deploymentID: string, host: string, identifier: string, teamConn: string, dsn: string,
    localAgent: string, localConn: string, dbSchema: string, db: Engine, project: string, deps: seq<Deployment>)

  /** NoTarget is a first deploy; the errors are told apart only as PlanError. */
  datatype PlanResult = PlanError | NoTarget | At(target: Target)

  function FindByID(deps: seq<Deployment>, id: string): (r: Option<Deployment>)
    ensures r.Some? ==> r.value in deps && r.value.id == id
    ensures r.None? ==> forall d :: d in deps ==> d.id != id
  {
    if deps == [] then None
    else if deps[0].id == id then Some(deps[0])
    else FindByID(deps[1..], id)
  }

  function PlanFromDeployment(dep: Deployment, project: string, dbSchema: string): PlanResult {
    if project != "" && dep.project != "" && dep.project != project then PlanError else
      var engine := if dep.engine == NoEngine then MySQL else dep.engine;
      var schema := DeploySchemaName(engine, SanitizeDBName(dep.identifier), dbSchema);
      if TrimSpace(dep.teamConn) != "" then At(Remote(TrimSpace(dep.teamConn), "", schema, engine))
      else if dep.agent == "" || dep.conn == "" then PlanError
      else At(Local(dep.agent, dep.conn, schema, engine))
  }

  function PlanFromState(i: PlanInput): PlanResult {
    var engine := if i.db == NoEngine then MySQL else i.db;
    var agent, conn := TrimSpace(i.localAgent), TrimSpace(i.localConn);
    if (agent == "") != (conn == "") then PlanError
    else if agent != "" then
      At(Local(agent, conn, DeploySchemaName(engine, SanitizeDBName(i.identifier), i.dbSchema), engine))
    else if TrimSpace(i.deploymentID) != "" then
      match FindByID(i.deps, TrimSpace(i.deploymentID))
      case None => PlanError
      case Some(dep) => PlanFromDeployment(dep, i.project, i.dbSchema)
    else if TrimSpace(i.teamConn) != "" then
      At(Remote(TrimSpace(i.teamConn), "", DeploySchemaName(engine, SanitizeDBName(i.identifier), i.dbSchema), engine))
    else
      var prior := if TrimSpace(i.host) != "" then PickPrior(i.deps, TrimSpace(i.host), i.identifier) else None;
      if prior.Some? then PlanFromDeployment(prior.value, i.project, i.dbSchema)
      else if TrimSpace(i.dsn) != "" then PlanError
      else NoTarget
  }

  /** runDeployPlan: a team connection's store and engine are looked up before the diff. */
  function RunPlan(i: PlanInput, conns: map<string, Connection>): PlanResult {
    var r := PlanFromState(i);
    if r.At? && r.target.Remote? && r.target.store == "" then
      if r.target.teamConn !in conns then PlanError else
        var c := conns[r.target.teamConn];
        if c.engine == NoEngine then At(r.target.(store := c.store))
        else At(r.target.(store := c.store, engine := c.engine, schema := DeploySchemaName(c.engine, r.target.schema, i.dbSchema)))
    else r
  }

  // ---- the apply side ----

  datatype Settings = Settings(
    project: string, identifier: string, provider: Provider, host: string, db: Engine, dbStated: bool,
    dsn: string, connection: string, dbSchema: string, newVM: bool)

  datatype Flag = ProjectFlag | IdentifierFlag | ProviderFlag | HostFlag | DBFlag | ConnectionFlag

  /** applyDeploymentSelector. None is the refusal to self-host what the record says is external. */
  function AdoptRecord(s: Settings, rec: Deployment, stated: set<Flag>): Option<Settings> {
    var t := s.(
      project := if ProjectFlag in stated || Blank(rec.project) then s.project else rec.project,
      identifier := if IdentifierFlag in stated || Blank(rec.identifier) then s.identifier else rec.identifier,
      provider := if ProviderFlag in stated || rec.provider.Unset? then s.provider else rec.provider,
      host := if HostFlag in stated || Blank(rec.host) then s.host else rec.host,
      db := if DBFlag in stated || rec.engine.NoEngine? then s.db else rec.engine,
      connection := if ConnectionFlag in stated || Blank(rec.teamConn) then s.connection else rec.teamConn);
    if rec.externalDB && Blank(t.dsn) && Blank(t.connection) then None else Some(t)
  }

  function PlanIdentifier(flag: string, configured: string, projectName: string): string {
    FirstNonEmpty(flag, FirstNonEmpty(configured, SanitizeDBName(projectName)))
  }

  /** The engine of stepResolveAndConfigure for a run without --db-dsn. */
  function ApplyEngine(s: Settings, identifier: string, conns: map<string, Connection>, deps: seq<Deployment>): Engine {
    var connFlag := TrimSpace(s.connection);
    if connFlag != "" then (if connFlag in conns then conns[connFlag].engine else NoEngine)
    else
      var stated := if s.db.Postgres? then Postgres else MySQL;
      var prior := if s.dbStated || TrimSpace(s.host) == "" then None else PickPrior(deps, TrimSpace(s.host), identifier);
      if prior.Some? && prior.value.engine != NoEngine then prior.value.engine else stated
  }

  function ApplySchema(s: Settings, identifier: string, engine: Engine, conns: map<string, Connection>): string {
    var connFlag := TrimSpace(s.connection);
    var named := if connFlag in conns then conns[connFlag].name else "";
    DeploySchemaName(engine, if connFlag != "" && named != "" then named else SanitizeDBName(identifier), s.dbSchema)
  }

  function ApplyConfig(s: Settings, identifier: string, engine: Engine): Config {
    Config(s.provider, s.host, s.newVM, identifier, s.project, engine, TrimSpace(s.connection) != "", TrimSpace(s.connection))
  }

  /** deployPushTarget */
  function PushTarget(agent: string, conn: string, schema: string, teamConn: string, store: string, engine: Engine): Target {
    if teamConn != "" then Remote(teamConn, store, schema, engine) else Local(agent, conn, schema, engine)
  }

  /** What the run decided before it touches anything, and the target its schema apply pushes to. */
  datatype Applied = Applied(st: RunState, schema: string, engine: Engine, teamConn: string, store: string) {
    function Push(newAgent: string): Target {
      PushTarget(FirstNonEmpty(st.boxAgent, newAgent), st.conn, schema, teamConn, store, engine)
    }

    /** The destructive gate of stepPreflightGate; None when there is nothing to gate against. */
    function Gate(): Option<Target> {
      if st.prior.None? || st.prior.value.conn == "" then None else
        var agent := FirstNonEmpty(st.prior.value.agent, st.boxAgent);
        if agent == "" then None
        else Some(PushTarget(agent, st.prior.value.conn, schema, teamConn, store, engine))
    }
  }

  function Apply(s: Settings, configured: string, projectName: string, conns: map<string, Connection>,
                 deps: seq<Deployment>, newID: string, newConn: string): Option<Applied> {
    var identifier := PlanIdentifier(s.identifier, configured, projectName);
    var connFlag := TrimSpace(s.connection);
    if connFlag != "" && connFlag !in conns then None else
      var engine := ApplyEngine(s, identifier, conns, deps);
      match DecideBox(ApplyConfig(s, identifier, engine), deps, newID, newConn)
      case None => None
      case Some(st) =>
        Some(Applied(st, ApplySchema(s, identifier, engine, conns), engine, connFlag,
                     if connFlag != "" then conns[connFlag].store else ""))
  }

  // ---- agreement ----

  /** No flag but --deployment (and --db-schema) was given. */
  predicate Unstated(s: Settings) {
    s.project == "" && s.identifier == "" && s.provider.Ssh? && s.host == "" && s.db.MySQL? && !s.dbStated &&
    s.dsn == "" && s.connection == "" && !s.newVM
  }

  function PlanByID(rec: Deployment, dbSchema: string, deps: seq<Deployment>): PlanInput {
    PlanInput(rec.id, "", rec.identifier, "", "", "", "", dbSchema, MySQL, rec.project, deps)
  }

  lemma FoundByID(deps: seq<Deployment>, store: Store, id: string)
    requires Lists(deps, store) && RecordsOK(store) && id in store
    ensures FindByID(deps, id) == Some(store[id])
  {
    assert store[id] in deps && RecordOK(id, store[id]);
    var found := FindByID(deps, id);
    var i :| 0 <= i < |deps| && deps[i] == found.value;
  }

  /** The run that lands on the record's host continues that record, through its agent and connection. */
  lemma SameHostSameRecord(store: Store, rec: Deployment, deps: seq<Deployment>, cfg: Config, newID: string, newConn: string)
    requires StoreInv(store) && Lists(deps, store)
    requires rec.id in store && store[rec.id] == rec && Usable(rec)
    requires cfg.identifier == rec.identifier && FreshConn(World(store, {}), newConn)
    requires DecideBox(cfg, deps, newID, newConn).Some?
    ensures var st := DecideBox(cfg, deps, newID, newConn).value;
      && (st.host == rec.host ==> st.prior == Some(rec) && st.boxAgent == rec.agent)
      && (st.conn == rec.conn <==> st.host == rec.host)
  {
    var st := DecideBox(cfg, deps, newID, newConn).value;
    assert RecordOK(rec.id, store[rec.id]);
    PriorIsTheUsable(deps, store, st.host, cfg.identifier);
    BoxAgentIsTheAgent(deps, store, st.host);
    if st.prior.Some? {
      assert RecordOK(st.prior.value.id, store[st.prior.value.id]);
      assert st.prior.value.agent != "" && st.prior.value.conn != "";
    }
    assert st.host == rec.host ==> IsPrior(store[rec.id], st.host, cfg.identifier);
  }

  /** The engine and schema both sides derive from a self-hosted record are the same. */
  lemma SameEngineAndSchema(store: Store, rec: Deployment, deps: seq<Deployment>, s: Settings, conns: map<string, Connection>)
    requires StoreInv(store) && Lists(deps, store)
    requires rec.id in store && store[rec.id] == rec && Usable(rec) && TrimSpace(rec.host) == rec.host
    requires TrimSpace(s.connection) == "" && s.host == rec.host && !s.dbStated
    requires s.db == if rec.engine == NoEngine then MySQL else rec.engine
    ensures ApplyEngine(s, rec.identifier, conns, deps) == s.db
    ensures ApplySchema(s, rec.identifier, s.db, conns) == DeploySchemaName(s.db, SanitizeDBName(rec.identifier), s.dbSchema)
  {
    assert RecordOK(rec.id, store[rec.id]);
    PriorIsTheUsable(deps, store, rec.host, rec.identifier);
    assert IsPrior(store[rec.id], rec.host, rec.identifier);
  }

  /** What both sides derive from the record alone. */
  function RecordTarget(rec: Deployment, dbSchema: string): Target {
    var engine := if rec.engine == NoEngine then MySQL else rec.engine;
    Local(rec.agent, rec.conn, DeploySchemaName(engine, SanitizeDBName(rec.identifier), dbSchema), engine)
  }

  lemma BoxPlan(rec: Deployment, store: Store, planDeps: seq<Deployment>, dbSchema: string, conns: map<string, Connection>)
    requires StoreInv(store) && Lists(planDeps, store) && rec.id in store && store[rec.id] == rec && Usable(rec)
    requires TrimSpace(rec.id) == rec.id && TrimSpace(rec.teamConn) == ""
    ensures RunPlan(PlanByID(rec, dbSchema, planDeps), conns) == At(RecordTarget(rec, dbSchema))
  {
    assert RecordOK(rec.id, store[rec.id]);
    FoundByID(planDeps, store, rec.id);
  }

  lemma BoxApply(w: World, rec: Deployment, deps: seq<Deployment>, a: Settings, configured: string, projectName: string,
                 conns: map<string, Connection>, newID: string, newConn: string, newAgent: string)
    requires StoreInv(w.store) && Lists(deps, w.store) && FreshConn(w, newConn)
    requires rec.id in w.store && w.store[rec.id] == rec && Usable(rec) && TrimSpace(rec.host) == rec.host
    requires a.identifier == rec.identifier != "" && a.host == rec.host && a.provider == rec.provider && a.project == rec.project
    requires !a.newVM && !a.dbStated && TrimSpace(a.connection) == ""
    requires a.db == if rec.engine == NoEngine then MySQL else rec.engine
    ensures var applied := Apply(a, configured, projectName, conns, deps, newID, newConn);
      var target := RecordTarget(rec, a.dbSchema);
      applied.Some? ==>
        && (applied.value.Push(newAgent) == target <==> !NewerBoxPreferred(rec, deps))
        && (!NewerBoxPreferred(rec, deps) ==> applied.value.Gate() == Some(target))
  {
    var applied := Apply(a, configured, projectName, conns, deps, newID, newConn);
    if applied.Some? {
      assert RecordOK(rec.id, w.store[rec.id]);
      SameEngineAndSchema(w.store, rec, deps, a, conns);
      SameHostSameRecord(w.store, rec, deps, ApplyConfig(a, rec.identifier, a.db), newID, newConn);
      LandsOn(rec, ApplyConfig(a, rec.identifier, a.db), deps, newID, newConn);
    }
  }

  /** The picker prefers a newer managed record of the same project and identifier, on another host. */
  predicate NewerBoxPreferred(rec: Deployment, deps: seq<Deployment>) {
    var box := PickManagedBox(deps, rec.project, rec.identifier);
    && rec.provider.Managed? && box.Some? && box.value.provider == rec.provider
    && !Blank(box.value.host) && box.value.host != rec.host
  }

  /**
   A self-hosted record selected with --deployment: the plan and the apply address the same database if and only
   if no newer box is preferred to the record's, and then the pre-flight gate checks that database too. The two
   sides may list the records in different orders.
   */
  lemma PlanMatchesApplyOnABox(w: World, rec: Deployment, planDeps: seq<Deployment>, deps: seq<Deployment>, s: Settings,
                               configured: string, projectName: string, conns: map<string, Connection>,
                               newID: string, newConn: string, newAgent: string)
    requires StoreInv(w.store) && Lists(planDeps, w.store) && Lists(deps, w.store)
    requires rec.id in w.store && w.store[rec.id] == rec && Usable(rec) && TrimSpace(rec.id) == rec.id
    requires TrimSpace(rec.host) == rec.host && !Blank(rec.project)
    requires Blank(rec.teamConn) && !rec.externalDB && Unstated(s)
    requires FreshConn(w, newConn)
    ensures AdoptRecord(s, rec, {}).Some?
    ensures var applied := Apply(AdoptRecord(s, rec, {}).value, configured, projectName, conns, deps, newID, newConn);
      var plan := RunPlan(PlanByID(rec, s.dbSchema, planDeps), conns);
      && plan.At? && plan.target.Local?
      && (applied.Some? ==>
            && (applied.value.Push(newAgent) == plan.target <==> !NewerBoxPreferred(rec, deps))
            && (!NewerBoxPreferred(rec, deps) ==> applied.value.Gate() == Some(plan.target)))
  {
    assert RecordOK(rec.id, w.store[rec.id]);
    BlankTrimsToNothing(rec.teamConn);
    BoxPlan(rec, w.store, planDeps, s.dbSchema, conns);
    AdoptedSettings(s, rec);
    BoxApply(w, rec, deps, AdoptRecord(s, rec, {}).value, configured, projectName, conns, newID, newConn, newAgent);
  }

  lemma LandsOn(rec: Deployment, cfg: Config, deps: seq<Deployment>, newID: string, newConn: string)
    requires rec.provider.Ssh? || rec.provider.Managed?
    requires cfg.provider == rec.provider && cfg.hostFlag == rec.host && !cfg.newVM
    requires cfg.project == rec.project && cfg.identifier == rec.identifier
    requires DecideBox(cfg, deps, newID, newConn).Some?
    ensures DecideBox(cfg, deps, newID, newConn).value.host == rec.host <==> !NewerBoxPreferred(rec, deps)
  {
  }

  lemma AdoptedSettings(s: Settings, rec: Deployment)
    requires Unstated(s) && RecordOK(rec.id, rec) && Usable(rec) && Blank(rec.teamConn) && !rec.externalDB && !Blank(rec.project)
    ensures var a := AdoptRecord(s, rec, {});
      a == Some(s.(project := rec.project, identifier := rec.identifier, provider := rec.provider, host := rec.host,
                   db := if rec.engine == NoEngine then MySQL else rec.engine))
  {
  }

  /** The record's own host is where the run lands on a given host, or on the managed box the picker prefers. */
  lemma LandsHome(store: Store, rec: Deployment, cfg: Config, deps: seq<Deployment>, newID: string, newConn: string)
    requires StoreInv(store) && Lists(deps, store) && rec.id in store && store[rec.id] == rec && Usable(rec)
    requires cfg.provider == rec.provider && cfg.hostFlag == rec.host && !cfg.newVM
    requires cfg.identifier == rec.identifier && cfg.project == rec.project
    requires rec.provider.Ssh? || PickManagedBox(deps, rec.project, rec.identifier) == Some(rec)
    ensures DecideBox(cfg, deps, newID, newConn).Some?
    ensures DecideBox(cfg, deps, newID, newConn).value.host == rec.host
  {
    assert RecordOK(rec.id, store[rec.id]);
    PriorIsTheUsable(deps, store, rec.host, rec.identifier);
    assert IsPrior(store[rec.id], rec.host, rec.identifier);
  }

  lemma AppliesAtHome(w: World, rec: Deployment, deps: seq<Deployment>, s: Settings,
                      configured: string, projectName: string, conns: map<string, Connection>, newID: string, newConn: string)
    requires StoreInv(w.store) && Lists(deps, w.store)
    requires rec.id in w.store && w.store[rec.id] == rec && Usable(rec) && !Blank(rec.project)
    requires Blank(rec.teamConn) && !rec.externalDB && Unstated(s)
    requires rec.provider.Ssh? || PickManagedBox(deps, rec.project, rec.identifier) == Some(rec)
    ensures AdoptRecord(s, rec, {}).Some?
    ensures var applied := Apply(AdoptRecord(s, rec, {}).value, configured, projectName, conns, deps, newID, newConn);
      applied.Some? && applied.value.st.host == rec.host
  {
    assert RecordOK(rec.id, w.store[rec.id]);
    AdoptedSettings(s, rec);
    BlankTrimsToNothing(rec.teamConn);
    var a := AdoptRecord(s, rec, {}).value;
    LandsHome(w.store, rec, ApplyConfig(a, rec.identifier, ApplyEngine(a, rec.identifier, conns, deps)), deps, newID, newConn);
  }

  /** The cases in which the apply has to land there: a host the user named, or the box the picker prefers. */
  lemma PlanIsWhatApplies(w: World, rec: Deployment, planDeps: seq<Deployment>, deps: seq<Deployment>, s: Settings,
                          configured: string, projectName: string, conns: map<string, Connection>,
                          newID: string, newConn: string, newAgent: string)
    requires StoreInv(w.store) && Lists(planDeps, w.store) && Lists(deps, w.store)
    requires rec.id in w.store && w.store[rec.id] == rec && Usable(rec) && TrimSpace(rec.id) == rec.id
    requires TrimSpace(rec.host) == rec.host && !Blank(rec.project)
    requires Blank(rec.teamConn) && !rec.externalDB && Unstated(s) && FreshConn(w, newConn)
    requires rec.provider.Ssh? || PickManagedBox(deps, rec.project, rec.identifier) == Some(rec)
    ensures AdoptRecord(s, rec, {}).Some?
    ensures var applied := Apply(AdoptRecord(s, rec, {}).value, configured, projectName, conns, deps, newID, newConn);
      applied.Some? && At(applied.value.Push(newAgent)) == RunPlan(PlanByID(rec, s.dbSchema, planDeps), conns)
      && applied.value.Gate() == Some(applied.value.Push(newAgent))
  {
    PlanMatchesApplyOnABox(w, rec, planDeps, deps, s, configured, projectName, conns, newID, newConn, newAgent);
    AppliesAtHome(w, rec, deps, s, configured, projectName, conns, newID, newConn);
  }

  // ---- team connections ----

  /** The plan starts from the recorded engine; only a Postgres record of a now-MySQL connection is misread. */
  predicate EngineMisread(rec: Deployment, c: Connection, dbSchema: string) {
    rec.engine.Postgres? && c.engine.MySQL? && FirstNonEmpty(dbSchema, "public") != SanitizeDBName(rec.identifier)
  }

  lemma TeamPlan(rec: Deployment, store: Store, planDeps: seq<Deployment>, dbSchema: string, conns: map<string, Connection>)
    requires StoreInv(store) && Lists(planDeps, store) && rec.id in store && store[rec.id] == rec && TrimSpace(rec.id) == rec.id
    requires TrimSpace(rec.teamConn) != "" && TrimSpace(rec.teamConn) in conns && ConnectionOK(conns[TrimSpace(rec.teamConn)])
    ensures var tc := TrimSpace(rec.teamConn); var c := conns[tc];
      var engine := if rec.engine == NoEngine then MySQL else rec.engine;
      RunPlan(PlanByID(rec, dbSchema, planDeps), conns) ==
        At(Remote(tc, c.store, DeploySchemaName(c.engine, DeploySchemaName(engine, SanitizeDBName(rec.identifier), dbSchema), dbSchema), c.engine))
  {
    assert RecordOK(rec.id, store[rec.id]);
    FoundByID(planDeps, store, rec.id);
  }

  lemma TeamApply(rec: Deployment, deps: seq<Deployment>, s: Settings, a: Settings, configured: string, projectName: string,
                  conns: map<string, Connection>, newID: string, newConn: string, newAgent: string)
    requires a.identifier == rec.identifier != "" && a.connection == rec.teamConn && a.dbSchema == s.dbSchema
    requires var tc := TrimSpace(rec.teamConn); tc != "" && tc in conns && ConnectionOK(conns[tc])
    ensures var applied := Apply(a, configured, projectName, conns, deps, newID, newConn);
      var tc := TrimSpace(rec.teamConn); var c := conns[tc];
      applied.Some? ==>
        && applied.value.Push(newAgent) ==
             Remote(tc, c.store, DeploySchemaName(c.engine, SanitizeDBName(rec.identifier), s.dbSchema), c.engine)
        && (applied.value.Gate().Some? ==> applied.value.Gate().value == applied.value.Push(newAgent))
  {
  }

  lemma AdoptedTeamSettings(s: Settings, rec: Deployment)
    requires Unstated(s) && RecordOK(rec.id, rec) && !Blank(rec.teamConn)
    ensures var a := AdoptRecord(s, rec, {});
      && a.Some? && a.value.identifier == rec.identifier && a.value.connection == rec.teamConn && a.value.dbSchema == s.dbSchema
  {
  }

  /**
   A record with a team connection, selected with --deployment: the same connection on both sides, wherever the
   box is, unless the connection changed engine since the record was written.
   */
  lemma PlanMatchesApplyOnATeamConnection(w: World, rec: Deployment, planDeps: seq<Deployment>, deps: seq<Deployment>,
                                          s: Settings, configured: string, projectName: string,
                                          conns: map<string, Connection>, newID: string, newConn: string, newAgent: string)
    requires StoreInv(w.store) && Lists(planDeps, w.store)
    requires rec.id in w.store && w.store[rec.id] == rec && TrimSpace(rec.id) == rec.id
    requires !Blank(rec.project) && !Blank(rec.teamConn) && Unstated(s)
    requires TrimSpace(rec.teamConn) in conns && ConnectionOK(conns[TrimSpace(rec.teamConn)])
    ensures AdoptRecord(s, rec, {}).Some?
    ensures var applied := Apply(AdoptRecord(s, rec, {}).value, configured, projectName, conns, deps, newID, newConn);
      var plan := RunPlan(PlanByID(rec, s.dbSchema, planDeps), conns);
      && plan.At? && plan.target.Remote?
      && (applied.Some? ==>
            && (applied.value.Push(newAgent) == plan.target <==> !EngineMisread(rec, conns[TrimSpace(rec.teamConn)], s.dbSchema))
            && (applied.value.Gate().Some? ==> applied.value.Gate().value == applied.value.Push(newAgent)))
  {
    assert RecordOK(rec.id, w.store[rec.id]);
    BlankTrimsToNothing(rec.teamConn);
    TeamPlan(rec, w.store, planDeps, s.dbSchema, conns);
    AdoptedTeamSettings(s, rec);
    TeamApply(rec, deps, s, AdoptRecord(s, rec, {}).value, configured, projectName, conns, newID, newConn, newAgent);
  }

  // ---- selecting by host and identifier ----

  /** `--host` and `--identifier` only, on both sides. */
  predicate StatedByHost(s: Settings, rec: Deployment) {
    && s.project == rec.project && s.identifier == rec.identifier && s.provider.Ssh? && s.host == rec.host
    && s.db.MySQL? && !s.dbStated && s.dsn == "" && s.connection == "" && !s.newVM
  }

  function PlanByHost(rec: Deployment, dbSchema: string, deps: seq<Deployment>): PlanInput {
    PlanInput("", rec.host, rec.identifier, "", "", "", "", dbSchema, MySQL, rec.project, deps)
  }

  /** The box that was named is found on both sides; the run continues its record. */
  lemma HostSelectsTheRecord(w: World, rec: Deployment, deps: seq<Deployment>, s: Settings, configured: string,
                             projectName: string, conns: map<string, Connection>, newID: string, newConn: string)
    requires StoreInv(w.store) && Lists(deps, w.store) && rec.id in w.store && w.store[rec.id] == rec && Usable(rec)
    requires TrimSpace(rec.host) == rec.host && StatedByHost(s, rec) && FreshConn(w, newConn)
    ensures var applied := Apply(s, configured, projectName, conns, deps, newID, newConn);
      && applied.Some? && applied.value.teamConn == ""
      && applied.value.st.prior == Some(rec) && applied.value.st.boxAgent == rec.agent && applied.value.st.conn == rec.conn
      && applied.value.engine == (if rec.engine == NoEngine then MySQL else rec.engine)
      && applied.value.schema == DeploySchemaName(applied.value.engine, SanitizeDBName(rec.identifier), s.dbSchema)
  {
    assert RecordOK(rec.id, w.store[rec.id]);
    PriorIsTheUsable(deps, w.store, rec.host, rec.identifier);
    assert IsPrior(w.store[rec.id], rec.host, rec.identifier);
    SameHostSameRecord(w.store, rec, deps, ApplyConfig(s, rec.identifier, ApplyEngine(s, rec.identifier, conns, deps)), newID, newConn);
  }

  /**
   Selecting the same box with --host and --identifier, the plan follows the recorded team connection and the
   apply does not adopt it: they agree exactly on records without one.
   */
  lemma HostPlanMatchesApply(w: World, rec: Deployment, planDeps: seq<Deployment>, deps: seq<Deployment>, s: Settings,
                             configured: string, projectName: string, conns: map<string, Connection>,
                             newID: string, newConn: string, newAgent: string)
    requires StoreInv(w.store) && Lists(planDeps, w.store) && Lists(deps, w.store)
    requires rec.id in w.store && w.store[rec.id] == rec && Usable(rec)
    requires TrimSpace(rec.host) == rec.host && StatedByHost(s, rec) && FreshConn(w, newConn)
    ensures var applied := Apply(s, configured, projectName, conns, deps, newID, newConn);
      applied.Some? &&
      (RunPlan(PlanByHost(rec, s.dbSchema, planDeps), conns) == At(applied.value.Push(newAgent)) <==> Blank(rec.teamConn))
  {
    HostSelectsTheRecord(w, rec, deps, s, configured, projectName, conns, newID, newConn);
    assert RecordOK(rec.id, w.store[rec.id]);
    BlankTrimsToNothing(rec.teamConn);
    BlankTrimsToNothing(rec.host);
    PriorIsTheUsable(planDeps, w.store, rec.host, rec.identifier);
    assert IsPrior(w.store[rec.id], rec.host, rec.identifier);
  }
}
