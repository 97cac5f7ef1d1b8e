/**
 Which database a plan and a deploy reach, for every combination of flags and every listing, on the fields of the target
 (app/command_deploy_plan.go, app/deploy_targeting.go, app/deploy_pipeline.go).
 */
module PlanTargets {
  import opened Wrappers
  import opened Records
  import opened Text
  import opened Targeting
  import opened Lifecycle
  import opened LifecycleInvariants
  import opened BoxDecision
  import opened PlanApply

  // ---- names ----

  /** In MySQL the database is the schema; in Postgres it is the one asked for, or public. */
  function SchemaIn(engine: Engine, database: string, asked: string): string {
    if engine != Postgres then database else if asked != "" then asked else "public"
  }

  function OrMySQL(engine: Engine): Engine {
    if engine == NoEngine then MySQL else engine
  }

  /** Text as a database name: ASCII letters lowered, letters, digits and underscores kept, all else an underscore. */
  lemma DatabaseNames(id: string)
    ensures id == "" ==> SanitizeDBName(id) == "app"
    ensures id != "" ==> |SanitizeDBName(id)| == |id|
    ensures forall i :: 0 <= i < |id| ==>
      var c, r := id[i], SanitizeDBName(id)[i];
      if 'a' <= c <= 'z' || '0' <= c <= '9' || c == '_' then r == c
      else if 'A' <= c <= 'Z' then r as int == c as int + 32
      else r == if c == '\U{0130}' then 'i' else if c == '\U{212A}' then 'k' else '_'
    ensures SanitizeDBName(SanitizeDBName(id)) == SanitizeDBName(id)
  {
    var once := SanitizeDBName(id);
    if id != "" {
      assert forall i :: 0 <= i < |once| ==> SanitizeRune(once[i]) == once[i];
    } else {
      assert SanitizeRunes("app") == "app";
    }
  }

  // ---- the plan ----

  /** Neither --local-agent nor --local-agent-connection. */
  predicate NoAgentNamed(i: PlanInput) {
    Blank(i.localAgent) && Blank(i.localConn)
  }

  /** The agent and the connection named are the target, and naming only one of them is the error. */
  lemma NamedAgentIsPlanned(i: PlanInput, conns: map<string, Connection>)
    requires !NoAgentNamed(i)
    ensures var plan := RunPlan(i, conns);
      && (plan.PlanError? <==> Blank(i.localAgent) || Blank(i.localConn))
      && (!plan.PlanError? ==>
            && plan.At? && plan.target.Local?
            && plan.target.agent == TrimSpace(i.localAgent) && plan.target.conn == TrimSpace(i.localConn)
            && plan.target.engine == OrMySQL(i.db)
            && plan.target.schema == SchemaIn(OrMySQL(i.db), SanitizeDBName(i.identifier), i.dbSchema))
  {
    BlankTrimsToNothing(i.localAgent);
    BlankTrimsToNothing(i.localConn);
  }

  /** A team connection as the plan looks it up. */
  predicate ReachesTeam(plan: PlanResult, tc: string, recorded: Engine, database: string, asked: string, conns: map<string, Connection>) {
    if tc !in conns then plan.PlanError?
    else
      var c := conns[tc];
      var engine := if c.engine != NoEngine then c.engine else recorded;
      && plan.At? && plan.target.Remote? && plan.target.teamConn == tc
      && plan.target.store == c.store && plan.target.engine == engine
      && plan.target.schema == SchemaIn(engine, SchemaIn(recorded, database, asked), asked)
  }

  /** What is planned for a record: its team connection, else the database behind its own agent, else an error. */
  predicate ReachesRecord(plan: PlanResult, rec: Deployment, i: PlanInput, conns: map<string, Connection>) {
    var engine := OrMySQL(rec.engine);
    if i.project != "" && rec.project != "" && rec.project != i.project then plan.PlanError?
    else if !Blank(rec.teamConn) then
      ReachesTeam(plan, TrimSpace(rec.teamConn), engine, SanitizeDBName(rec.identifier), i.dbSchema, conns)
    else if rec.agent == "" || rec.conn == "" then plan.PlanError?
    else
      && plan.At? && plan.target.Local?
      && plan.target.agent == rec.agent && plan.target.conn == rec.conn && plan.target.engine == engine
      && plan.target.schema == SchemaIn(engine, SanitizeDBName(rec.identifier), i.dbSchema)
  }

  lemma RecordIsReached(i: PlanInput, rec: Deployment, conns: map<string, Connection>)
    requires PlanFromState(i) == PlanFromDeployment(rec, i.project, i.dbSchema)
    ensures ReachesRecord(RunPlan(i, conns), rec, i, conns)
  {
    BlankTrimsToNothing(rec.teamConn);
  }

  /** --deployment plans the record of that id, and only an unknown id has none. */
  lemma NamedRecordIsPlanned(i: PlanInput, conns: map<string, Connection>)
    requires NoAgentNamed(i) && !Blank(i.deploymentID)
    ensures (forall d :: d in i.deps ==> d.id != TrimSpace(i.deploymentID)) ==> RunPlan(i, conns).PlanError?
    ensures forall d | d in i.deps && d.id == TrimSpace(i.deploymentID) && OnlyOne(i.deps, d) :: ReachesRecord(RunPlan(i, conns), d, i, conns)
  {
    BlankTrimsToNothing(i.localAgent);
    BlankTrimsToNothing(i.localConn);
    BlankTrimsToNothing(i.deploymentID);
    var found := FindByID(i.deps, TrimSpace(i.deploymentID));
    if found.Some? { RecordIsReached(i, found.value, conns); }
  }

  ghost predicate OnlyOne(deps: seq<Deployment>, d: Deployment) {
    forall e :: e in deps && e.id == d.id ==> e == d
  }

  /** --connection plans that connection, under the engine it has now. */
  lemma NamedConnectionIsPlanned(i: PlanInput, conns: map<string, Connection>)
    requires NoAgentNamed(i) && Blank(i.deploymentID) && !Blank(i.teamConn)
    ensures ReachesTeam(RunPlan(i, conns), TrimSpace(i.teamConn), OrMySQL(i.db), SanitizeDBName(i.identifier), i.dbSchema, conns)
  {
    BlankTrimsToNothing(i.localAgent);
    BlankTrimsToNothing(i.localConn);
    BlankTrimsToNothing(i.deploymentID);
    BlankTrimsToNothing(i.teamConn);
  }

  /** The first of the newest records of the target that a run could continue. */
  ghost predicate NewestContinuable(deps: seq<Deployment>, host: string, identifier: string, r: Option<Deployment>) {
    match r
    case None => forall i :: 0 <= i < |deps| ==> !Continuable(deps[i], host, identifier)
    case Some(d) =>
      exists k: nat ::
        && k < |deps| && deps[k] == d && Continuable(deps[k], host, identifier)
        && forall i | 0 <= i < |deps| && Continuable(deps[i], host, identifier) ::
             deps[i].createdAt <= d.createdAt && (i < k ==> deps[i].createdAt < d.createdAt)
  }

  lemma NewestIsPrior(deps: seq<Deployment>, host: string, identifier: string, r: Option<Deployment>)
    requires NewestContinuable(deps, host, identifier, r)
    ensures PickPrior(deps, host, identifier) == r
  {
    var test := PriorTest(host, identifier);
    assert forall i :: 0 <= i < |deps| ==> (test(deps[i]) <==> Continuable(deps[i], host, identifier));
    if r.Some? {
      var k: nat :|
        && k < |deps| && deps[k] == r.value && Continuable(deps[k], host, identifier)
        && forall i | 0 <= i < |deps| && Continuable(deps[i], host, identifier) ::
             deps[i].createdAt <= r.value.createdAt && (i < k ==> deps[i].createdAt < r.value.createdAt);
      assert IsLatestAt(deps, test, k);
    }
    LatestIsUnique(deps, test, r, PickPrior(deps, host, identifier));
  }

  /** Nothing is named but, perhaps, a host and a raw DSN. */
  predicate OnlyHost(i: PlanInput) {
    NoAgentNamed(i) && Blank(i.deploymentID) && Blank(i.teamConn)
  }

  /** With a host, the record a deploy would continue is planned; without one, a DSN cannot be and nothing need be. */
  lemma HostIsPlanned(i: PlanInput, conns: map<string, Connection>, prior: Option<Deployment>)
    requires OnlyHost(i) && NewestContinuable(i.deps, TrimSpace(i.host), i.identifier, prior)
    ensures var plan := RunPlan(i, conns);
      if !Blank(i.host) && prior.Some? then ReachesRecord(plan, prior.value, i, conns)
      else if !Blank(i.dsn) then plan.PlanError? else plan.NoTarget?
  {
    BlankTrimsToNothing(i.localAgent);
    BlankTrimsToNothing(i.localConn);
    BlankTrimsToNothing(i.deploymentID);
    BlankTrimsToNothing(i.teamConn);
    BlankTrimsToNothing(i.host);
    BlankTrimsToNothing(i.dsn);
    NewestIsPrior(i.deps, TrimSpace(i.host), i.identifier, prior);
    if !Blank(i.host) && prior.Some? { RecordIsReached(i, prior.value, conns); }
  }

  /** A plan has no target exactly when nothing is named and no record of the host and identifier can be continued. */
  lemma NoTargetExactly(i: PlanInput, conns: map<string, Connection>)
    ensures RunPlan(i, conns).NoTarget? <==>
      && OnlyHost(i) && Blank(i.dsn)
      && (Blank(i.host) || forall d :: d in i.deps ==> !Continuable(d, TrimSpace(i.host), i.identifier))
  {
    if !NoAgentNamed(i) {
      NamedAgentIsPlanned(i, conns);
    } else if !Blank(i.deploymentID) {
      NamedIsNeverNoTarget(i, conns);
    } else if !Blank(i.teamConn) {
      NamedConnectionIsPlanned(i, conns);
    } else {
      var prior := PickPrior(i.deps, TrimSpace(i.host), i.identifier);
      PriorIsNewest(i.deps, TrimSpace(i.host), i.identifier);
      HostIsPlanned(i, conns, prior);
    }
  }

  lemma NamedIsNeverNoTarget(i: PlanInput, conns: map<string, Connection>)
    requires NoAgentNamed(i) && !Blank(i.deploymentID)
    ensures !RunPlan(i, conns).NoTarget?
  {
    BlankTrimsToNothing(i.localAgent);
    BlankTrimsToNothing(i.localConn);
    BlankTrimsToNothing(i.deploymentID);
  }

  lemma PriorIsNewest(deps: seq<Deployment>, host: string, identifier: string)
    ensures NewestContinuable(deps, host, identifier, PickPrior(deps, host, identifier))
  {
    var test := PriorTest(host, identifier);
    var r := PickPrior(deps, host, identifier);
    assert forall d :: test(d) <==> Continuable(d, host, identifier);
    if r.Some? {
      var k: nat :| IsLatestAt(deps, test, k) && deps[k] == r.value;
    } else {
      forall i | 0 <= i < |deps| ensures !Continuable(deps[i], host, identifier) { assert !test(deps[i]); }
    }
  }

  // ---- the deploy ----

  /** The identifier a run goes by: the flag's, the saved configuration's, or the project's name as a database name. */
  predicate GoesBy(identifier: string, s: Settings, configured: string, projectName: string) {
    identifier == if s.identifier != "" then s.identifier else if configured != "" then configured else SanitizeDBName(projectName)
  }

  /** The engine of a self-hosted run: the one stated, else the one recorded for the host it was given. */
  predicate RunsOn(engine: Engine, s: Settings, prior: Option<Deployment>) {
    engine ==
      if !s.dbStated && !Blank(s.host) && prior.Some? && prior.value.engine != NoEngine then prior.value.engine
      else if s.db == Postgres then Postgres else MySQL
  }

  /** A run goes by its settings, and records the engine it pushes to and the team connection it was given. */
  lemma RunHasSettings(s: Settings, configured: string, projectName: string, conns: map<string, Connection>, deps: seq<Deployment>,
                       newID: string, newConn: string, newAgent: string, identifier: string)
    requires GoesBy(identifier, s, configured, projectName)
    ensures var applied := Apply(s, configured, projectName, conns, deps, newID, newConn);
      applied.Some? ==>
        var cfg := applied.value.st.cfg;
        && cfg.identifier == identifier && cfg.project == s.project && cfg.provider == s.provider
        && cfg.hostFlag == s.host && cfg.newVM == s.newVM && cfg.engine == applied.value.Push(newAgent).engine
        && (cfg.externalDB <==> !Blank(s.connection)) && cfg.teamConn == TrimSpace(s.connection)
  {
    BlankTrimsToNothing(s.connection);
  }

  /** Without a team connection a deploy pushes through the agent of its box to its own connection. */
  lemma SelfHostedPush(s: Settings, configured: string, projectName: string, conns: map<string, Connection>, deps: seq<Deployment>,
                       newID: string, newConn: string, newAgent: string, identifier: string, prior: Option<Deployment>)
    requires Blank(s.connection) && GoesBy(identifier, s, configured, projectName)
    requires NewestContinuable(deps, TrimSpace(s.host), identifier, prior)
    ensures var applied := Apply(s, configured, projectName, conns, deps, newID, newConn);
      applied.Some? ==>
        var st, push := applied.value.st, applied.value.Push(newAgent);
        && push.Local? && push.conn == st.conn && push.agent == (if st.boxAgent != "" then st.boxAgent else newAgent)
        && RunsOn(push.engine, s, prior)
        && push.schema == SchemaIn(push.engine, SanitizeDBName(identifier), s.dbSchema)
  {
    BlankTrimsToNothing(s.connection);
    EngineOfTheRun(s, conns, deps, identifier, prior);
    PartsOfTheRun(s, configured, projectName, conns, deps, newID, newConn, identifier);
  }

  lemma PartsOfTheRun(s: Settings, configured: string, projectName: string, conns: map<string, Connection>, deps: seq<Deployment>,
                      newID: string, newConn: string, identifier: string)
    requires TrimSpace(s.connection) == "" && GoesBy(identifier, s, configured, projectName)
    ensures var applied := Apply(s, configured, projectName, conns, deps, newID, newConn);
      applied.Some? ==>
        var engine := ApplyEngine(s, identifier, conns, deps);
        && applied.value.engine == engine && applied.value.teamConn == ""
        && applied.value.schema == SchemaIn(engine, SanitizeDBName(identifier), s.dbSchema)
  {
  }

  lemma EngineOfTheRun(s: Settings, conns: map<string, Connection>, deps: seq<Deployment>, identifier: string, prior: Option<Deployment>)
    requires Blank(s.connection) && NewestContinuable(deps, TrimSpace(s.host), identifier, prior)
    ensures RunsOn(ApplyEngine(s, identifier, conns, deps), s, prior)
  {
    BlankTrimsToNothing(s.connection);
    BlankTrimsToNothing(s.host);
    NewestIsPrior(deps, TrimSpace(s.host), identifier, prior);
  }

  /** With one it pushes to that connection, whatever box it runs on. */
  lemma ConnectedPush(s: Settings, configured: string, projectName: string, conns: map<string, Connection>, deps: seq<Deployment>,
                      newID: string, newConn: string, newAgent: string, identifier: string)
    requires !Blank(s.connection) && GoesBy(identifier, s, configured, projectName)
    ensures var applied := Apply(s, configured, projectName, conns, deps, newID, newConn);
      var tc := TrimSpace(s.connection);
      && (tc !in conns ==> applied.None?)
      && (applied.Some? ==>
            var push, c := applied.value.Push(newAgent), conns[tc];
            && push.Remote? && push.teamConn == tc && push.store == c.store && push.engine == c.engine
            && push.schema == SchemaIn(c.engine, if c.name != "" then c.name else SanitizeDBName(identifier), s.dbSchema))
  {
    BlankTrimsToNothing(s.connection);
  }

  /**
   --connection on both sides: no plan and no deploy without it; with it both reach the same database, unless --db says
   Postgres of a MySQL connection, whose database the plan then names by the Postgres schema.
   */
  lemma PlannedConnectionIsApplied(i: PlanInput, s: Settings, configured: string, projectName: string,
                                   conns: map<string, Connection>, deps: seq<Deployment>,
                                   newID: string, newConn: string, newAgent: string)
    requires NoAgentNamed(i) && Blank(i.deploymentID) && !Blank(i.teamConn)
    requires i.teamConn == s.connection && i.db == s.db && i.dbSchema == s.dbSchema && GoesBy(i.identifier, s, configured, projectName)
    requires forall tc :: tc in conns ==> ConnectionOK(conns[tc])
    ensures var plan, applied := RunPlan(i, conns), Apply(s, configured, projectName, conns, deps, newID, newConn);
      var tc := TrimSpace(i.teamConn);
      && (plan.PlanError? <==> tc !in conns) && (tc !in conns ==> applied.None?)
      && (applied.Some? ==>
            (plan == At(applied.value.Push(newAgent)) <==>
              !(s.db.Postgres? && conns[tc].engine.MySQL? &&
                (if s.dbSchema != "" then s.dbSchema else "public") != SanitizeDBName(i.identifier))))
  {
    NamedConnectionIsPlanned(i, conns);
    ConnectedPush(s, configured, projectName, conns, deps, newID, newConn, newAgent, i.identifier);
  }

  /** Before a re-deploy the pre-flight gate checks the very database the run pushes to; before a first deploy, none. */
  lemma GateChecksThePush(store: Store, s: Settings, configured: string, projectName: string, conns: map<string, Connection>,
                          deps: seq<Deployment>, newID: string, newConn: string, newAgent: string)
    requires StoreInv(store) && Lists(deps, store)
    ensures var applied := Apply(s, configured, projectName, conns, deps, newID, newConn);
      applied.Some? ==>
        applied.value.Gate() == if applied.value.st.prior.Some? then Some(applied.value.Push(newAgent)) else None
  {
    var applied := Apply(s, configured, projectName, conns, deps, newID, newConn);
    if applied.Some? && applied.value.st.prior.Some? {
      var st := applied.value.st;
      PriorIsTheUsable(deps, store, st.host, st.cfg.identifier);
      BoxAgentIsTheAgent(deps, store, st.host);
      assert RecordOK(st.prior.value.id, store[st.prior.value.id]);
    }
  }

  // ---- --deployment on a deploy ----

  /** A flag that was stated wins; what was not is taken from the record, if it is recorded there. */
  lemma StatedFlagsWin(s: Settings, rec: Deployment, stated: set<Flag>)
    ensures var again := AdoptRecord(s, rec, stated);
      && (again.None? <==>
            rec.externalDB && Blank(s.dsn) && (Blank(rec.teamConn) || ConnectionFlag in stated) && Blank(s.connection))
      && (again.Some? ==>
            var t := again.value;
            && t.project == (if ProjectFlag !in stated && !Blank(rec.project) then rec.project else s.project)
            && t.identifier == (if IdentifierFlag !in stated && !Blank(rec.identifier) then rec.identifier else s.identifier)
            && t.provider == (if ProviderFlag !in stated && rec.provider != Unset then rec.provider else s.provider)
            && t.host == (if HostFlag !in stated && !Blank(rec.host) then rec.host else s.host)
            && t.db == (if DBFlag !in stated && rec.engine != NoEngine then rec.engine else s.db)
            && t.connection == (if ConnectionFlag !in stated && !Blank(rec.teamConn) then rec.teamConn else s.connection)
            && t.dsn == s.dsn && t.dbStated == s.dbStated && t.dbSchema == s.dbSchema && t.newVM == s.newVM)
  {
  }
}
