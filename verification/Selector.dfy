/** `deploy --deployment`: the settings take from the record what the user did not state (app/deploy_targeting.go). */
module Selector {
  import opened Wrappers
  import opened Records
  import opened Text
  import opened PlanApply

  predicate Recorded(rec: Deployment, flag: Flag) {
    match flag
    case ProjectFlag => !Blank(rec.project)
    case IdentifierFlag => !Blank(rec.identifier)
    case ProviderFlag => !rec.provider.Unset?
    case HostFlag => !Blank(rec.host)
    case DBFlag => !rec.engine.NoEngine?
    case ConnectionFlag => !Blank(rec.teamConn)
  }

  function Taken(rec: Deployment, stated: set<Flag>, flag: Flag): seq<Flag> {
    if flag !in stated && Recorded(rec, flag) then [flag] else []
  }

  function TakenTarget(rec: Deployment, stated: set<Flag>): seq<Flag> {
    Taken(rec, stated, ProjectFlag) + Taken(rec, stated, IdentifierFlag) + Taken(rec, stated, ProviderFlag) +
    Taken(rec, stated, HostFlag)
  }

  function TakenDatabase(rec: Deployment, stated: set<Flag>): seq<Flag> {
    Taken(rec, stated, DBFlag) + Taken(rec, stated, ConnectionFlag)
  }

  /** What the run reports as adopted: the recorded fields the user did not state, in the order they are taken. */
  function Adopted(rec: Deployment, stated: set<Flag>): seq<Flag> {
    TakenTarget(rec, stated) + TakenDatabase(rec, stated)
  }

  class DeploySettings {
    var project: string
    var identifier: string
    var provider: Provider
    var host: string
    var db: Engine
    var dbStated: bool
    var dsn: string
    var connection: string
    var dbSchema: string
    var newVM: bool

    constructor (s: Settings)
      ensures Value() == s
    {
      project, identifier, provider, host, db := s.project, s.identifier, s.provider, s.host, s.db;
      dbStated, dsn, connection, dbSchema, newVM := s.dbStated, s.dsn, s.connection, s.dbSchema, s.newVM;
    }

    function Value(): Settings
      reads this
    {
      Settings(project, identifier, provider, host, db, dbStated, dsn, connection, dbSchema, newVM)
    }

    /** Field by field, in the source's order; the refusal comes last, on the settings as adopted. */
    method ApplyDeploymentSelector(rec: Deployment, stated: set<Flag>) returns (ok: bool, adopted: seq<Flag>)
      modifies this
      ensures var result := AdoptRecord(old(Value()), rec, stated);
        ok == result.Some? && (ok ==> Value() == result.value)
      ensures adopted == if ok then Adopted(rec, stated) else []
    {
      adopted := AdoptTarget(rec, stated);
      var more := AdoptDatabase(rec, stated);
      if rec.externalDB && Blank(dsn) && Blank(connection) {
        return false, [];
      }
      ok, adopted := true, adopted + more;
    }

    method AdoptTarget(rec: Deployment, stated: set<Flag>) returns (adopted: seq<Flag>)
      modifies this`project, this`identifier, this`provider, this`host
      ensures project == if ProjectFlag in stated || Blank(rec.project) then old(project) else rec.project
      ensures identifier == if IdentifierFlag in stated || Blank(rec.identifier) then old(identifier) else rec.identifier
      ensures provider == if ProviderFlag in stated || rec.provider.Unset? then old(provider) else rec.provider
      ensures host == if HostFlag in stated || Blank(rec.host) then old(host) else rec.host
      ensures adopted == TakenTarget(rec, stated)
    {
      adopted := [];
      if ProjectFlag !in stated && !Blank(rec.project) {
        project, adopted := rec.project, adopted + [ProjectFlag];
      }
      if IdentifierFlag !in stated && !Blank(rec.identifier) {
        identifier, adopted := rec.identifier, adopted + [IdentifierFlag];
      }
      if ProviderFlag !in stated && !rec.provider.Unset? {
        provider, adopted := rec.provider, adopted + [ProviderFlag];
      }
      if HostFlag !in stated && !Blank(rec.host) {
        host, adopted := rec.host, adopted + [HostFlag];
      }
    }

    method AdoptDatabase(rec: Deployment, stated: set<Flag>) returns (adopted: seq<Flag>)
      modifies this`db, this`connection
      ensures db == if DBFlag in stated || rec.engine.NoEngine? then old(db) else rec.engine
      ensures connection == if ConnectionFlag in stated || Blank(rec.teamConn) then old(connection) else rec.teamConn
      ensures adopted == TakenDatabase(rec, stated)
    {
      adopted := [];
      if DBFlag !in stated && !rec.engine.NoEngine? {
        db, adopted := rec.engine, adopted + [DBFlag];
      }
      if ConnectionFlag !in stated && !Blank(rec.teamConn) {
        connection, adopted := rec.teamConn, adopted + [ConnectionFlag];
      }
    }
  }
}
