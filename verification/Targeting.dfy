/** Which box, which record: the pure half of a deploy (app/deploy_targeting.go, app/command_deploy.go). */
module Targeting {
  import opened Wrappers
  import opened Records
  import opened Text

  // ---- picking records ----

  /** "Got far enough to continue from". */
  predicate Usable(d: Deployment) {
    d.provider.K8s? || d.agent != "" || StepRank(d.step) >= StepRank(AgentPaired)
  }

  predicate IsPrior(d: Deployment, host: string, identifier: string) {
    d.host == host && d.identifier == identifier && Usable(d)
  }

  predicate IsBoxAgent(d: Deployment, host: string) {
    d.host == host && d.agent != ""
  }

  predicate IsManagedBox(d: Deployment, project: string, identifier: string) {
    && d.identifier == identifier
    && (d.project == "" || project == "" || d.project == project)
    && d.provider.CreatesInfrastructure()
  }

  function PriorTest(host: string, identifier: string): Deployment -> bool {
    (d: Deployment) => IsPrior(d, host, identifier)
  }

  function BoxAgentTest(host: string): Deployment -> bool {
    (d: Deployment) => IsBoxAgent(d, host)
  }

  function ManagedBoxTest(project: string, identifier: string): Deployment -> bool {
    (d: Deployment) => IsManagedBox(d, project, identifier)
  }

  /** `k` is the first of the newest records of `deps` that pass the test. */
  ghost predicate IsLatestAt(deps: seq<Deployment>, test: Deployment -> bool, k: nat) {
    && k < |deps| && test(deps[k])
    && forall i :: 0 <= i < |deps| && test(deps[i]) ==>
         deps[i].createdAt <= deps[k].createdAt && (i < k ==> deps[i].createdAt < deps[k].createdAt)
  }

  /** `r` is the first of the newest records of `deps` that pass the test, None when none passes. */
  ghost predicate IsLatest(deps: seq<Deployment>, test: Deployment -> bool, r: Option<Deployment>) {
    match r
    case None => forall i :: 0 <= i < |deps| ==> !test(deps[i])
    case Some(d) => exists k: nat :: IsLatestAt(deps, test, k) && deps[k] == d
  }

  function Latest(deps: seq<Deployment>, test: Deployment -> bool): (r: Option<Deployment>)
    ensures IsLatest(deps, test, r)
  {
    if deps == [] then None else
      var n := |deps| - 1;
      var best := Latest(deps[..n], test);
      var r := if test(deps[n]) && (best.None? || deps[n].createdAt > best.value.createdAt)
               then Some(deps[n]) else best;
      LatestExtends(deps, test, best, r);
      r
  }

  lemma LatestExtends(deps: seq<Deployment>, test: Deployment -> bool, best: Option<Deployment>, r: Option<Deployment>)
    requires deps != [] && IsLatest(deps[..|deps| - 1], test, best)
    requires r == if test(deps[|deps| - 1]) && (best.None? || deps[|deps| - 1].createdAt > best.value.createdAt)
                  then Some(deps[|deps| - 1]) else best
    ensures IsLatest(deps, test, r)
  {
    var n := |deps| - 1;
    var front := deps[..n];
    assert forall i :: 0 <= i < n ==> front[i] == deps[i];
    if best.Some? {
      var k: nat :| IsLatestAt(front, test, k) && front[k] == best.value;
      assert IsLatestAt(deps, test, if r == best then k else n) by {
        forall i | 0 <= i < |deps| && test(deps[i])
          ensures deps[i].createdAt <= r.value.createdAt
        {
          if i < n { assert test(front[i]); }
        }
        assert forall i :: 0 <= i < n && test(deps[i]) ==> test(front[i]);
      }
    } else {
      forall i | 0 <= i < n ensures !test(deps[i]) { assert !test(front[i]); }
      if r.Some? { assert IsLatestAt(deps, test, n); }
    }
  }

  /** The record picked is fixed by the listing: IsLatest has one answer. */
  lemma LatestIsUnique(deps: seq<Deployment>, test: Deployment -> bool, a: Option<Deployment>, b: Option<Deployment>)
    requires IsLatest(deps, test, a) && IsLatest(deps, test, b)
    ensures a == b
  {
    if a.Some? {
      var i: nat :| IsLatestAt(deps, test, i) && deps[i] == a.value;
      if b.Some? {
        var j: nat :| IsLatestAt(deps, test, j) && deps[j] == b.value;
      }
    }
  }

  function PickPrior(deps: seq<Deployment>, host: string, identifier: string): Option<Deployment> {
    Latest(deps, PriorTest(host, identifier))
  }

  function PickBoxAgent(deps: seq<Deployment>, host: string): string {
    match Latest(deps, BoxAgentTest(host))
    case None => ""
    case Some(d) => d.agent
  }

  function PickManagedBox(deps: seq<Deployment>, project: string, identifier: string): Option<Deployment> {
    Latest(deps, ManagedBoxTest(project, identifier))
  }

  // ---- the loops of the source ----

  method PickPriorDeployment(deps: seq<Deployment>, host: string, identifier: string)
    returns (found: Option<Deployment>)
    ensures found == PickPrior(deps, host, identifier)
  {
    found := None;
    for idx := 0 to |deps|
      invariant found == Latest(deps[..idx], PriorTest(host, identifier))
    {
      var d := deps[idx];
      assert deps[..idx + 1][..idx] == deps[..idx];
      if d.host != host || d.identifier != identifier { continue; }
      if !Usable(d) { continue; }
      if found.None? || d.createdAt > found.value.createdAt {
        found := Some(d);
      }
    }
    assert deps[..|deps|] == deps;
  }

  method PickBoxAgentUUID(deps: seq<Deployment>, host: string) returns (agent: string)
    ensures agent == PickBoxAgent(deps, host)
  {
    var latest := None;
    for idx := 0 to |deps|
      invariant latest == Latest(deps[..idx], BoxAgentTest(host))
    {
      var d := deps[idx];
      assert deps[..idx + 1][..idx] == deps[..idx];
      if d.host == host && d.agent != "" {
        if latest.None? || d.createdAt > latest.value.createdAt {
          latest := Some(d);
        }
      }
    }
    assert deps[..|deps|] == deps;
    agent := if latest.None? then "" else latest.value.agent;
  }

  method PickManagedBoxRecord(deps: seq<Deployment>, project: string, identifier: string)
    returns (found: Option<Deployment>)
    ensures found == PickManagedBox(deps, project, identifier)
  {
    found := None;
    for idx := 0 to |deps|
      invariant found == Latest(deps[..idx], ManagedBoxTest(project, identifier))
    {
      var d := deps[idx];
      assert deps[..idx + 1][..idx] == deps[..idx];
      if d.identifier != identifier { continue; }
      if d.project != "" && project != "" && d.project != project { continue; }
      if !d.provider.CreatesInfrastructure() { continue; }
      if found.None? || d.createdAt > found.value.createdAt {
        found := Some(d);
      }
    }
    assert deps[..|deps|] == deps;
  }

  // ---- the decision and the merges ----

  datatype BoxDecision =
    | UseGivenHost(host: string)
    | Provision(alongside: Option<Deployment>)
    | Reuse(record: Deployment)
    | Refuse(record: Deployment)

  function DecideDeployBox(provider: Provider, hostFlag: string, newVM: bool, identifier: string,
                           project: string, deps: seq<Deployment>): BoxDecision {
    if provider.UsesGivenHost() then UseGivenHost(hostFlag)
    else match PickManagedBox(deps, project, identifier)
      case None => Provision(None)
      case Some(rec) =>
        if rec.provider != provider then Provision(Some(rec))
        else if newVM then Provision(Some(rec))
        else if Blank(rec.host) then Refuse(rec)
        else Reuse(rec)
  }

  function KnownAgent(prior: Option<Deployment>, boxAgent: string, adopted: Option<Deployment>): string {
    FirstNonEmpty(if prior.Some? then prior.value.agent else "",
                  FirstNonEmpty(boxAgent, if adopted.Some? then adopted.value.agent else ""))
  }

  /** An ssh re-deploy over a managed box keeps the handles destroy needs. */
  function CarryForward(rec: Deployment, prior: Deployment, provider: Provider): Deployment {
    if provider.CreatesInfrastructure() || !prior.provider.CreatesInfrastructure() then rec
    else if prior.instanceId == "" && prior.resourceName == "" then rec
    else rec.(provider := prior.provider, instanceId := prior.instanceId, resourceName := prior.resourceName)
  }

  // ---- names ----

  /** strings.ToLower on one rune, as far as it matters here: two non-ASCII runes lower to ASCII. */
  function LowerRune(c: char): char {
    if 'A' <= c <= 'Z' then (c as int - 'A' as int + 'a' as int) as char
    else if c == '\U{0130}' then 'i'
    else if c == '\U{212A}' then 'k'
    else c
  }

  function SanitizeRune(c: char): char {
    var r := LowerRune(c);
    if 'a' <= r <= 'z' || '0' <= r <= '9' || r == '_' then r else '_'
  }

  function SanitizeRunes(id: string): (r: string)
    ensures |r| == |id|
    ensures forall i :: 0 <= i < |id| ==> r[i] == SanitizeRune(id[i])
  {
    if id == "" then "" else [SanitizeRune(id[0])] + SanitizeRunes(id[1..])
  }

  function SanitizeDBName(id: string): string {
    if id == "" then "app" else SanitizeRunes(id)
  }

  function DeploySchemaName(engine: Engine, dbName: string, schemaFlag: string): string {
    if engine.Postgres? then FirstNonEmpty(schemaFlag, "public") else dbName
  }
}
