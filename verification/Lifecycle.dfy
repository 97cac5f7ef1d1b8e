/**
 The deploy pipeline as a state machine over what outlives a run: the record store and the
 provider's VMs (app/deploy_pipeline.go). Every label is one atomic write, or the end of a run.
 */
module Lifecycle {
  import opened Wrappers
  import opened Records
  import opened Text
  import opened Targeting

  datatype VM = VM(name: string, instance: string, host: string, provider: Provider,
                   project: string, identifier: string)

  datatype World = World(store: Store, vms: set<VM>)

  /** What a run resolved before it looks at any record. */
  datatype Config = Config(provider: Provider, hostFlag: string, newVM: bool, identifier: string,
                           project: string, engine: Engine, externalDB: bool, teamConn: string)

  /** How far the current run is; the names are those of the writes already made. */
  datatype Phase = Decided | Reserved | Created | Acknowledged | Boxed | Paired | Finished

  /** The fields of deployState that the record writes read; `host` is the target's host once there is a target. */
  datatype RunState = RunState(
    cfg: Config,
    phase: Phase,
    host: string,
    reuse: bool,
    boxRecord: Option<Deployment>,
    prior: Option<Deployment>,
    boxAgent: string,
    conn: string,
    depID: string,
    resourceName: string,
    instance: string,
    agent: string)

  datatype Sys = Sys(world: World, run: Option<RunState>)

  const EMPTY: Sys := Sys(World(map[], {}), None)

  datatype Label =
    | Start(cfg: Config, deps: seq<Deployment>, newID: string, newConn: string)
    | Reserve(name: string, now: int)
    | Create(instance: string, host: string)
    | Acknowledge(written: bool, hostKnown: bool)
    | RecordBox(now: int)
    | Pair(newAgent: string, written: bool)
    | Finalize
    | Crash
    | Fail(message: string)

  // ---- the steps ----

  /** The run is about to create a VM: stepPendingRecord and the provider's create call are not skipped. */
  predicate Provisions(st: RunState) {
    st.cfg.provider.CreatesInfrastructure() && !st.reuse
  }

  /** stepDecideBox. None is a refused run: nothing was written. */
  function DecideBox(cfg: Config, deps: seq<Deployment>, newID: string, newConn: string): Option<RunState> {
    var decision := DecideDeployBox(cfg.provider, cfg.hostFlag, cfg.newVM, cfg.identifier, cfg.project, deps);
    if decision.Refuse? then None else
      var reuse := decision.Reuse?;
      var host := if reuse then decision.record.host else cfg.hostFlag;
      var boxRecord :=
        match decision
        case Reuse(rec) => Some(rec)
        case Provision(alongside) => alongside
        case _ => None;
      Identify(cfg, deps, newID, newConn, host, reuse, boxRecord)
  }

  /** The second half of stepDecideBox: the host decides the prior record, the agent, the connection and the id. */
  function Identify(cfg: Config, deps: seq<Deployment>, newID: string, newConn: string,
                    host: string, reuse: bool, boxRecord: Option<Deployment>): Option<RunState> {
    var prior := PickPrior(deps, host, cfg.identifier);
    if prior.Some? && prior.value.project != "" && prior.value.project != cfg.project then None else
      var conn := if prior.Some? && prior.value.conn != "" then prior.value.conn else newConn;
      var depID :=
        if prior.Some? then prior.value.id
        else if reuse && boxRecord.Some? then boxRecord.value.id
        else newID;
      Some(RunState(cfg, Decided, host, reuse, boxRecord, prior, PickBoxAgent(deps, host), conn, depID, "", "", ""))
  }

  /** stepProvision on a reused box: the handles come from the record. */
  function ReuseHandles(st: RunState): RunState {
    if st.reuse && st.boxRecord.Some?
    then st.(instance := st.boxRecord.value.instanceId, resourceName := st.boxRecord.value.resourceName)
    else st
  }

  function PendingMutation(rec: Deployment, st: RunState, name: string, now: int): Deployment {
    rec.(provider := st.cfg.provider, resourceName := name, provisioning := true,
         identifier := st.cfg.identifier, project := st.cfg.project, engine := st.cfg.engine,
         createdAt := now, step := PendingRecorded)
  }

  function InstanceMutation(rec: Deployment, instance: string, host: string): Deployment {
    rec.(instanceId := instance, host := if host != "" then host else rec.host, step := InstanceCreated)
  }

  function BoxMutation(rec: Deployment, st: RunState, now: int): Deployment {
    var adopted := if st.reuse then st.boxRecord else None;
    var base := rec.(provider := st.cfg.provider, instanceId := st.instance, resourceName := st.resourceName,
                     provisioning := false, host := st.host, identifier := st.cfg.identifier,
                     project := st.cfg.project, conn := st.conn, engine := st.cfg.engine,
                     externalDB := st.cfg.externalDB, agent := KnownAgent(st.prior, st.boxAgent, adopted),
                     createdAt := now, step := BoxRecorded);
    if st.prior.Some? then CarryForward(base.(createdAt := st.prior.value.createdAt), st.prior.value, st.cfg.provider)
    else if adopted.Some? then base.(createdAt := adopted.value.createdAt)
    else base
  }

  function PairMutation(rec: Deployment, agent: string): Deployment {
    rec.(agent := agent, step := AgentPaired)
  }

  function FinalMutation(rec: Deployment, st: RunState): Deployment {
    rec.(agent := st.agent, teamConn := if st.cfg.teamConn != "" then st.cfg.teamConn else rec.teamConn,
         step := Finalized, lastError := "")
  }

  function Write(w: World, id: string, rec: Deployment): World {
    w.(store := Put(w.store, id, rec))
  }

  // ---- when a label can happen ----

  /** The settings the pipeline accepts for the VM providers. */
  predicate Acceptable(cfg: Config) {
    && (cfg.provider.Ssh? || cfg.provider.Managed?)
    && (cfg.provider.UsesGivenHost() ==> !Blank(cfg.hostFlag))
    && !Blank(cfg.identifier) && cfg.project != ""
  }

  /** `deps` is what ListDeployments returns: every record, in some order. */
  ghost predicate Lists(deps: seq<Deployment>, store: Store) {
    && (forall i :: 0 <= i < |deps| ==> deps[i].id in store && store[deps[i].id] == deps[i])
    && (forall id :: id in store ==> store[id] in deps)
  }

  ghost predicate FreshID(w: World, id: string) { id != "" && id !in w.store }

  ghost predicate FreshConn(w: World, conn: string) {
    conn != "" && forall id :: id in w.store ==> w.store[id].conn != conn
  }

  ghost predicate FreshName(w: World, name: string) {
    && name != ""
    && (forall id :: id in w.store ==> w.store[id].resourceName != name)
    && (forall v :: v in w.vms ==> v.name != name)
  }

  ghost predicate FreshVM(w: World, instance: string, host: string) {
    && instance != "" && !Blank(host)
    && (forall id :: id in w.store ==> w.store[id].instanceId != instance && w.store[id].host != host)
    && (forall v :: v in w.vms ==> v.instance != instance && v.host != host)
  }

  ghost predicate FreshAgent(w: World, agent: string) {
    agent != "" && forall id :: id in w.store ==> w.store[id].agent != agent
  }

  ghost predicate Enabled(s: Sys, l: Label) {
    match l
    case Start(cfg, deps, newID, newConn) =>
      && s.run.None? && Acceptable(cfg) && Lists(deps, s.world.store)
      && FreshID(s.world, newID) && FreshConn(s.world, newConn)
      && DecideBox(cfg, deps, newID, newConn).Some?
    case Reserve(name, _) =>
      && s.run.Some? && s.run.value.phase == Decided && Provisions(s.run.value)
      && FreshName(s.world, name)
    case Create(instance, host) =>
      s.run.Some? && s.run.value.phase == Reserved && FreshVM(s.world, instance, host)
    case Acknowledge(_, _) =>
      s.run.Some? && s.run.value.phase == Created
    case RecordBox(_) =>
      && s.run.Some?
      && (if Provisions(s.run.value) then s.run.value.phase == Acknowledged else s.run.value.phase == Decided)
    case Pair(newAgent, _) =>
      s.run.Some? && s.run.value.phase == Boxed && FreshAgent(s.world, newAgent)
    case Finalize =>
      s.run.Some? && s.run.value.phase == Paired
    case Crash => s.run.Some?
    case Fail(_) => s.run.Some? && s.run.value.phase in {Boxed, Paired, Finished}
  }

  function Exec(s: Sys, l: Label): Sys
    requires Enabled(s, l)
  {
    match l
    case Start(cfg, deps, newID, newConn) => s.(run := DecideBox(cfg, deps, newID, newConn))
    case _ =>
      var st := s.run.value;
      var w := s.world;
      var rec := Load(w.store, st.depID);
      match l
      case Reserve(name, now) =>
        Sys(Write(w, st.depID, PendingMutation(rec, st, name, now)),
            Some(st.(phase := Reserved, resourceName := name)))
      case Create(instance, host) =>
        Sys(w.(vms := w.vms + {VM(st.resourceName, instance, host, st.cfg.provider, st.cfg.project, st.cfg.identifier)}),
            Some(st.(phase := Created, instance := instance, host := host)))
      case Acknowledge(written, hostKnown) =>
        Sys(if written then Write(w, st.depID, InstanceMutation(rec, st.instance, if hostKnown then st.host else "")) else w,
            Some(st.(phase := Acknowledged)))
      case RecordBox(now) =>
        var st' := ReuseHandles(st);
        Sys(Write(w, st.depID, BoxMutation(rec, st', now)), Some(st'.(phase := Boxed)))
      case Pair(newAgent, written) =>
        var agent := FirstNonEmpty(st.boxAgent, newAgent);
        Sys(if written then Write(w, st.depID, PairMutation(rec, agent)) else w,
            Some(st.(phase := Paired, agent := agent)))
      case Finalize => Sys(Write(w, st.depID, FinalMutation(rec, st)), Some(st.(phase := Finished)))
      case Crash => s.(run := None)
      case Fail(message) => Sys(Write(w, st.depID, rec.(lastError := message)), None)
  }

  /** A run writes one record only. */
  lemma OnlyOwnRecordChanges(s: Sys, l: Label)
    requires Enabled(s, l) && !l.Start?
    ensures forall id | id != s.run.value.depID ::
      (id in Exec(s, l).world.store <==> id in s.world.store) &&
      (id in s.world.store ==> Exec(s, l).world.store[id] == s.world.store[id])
  {
  }
}
