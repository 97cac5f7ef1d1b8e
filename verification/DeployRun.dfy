/**
 The pipeline as the source runs it: steps that update the run's state and mutate records in place
 (app/deploy_pipeline.go), each proved to be one labelled step of Lifecycle.
 */
module DeployRun {
  import opened Wrappers
  import opened Records
  import opened Text
  import opened Targeting
  import opened Lifecycle
  import opened LifecycleInvariants
  import opened Handles
  import opened LostVM
  import opened Paths
  import opened RunRecords

  /** The deployments directory: one file per record, every write through Mutate. */
  class RecordStore {
    var records: Store

    constructor ()
      ensures records == map[]
    {
      records := map[];
    }

    /** One read-modify-write; when the record cannot be read, parsed or saved, nothing is written. */
    method Mutate(id: string, change: Deployment -> Deployment, works: bool) returns (ok: bool)
      modifies this
      ensures ok == works
      ensures records == if ok then Put(old(records), id, change(Load(old(records), id))) else old(records)
    {
      if !works {
        return false;
      }
      var rec := if id in records then records[id] else EMPTY_RECORD;
      rec := change(rec);
      records := records[id := rec.(id := id)];
      return true;
    }
  }

  /** The provider's inventory. */
  class Cloud {
    var vms: set<VM>

    constructor ()
      ensures vms == {}
    {
      vms := {};
    }
  }

  /** The fields of the box record, one by one. */
  lemma BoxFields(rec: Deployment, st: RunState, now: int)
    ensures var after := BoxMutation(rec, st, now);
      var carries := !st.cfg.provider.CreatesInfrastructure() && st.prior.Some? &&
        st.prior.value.provider.CreatesInfrastructure() &&
        (st.prior.value.instanceId != "" || st.prior.value.resourceName != "");
      var adopted := if st.reuse then st.boxRecord else None;
      after == rec.(
        provider := if carries then st.prior.value.provider else st.cfg.provider,
        instanceId := if carries then st.prior.value.instanceId else st.instance,
        resourceName := if carries then st.prior.value.resourceName else st.resourceName,
        provisioning := false, host := st.host, identifier := st.cfg.identifier, project := st.cfg.project,
        conn := st.conn, engine := st.cfg.engine, externalDB := st.cfg.externalDB,
        agent := KnownAgent(st.prior, st.boxAgent, adopted),
        createdAt := if st.prior.Some? then st.prior.value.createdAt else if adopted.Some? then adopted.value.createdAt else now,
        step := BoxRecorded)
  {
  }

  class DeployState {
    const store: RecordStore
    const cloud: Cloud
    const cfg: Config
    var phase: Phase
    var host: string
    var reuse: bool
    var boxRecord: Option<Deployment>
    var prior: Option<Deployment>
    var boxAgent: string
    var conn: string
    var depID: string
    var resourceName: string
    var instance: string
    var agent: string

    constructor (store: RecordStore, cloud: Cloud, cfg: Config)
      ensures this.store == store && this.cloud == cloud && this.cfg == cfg
    {
      this.store, this.cloud, this.cfg := store, cloud, cfg;
      phase, host, reuse, boxRecord, prior := Decided, cfg.hostFlag, false, None, None;
      boxAgent, conn, depID, resourceName, instance, agent := "", "", "", "", "", "";
    }

    function State(): RunState
      reads this
    {
      RunState(cfg, phase, host, reuse, boxRecord, prior, boxAgent, conn, depID, resourceName, instance, agent)
    }

    function Outside(): World
      reads store, cloud
    {
      World(store.records, cloud.vms)
    }

    function Running(): Sys
      reads this, store, cloud
    {
      Sys(Outside(), Some(State()))
    }

    /** The first half of stepDecideBox: the box, and with it the host everything else is keyed on. */
    method ChooseBox(deps: seq<Deployment>) returns (ok: bool)
      modifies this
      ensures var decision := DecideDeployBox(cfg.provider, cfg.hostFlag, cfg.newVM, cfg.identifier, cfg.project, deps);
        && ok == !decision.Refuse?
        && reuse == decision.Reuse?
        && (ok ==> boxRecord == match decision case Reuse(rec) => Some(rec) case Provision(other) => other case _ => None)
        && (ok ==> host == if decision.Reuse? then decision.record.host else cfg.hostFlag)
    {
      host, reuse, boxRecord := cfg.hostFlag, false, None;
      if cfg.provider.CreatesInfrastructure() {
        boxRecord := PickManagedBoxRecord(deps, cfg.project, cfg.identifier);
        if boxRecord.Some? && boxRecord.value.provider == cfg.provider && !cfg.newVM {
          if Blank(boxRecord.value.host) { return false; }
          reuse, host := true, boxRecord.value.host;
        }
      }
      return true;
    }

    /** The second half: the prior record, the shared agent, the connection and the deployment id. */
    method IdentifyRun(deps: seq<Deployment>, newID: string, newConn: string) returns (ok: bool)
      modifies this
      ensures var identified := Identify(cfg, deps, newID, newConn, old(host), old(reuse), old(boxRecord));
        ok == identified.Some? && (ok ==> State() == identified.value)
    {
      var found, paired, connUUID, id := FindIdentity(cfg, deps, host, reuse, boxRecord, newID, newConn);
      if found.Some? && found.value.project != "" && found.value.project != cfg.project { return false; }
      prior, boxAgent, conn, depID, phase, resourceName, instance, agent := found, paired, connUUID, id, Decided, "", "", "";
      return true;
    }

    static method FindIdentity(cfg: Config, deps: seq<Deployment>, host: string, reuse: bool, boxRecord: Option<Deployment>,
                               newID: string, newConn: string)
      returns (found: Option<Deployment>, paired: string, connUUID: string, id: string)
      ensures Identify(cfg, deps, newID, newConn, host, reuse, boxRecord) ==
        if found.Some? && found.value.project != "" && found.value.project != cfg.project then None
        else Some(RunState(cfg, Decided, host, reuse, boxRecord, found, paired, connUUID, id, "", "", ""))
    {
      found := PickPriorDeployment(deps, host, cfg.identifier);
      paired := PickBoxAgentUUID(deps, host);
      connUUID, id := NameRun(found, if reuse then boxRecord else None, newID, newConn);
    }

    static method NameRun(prior: Option<Deployment>, adopted: Option<Deployment>, newID: string, newConn: string)
      returns (conn: string, id: string)
      ensures conn == if prior.Some? && prior.value.conn != "" then prior.value.conn else newConn
      ensures id == if prior.Some? then prior.value.id else if adopted.Some? then adopted.value.id else newID
    {
      conn, id := newConn, newID;
      if prior.Some? {
        id := prior.value.id;
        if prior.value.conn != "" { conn := prior.value.conn; }
      } else if adopted.Some? {
        id := adopted.value.id;
      }
    }

    /** stepDecideBox; false is a refused run. */
    method StepDecideBox(deps: seq<Deployment>, newID: string, newConn: string) returns (ok: bool)
      modifies this
      ensures ok <==> DecideBox(cfg, deps, newID, newConn).Some?
      ensures ok ==> State() == DecideBox(cfg, deps, newID, newConn).value
    {
      ok := ChooseBox(deps);
      if ok { ok := IdentifyRun(deps, newID, newConn); }
    }

    method StepPendingRecord(name: string, now: int)
      requires Enabled(Running(), Reserve(name, now))
      modifies this, store
      ensures Running() == Exec(old(Running()), Reserve(name, now))
    {
      resourceName := name;
      var provider, identifier, project, engine := cfg.provider, cfg.identifier, cfg.project, cfg.engine;
      var _ := store.Mutate(depID, (rec: Deployment) =>
        rec.(provider := provider, resourceName := name, provisioning := true, identifier := identifier,
             project := project, engine := engine, createdAt := now, step := PendingRecorded), true);
      phase := Reserved;
    }

    /** stepProvision creating a VM: the provider's call, then its acknowledgement callback. */
    method StepProvisionVM(newInstance: string, newHost: string, hostKnown: bool, written: bool)
      requires Enabled(Running(), Create(newInstance, newHost))
      modifies this, store, cloud
      ensures var made := Exec(old(Running()), Create(newInstance, newHost));
        var acknowledge := Lifecycle.Label.Acknowledge(written, hostKnown);
        Enabled(made, acknowledge) && Running() == Exec(made, acknowledge)
    {
      cloud.vms := cloud.vms + {VM(resourceName, newInstance, newHost, cfg.provider, cfg.project, cfg.identifier)};
      instance, host := newInstance, newHost;
      var refHost := if hostKnown then newHost else "";
      var _ := store.Mutate(depID, (rec: Deployment) =>
        rec.(instanceId := newInstance, host := if refHost != "" then refHost else rec.host, step := InstanceCreated), written);
      phase := Phase.Acknowledged;
    }

    /** stepProvision on a box that exists, then stepRecordBox. */
    method StepRecordBox(now: int)
      requires Enabled(Running(), RecordBox(now))
      modifies this, store
      ensures Running() == Exec(old(Running()), RecordBox(now))
    {
      TakeHandles();
      WriteBox(now);
      phase := Boxed;
    }

    method TakeHandles()
      modifies this`instance, this`resourceName
      ensures State() == ReuseHandles(old(State()))
    {
      if reuse && boxRecord.Some? {
        instance, resourceName := boxRecord.value.instanceId, boxRecord.value.resourceName;
      }
    }

    /** The record of the box, field by field, over whatever the record held. */
    method WriteBox(now: int)
      modifies store
      ensures store.records == Put(old(store.records), depID, BoxMutation(Load(old(store.records), depID), State(), now))
    {
      BoxFields(Load(store.records, depID), State(), now);
      var provider, identifier, project, engine, external := cfg.provider, cfg.identifier, cfg.project, cfg.engine, cfg.externalDB;
      var id, name, box, connUUID, known := instance, resourceName, host, conn, KnownAgentUUID();
      var created := now;
      if prior.Some? {
        created := prior.value.createdAt;
        if !provider.CreatesInfrastructure() && prior.value.provider.CreatesInfrastructure() &&
           (prior.value.instanceId != "" || prior.value.resourceName != "") {
          provider, id, name := prior.value.provider, prior.value.instanceId, prior.value.resourceName;
        }
      } else if reuse && boxRecord.Some? {
        created := boxRecord.value.createdAt;
      }
      var _ := store.Mutate(depID, (rec: Deployment) =>
        rec.(provider := provider, instanceId := id, resourceName := name, provisioning := false, host := box,
             identifier := identifier, project := project, conn := connUUID, engine := engine, externalDB := external,
             agent := known, createdAt := created, step := BoxRecorded), true);
    }

    function KnownAgentUUID(): string
      reads this
    {
      if prior.Some? && prior.value.agent != "" then prior.value.agent
      else if boxAgent != "" then boxAgent
      else if reuse && boxRecord.Some? then boxRecord.value.agent
      else ""
    }

    method StepWaitAgent(newAgent: string, written: bool)
      requires Enabled(Running(), Pair(newAgent, written))
      modifies this, store
      ensures Running() == Exec(old(Running()), Pair(newAgent, written))
    {
      if boxAgent != "" { agent := boxAgent; } else { agent := newAgent; }
      var paired := agent;
      var _ := store.Mutate(depID, (rec: Deployment) => rec.(agent := paired, step := AgentPaired), written);
      phase := Paired;
    }

    method StepFinalizeRecord()
      requires Enabled(Running(), Finalize)
      modifies this, store
      ensures Running() == Exec(old(Running()), Finalize)
    {
      var paired, teamConn := agent, cfg.teamConn;
      var _ := store.Mutate(depID, (rec: Deployment) =>
        rec.(agent := paired, teamConn := if teamConn != "" then teamConn else rec.teamConn, step := Finalized,
             lastError := ""), true);
      phase := Finished;
    }
  }

  ghost predicate Suitable(w: World, a: Answers) {
    && FreshID(w, a.newID) && FreshConn(w, a.newConn) && FreshName(w, a.name)
    && FreshVM(w, a.instance, a.host) && FreshAgent(w, a.agent)
  }

  ghost function Can(): (Sys, Label) -> bool {
    (s: Sys, l: Label) => Enabled(s, l)
  }

  ghost function Next(): (Sys, Label) -> Sys {
    (s: Sys, l: Label) => if Enabled(s, l) then Exec(s, l) else s
  }

  lemma {:induction false} RunsArePaths(s: Sys, labels: seq<Label>, t: Sys)
    ensures Runs(s, labels, t) <==> Path(Can(), Next(), s, labels, t)
    decreases |labels|
  {
    if labels != [] && Enabled(s, labels[0]) {
      RunsArePaths(Exec(s, labels[0]), labels[1..], t);
    }
  }

  lemma AppendRuns(s: Sys, labels: seq<Label>, t: Sys, more: seq<Label>, u: Sys)
    requires Runs(s, labels, t) && Runs(t, more, u)
    ensures Runs(s, labels + more, u)
  {
    RunsArePaths(s, labels, t);
    RunsArePaths(t, more, u);
    JoinPaths(Can(), Next(), s, labels, t, more, u);
    RunsArePaths(s, labels + more, u);
  }

  lemma OneStep(t: Sys, l: Label)
    requires Enabled(t, l)
    ensures Runs(t, [l], Exec(t, l))
  {
    assert [l][1..] == [];
  }

  lemma AppendRun(s: Sys, labels: seq<Label>, t: Sys, l: Label)
    requires Runs(s, labels, t) && Enabled(t, l)
    ensures Runs(s, labels + [l], Exec(t, l))
  {
    OneStep(t, l);
    AppendRuns(s, labels, t, [l], Exec(t, l));
  }

  /** The steps of one run after its start, as the answers have it. */
  ghost predicate OneRun(labels: seq<Label>, start: Label, a: Answers) {
    && (labels == [] || labels[0] == start)
    && forall i :: 0 <= i < |labels| ==> Says(a, labels[i]) && (i > 0 ==> !labels[i].Start?)
  }

  lemma AppendOneRun(labels: seq<Label>, start: Label, a: Answers, l: Label)
    requires OneRun(labels, start, a) && labels != [] && !l.Start? && Says(a, l)
    ensures OneRun(labels + [l], start, a)
  {
  }

  /** The run that began with `first` has got to `now`. */
  ghost predicate Doing(begin: Sys, labels: seq<Label>, first: Label, a: Answers, now: Sys) {
    Inv(now) && Runs(begin, labels, now) && OneRun(labels, first, a) && labels != []
  }

  lemma DoOne(begin: Sys, labels: seq<Label>, first: Label, a: Answers, now: Sys, l: Label)
    requires Doing(begin, labels, first, a, now) && Enabled(now, l) && !l.Start? && Says(a, l)
    ensures Doing(begin, labels + [l], first, a, Exec(now, l))
  {
    AppendRun(begin, labels, now, l);
    AppendOneRun(labels, first, a, l);
    ExecKeepsInv(now, l);
  }

  lemma {:induction false} NoStartContinues(s: Sys, labels: seq<Label>, t: Sys)
    requires Runs(s, labels, t) && forall i :: 0 <= i < |labels| ==> !labels[i].Start?
    ensures Continues(s, labels, t)
    decreases |labels|
  {
    if labels != [] {
      NoStartContinues(Exec(s, labels[0]), labels[1..], t);
    }
  }

  lemma OneSafeRunLosesNothing(w: World, labels: seq<Label>, start: Label, a: Answers, t: Sys)
    requires Sound(w) && NoLostVM(w) && Runs(Sys(w, None), labels, t) && OneRun(labels, start, a) && start.Start?
    requires Enabled(Sys(w, None), start) ==> SafeStart(w, Exec(Sys(w, None), start).run.value)
    ensures NoLostVM(t.world)
  {
    if labels != [] {
      var s := Sys(w, None);
      NoStartContinues(Exec(s, start), labels[1..], t);
      SafeStartIsExact(s, start);
    }
  }

  /** How far the run has come after its first n steps; a step that does not apply to it changes nothing. */
  function PhaseAfter(provisions: bool, n: nat): Phase {
    if n <= 1 then Decided
    else if n == 2 then (if provisions then Reserved else Decided)
    else if n == 3 then (if provisions then Phase.Acknowledged else Decided)
    else if n == 4 then Boxed
    else if n == 5 then Paired
    else Finished
  }

  /** A refused run does nothing; any other gets as far as its life lets it. */
  predicate GetsFar(t: Sys, decided: Option<RunState>, lives: nat) {
    if decided.None? || lives == 0 then t.run.None?
    else t.run.Some? && t.run.value.phase == PhaseAfter(Provisions(decided.value), lives)
  }

  /** What such a run leaves of the world it found. */
  function WorldAfter(w: World, decided: Option<RunState>, a: Answers, lives: nat): World
    requires decided.Some? && decided.value.reuse ==> decided.value.boxRecord.Some?
  {
    if decided.None? || lives == 0 then w
    else
      var d, phase := decided.value, PhaseAfter(Provisions(decided.value), lives);
      World(StoreAt(w.store, d, a, phase), VMsAt(w.vms, d, a, phase))
  }

  lemma LeavesWorldAfter(w: World, labels: seq<Label>, start: Label, d: RunState, a: Answers, lives: nat, t: Sys)
    requires Sound(w) && Runs(Sys(w, None), labels, t) && labels != [] && OneRun(labels, start, a) && start.Start?
    requires Exec(Sys(w, None), start).run == Some(d) && t.run.Some? && GetsFar(t, Some(d), lives)
    ensures (d.reuse ==> d.boxRecord.Some?) && t.world == WorldAfter(w, Some(d), a, lives)
  {
    var s, rest := Sys(w, None), labels[1..];
    NoStartContinues(Exec(s, start), rest, t);
    assert forall i :: 0 <= i < |rest| ==> rest[i] == labels[i + 1];
    WhatARunLeaves(s, start, rest, a, t);
  }

  /**
   One deploy, cut off after `lives` steps: a run of the state machine that gets that far, whatever record it continues.
   It keeps the invariants of the store, and loses no VM if its start was safe.
   */
  method Deploy(store: RecordStore, cloud: Cloud, cfg: Config, deps: seq<Deployment>, a: Answers, lives: nat)
    returns (ghost labels: seq<Label>)
    requires Acceptable(cfg) && Lists(deps, store.records) && Suitable(World(store.records, cloud.vms), a)
    requires Sound(World(store.records, cloud.vms))
    modifies store, cloud
    ensures exists t: Sys ::
      && Runs(Sys(old(World(store.records, cloud.vms)), None), labels, t) && t.world == World(store.records, cloud.vms)
      && GetsFar(t, DecideBox(cfg, deps, a.newID, a.newConn), lives)
    ensures OneRun(labels, Start(cfg, deps, a.newID, a.newConn), a)
    ensures World(store.records, cloud.vms) ==
      WorldAfter(old(World(store.records, cloud.vms)), DecideBox(cfg, deps, a.newID, a.newConn), a, lives)
    ensures Sound(World(store.records, cloud.vms))
    ensures var before, decided := old(World(store.records, cloud.vms)), DecideBox(cfg, deps, a.newID, a.newConn);
      NoLostVM(before) && (decided.Some? ==> SafeStart(before, decided.value)) ==>
        NoLostVM(World(store.records, cloud.vms))
  {
    ghost var before := World(store.records, cloud.vms);
    ghost var decided := DecideBox(cfg, deps, a.newID, a.newConn);
    ghost var end;
    labels, end := RunSteps(store, cloud, cfg, deps, a, lives);
    if labels != [] {
      LeavesWorldAfter(before, labels, Start(cfg, deps, a.newID, a.newConn), decided.value, a, lives, end);
    }
    if NoLostVM(before) && (decided.Some? ==> SafeStart(before, decided.value)) {
      OneSafeRunLosesNothing(before, labels, Start(cfg, deps, a.newID, a.newConn), a, end);
    }
  }

  method RunSteps(store: RecordStore, cloud: Cloud, cfg: Config, deps: seq<Deployment>, a: Answers, lives: nat)
    returns (ghost labels: seq<Label>, ghost end: Sys)
    requires Acceptable(cfg) && Lists(deps, store.records) && Suitable(World(store.records, cloud.vms), a)
    requires Sound(World(store.records, cloud.vms))
    modifies store, cloud
    ensures Runs(Sys(old(World(store.records, cloud.vms)), None), labels, end)
    ensures end.world == World(store.records, cloud.vms) && Sound(end.world)
    ensures GetsFar(end, DecideBox(cfg, deps, a.newID, a.newConn), lives) && (labels == [] <==> end.run.None?)
    ensures OneRun(labels, Start(cfg, deps, a.newID, a.newConn), a)
  {
    ghost var begin, first := Sys(World(store.records, cloud.vms), None), Start(cfg, deps, a.newID, a.newConn);
    labels, end := [], begin;
    var run := new DeployState(store, cloud, cfg);
    var ok := Begin(run, deps, a);
    if !ok || lives == 0 { return; }
    labels := [first];
    OneStep(begin, first);
    labels := Steps(run, a, lives, begin, first, labels);
    end := run.Running();
  }

  /** Every step after the decision, in the pipeline's order. */
  method Steps(run: DeployState, a: Answers, lives: nat, ghost begin: Sys, ghost first: Label, ghost labels: seq<Label>)
    returns (ghost more: seq<Label>)
    requires Doing(begin, labels, first, a, run.Running()) && run.phase == Decided && lives > 0
    requires Suitable(run.Outside(), a) && run.boxAgent != a.agent
    modifies run, run.store, run.cloud
    ensures Doing(begin, more, first, a, run.Running())
    ensures run.phase == PhaseAfter(old(Provisions(run.State())), lives)
  {
    more := labels;
    var provisions := run.cfg.provider.CreatesInfrastructure() && !run.reuse;
    if lives == 1 { return; }
    if provisions { more := Reservation(run, a, begin, first, more); }
    if lives == 2 { return; }
    if provisions { more := Provisioning(run, a, begin, first, more); }
    if lives == 3 { return; }
    more := LateSteps(run, a, lives, begin, first, more);
  }

  /** From the box record on. */
  method LateSteps(run: DeployState, a: Answers, lives: nat, ghost begin: Sys, ghost first: Label, ghost labels: seq<Label>)
    returns (ghost more: seq<Label>)
    requires Doing(begin, labels, first, a, run.Running()) && lives >= 4
    requires Enabled(run.Running(), RecordBox(a.recordedAt)) && FreshAgent(run.Outside(), a.agent) && run.boxAgent != a.agent
    modifies run, run.store
    ensures Doing(begin, more, first, a, run.Running())
    ensures run.phase == (if lives == 4 then Boxed else if lives == 5 then Paired else Finished)
  {
    more := Recording(run, a, begin, first, labels);
    if lives == 4 { return; }
    more := Pairing(run, a, begin, first, more);
    if lives == 5 { return; }
    more := Finishing(run, a, begin, first, more);
  }

  /** The decision; false is a refused run. */
  method Begin(run: DeployState, deps: seq<Deployment>, a: Answers) returns (ok: bool)
    requires Acceptable(run.cfg) && Lists(deps, run.store.records) && Suitable(run.Outside(), a) && Sound(run.Outside())
    modifies run
    ensures var start := Start(run.cfg, deps, a.newID, a.newConn);
      (ok <==> DecideBox(run.cfg, deps, a.newID, a.newConn).Some?) &&
      (ok ==>
        && Enabled(Sys(run.Outside(), None), start)
        && run.Running() == Exec(Sys(run.Outside(), None), start)
        && Inv(run.Running()) && run.phase == Decided && run.boxAgent != a.agent)
  {
    ok := run.StepDecideBox(deps, a.newID, a.newConn);
    if ok {
      StartEstablishesRunInv(Sys(run.Outside(), None), Start(run.cfg, deps, a.newID, a.newConn));
      PickedAreRecorded(deps, run.store.records, BoxAgentTest(run.host));
    }
  }

  method Reservation(run: DeployState, a: Answers, ghost begin: Sys, ghost first: Label, ghost labels: seq<Label>)
    returns (ghost more: seq<Label>)
    requires Doing(begin, labels, first, a, run.Running())
    requires run.phase == Decided && Provisions(run.State()) && Suitable(run.Outside(), a)
    modifies run, run.store
    ensures run.boxAgent == old(run.boxAgent)
    ensures Doing(begin, more, first, a, run.Running())
    ensures run.phase == Reserved && Provisions(run.State()) && FreshVM(run.Outside(), a.instance, a.host)
    ensures FreshAgent(run.Outside(), a.agent)
  {
    ghost var reserve := Reserve(a.name, a.reservedAt);
    DoOne(begin, labels, first, a, run.Running(), reserve);
    more := labels + [reserve];
    run.StepPendingRecord(a.name, a.reservedAt);
  }

  method Provisioning(run: DeployState, a: Answers, ghost begin: Sys, ghost first: Label, ghost labels: seq<Label>)
    returns (ghost more: seq<Label>)
    requires Doing(begin, labels, first, a, run.Running())
    requires run.phase == Reserved && Provisions(run.State())
    requires FreshVM(run.Outside(), a.instance, a.host) && FreshAgent(run.Outside(), a.agent)
    modifies run, run.store, run.cloud
    ensures run.boxAgent == old(run.boxAgent)
    ensures Doing(begin, more, first, a, run.Running())
    ensures run.phase == Phase.Acknowledged && Provisions(run.State()) && FreshAgent(run.Outside(), a.agent)
  {
    ghost var create := Create(a.instance, a.host);
    ghost var acknowledge := Lifecycle.Label.Acknowledge(a.written, a.hostKnown);
    ghost var made := Exec(run.Running(), create);
    DoOne(begin, labels, first, a, run.Running(), create);
    DoOne(begin, labels + [create], first, a, made, acknowledge);
    more := labels + [create] + [acknowledge];
    run.StepProvisionVM(a.instance, a.host, a.hostKnown, a.written);
  }

  /** The agent written with the box is one some record already knew. */
  lemma RecordBoxMintsNoAgent(s: Sys, l: Label, agent: string)
    requires Inv(s) && Enabled(s, l) && l.RecordBox? && FreshAgent(s.world, agent)
    requires s.run.value.boxAgent != agent
    ensures FreshAgent(Exec(s, l).world, agent)
  {
    var st := s.run.value;
    RecordedBoxFits(s.world, st, BoxMutation(Load(s.world.store, st.depID), ReuseHandles(st), l.now), l.now);
  }

  method Recording(run: DeployState, a: Answers, ghost begin: Sys, ghost first: Label, ghost labels: seq<Label>)
    returns (ghost more: seq<Label>)
    requires Doing(begin, labels, first, a, run.Running())
    requires Enabled(run.Running(), RecordBox(a.recordedAt)) && FreshAgent(run.Outside(), a.agent) && run.boxAgent != a.agent
    modifies run, run.store
    ensures Doing(begin, more, first, a, run.Running()) && run.phase == Boxed && FreshAgent(run.Outside(), a.agent)
  {
    ghost var box := RecordBox(a.recordedAt);
    DoOne(begin, labels, first, a, run.Running(), box);
    RecordBoxMintsNoAgent(run.Running(), box, a.agent);
    more := labels + [box];
    run.StepRecordBox(a.recordedAt);
  }

  method Pairing(run: DeployState, a: Answers, ghost begin: Sys, ghost first: Label, ghost labels: seq<Label>)
    returns (ghost more: seq<Label>)
    requires Doing(begin, labels, first, a, run.Running())
    requires run.phase == Boxed && FreshAgent(run.Outside(), a.agent)
    modifies run, run.store
    ensures Doing(begin, more, first, a, run.Running()) && run.phase == Paired
  {
    ghost var pair := Pair(a.agent, a.paired);
    DoOne(begin, labels, first, a, run.Running(), pair);
    more := labels + [pair];
    run.StepWaitAgent(a.agent, a.paired);
  }

  method Finishing(run: DeployState, a: Answers, ghost begin: Sys, ghost first: Label, ghost labels: seq<Label>)
    returns (ghost more: seq<Label>)
    requires Doing(begin, labels, first, a, run.Running()) && run.phase == Paired
    modifies run, run.store
    ensures Doing(begin, more, first, a, run.Running()) && run.phase == Finished
  {
    DoOne(begin, labels, first, a, run.Running(), Finalize);
    more := labels + [Finalize];
    run.StepFinalizeRecord();
  }
}
