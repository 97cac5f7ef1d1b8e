/** What the next run makes of the record a run left: it resumes a run that died, and adopts one that finished. */
module Redeploy {
  import opened Wrappers
  import opened Records
  import opened Text
  import opened Targeting
  import opened Lifecycle
  import opened LifecycleInvariants
  import opened BoxDecision
  import opened RunRecords
  import opened PlanApply

  /** What a finished run recorded. */
  lemma FinishedRunIsRecorded(s: Sys, start: Label, labels: seq<Label>, a: Answers, t: Sys)
    requires OneRunOf(s, start, labels, a, t) && t.run.Some? && t.run.value.phase == Finished
    ensures var d, cfg := Exec(s, start).run.value, start.cfg;
      var c := Continued(s.world.store, d);
      && d.depID in t.world.store
      && var rec := t.world.store[d.depID];
      && rec.host == (if Provisions(d) then a.host else d.host)
      && rec.project == cfg.project && rec.identifier == cfg.identifier
      && rec.provider == (if KeepsServer(c, d) then c.value.provider else cfg.provider)
      && rec.engine == cfg.engine && rec.externalDB == cfg.externalDB && rec.conn == d.conn
      && rec.agent == (if d.boxAgent != "" then d.boxAgent else a.agent)
      && rec.teamConn == (if cfg.teamConn != "" then cfg.teamConn else if c.Some? then c.value.teamConn else "")
      && rec.step == Finalized && rec.lastError == "" && !rec.provisioning
  {
    RecordLeft(s, start, labels, a, t);
    var d := Exec(s, start).run.value;
    FinishedFields(Continued(s.world.store, d), d, a);
  }

  lemma FinishedFields(c: Option<Deployment>, d: RunState, a: Answers)
    requires Fit(c, d)
    ensures var rec, cfg := RecordAt(c, d, a, Finished), d.cfg;
      && rec.host == (if Provisions(d) then a.host else d.host)
      && rec.project == cfg.project && rec.identifier == cfg.identifier
      && rec.provider == (if KeepsServer(c, d) then c.value.provider else cfg.provider)
      && rec.engine == cfg.engine && rec.externalDB == cfg.externalDB && rec.conn == d.conn
      && rec.agent == (if d.boxAgent != "" then d.boxAgent else a.agent)
      && rec.teamConn == (if cfg.teamConn != "" then cfg.teamConn else if c.Some? then c.value.teamConn else "")
      && rec.step == Finalized && rec.lastError == "" && !rec.provisioning
  {
  }

  /** An acknowledged VM is in the run's record, with its host when the provider knew it. */
  lemma AcknowledgedVMIsRecorded(s: Sys, start: Label, labels: seq<Label>, a: Answers, t: Sys)
    requires OneRunOf(s, start, labels, a, t) && t.run.Some? && t.run.value.phase == Acknowledged && a.written
    ensures var d := Exec(s, start).run.value;
      && d.depID in t.world.store
      && var rec := t.world.store[d.depID];
      && rec.instanceId == a.instance && rec.resourceName == a.name && rec.step == InstanceCreated
      && (a.hostKnown ==> rec.host == a.host)
  {
    RecordLeft(s, start, labels, a, t);
    var d := Exec(s, start).run.value;
    AcknowledgedFields(Continued(s.world.store, d), d, a);
  }

  lemma AcknowledgedFields(c: Option<Deployment>, d: RunState, a: Answers)
    requires Fit(c, d) && Provisions(d)
    ensures var rec := RecordAt(c, d, a, Acknowledged);
      && rec.provider == d.cfg.provider && rec.resourceName == a.name
      && (a.written ==> rec.instanceId == a.instance && rec.step == InstanceCreated && (a.hostKnown ==> rec.host == a.host))
      && (d.prior.None? ==>
            && rec.host == (if a.written && a.hostKnown then a.host else "") && rec.agent == ""
            && rec.step in {PendingRecorded, InstanceCreated})
  {
  }

  // ---- resuming a run that died ----

  /** Another run of the same application on the same provider, not asking for a new VM. */
  predicate SameAgain(cfg: Config, before: Config) {
    cfg.provider == before.provider && cfg.project == before.project && cfg.identifier == before.identifier && !cfg.newVM
  }

  lemma OnlyOneOnTheNewHost(s: Sys, start: Label, labels: seq<Label>, a: Answers, t: Sys)
    requires OneRunOf(s, start, labels, a, t) && t.run.Some? && t.run.value.phase == Acknowledged
    ensures Inv(t) && !Blank(a.host)
    ensures Exec(s, start).run.value.depID == t.run.value.depID
    ensures forall id :: id in t.world.store && id != t.run.value.depID ==> t.world.store[id].host != a.host
  {
    RecordLeft(s, start, labels, a, t);
    RunIsUnderway(s, start, labels, a, t);
    ExecKeepsInv(s, start);
    ContinuingKeepsInv(Exec(s, start), labels, t);
  }

  lemma {:induction false} ContinuingKeepsInv(s: Sys, labels: seq<Label>, t: Sys)
    requires Inv(s) && Continues(s, labels, t)
    ensures Inv(t)
    decreases |labels|
  {
    if labels != [] {
      ExecKeepsInv(s, labels[0]);
      ContinuingKeepsInv(Exec(s, labels[0]), labels[1..], t);
    }
  }

  /**
   A run that died after its VM was acknowledged, while its record is the application's newest: the next run lands on that
   VM under the same record, exactly when the acknowledgement was written with the VM's host; otherwise it is refused.
   */
  lemma DeadRunIsResumed(s: Sys, start: Label, labels: seq<Label>, a: Answers, t: Sys,
                         cfg: Config, deps: seq<Deployment>, newID: string, newConn: string)
    requires OneRunOf(s, start, labels, a, t) && t.run.Some? && t.run.value.phase == Acknowledged
    requires Exec(s, start).run.value.prior.None?
    requires SameAgain(cfg, start.cfg) && Acceptable(cfg) && Lists(deps, t.world.store)
    requires var id := t.run.value.depID;
      id in t.world.store && NewestBox(deps, cfg.project, cfg.identifier, Some(t.world.store[id]))
    ensures var next := DecideBox(cfg, deps, newID, newConn);
      && (next.Some? <==> a.written && a.hostKnown)
      && (next.Some? ==> next.value.host == a.host && !Provisions(next.value) && next.value.depID == t.run.value.depID)
  {
    var d := Exec(s, start).run.value;
    RecordLeft(s, start, labels, a, t);
    OnlyOneOnTheNewHost(s, start, labels, a, t);
    AcknowledgedFields(Continued(s.world.store, d), d, a);
    ResumesExactly(t.world.store, deps, cfg, newID, newConn, t.world.store[d.depID], a.host);
  }

  lemma ResumesExactly(store: Store, deps: seq<Deployment>, cfg: Config, newID: string, newConn: string,
                       rec: Deployment, host: string)
    requires StoreInv(store) && Lists(deps, store) && Acceptable(cfg) && rec.id in store && store[rec.id] == rec
    requires NewestBox(deps, cfg.project, cfg.identifier, Some(rec)) && rec.provider == cfg.provider && !cfg.newVM
    requires rec.agent == "" && rec.step in {PendingRecorded, InstanceCreated} && rec.host in {"", host} && !Blank(host)
    requires forall id :: id in store && id != rec.id ==> store[id].host != host
    ensures var next := DecideBox(cfg, deps, newID, newConn);
      && (next.Some? <==> rec.host == host)
      && (next.Some? ==> next.value.host == host && !Provisions(next.value) && next.value.depID == rec.id)
  {
    NewestIsPicked(deps, cfg.project, cfg.identifier, Some(rec));
    RefusedExactly(store, deps, cfg, newID, newConn, Some(rec));
    if DecideBox(cfg, deps, newID, newConn).Some? {
      CreatesExactly(deps, cfg, newID, newConn, Some(rec));
      ContinuesExactly(store, deps, cfg, newID, newConn, Some(rec));
    }
  }

  // ---- adopting the record of a run that finished ----

  /**
   `--deployment` of what a run finished, nothing else stated: it is refused exactly for an external database with no team
   connection on record. Otherwise it names the deployed project, identifier, host and engine again; the provider unless
   the run was an ssh run over a managed server, whose own it names then; and the team connection unless the run had none
   and continued a record that has one.
   */
  lemma AdoptingAFinishedRun(s: Sys, start: Label, labels: seq<Label>, a: Answers, t: Sys, unstated: Settings)
    requires OneRunOf(s, start, labels, a, t) && t.run.Some? && t.run.value.phase == Finished && Unstated(unstated)
    requires start.cfg.teamConn == "" || !Blank(start.cfg.teamConn)
    ensures var d, cfg := Exec(s, start).run.value, start.cfg;
      var c := Continued(s.world.store, d);
      var hadTeam := c.Some? && !Blank(c.value.teamConn);
      && d.depID in t.world.store
      && var again := AdoptRecord(unstated, t.world.store[d.depID], {});
      && (again.None? <==> cfg.externalDB && cfg.teamConn == "" && !hadTeam)
      && (again.Some? ==>
            && again.value.identifier == cfg.identifier
            && again.value.host == (if Provisions(d) then a.host else d.host)
            && again.value.project == (if Blank(cfg.project) then "" else cfg.project)
            && (again.value.db == cfg.engine <==> cfg.engine != NoEngine)
            && (again.value.provider == cfg.provider <==> !KeepsServer(c, d))
            && (again.value.connection == cfg.teamConn <==> cfg.teamConn != "" || !hadTeam)
            && !again.value.newVM && again.value.dsn == "" && again.value.dbSchema == unstated.dbSchema)
  {
    FinishedRunIsRecorded(s, start, labels, a, t);
    FinishedHostIsKnown(s, start, labels, a, t);
    var d := Exec(s, start).run.value;
    Adopts(t.world.store[d.depID], start.cfg, Continued(s.world.store, d), d, unstated);
  }

  lemma FinishedHostIsKnown(s: Sys, start: Label, labels: seq<Label>, a: Answers, t: Sys)
    requires OneRunOf(s, start, labels, a, t) && t.run.Some? && t.run.value.phase == Finished
    ensures var d := Exec(s, start).run.value;
      !Blank(if Provisions(d) then a.host else d.host) && Fit(Continued(s.world.store, d), d) && d.cfg == start.cfg
      && !Blank(start.cfg.identifier) && (start.cfg.provider.Ssh? || start.cfg.provider.Managed?)
  {
    RecordLeft(s, start, labels, a, t);
    RunIsUnderway(s, start, labels, a, t);
    ExecKeepsInv(s, start);
    ContinuingKeepsInv(Exec(s, start), labels, t);
  }

  /** Adopting a record that holds what FinishedRunIsRecorded says. */
  lemma Adopts(rec: Deployment, cfg: Config, c: Option<Deployment>, d: RunState, unstated: Settings)
    requires Unstated(unstated) && (cfg.teamConn == "" || !Blank(cfg.teamConn)) && !Blank(rec.host) && !Blank(cfg.identifier)
    requires d.cfg == cfg && (cfg.provider.Ssh? || cfg.provider.Managed?)
    requires rec.project == cfg.project && rec.identifier == cfg.identifier && rec.engine == cfg.engine
    requires rec.externalDB == cfg.externalDB
    requires rec.provider == (if KeepsServer(c, d) then c.value.provider else cfg.provider)
    requires rec.teamConn == (if cfg.teamConn != "" then cfg.teamConn else if c.Some? then c.value.teamConn else "")
    ensures var again := AdoptRecord(unstated, rec, {});
      var hadTeam := c.Some? && !Blank(c.value.teamConn);
      && (again.None? <==> cfg.externalDB && cfg.teamConn == "" && !hadTeam)
      && (again.Some? ==>
            && again.value.identifier == cfg.identifier && again.value.host == rec.host
            && again.value.project == (if Blank(cfg.project) then "" else cfg.project)
            && (again.value.db == cfg.engine <==> cfg.engine != NoEngine)
            && (again.value.provider == cfg.provider <==> !KeepsServer(c, d))
            && (again.value.connection == cfg.teamConn <==> cfg.teamConn != "" || !hadTeam)
            && !again.value.newVM && again.value.dsn == "" && again.value.dbSchema == unstated.dbSchema)
  {
  }
}
