/**
 What a run leaves on disk: its record and the provider's VMs after every cut, in terms of its settings, the record it
 continued and what the outside world answered (app/deploy_pipeline.go).
 */
module RunRecords {
  import opened Wrappers
  import opened Records
  import opened Text
  import opened Targeting
  import opened Lifecycle
  import opened LifecycleInvariants

  /** What the outside world answers one run: names, hosts and agents, and which best-effort writes succeed. */
  datatype Answers = Answers(newID: string, newConn: string, name: string, instance: string, host: string,
                             hostKnown: bool, written: bool, agent: string, paired: bool, reservedAt: int, recordedAt: int)

  /** The label is the one these answers give. */
  predicate Says(a: Answers, l: Label) {
    match l
    case Start(_, _, newID, newConn) => newID == a.newID && newConn == a.newConn
    case Reserve(name, now) => name == a.name && now == a.reservedAt
    case Create(instance, host) => instance == a.instance && host == a.host
    case Acknowledge(written, hostKnown) => written == a.written && hostKnown == a.hostKnown
    case RecordBox(now) => now == a.recordedAt
    case Pair(agent, written) => agent == a.agent && written == a.paired
    case _ => true
  }

  // ---- the record, field by field ----

  /** The record that the run's id named before it. */
  function Continued(store: Store, d: RunState): Option<Deployment> {
    if d.depID in store then Some(store[d.depID]) else None
  }

  predicate HasBox(phase: Phase) {
    phase.Boxed? || phase.Paired? || phase.Finished?
  }

  /** An ssh run over a managed server: its record stays that of the server. */
  predicate KeepsServer(c: Option<Deployment>, d: RunState) {
    d.cfg.provider.Ssh? && c.Some? && c.value.provider.Managed?
  }

  function InstanceAt(c: Option<Deployment>, d: RunState, a: Answers, phase: Phase): string
    requires d.reuse ==> d.boxRecord.Some?
  {
    var was := if c.Some? then c.value.instanceId else "";
    if Provisions(d) then (if HasBox(phase) || (phase == Acknowledged && a.written) then a.instance else was)
    else if d.reuse then d.boxRecord.value.instanceId
    else was
  }

  function NameAt(c: Option<Deployment>, d: RunState, a: Answers): string
    requires d.reuse ==> d.boxRecord.Some?
  {
    if Provisions(d) then a.name
    else if d.reuse then d.boxRecord.value.resourceName
    else if c.Some? then c.value.resourceName else ""
  }

  function HostAt(c: Option<Deployment>, d: RunState, a: Answers, phase: Phase): string {
    if HasBox(phase) then (if Provisions(d) then a.host else d.host)
    else if phase == Acknowledged && a.written && a.hostKnown then a.host
    else if c.Some? then c.value.host else ""
  }

  function AgentAt(c: Option<Deployment>, d: RunState, a: Answers, phase: Phase): string {
    if phase == Finished || (phase == Paired && a.paired) then (if d.boxAgent != "" then d.boxAgent else a.agent)
    else if HasBox(phase) then d.boxAgent
    else if c.Some? then c.value.agent else ""
  }

  function StepAt(a: Answers, phase: Phase): Checkpoint {
    match phase
    case Decided => Unrecorded
    case Reserved => PendingRecorded
    case Created => PendingRecorded
    case Acknowledged => if a.written then InstanceCreated else PendingRecorded
    case Boxed => BoxRecorded
    case Paired => if a.paired then AgentPaired else BoxRecorded
    case Finished => Finalized
  }

  /** The record once the run has written to it: `c` is what it continued, and keeps its time of creation. */
  function RecordAt(c: Option<Deployment>, d: RunState, a: Answers, phase: Phase): Deployment
    requires d.reuse ==> d.boxRecord.Some?
  {
    var was := if c.Some? then c.value else EMPTY_RECORD;
    Deployment(
      id := d.depID,
      provider := if KeepsServer(c, d) then was.provider else d.cfg.provider,
      instanceId := InstanceAt(c, d, a, phase),
      resourceName := NameAt(c, d, a),
      provisioning := !HasBox(phase),
      host := HostAt(c, d, a, phase),
      identifier := d.cfg.identifier,
      project := d.cfg.project,
      agent := AgentAt(c, d, a, phase),
      conn := if HasBox(phase) then d.conn else was.conn,
      teamConn := if phase == Finished && d.cfg.teamConn != "" then d.cfg.teamConn else was.teamConn,
      engine := d.cfg.engine,
      externalDB := if HasBox(phase) then d.cfg.externalDB else was.externalDB,
      createdAt := if !HasBox(phase) then a.reservedAt else if c.Some? then was.createdAt else a.recordedAt,
      step := StepAt(a, phase),
      lastError := if phase == Finished then "" else was.lastError)
  }

  /** The store and the VMs a run of decision d leaves when it is cut off at a phase. */
  function StoreAt(store: Store, d: RunState, a: Answers, phase: Phase): Store
    requires d.reuse ==> d.boxRecord.Some?
  {
    if phase == Decided then store else store[d.depID := RecordAt(Continued(store, d), d, a, phase)]
  }

  function VMsAt(vms: set<VM>, d: RunState, a: Answers, phase: Phase): set<VM> {
    if Provisions(d) && phase != Decided && phase != Reserved
    then vms + {VM(a.name, a.instance, a.host, d.cfg.provider, d.cfg.project, d.cfg.identifier)}
    else vms
  }

  // ---- every run leaves that ----

  /** The run's own fields. */
  function RunAt(d: RunState, a: Answers, phase: Phase): RunState
    requires d.reuse ==> d.boxRecord.Some?
  {
    d.(phase := phase,
       host := if Provisions(d) && phase != Decided && phase != Reserved then a.host else d.host,
       resourceName := if phase == Decided then "" else if Provisions(d) then a.name
                       else if d.reuse then d.boxRecord.value.resourceName else "",
       instance := if Provisions(d) then (if phase == Decided || phase == Reserved then "" else a.instance)
                   else if d.reuse && phase != Decided then d.boxRecord.value.instanceId else "",
       agent := if phase == Paired || phase == Finished then FirstNonEmpty(d.boxAgent, a.agent) else "")
  }

  /** What a decision owes the record it continues. */
  predicate Fit(c: Option<Deployment>, d: RunState) {
    && (d.cfg.provider.Ssh? || d.cfg.provider.Managed?)
    && (d.reuse ==> d.cfg.provider.Managed? && d.boxRecord.Some?)
    && (match d.prior
        case Some(p) => c == Some(p) && p.agent == d.boxAgent != ""
        case None => c == (if d.reuse then d.boxRecord else None) && (c.Some? ==> c.value.agent == ""))
    && (c.Some? ==>
          && (c.value.provider.Ssh? || c.value.provider.Managed?)
          && (c.value.provider.Ssh? ==> c.value.instanceId == "" && c.value.resourceName == "")
          && (c.value.provider.Managed? ==> c.value.resourceName != ""))
  }

  lemma DecisionFits(s: Sys, l: Label)
    requires Inv(s) && Enabled(s, l) && l.Start?
    ensures var d := Exec(s, l).run.value; Fit(Continued(s.world.store, d), d)
  {
    StartEstablishesRunInv(s, l);
    var d := Exec(s, l).run.value;
    if d.depID in s.world.store { assert RecordOK(d.depID, s.world.store[d.depID]); }
  }

  ghost predicate Underway(w: World, d: RunState, a: Answers, s: Sys) {
    && Fit(Continued(w.store, d), d) && s.run.Some?
    && var phase := s.run.value.phase;
    && (phase.Reserved? || phase.Created? || phase.Acknowledged? ==> Provisions(d))
    && (phase.Created? || phase.Acknowledged? ==> a.host != "")
    && s.run.value == RunAt(d, a, phase)
    && s.world == World(StoreAt(w.store, d, a, phase), VMsAt(w.vms, d, a, phase))
  }

  // the writes, on records alone

  lemma ReservedRecord(c: Option<Deployment>, d: RunState, a: Answers)
    requires Fit(c, d) && Provisions(d)
    ensures PendingMutation(if c.Some? then c.value else EMPTY_RECORD, RunAt(d, a, Decided), a.name, a.reservedAt).(id := d.depID)
      == RecordAt(c, d, a, Reserved)
  {
  }

  lemma AcknowledgedRecord(c: Option<Deployment>, d: RunState, a: Answers)
    requires Fit(c, d) && Provisions(d) && a.host != ""
    ensures var rec := RecordAt(c, d, a, Created);
      (if a.written then InstanceMutation(rec, a.instance, if a.hostKnown then a.host else "") else rec)
        == RecordAt(c, d, a, Acknowledged)
  {
  }

  lemma BoxedRecord(c: Option<Deployment>, d: RunState, a: Answers, phase: Phase)
    requires Fit(c, d) && phase == if Provisions(d) then Acknowledged else Decided
    ensures
      var rec := if phase == Acknowledged then RecordAt(c, d, a, phase) else if c.Some? then c.value else EMPTY_RECORD;
      var st := RunAt(d, a, phase);
      && ReuseHandles(st).(phase := Boxed) == RunAt(d, a, Boxed)
      && BoxMutation(rec, ReuseHandles(st), a.recordedAt).(id := d.depID) == RecordAt(c, d, a, Boxed)
  {
    if Provisions(d) { NewBoxRecord(c, d, a); } else { KnownBoxRecord(c, d, a); }
  }

  lemma NewBoxRecord(c: Option<Deployment>, d: RunState, a: Answers)
    requires Fit(c, d) && Provisions(d)
    ensures var st := RunAt(d, a, Acknowledged);
      && ReuseHandles(st).(phase := Boxed) == RunAt(d, a, Boxed)
      && BoxMutation(RecordAt(c, d, a, Acknowledged), ReuseHandles(st), a.recordedAt).(id := d.depID) == RecordAt(c, d, a, Boxed)
  {
  }

  lemma KnownBoxRecord(c: Option<Deployment>, d: RunState, a: Answers)
    requires Fit(c, d) && !Provisions(d)
    ensures var rec, st := if c.Some? then c.value else EMPTY_RECORD, RunAt(d, a, Decided);
      && ReuseHandles(st).(phase := Boxed) == RunAt(d, a, Boxed)
      && BoxMutation(rec, ReuseHandles(st), a.recordedAt).(id := d.depID) == RecordAt(c, d, a, Boxed)
  {
  }

  lemma PairedRecord(c: Option<Deployment>, d: RunState, a: Answers)
    requires Fit(c, d)
    ensures var rec, agent := RecordAt(c, d, a, Boxed), FirstNonEmpty(d.boxAgent, a.agent);
      (if a.paired then PairMutation(rec, agent) else rec) == RecordAt(c, d, a, Paired)
  {
  }

  lemma FinishedRecord(c: Option<Deployment>, d: RunState, a: Answers)
    requires Fit(c, d)
    ensures FinalMutation(RecordAt(c, d, a, Paired), RunAt(d, a, Paired)) == RecordAt(c, d, a, Finished)
  {
  }

  // the steps

  lemma WriteOver(store: Store, id: string, rec: Deployment, next: Deployment)
    requires next.id == id
    ensures Put(store[id := rec], id, next) == store[id := next] && Put(store, id, next) == store[id := next]
    ensures Load(store[id := rec], id) == rec
  {
  }

  lemma StepKeepsUnderway(w: World, d: RunState, a: Answers, s: Sys, l: Label)
    requires Underway(w, d, a, s) && Enabled(s, l) && !l.Start? && Says(a, l) && Exec(s, l).run.Some?
    ensures Underway(w, d, a, Exec(s, l))
  {
    match l
    case Reserve(_, _) => EarlyStep(w, d, a, s, l);
    case Create(_, _) => CreatedUnderway(w, d, a, s, l);
    case Acknowledge(_, _) => EarlyStep(w, d, a, s, l);
    case RecordBox(_) => BoxedUnderway(w, d, a, s, l);
    case Pair(_, _) => LateStep(w, d, a, s, l);
    case Finalize => LateStep(w, d, a, s, l);
  }

  lemma EarlyStep(w: World, d: RunState, a: Answers, s: Sys, l: Label)
    requires Underway(w, d, a, s) && Enabled(s, l) && (l.Reserve? || l.Acknowledge?) && Says(a, l)
    ensures Underway(w, d, a, Exec(s, l))
  {
    var c := Continued(w.store, d);
    var rec := RecordAt(c, d, a, s.run.value.phase);
    if l.Reserve? {
      ReservedRecord(c, d, a);
      WriteOver(w.store, d.depID, rec, RecordAt(c, d, a, Reserved));
    } else {
      AcknowledgedRecord(c, d, a);
      WriteOver(w.store, d.depID, rec, RecordAt(c, d, a, Acknowledged));
    }
  }

  lemma CreatedUnderway(w: World, d: RunState, a: Answers, s: Sys, l: Label)
    requires Underway(w, d, a, s) && Enabled(s, l) && l.Create? && Says(a, l)
    ensures Underway(w, d, a, Exec(s, l))
  {
  }

  lemma BoxedUnderway(w: World, d: RunState, a: Answers, s: Sys, l: Label)
    requires Underway(w, d, a, s) && Enabled(s, l) && l.RecordBox? && Says(a, l)
    ensures Underway(w, d, a, Exec(s, l))
  {
    var c, phase := Continued(w.store, d), s.run.value.phase;
    BoxedRecord(c, d, a, phase);
    WriteOver(w.store, d.depID, RecordAt(c, d, a, phase), RecordAt(c, d, a, Boxed));
  }

  lemma LateStep(w: World, d: RunState, a: Answers, s: Sys, l: Label)
    requires Underway(w, d, a, s) && Enabled(s, l) && (l.Pair? || l.Finalize?) && Says(a, l)
    ensures Underway(w, d, a, Exec(s, l))
  {
    var c := Continued(w.store, d);
    var rec := RecordAt(c, d, a, s.run.value.phase);
    if l.Pair? {
      PairedRecord(c, d, a);
      WriteOver(w.store, d.depID, rec, RecordAt(c, d, a, Paired));
    } else {
      FinishedRecord(c, d, a);
      WriteOver(w.store, d.depID, rec, RecordAt(c, d, a, Finished));
    }
  }

  lemma {:induction false} RunStaysUnderway(w: World, d: RunState, a: Answers, s: Sys, labels: seq<Label>, t: Sys)
    requires Underway(w, d, a, s) && Continues(s, labels, t) && t.run.Some?
    requires forall i :: 0 <= i < |labels| ==> Says(a, labels[i])
    ensures Underway(w, d, a, t)
    decreases |labels|
  {
    if labels != [] {
      var m := Exec(s, labels[0]);
      if m.run.None? {
        DeadStaysDead(m, labels[1..], t);
      }
      StepKeepsUnderway(w, d, a, s, labels[0]);
      RunStaysUnderway(w, d, a, m, labels[1..], t);
    }
  }

  lemma DeadStaysDead(s: Sys, labels: seq<Label>, t: Sys)
    requires s.run.None? && Continues(s, labels, t)
    ensures labels == [] && t == s
  {
  }

  /** The decision of a start, and what its run has done. */
  ghost predicate OneRunOf(s: Sys, start: Label, labels: seq<Label>, a: Answers, t: Sys) {
    && Inv(s) && start.Start? && Enabled(s, start) && Says(a, start)
    && Continues(Exec(s, start), labels, t)
    && forall i :: 0 <= i < |labels| ==> Says(a, labels[i])
  }

  lemma RunIsUnderway(s: Sys, start: Label, labels: seq<Label>, a: Answers, t: Sys)
    requires OneRunOf(s, start, labels, a, t) && t.run.Some?
    ensures Underway(s.world, Exec(s, start).run.value, a, t)
  {
    DecisionFits(s, start);
    RunStaysUnderway(s.world, Exec(s, start).run.value, a, Exec(s, start), labels, t);
  }

  /**
   Whatever a run was cut off before: the store is the one before it but for the run's own record, which holds the run's
   settings and answers as far as it came and what it held before otherwise; the VMs are those before it and its own.
   */
  lemma WhatARunLeaves(s: Sys, start: Label, labels: seq<Label>, a: Answers, t: Sys)
    requires OneRunOf(s, start, labels, a, t) && t.run.Some?
    ensures var d, phase := Exec(s, start).run.value, t.run.value.phase;
      && (d.reuse ==> d.boxRecord.Some?)
      && t.world == World(StoreAt(s.world.store, d, a, phase), VMsAt(s.world.vms, d, a, phase))
  {
    RunIsUnderway(s, start, labels, a, t);
  }

  /** The run's record, once it has written one. */
  lemma RecordLeft(s: Sys, start: Label, labels: seq<Label>, a: Answers, t: Sys)
    requires OneRunOf(s, start, labels, a, t) && t.run.Some? && t.run.value.phase != Decided
    ensures var d, phase := Exec(s, start).run.value, t.run.value.phase;
      && Fit(Continued(s.world.store, d), d) && d.cfg == start.cfg && d.depID == t.run.value.depID
      && (phase.Reserved? || phase.Created? || phase.Acknowledged? ==> Provisions(d))
      && d.depID in t.world.store
      && t.world.store[d.depID] == RecordAt(Continued(s.world.store, d), d, a, phase)
  {
    RunIsUnderway(s, start, labels, a, t);
    DecisionHasSettings(s, start);
  }

  lemma DecisionHasSettings(s: Sys, start: Label)
    requires Enabled(s, start) && start.Start?
    ensures Exec(s, start).run.value.cfg == start.cfg
  {
  }

  /** A run that dies leaves just that; one that fails adds its message to its record. */
  lemma WhatADeadRunLeaves(s: Sys, start: Label, labels: seq<Label>, a: Answers, t: Sys, last: Label)
    requires OneRunOf(s, start, labels, a, t) && Enabled(t, last) && (last.Crash? || last.Fail?)
    ensures Exec(t, last).run == None
    ensures last.Crash? ==> Exec(t, last).world == t.world
    ensures last.Fail? ==>
      var id, store := Exec(s, start).run.value.depID, t.world.store;
      id in store && Exec(t, last).world == World(store[id := store[id].(lastError := last.message)], t.world.vms)
  {
    RunIsUnderway(s, start, labels, a, t);
    if last.Fail? { FailureIsNoted(s.world, Exec(s, start).run.value, a, t, last); }
  }

  lemma FailureIsNoted(w: World, d: RunState, a: Answers, t: Sys, last: Label)
    requires Underway(w, d, a, t) && Enabled(t, last) && last.Fail?
    ensures var store := t.world.store;
      d.depID in store && Exec(t, last).world == World(store[d.depID := store[d.depID].(lastError := last.message)], t.world.vms)
  {
    assert t.world.store[d.depID].id == d.depID;
  }

  /** An error is noted from the box record on, and never before: the record may be a previous deploy's until then. */
  lemma ErrorsAreNotedFromTheBoxOn(s: Sys, start: Label, labels: seq<Label>, a: Answers, t: Sys, message: string)
    requires OneRunOf(s, start, labels, a, t) && t.run.Some?
    ensures Enabled(t, Fail(message)) <==> HasBox(t.run.value.phase)
    ensures !HasBox(t.run.value.phase) && Exec(s, start).run.value.depID in s.world.store ==>
      var id := Exec(s, start).run.value.depID;
      id in t.world.store && t.world.store[id].lastError == s.world.store[id].lastError
  {
    RunIsUnderway(s, start, labels, a, t);
  }

  // ---- every run has its answers ----

  function Heard(a: Answers, l: Label): Answers {
    match l
    case Start(_, _, newID, newConn) => a.(newID := newID, newConn := newConn)
    case Reserve(name, now) => a.(name := name, reservedAt := now)
    case Create(instance, host) => a.(instance := instance, host := host)
    case Acknowledge(written, hostKnown) => a.(written := written, hostKnown := hostKnown)
    case RecordBox(now) => a.(recordedAt := now)
    case Pair(agent, written) => a.(agent := agent, paired := written)
    case _ => a
  }

  /** The answers given before the phase are the same. */
  predicate SameUntil(phase: Phase, a: Answers, b: Answers) {
    && a.newID == b.newID && a.newConn == b.newConn
    && (phase != Decided ==> a.name == b.name && a.reservedAt == b.reservedAt)
    && (phase != Decided && phase != Reserved ==> a.instance == b.instance && a.host == b.host)
    && (phase.Acknowledged? || HasBox(phase) ==> a.written == b.written && a.hostKnown == b.hostKnown)
    && (HasBox(phase) ==> a.recordedAt == b.recordedAt)
    && (phase.Paired? || phase.Finished? ==> a.agent == b.agent && a.paired == b.paired)
  }

  lemma OneAnswer(s: Sys, l: Label, given: Answers, a: Answers)
    requires Enabled(s, l) && !l.Start? && Exec(s, l).run.Some?
    requires SameUntil(Exec(s, l).run.value.phase, a, Heard(given, l))
    ensures Says(a, l) && SameUntil(s.run.value.phase, a, given)
  {
  }

  lemma {:induction false} StepsHaveAnswers(s: Sys, labels: seq<Label>, t: Sys, given: Answers) returns (a: Answers)
    requires s.run.Some? && Continues(s, labels, t)
    ensures forall i :: 0 <= i < |labels| ==> Says(a, labels[i])
    ensures SameUntil(s.run.value.phase, a, given)
    decreases |labels|
  {
    if labels == [] { return given; }
    var m := Exec(s, labels[0]);
    if m.run.None? {
      DeadStaysDead(m, labels[1..], t);
      return Heard(given, labels[0]);
    }
    a := StepsHaveAnswers(m, labels[1..], t, Heard(given, labels[0]));
    OneAnswer(s, labels[0], given, a);
    assert forall i :: 0 < i < |labels| ==> labels[i] == labels[1..][i - 1];
  }

  /** Each label comes once in a run, so any run is one of some answers. */
  lemma EveryRunHasAnswers(s: Sys, start: Label, labels: seq<Label>, t: Sys) returns (a: Answers)
    requires Inv(s) && start.Start? && Enabled(s, start) && Continues(Exec(s, start), labels, t)
    ensures OneRunOf(s, start, labels, a, t)
  {
    a := StepsHaveAnswers(Exec(s, start), labels, t, Answers(start.newID, start.newConn, "", "", "", false, false, "", false, 0, 0));
  }
}
