/**
 When a VM is lost. A run writes one record; what it writes over the handles found there decides. The condition is exact
 for every store a sequence of runs can leave behind, and it composes: it is enough, and needed, at every start.
 */
module LostVM {
  import opened Wrappers
  import opened Records
  import opened Text
  import opened Targeting
  import opened Lifecycle
  import opened LifecycleInvariants
  import opened Handles

  ghost predicate NamedElsewhere(w: World, id: string, v: VM) {
    exists o :: o in w.store && o != id && Names(w.store[o], v)
  }

  /**
   The run writes handles that name v, if its own record names it now: a run that creates a VM replaces both handles, a
   run that re-uses a box writes those of the box's record, and an ssh run leaves them.
   */
  predicate KeepsName(st: RunState, v: VM) {
    !Provisions(st) && (st.reuse ==> st.boxRecord.Some? && Names(st.boxRecord.value, v))
  }

  /** Every VM that the record to be written names, by either handle, is kept or named by another record. */
  ghost predicate SafeStart(w: World, st: RunState) {
    forall v | v in w.vms && st.depID in w.store && Names(w.store[st.depID], v) ::
      KeepsName(st, v) || NamedElsewhere(w, st.depID, v)
  }

  // ---- safe starts lose nothing ----

  /** What a run after a safe start keeps: no VM needs a handle that the run still has to overwrite. */
  ghost predicate Covered(s: Sys) {
    && NoLostVM(s.world)
    && (s.run.Some? ==>
          var st := s.run.value;
          && (st.phase == Decided ==> SafeStart(s.world, st))
          && (st.phase in {Reserved, Created, Acknowledged} ==>
                forall v :: v in s.world.vms ==> v.name == st.resourceName || NamedElsewhere(s.world, st.depID, v)))
  }

  /** A write of one record: a VM stays named if the new record names it or another record does. */
  lemma WriteKeepsNames(w: World, id: string, rec: Deployment)
    requires forall v :: v in w.vms ==> Names(rec, v) || NamedElsewhere(w, id, v)
    ensures NoLostVM(Write(w, id, rec))
    ensures forall v :: v in w.vms && NamedElsewhere(w, id, v) ==> NamedElsewhere(Write(w, id, rec), id, v)
  {
    var w' := Write(w, id, rec);
    forall v | v in w.vms && NamedElsewhere(w, id, v) ensures NamedElsewhere(w', id, v) {
      var o :| o in w.store && o != id && Names(w.store[o], v);
      assert Names(w'.store[o], v);
    }
    forall v | v in w'.vms ensures exists o :: o in w'.store && Names(w'.store[o], v) {
      if Names(rec, v) {
        assert Names(w'.store[id], v);
      }
    }
  }

  lemma NamedHereOrElsewhere(w: World, id: string, v: VM)
    requires NoLostVM(w) && v in w.vms
    ensures NamedElsewhere(w, id, v) || (id in w.store && Names(w.store[id], v))
  {
  }

  lemma ReserveKeepsCover(s: Sys, l: Label)
    requires Inv(s) && Covered(s) && Enabled(s, l) && l.Reserve?
    ensures Covered(Exec(s, l))
  {
    var st, w := s.run.value, s.world;
    forall v | v in w.vms ensures NamedElsewhere(w, st.depID, v) {
      NamedHereOrElsewhere(w, st.depID, v);
    }
    WriteKeepsNames(w, st.depID, PendingMutation(Load(w.store, st.depID), st, l.name, l.now));
  }

  lemma CreateKeepsCover(s: Sys, l: Label)
    requires Inv(s) && Covered(s) && Enabled(s, l) && l.Create?
    ensures Covered(Exec(s, l))
  {
    var st, w, w' := s.run.value, s.world, Exec(s, l).world;
    forall v | v in w'.vms ensures v.name == st.resourceName || NamedElsewhere(w', st.depID, v) {
      if v in w.vms && NamedElsewhere(w, st.depID, v) {
        var o :| o in w.store && o != st.depID && Names(w.store[o], v);
        assert Names(w'.store[o], v);
      }
    }
    assert forall v :: v in w'.vms && v.name == st.resourceName ==> Names(w'.store[st.depID], v);
  }

  lemma PendingWriteKeepsCover(w: World, st: RunState, rec: Deployment)
    requires st.resourceName == rec.resourceName
    requires forall v :: v in w.vms ==> v.name == st.resourceName || NamedElsewhere(w, st.depID, v)
    ensures NoLostVM(Write(w, st.depID, rec))
    ensures forall v :: v in w.vms ==> v.name == st.resourceName || NamedElsewhere(Write(w, st.depID, rec), st.depID, v)
  {
    WriteKeepsNames(w, st.depID, rec);
  }

  /** The box record of a run that created no VM: the box's handles, or the ones that were there. */
  lemma KnownBoxKeepsNames(w: World, st: RunState, rec: Deployment, now: int)
    requires Sound(w) && RunInv(w, st) && st.phase == Decided && !Provisions(st)
    requires NoLostVM(w) && SafeStart(w, st)
    requires rec == BoxMutation(Load(w.store, st.depID), ReuseHandles(st), now)
    ensures NoLostVM(Write(w, st.depID, rec))
  {
    forall v | v in w.vms ensures Names(rec, v) || NamedElsewhere(w, st.depID, v) {
      NamedHereOrElsewhere(w, st.depID, v);
      if st.depID in w.store {
        assert RecordOK(st.depID, w.store[st.depID]);
      }
    }
    WriteKeepsNames(w, st.depID, rec);
  }

  lemma RecordBoxKeepsCover(s: Sys, l: Label)
    requires Inv(s) && Covered(s) && Enabled(s, l) && l.RecordBox?
    ensures Covered(Exec(s, l))
  {
    var st, w := s.run.value, s.world;
    var rec := BoxMutation(Load(w.store, st.depID), ReuseHandles(st), l.now);
    if Provisions(st) {
      PendingWriteKeepsCover(w, st, rec);
    } else {
      KnownBoxKeepsNames(w, st, rec, l.now);
    }
  }

  lemma SameHandlesKeepNames(w: World, id: string, rec: Deployment)
    requires NoLostVM(w) && id in w.store
    requires rec.instanceId == w.store[id].instanceId && rec.resourceName == w.store[id].resourceName
    ensures NoLostVM(Write(w, id, rec))
  {
    forall v | v in w.vms ensures Names(rec, v) || NamedElsewhere(w, id, v) {
      NamedHereOrElsewhere(w, id, v);
    }
    WriteKeepsNames(w, id, rec);
  }

  lemma ExecKeepsCover(s: Sys, l: Label)
    requires Inv(s) && Covered(s) && Enabled(s, l)
    requires l.Start? ==> SafeStart(s.world, Exec(s, l).run.value)
    ensures Covered(Exec(s, l))
  {
    match l
    case Start(_, _, _, _) =>
    case Crash =>
    case Reserve(_, _) => ReserveKeepsCover(s, l);
    case Create(_, _) => CreateKeepsCover(s, l);
    case Acknowledge(written, hostKnown) =>
      var st, w := s.run.value, s.world;
      if written {
        PendingWriteKeepsCover(w, st, InstanceMutation(w.store[st.depID], st.instance, if hostKnown then st.host else ""));
      }
    case RecordBox(_) => RecordBoxKeepsCover(s, l);
    case Pair(_, _) =>
      var st, w := s.run.value, s.world;
      SameHandlesKeepNames(w, st.depID, PairMutation(w.store[st.depID], FirstNonEmpty(st.boxAgent, l.newAgent)));
    case Finalize =>
      var st, w := s.run.value, s.world;
      SameHandlesKeepNames(w, st.depID, FinalMutation(w.store[st.depID], st));
    case Fail(message) =>
      var st, w := s.run.value, s.world;
      SameHandlesKeepNames(w, st.depID, w.store[st.depID].(lastError := message));
  }

  /** Sequences of runs in which every start is safe. */
  ghost predicate SafeRuns(s: Sys, labels: seq<Label>, t: Sys)
    decreases |labels|
  {
    if labels == [] then s == t
    else
      && Enabled(s, labels[0])
      && (labels[0].Start? ==> SafeStart(s.world, Exec(s, labels[0]).run.value))
      && SafeRuns(Exec(s, labels[0]), labels[1..], t)
  }

  lemma {:induction false} SafeRunsKeepCover(s: Sys, labels: seq<Label>, t: Sys)
    requires Inv(s) && Covered(s) && SafeRuns(s, labels, t)
    ensures Inv(t) && Covered(t)
    decreases |labels|
  {
    if labels != [] {
      ExecKeepsInv(s, labels[0]);
      ExecKeepsCover(s, labels[0]);
      SafeRunsKeepCover(Exec(s, labels[0]), labels[1..], t);
    }
  }

  /** No lost VM: after any sequence of runs, cut off anywhere, whose starts were safe, a record names every VM. */
  lemma SafeRunsLoseNothing(labels: seq<Label>, t: Sys)
    requires SafeRuns(EMPTY, labels, t)
    ensures NoLostVM(t.world)
  {
    SafeRunsKeepCover(EMPTY, labels, t);
  }

  // ---- careful runs are safe ----

  lemma CarefulStartIsSafe(s: Sys, l: Label)
    requires CarefulInv(s) && Careful(s, l) && l.Start?
    ensures SafeStart(s.world, Exec(s, l).run.value)
  {
    var st, w := Exec(s, l).run.value, s.world;
    StartEstablishesRunInv(s, l);
    forall v | v in w.vms && st.depID in w.store && Names(w.store[st.depID], v) ensures KeepsName(st, v) {
      assert RecordOK(st.depID, w.store[st.depID]);
      if st.reuse {
        var b := st.boxRecord.value;
        var u :| u in w.vms && Describes(w.store[b.id], u);
        if st.prior.Some? && w.store[st.depID].provider.Managed? {
          var mine :| mine in w.vms && Describes(w.store[st.depID], mine);
          assert Overlap(u, mine) && Overlap(mine, v);
        }
      }
    }
  }

  lemma {:induction false} HistoriesAreSafe(s: Sys, labels: seq<Label>, t: Sys)
    requires CarefulInv(s) && History(s, labels, t)
    ensures SafeRuns(s, labels, t)
    decreases |labels|
  {
    if labels != [] {
      if labels[0].Start? {
        CarefulStartIsSafe(s, labels[0]);
      }
      ExecKeepsCarefulInv(s, labels[0]);
      HistoriesAreSafe(Exec(s, labels[0]), labels[1..], t);
    }
  }

  /** Over careful runs, however many died wherever, some record names every VM they created. */
  lemma NoVMIsEverLost(labels: seq<Label>, t: Sys, v: VM)
    requires History(EMPTY, labels, t) && v in t.world.vms
    ensures exists id :: id in t.world.store && Names(t.world.store[id], v)
  {
    HistoriesAreSafe(EMPTY, labels, t);
    SafeRunsLoseNothing(labels, t);
  }

  // ---- and only safe starts lose nothing ----

  /** Wherever the run in progress is cut off, a record names every VM. */
  ghost predicate NothingCanBeLost(s: Sys) {
    forall labels, t | Continues(s, labels, t) :: NoLostVM(t.world)
  }

  lemma {:induction false} ContinuesSafely(s: Sys, labels: seq<Label>, t: Sys)
    requires Continues(s, labels, t)
    ensures SafeRuns(s, labels, t)
    decreases |labels|
  {
    if labels != [] {
      ContinuesSafely(Exec(s, labels[0]), labels[1..], t);
    }
  }

  function Xs(n: nat): string {
    seq(n, _ => 'x')
  }

  /** A name nothing in the world carries. */
  lemma {:induction false} Longer(used: set<string>) returns (n: nat)
    ensures n > 0 && forall s :: s in used ==> |s| < n
    decreases used
  {
    if used == {} {
      return 1;
    }
    var s :| s in used;
    var m := Longer(used - {s});
    n := if |s| < m then m else |s| + 1;
    forall u | u in used ensures |u| < n {
      assert u == s || u in used - {s};
    }
  }

  lemma UnusedName(w: World) returns (x: string)
    ensures FreshName(w, x) && FreshVM(w, x, x)
  {
    var records := (set id | id in w.store :: w.store[id].resourceName) + (set id | id in w.store :: w.store[id].instanceId) +
      (set id | id in w.store :: w.store[id].host);
    var vms := (set v | v in w.vms :: v.name) + (set v | v in w.vms :: v.instance) + (set v | v in w.vms :: v.host);
    var n := Longer(records + vms);
    x := Xs(n);
    assert x[0] == 'x' && !IsSpace('x');
    assert forall id :: id in w.store ==>
      w.store[id].resourceName in records && w.store[id].instanceId in records && w.store[id].host in records;
    assert forall v :: v in w.vms ==> v.name in vms && v.instance in vms && v.host in vms;
  }

  /** The run creates its VM and records the acknowledgement, under one unused name for everything. */
  lemma Acknowledging(s: Sys, x: string) returns (labels: seq<Label>, t: Sys)
    requires Inv(s) && s.run.Some? && s.run.value.phase == Decided && Provisions(s.run.value)
    requires FreshName(s.world, x) && FreshVM(s.world, x, x)
    ensures Continues(s, labels, t)
    ensures var id := s.run.value.depID;
      && t.world.vms >= s.world.vms
      && (forall o :: o in t.world.store && o != id ==> o in s.world.store && t.world.store[o] == s.world.store[o])
      && id in t.world.store && t.world.store[id].resourceName == x && t.world.store[id].instanceId == x
  {
    var l1, l2, l3 := Reserve(x, 0), Create(x, x), Lifecycle.Label.Acknowledge(true, true);
    var s1 := Exec(s, l1);
    assert FreshVM(s1.world, x, x) by {
      assert s1.world.vms == s.world.vms;
      if s.run.value.prior.Some? {
        assert s.run.value.depID in s.world.store;
      }
    }
    var s2 := Exec(s1, l2);
    t := Exec(s2, l3);
    labels := [l1, l2, l3];
    assert labels[1..] == [l2, l3] && [l2, l3][1..] == [l3] && [l3][1..] == [];
    assert Continues(t, [], t) && Continues(s2, [l3], t) && Continues(s1, [l2, l3], t);
  }

  /** After an unsafe start the run can go on to leave a VM that no record names. */
  lemma UnsafeStartCanLose(s: Sys) returns (labels: seq<Label>, t: Sys)
    requires Inv(s) && s.run.Some? && s.run.value.phase == Decided && !SafeStart(s.world, s.run.value)
    ensures Continues(s, labels, t) && !NoLostVM(t.world)
  {
    var st, w := s.run.value, s.world;
    var v :| v in w.vms && st.depID in w.store && Names(w.store[st.depID], v) && !KeepsName(st, v) &&
             !NamedElsewhere(w, st.depID, v);
    if Provisions(st) {
      var x := UnusedName(w);
      labels, t := Acknowledging(s, x);
    } else {
      var l := RecordBox(0);
      labels, t := [l], Exec(s, l);
      assert labels[1..] == [] && Continues(t, [], t);
    }
    assert v in t.world.vms;
    forall o | o in t.world.store ensures !Names(t.world.store[o], v) {
      if o != st.depID {
        assert o in w.store && t.world.store[o] == w.store[o];
      }
    }
  }

  /** A start is safe exactly when its run, wherever it is cut off, leaves every VM named. */
  lemma SafeStartIsExact(s: Sys, l: Label)
    requires Inv(s) && NoLostVM(s.world) && Enabled(s, l) && l.Start?
    ensures SafeStart(s.world, Exec(s, l).run.value) <==> NothingCanBeLost(Exec(s, l))
  {
    var started := Exec(s, l);
    ExecKeepsInv(s, l);
    if SafeStart(s.world, started.run.value) {
      forall labels, t | Continues(started, labels, t) ensures NoLostVM(t.world) {
        ContinuesSafely(started, labels, t);
        SafeRunsKeepCover(started, labels, t);
      }
    } else {
      var labels, t := UnsafeStartCanLose(started);
    }
  }

  /** No run of the sequence can lose a VM, wherever it is cut off. */
  ghost predicate NeverLoses(s: Sys, labels: seq<Label>)
    decreases |labels|
  {
    labels != [] && Enabled(s, labels[0]) ==>
      && (labels[0].Start? ==> NothingCanBeLost(Exec(s, labels[0])))
      && NeverLoses(Exec(s, labels[0]), labels[1..])
  }

  lemma {:induction false} SafeExactlyWhenNothingIsLost(s: Sys, labels: seq<Label>, t: Sys)
    requires Inv(s) && Covered(s) && Runs(s, labels, t)
    ensures SafeRuns(s, labels, t) <==> NeverLoses(s, labels)
    decreases |labels|
  {
    if labels != [] {
      var l := labels[0];
      ExecKeepsInv(s, l);
      if l.Start? {
        SafeStartIsExact(s, l);
      }
      if l.Start? ==> SafeStart(s.world, Exec(s, l).run.value) {
        ExecKeepsCover(s, l);
        SafeExactlyWhenNothingIsLost(Exec(s, l), labels[1..], t);
      }
    }
  }

  /** Over whole sequences of runs: no run can lose a VM exactly when every start is safe. */
  lemma OnlySafeRunsLoseNothing(labels: seq<Label>, t: Sys)
    requires Runs(EMPTY, labels, t)
    ensures SafeRuns(EMPTY, labels, t) <==> NeverLoses(EMPTY, labels)
  {
    SafeExactlyWhenNothingIsLost(EMPTY, labels, t);
  }

  // ---- a concrete history that loses a VM ----

  const DO: Provider := Managed("digitalocean")
  const AGAIN: Config := Config(DO, "10.0.0.1", true, "shop", "p1", MySQL, false, "")
  const SERVING: Deployment :=
    Deployment("shop-1", DO, "i-1", "nuzur-shop-a", false, "10.0.0.1", "shop", "p1", "agent-1", "conn-1", "", MySQL, false,
               2, Finalized, "")

  const OLD_VM: VM := VM("nuzur-shop-a", "i-1", "10.0.0.1", DO, "p1", "shop")
  const SERVING_WORLD: Sys := Sys(World(map["shop-1" := SERVING], {OLD_VM}), None)
  const NEW_VM_START: Label := Start(AGAIN, [SERVING], "shop-2", "conn-2")

  /**
   `deploy --deployment shop-1 --new-vm`: the record's host is adopted, so the pending record of the new VM
   is written over the only record of the old one.
   */
  lemma NewVMOnARecordedHostLosesTheOldOne()
    ensures WorldInv(SERVING_WORLD.world) && Enabled(SERVING_WORLD, NEW_VM_START)
    ensures exists labels: seq<Label>, t: Sys :: Continues(Exec(SERVING_WORLD, NEW_VM_START), labels, t) && !NoLostVM(t.world)
  {
    ServingWorldIsSound();
    DecidesToOverwrite();
    var st := Exec(SERVING_WORLD, NEW_VM_START).run.value;
    assert Names(SERVING, OLD_VM) && !NamedElsewhere(SERVING_WORLD.world, "shop-1", OLD_VM);
    assert !SafeStart(SERVING_WORLD.world, st);
    SafeStartIsExact(SERVING_WORLD, NEW_VM_START);
  }

  lemma ServingWorldIsSound()
    ensures WorldInv(SERVING_WORLD.world)
  {
    assert !IsSpace("shop"[0]) && !IsSpace("10.0.0.1"[0]);
    assert Describes(SERVING, OLD_VM) && Names(SERVING_WORLD.world.store["shop-1"], OLD_VM);
  }

  lemma DecidesToOverwrite()
    ensures Enabled(SERVING_WORLD, NEW_VM_START)
    ensures var st := Exec(SERVING_WORLD, NEW_VM_START).run.value;
      Provisions(st) && st.prior == Some(SERVING) && st.depID == "shop-1" && st.phase == Decided && st.cfg == AGAIN
  {
    var managed, prior := ManagedBoxTest("p1", "shop"), PriorTest("10.0.0.1", "shop");
    assert [SERVING][..0] == [];
    assert Latest([SERVING], managed) == Some(SERVING) && Latest([SERVING], prior) == Some(SERVING);
    assert !IsSpace("shop"[0]) && !IsSpace("10.0.0.1"[0]);
    assert "conn-2"[5] != "conn-1"[5] && "shop-2"[5] != "shop-1"[5];
    assert Lists([SERVING], SERVING_WORLD.world.store);
  }
}
