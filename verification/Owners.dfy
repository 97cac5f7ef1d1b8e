/** Who loads a frontend file, and whose it is (codescan/extract_frontend.go). */
module Owners {
  type Unit = string

  // ---- every unit whose pages load a file ----

  datatype Include = Include(from: nat, to: nat)

  predicate Known(includes: seq<Include>, files: nat) {
    forall i :: 0 <= i < |includes| ==> includes[i].from < files && includes[i].to < files
  }

  /** Consecutive files of `p` are linked by an include. */
  ghost predicate IsPath(includes: seq<Include>, p: seq<nat>) {
    p != [] && forall i :: 0 < i < |p| ==> Include(p[i - 1], p[i]) in includes
  }

  /** Some file the unit renders or names reaches `f` along includes. */
  ghost predicate Loads(includes: seq<Include>, direct: seq<set<Unit>>, unit: Unit, f: nat) {
    exists p: seq<nat> :: IsPath(includes, p) && p[0] < |direct| && unit in direct[p[0]] && p[|p| - 1] == f
  }

  ghost predicate OnlyLoaders(includes: seq<Include>, direct: seq<set<Unit>>, owners: seq<set<Unit>>) {
    forall f, u :: 0 <= f < |owners| && u in owners[f] ==> Loads(includes, direct, u, f)
  }

  ghost predicate Grown(direct: seq<set<Unit>>, owners: seq<set<Unit>>) {
    |owners| == |direct| && forall f :: 0 <= f < |direct| ==> direct[f] <= owners[f]
  }

  /** What every pass keeps: the direct owners stay, nobody but a loader is added, and only known units occur. */
  ghost predicate Sound(includes: seq<Include>, direct: seq<set<Unit>>, owners: seq<set<Unit>>, all: set<Unit>) {
    && Grown(direct, owners)
    && OnlyLoaders(includes, direct, owners)
    && forall f :: 0 <= f < |owners| ==> owners[f] <= all
  }

  predicate ClosedUpTo(includes: seq<Include>, owners: seq<set<Unit>>, n: nat)
    requires Known(includes, |owners|) && n <= |includes|
  {
    forall i :: 0 <= i < n ==> owners[includes[i].from] <= owners[includes[i].to]
  }

  predicate Closed(includes: seq<Include>, owners: seq<set<Unit>>)
    requires Known(includes, |owners|)
  {
    ClosedUpTo(includes, owners, |includes|)
  }

  /** The (file, unit) pairs still missing. */
  ghost function Missing(owners: seq<set<Unit>>, all: set<Unit>): set<(nat, Unit)> {
    set f: nat, u | f < |owners| && u in all && u !in owners[f] :: (f, u)
  }

  lemma GrowingLowersMissing(owners: seq<set<Unit>>, all: set<Unit>, f: nat, more: set<Unit>)
    requires f < |owners| && owners[f] < more <= all
    ensures Missing(owners[f := more], all) < Missing(owners, all)
  {
    var u :| u in more && u !in owners[f];
    assert (f, u) in Missing(owners, all) && (f, u) !in Missing(owners[f := more], all);
  }

  lemma ExtendPath(includes: seq<Include>, direct: seq<set<Unit>>, u: Unit, inc: Include)
    requires inc in includes && Loads(includes, direct, u, inc.from)
    ensures Loads(includes, direct, u, inc.to)
  {
    var p: seq<nat> :| IsPath(includes, p) && p[0] < |direct| && u in direct[p[0]] && p[|p| - 1] == inc.from;
    var q := p + [inc.to];
    assert IsPath(includes, q) && q[0] == p[0] && q[|q| - 1] == inc.to;
  }

  lemma {:induction false} ClosedContainsLoaders(includes: seq<Include>, owners: seq<set<Unit>>, p: seq<nat>, u: Unit)
    requires Known(includes, |owners|) && Closed(includes, owners)
    requires IsPath(includes, p) && p[0] < |owners| && u in owners[p[0]]
    ensures p[|p| - 1] < |owners| && u in owners[p[|p| - 1]]
    decreases |p|
  {
    if |p| > 1 {
      assert Include(p[0], p[1]) in includes;
      var rest := p[1..];
      forall i | 0 < i < |rest| ensures Include(rest[i - 1], rest[i]) in includes {
        assert Include(p[i], p[i + 1]) in includes;
      }
      ClosedContainsLoaders(includes, owners, rest, u);
    }
  }

  /** A closed set that holds the direct owners and only loaders holds exactly the loaders. */
  lemma ClosureIsReachability(includes: seq<Include>, direct: seq<set<Unit>>, owners: seq<set<Unit>>)
    requires Known(includes, |owners|) && Closed(includes, owners) && Grown(direct, owners) && OnlyLoaders(includes, direct, owners)
    ensures forall f, u :: 0 <= f < |owners| ==> (u in owners[f] <==> Loads(includes, direct, u, f))
  {
    forall f, u | 0 <= f < |owners| && Loads(includes, direct, u, f) ensures u in owners[f] {
      var p: seq<nat> :| IsPath(includes, p) && p[0] < |direct| && u in direct[p[0]] && p[|p| - 1] == f;
      ClosedContainsLoaders(includes, owners, p, u);
    }
  }

  /** One include: the owners of the including file are copied, unit by unit. */
  method PropagateInclude(inc: Include, owners: array<set<Unit>>) returns (changed: bool)
    requires inc.from < owners.Length && inc.to < owners.Length
    modifies owners
    ensures owners[..] == old(owners[..])[inc.to := old(owners[inc.to]) + old(owners[inc.from])]
    ensures changed <==> !(old(owners[inc.from]) <= old(owners[inc.to]))
  {
    changed := false;
    ghost var from, to := owners[inc.from], owners[inc.to];
    var left := owners[inc.from];
    while left != {}
      invariant left <= from
      invariant owners[inc.to] == to + (from - left)
      invariant forall f :: 0 <= f < owners.Length && f != inc.to ==> owners[f] == old(owners[f])
      invariant changed <==> !(from - left <= to)
    {
      var o :| o in left;
      if o !in owners[inc.to] {
        owners[inc.to] := owners[inc.to] + {o};
        changed := true;
      }
      left := left - {o};
    }
    assert from - left == from;
  }

  /**
   The loop of extractFrontend: it ends, and a unit owns a file exactly when a file the unit renders or names
   reaches it, in whatever order the includes are listed.
   */
  method PropagateOwners(includes: seq<Include>, owners: array<set<Unit>>)
    requires Known(includes, owners.Length)
    modifies owners
    ensures forall f, u :: 0 <= f < owners.Length ==> (u in owners[f] <==> Loads(includes, old(owners[..]), u, f))
  {
    ghost var direct := owners[..];
    ghost var all := set f, u | 0 <= f < |direct| && u in direct[f] :: u;
    DirectOwnersLoad(includes, direct);
    var changed := true;
    while changed
      invariant Sound(includes, direct, owners[..], all)
      invariant !changed ==> Closed(includes, owners[..])
      decreases Missing(owners[..], all), changed
    {
      changed := PropagateOnce(includes, owners, direct, all);
    }
    ClosureIsReachability(includes, direct, owners[..]);
  }

  lemma DirectOwnersLoad(includes: seq<Include>, direct: seq<set<Unit>>)
    ensures OnlyLoaders(includes, direct, direct)
  {
    forall f, u | 0 <= f < |direct| && u in direct[f] ensures Loads(includes, direct, u, f) {
      assert IsPath(includes, [f]) && [f][0] == f;
    }
  }

  /** One include copied keeps everything the loop needs. */
  lemma CopyKeepsSound(includes: seq<Include>, direct: seq<set<Unit>>, before: seq<set<Unit>>, inc: Include, all: set<Unit>)
    requires inc in includes && inc.from < |before| && inc.to < |before|
    requires Sound(includes, direct, before, all)
    ensures Sound(includes, direct, before[inc.to := before[inc.to] + before[inc.from]], all)
  {
    var after := before[inc.to := before[inc.to] + before[inc.from]];
    forall f, u | 0 <= f < |after| && u in after[f] ensures Loads(includes, direct, u, f) {
      if u !in before[f] {
        assert f == inc.to && u in before[inc.from];
        ExtendPath(includes, direct, u, inc);
      }
    }
  }

  /** One pass over the includes, in their order, in place. */
  method PropagateOnce(includes: seq<Include>, owners: array<set<Unit>>, ghost direct: seq<set<Unit>>, ghost all: set<Unit>)
    returns (changed: bool)
    requires Known(includes, owners.Length)
    requires Sound(includes, direct, owners[..], all)
    modifies owners
    ensures Sound(includes, direct, owners[..], all)
    ensures if changed then Missing(owners[..], all) < Missing(old(owners[..]), all)
            else owners[..] == old(owners[..]) && Closed(includes, owners[..])
  {
    changed := false;
    ghost var start := owners[..];
    ghost var now := start;
    for i := 0 to |includes|
      invariant now == owners[..] && |now| == |start|
      invariant Sound(includes, direct, now, all)
      invariant changed ==> Missing(now, all) < Missing(start, all)
      invariant !changed ==> now == start && ClosedUpTo(includes, start, i)
    {
      var inc := includes[i];
      CopyKeepsSound(includes, direct, now, inc, all);
      var grew := PropagateInclude(inc, owners);
      if grew {
        GrowingLowersMissing(now, all, inc.to, now[inc.to] + now[inc.from]);
        changed := true;
      } else {
        assert now[inc.to] + now[inc.from] == now[inc.to];
      }
      now := now[inc.to := now[inc.to] + now[inc.from]];
    }
  }
}
