/** The one unit a frontend file belongs to, if any (codescan/extract_frontend.go, primaryOwners). */
module PrimaryOwner {
  type Unit = string

  const NO_OWNER: Unit := ""
  const ROUNDS: nat := 20

  /** What ties a file to a unit: a unit that renders or names it, or a file that includes it. */
  datatype Source = FromUnit(unit: Unit) | FromFile(file: nat)

  /** Files are numbered; `calls[f]` lists the units whose routes file f calls. */
  datatype Graph = Graph(sources: seq<seq<Source>>, calls: seq<seq<Unit>>)

  predicate WellFormed(g: Graph) {
    && |g.calls| == |g.sources|
    && forall f, i :: 0 <= f < |g.sources| && 0 <= i < |g.sources[f]| && g.sources[f][i].FromFile? ==>
      g.sources[f][i].file < |g.sources|
  }

  // ---- scores ----

  predicate InRange(sources: seq<Source>, files: nat) {
    forall i :: 0 <= i < |sources| && sources[i].FromFile? ==> sources[i].file < files
  }

  /** Whether one source speaks for unit u: a file without an owner speaks for nobody. */
  predicate SpeaksFor(src: Source, owner: seq<Unit>, u: Unit)
    requires src.FromFile? ==> src.file < |owner|
  {
    match src
    case FromUnit(v) => u == v
    case FromFile(j) => owner[j] == u && u != NO_OWNER
  }

  function Ties(sources: seq<Source>, owner: seq<Unit>, u: Unit): nat
    requires InRange(sources, |owner|)
  {
    if sources == [] then 0
    else
      var front := sources[..|sources| - 1];
      Ties(front, owner, u) + if SpeaksFor(sources[|sources| - 1], owner, u) then 1 else 0
  }

  function Score(sources: seq<Source>, calls: seq<Unit>, owner: seq<Unit>, u: Unit): nat
    requires InRange(sources, |owner|)
  {
    2 * Ties(sources, owner, u) + if u in calls then 1 else 0
  }

  /** The places in the list where u renders or names the file, or owns a file that includes it. */
  function TieSet(sources: seq<Source>, owner: seq<Unit>, u: Unit): set<nat>
    requires InRange(sources, |owner|)
  {
    set i: nat | i < |sources| && (sources[i] == FromUnit(u) || (u != "" && sources[i].FromFile? && owner[sources[i].file] == u))
  }

  lemma {:induction false} TiesCount(sources: seq<Source>, owner: seq<Unit>, u: Unit)
    requires InRange(sources, |owner|)
    ensures Ties(sources, owner, u) == |TieSet(sources, owner, u)|
  {
    if sources != [] {
      var n := |sources| - 1;
      TiesCount(sources[..n], owner, u);
      var added: set<nat> := if n in TieSet(sources, owner, u) then {n} else {};
      assert TieSet(sources, owner, u) == TieSet(sources[..n], owner, u) + added;
    }
  }

  /** Two points for every tie, and one for calling any of the unit's routes. */
  lemma ScoreCounts(sources: seq<Source>, calls: seq<Unit>, owner: seq<Unit>, u: Unit)
    requires InRange(sources, |owner|)
    ensures Score(sources, calls, owner, u) ==
      2 * |TieSet(sources, owner, u)| + if exists k :: 0 <= k < |calls| && calls[k] == u then 1 else 0
  {
    TiesCount(sources, owner, u);
  }

  /** u scores, and strictly more than every other unit. */
  ghost predicate Leads(sources: seq<Source>, calls: seq<Unit>, owner: seq<Unit>, u: Unit)
    requires InRange(sources, |owner|)
  {
    && Score(sources, calls, owner, u) > 0
    && forall v :: v != u ==> Score(sources, calls, owner, v) < Score(sources, calls, owner, u)
  }

  /** The unit that leads, or nobody when no unit does: no score at all, or a tie for the highest. */
  ghost predicate IsOwner(sources: seq<Source>, calls: seq<Unit>, owner: seq<Unit>, best: Unit)
    requires InRange(sources, |owner|)
  {
    || Leads(sources, calls, owner, best)
    || (best == NO_OWNER && forall u :: !Leads(sources, calls, owner, u))
  }

  lemma OwnerIsUnique(sources: seq<Source>, calls: seq<Unit>, owner: seq<Unit>, a: Unit, b: Unit)
    requires InRange(sources, |owner|)
    requires IsOwner(sources, calls, owner, a) && IsOwner(sources, calls, owner, b)
    ensures a == b
  {
  }

  /** Two assignments that agree on the including files give the same scores. */
  lemma {:induction false} TiesDependOnSources(sources: seq<Source>, a: seq<Unit>, b: seq<Unit>, u: Unit)
    requires InRange(sources, |a|) && InRange(sources, |b|)
    requires forall i :: 0 <= i < |sources| && sources[i].FromFile? ==> a[sources[i].file] == b[sources[i].file]
    ensures Ties(sources, a, u) == Ties(sources, b, u)
  {
    if sources != [] {
      TiesDependOnSources(sources[..|sources| - 1], a, b, u);
    }
  }

  lemma OwnerDependsOnSources(sources: seq<Source>, calls: seq<Unit>, a: seq<Unit>, b: seq<Unit>, best: Unit)
    requires InRange(sources, |a|) && InRange(sources, |b|)
    requires forall i :: 0 <= i < |sources| && sources[i].FromFile? ==> a[sources[i].file] == b[sources[i].file]
    requires IsOwner(sources, calls, a, best)
    ensures IsOwner(sources, calls, b, best)
  {
    forall u ensures Score(sources, calls, a, u) == Score(sources, calls, b, u) {
      TiesDependOnSources(sources, a, b, u);
    }
    if !Leads(sources, calls, a, best) {
      forall u ensures !Leads(sources, calls, b, u) {
        assert !Leads(sources, calls, a, u);
      }
    }
  }

  // ---- one file ----

  /** The score table of one file: an entry for every unit that scores, and no other. */
  method ScoreFile(sources: seq<Source>, calls: seq<Unit>, owner: array<Unit>) returns (score: map<Unit, nat>)
    requires InRange(sources, owner.Length)
    ensures forall u :: u in score <==> Score(sources, calls, owner[..], u) > 0
    ensures forall u :: u in score ==> score[u] == Score(sources, calls, owner[..], u)
  {
    score := map[];
    for i := 0 to |sources|
      invariant forall u :: u in score <==> Ties(sources[..i], owner[..], u) > 0
      invariant forall u :: u in score ==> score[u] == 2 * Ties(sources[..i], owner[..], u)
    {
      assert sources[..i + 1][..i] == sources[..i];
      var u := match sources[i] case FromUnit(v) => v case FromFile(j) => owner[j];
      if sources[i].FromUnit? || u != NO_OWNER {
        score := score[u := (if u in score then score[u] else 0) + 2];
      }
    }
    assert sources[..|sources|] == sources;
    var called := set i | 0 <= i < |calls| :: calls[i];
    var left := called;
    while left != {}
      invariant left <= called
      invariant forall u :: u in score <==> Ties(sources, owner[..], u) > 0 || u in called - left
      invariant forall u :: u in score ==>
        score[u] == 2 * Ties(sources, owner[..], u) + if u in called - left then 1 else 0
    {
      var u :| u in left;
      score := score[u := (if u in score then score[u] else 0) + 1];
      left := left - {u};
    }
  }

  /** The scan over the table, whatever the order of its keys. */
  method PickOwner(sources: seq<Source>, calls: seq<Unit>, owner: array<Unit>) returns (best: Unit)
    requires InRange(sources, owner.Length)
    ensures IsOwner(sources, calls, owner[..], best)
    ensures best == "" || Leads(sources, calls, owner[..], best)
  {
    var score := ScoreFile(sources, calls, owner);
    var bestScore: nat, tie := 0, false;
    best := NO_OWNER;
    var left := score.Keys;
    while left != {}
      invariant left <= score.Keys
      invariant forall u :: u in score.Keys - left ==> score[u] <= bestScore
      invariant bestScore == 0 ==> left == score.Keys && !tie && best == NO_OWNER
      invariant bestScore > 0 ==> best in score.Keys - left && score[best] == bestScore
      invariant tie ==> exists u :: u in score.Keys - left && u != best && score[u] == bestScore
      invariant !tie ==> forall u :: u in score.Keys - left && u != best ==> score[u] < bestScore
    {
      var u :| u in left;
      assert score[u] > 0;
      if score[u] > bestScore {
        best, bestScore, tie := u, score[u], false;
      } else if score[u] == bestScore {
        tie := true;
      }
      left := left - {u};
    }
    ghost var o := owner[..];
    assert score.Keys - left == score.Keys;
    if tie {
      ghost var rival :| rival in score && rival != best && score[rival] == score[best];
      forall u ensures !Leads(sources, calls, o, u) {
        var other := if u == best then rival else best;
        assert other != u;
        assert u in score ==> Score(sources, calls, o, other) >= Score(sources, calls, o, u);
      }
      best := NO_OWNER;
    } else if bestScore > 0 {
      forall u | u != best ensures Score(sources, calls, o, u) < Score(sources, calls, o, best) {
        assert u in score ==> score[u] < bestScore;
      }
      assert Leads(sources, calls, o, best);
    } else {
      assert forall u :: Score(sources, calls, o, u) == 0;
    }
  }

  // ---- the whole graph ----

  predicate Fits(g: Graph, owner: seq<Unit>) {
    WellFormed(g) && |owner| == |g.sources|
  }

  /** File f's owner is what its sources and calls make it. */
  ghost predicate Settled(g: Graph, owner: seq<Unit>, f: nat)
    requires Fits(g, owner) && f < |owner|
  {
    IsOwner(g.sources[f], g.calls[f], owner, owner[f])
  }

  ghost predicate Stable(g: Graph, owner: seq<Unit>)
    requires Fits(g, owner)
  {
    forall f :: 0 <= f < |owner| ==> Settled(g, owner, f)
  }

  /**
   The files in `depth` are reached along no include cycle: each is deeper than the files that include it, and those
   are in `depth` too.
   */
  ghost predicate Ranked(g: Graph, depth: map<nat, nat>)
    requires WellFormed(g)
  {
    forall f | f in depth ::
      && f < |g.sources|
      && forall i | 0 <= i < |g.sources[f]| && g.sources[f][i].FromFile? ::
        g.sources[f][i].file in depth && depth[g.sources[f][i].file] < depth[f]
  }

  ghost predicate SettledTo(g: Graph, depth: map<nat, nat>, owner: seq<Unit>, bound: nat)
    requires Fits(g, owner) && Ranked(g, depth)
  {
    forall f :: f in depth && depth[f] < bound ==> Settled(g, owner, f)
  }

  /** On files without a cycle above them the settled owners are one and the same, however they were found. */
  lemma {:induction false} SettledOwnersAgree(g: Graph, depth: map<nat, nat>, a: seq<Unit>, b: seq<Unit>, bound: nat, f: nat)
    requires Fits(g, a) && Fits(g, b) && Ranked(g, depth)
    requires SettledTo(g, depth, a, bound) && SettledTo(g, depth, b, bound)
    requires f in depth && depth[f] < bound
    ensures a[f] == b[f]
    decreases depth[f]
  {
    var sources := g.sources[f];
    forall i | 0 <= i < |sources| && sources[i].FromFile? ensures a[sources[i].file] == b[sources[i].file] {
      SettledOwnersAgree(g, depth, a, b, bound, sources[i].file);
    }
    assert Settled(g, a, f) && Settled(g, b, f);
    OwnerDependsOnSources(sources, g.calls[f], b, a, b[f]);
    OwnerIsUnique(sources, g.calls[f], a, a[f], b[f]);
  }

  /** Deciding file f in round r disturbs nothing settled below depth r, and settles f itself if it is no deeper than r. */
  lemma DecidingKeepsSettled(g: Graph, depth: map<nat, nat>, owner: seq<Unit>, f: nat, best: Unit, r: nat, k: nat)
    requires Fits(g, owner) && Ranked(g, depth) && SettledTo(g, depth, owner, r)
    requires f < |owner| && IsOwner(g.sources[f], g.calls[f], owner, best)
    requires k in depth && depth[k] <= r && (k == f || Settled(g, owner, k))
    ensures Settled(g, owner[f := best], k)
  {
    if k != f && f in depth && depth[f] < r {
      OwnerIsUnique(g.sources[f], g.calls[f], owner, best, owner[f]);
      assert owner[f := best] == owner;
    } else {
      var sources := g.sources[k];
      forall i | 0 <= i < |sources| && sources[i].FromFile?
        ensures owner[sources[i].file] == owner[f := best][sources[i].file]
      {
        assert sources[i].file in depth && depth[sources[i].file] < depth[k];
      }
      OwnerDependsOnSources(sources, g.calls[k], owner, owner[f := best], owner[f := best][k]);
    }
  }

  predicate Visits(order: seq<nat>, files: nat) {
    && (forall i :: 0 <= i < |order| ==> order[i] < files)
    && forall f: nat :: f < files ==> f in order
  }

  ghost predicate VisitedTo(g: Graph, depth: map<nat, nat>, owner: seq<Unit>, visited: seq<nat>, r: nat)
    requires Fits(g, owner) && Ranked(g, depth)
  {
    forall f :: f in visited && f in depth && depth[f] <= r ==> Settled(g, owner, f)
  }

  lemma DecideStep(g: Graph, depth: map<nat, nat>, owner: seq<Unit>, f: nat, best: Unit, r: nat, visited: seq<nat>)
    requires Fits(g, owner) && Ranked(g, depth) && SettledTo(g, depth, owner, r) && VisitedTo(g, depth, owner, visited, r)
    requires f < |owner| && IsOwner(g.sources[f], g.calls[f], owner, best)
    ensures SettledTo(g, depth, owner[f := best], r) && VisitedTo(g, depth, owner[f := best], visited + [f], r)
  {
    forall k | k in depth && depth[k] <= r && (k == f || Settled(g, owner, k)) ensures Settled(g, owner[f := best], k) {
      DecidingKeepsSettled(g, depth, owner, f, best, r, k);
    }
  }

  /** One round over the files, in place: later files see the owners already decided in this round. */
  method Round(g: Graph, order: seq<nat>, owner: array<Unit>, ghost r: nat) returns (changed: bool)
    requires Fits(g, owner[..]) && Visits(order, owner.Length)
    requires forall depth | Ranked(g, depth) :: SettledTo(g, depth, owner[..], r)
    modifies owner
    ensures !changed ==> Stable(g, owner[..])
    ensures forall depth | Ranked(g, depth) :: SettledTo(g, depth, owner[..], r + 1)
  {
    changed := false;
    ghost var start := owner[..];
    ghost var now := start;
    for i := 0 to |order|
      invariant now == owner[..]
      invariant forall depth | Ranked(g, depth) :: SettledTo(g, depth, now, r) && VisitedTo(g, depth, now, order[..i], r)
      invariant !changed ==> now == start && forall f :: f in order[..i] ==> Settled(g, start, f)
    {
      var f := order[i];
      var best := PickOwner(g.sources[f], g.calls[f], owner);
      assert order[..i + 1] == order[..i] + [f];
      forall depth | Ranked(g, depth)
        ensures SettledTo(g, depth, now[f := best], r) && VisitedTo(g, depth, now[f := best], order[..i + 1], r)
      {
        DecideStep(g, depth, now, f, best, r, order[..i]);
      }
      if owner[f] != best {
        owner[f] := best;
        changed := true;
      } else {
        assert now[f := best] == now;
      }
      now := now[f := best];
    }
    assert order[..|order|] == order;
  }

  /**
   At most twenty rounds, fewer when a round changes nothing. An early end leaves every file settled; otherwise every
   file at most 19 includes away from its furthest ancestor is, whatever the other files do and in whatever order the
   files are visited.
   */
  method PrimaryOwners(g: Graph, order: seq<nat>) returns (owner: array<Unit>, quiet: bool)
    requires WellFormed(g) && Visits(order, |g.sources|)
    ensures Fits(g, owner[..])
    ensures quiet ==> Stable(g, owner[..])
    ensures forall depth | Ranked(g, depth) :: SettledTo(g, depth, owner[..], 20)
  {
    owner := new Unit[|g.sources|](_ => NO_OWNER);
    quiet := false;
    for round := 0 to ROUNDS
      invariant Fits(g, owner[..])
      invariant forall depth | Ranked(g, depth) :: SettledTo(g, depth, owner[..], round)
    {
      var changed := Round(g, order, owner, round);
      if !changed {
        return owner, true;
      }
    }
  }

  // ---- which files the include graph decides ----

  predicate HasFile(sources: seq<Source>, j: nat) {
    FromFile(j) in sources
  }

  predicate Includes(g: Graph, j: nat, f: nat)
    requires f < |g.sources|
  {
    HasFile(g.sources[f], j)
  }

  /** Each file of p includes the one before it. */
  ghost predicate Upwards(g: Graph, p: seq<nat>) {
    && (forall i :: 0 <= i < |p| ==> p[i] < |g.sources|)
    && forall i :: 0 < i < |p| ==> Includes(g, p[i], p[i - 1])
  }

  /** From f upwards along includes some file is met twice. */
  ghost predicate CycleAbove(g: Graph, f: nat) {
    exists p: seq<nat>, i: nat, j: nat :: Upwards(g, p) && i < j < |p| && p[0] == f && p[i] == p[j]
  }

  ghost predicate Grounded(g: Graph, f: nat)
    requires WellFormed(g)
  {
    exists depth: map<nat, nat> :: Ranked(g, depth) && f in depth
  }

  lemma {:induction false} DepthFalls(g: Graph, depth: map<nat, nat>, p: seq<nat>, j: nat)
    requires WellFormed(g) && Ranked(g, depth) && Upwards(g, p) && j < |p| && p[0] in depth
    ensures forall i :: 0 <= i <= j ==> p[i] in depth
    ensures forall i :: 0 <= i < j ==> depth[p[j]] < depth[p[i]]
  {
    if j > 0 {
      DepthFalls(g, depth, p, j - 1);
      assert Includes(g, p[j], p[j - 1]);
    }
  }

  lemma GroundedHasNoCycle(g: Graph, f: nat)
    requires WellFormed(g) && Grounded(g, f)
    ensures !CycleAbove(g, f)
  {
    var depth: map<nat, nat> :| Ranked(g, depth) && f in depth;
    if p: seq<nat>, i: nat, j: nat :| Upwards(g, p) && i < j < |p| && p[0] == f && p[i] == p[j] {
      DepthFalls(g, depth, p, j);
    }
  }

  lemma {:induction false} Height(depth: map<nat, nat>) returns (h: nat)
    ensures forall f :: f in depth ==> depth[f] < h
    decreases depth.Keys
  {
    if depth == map[] { return 0; }
    var f :| f in depth;
    assert depth.Keys > (depth - {f}).Keys;
    var rest := Height(depth - {f});
    h := if depth[f] < rest then rest else depth[f] + 1;
    forall k | k in depth ensures depth[k] < h {
      if k != f { assert k in depth - {f} && (depth - {f})[k] == depth[k]; }
    }
  }

  /** Two rankings combine into one. */
  lemma MergeRanks(g: Graph, a: map<nat, nat>, b: map<nat, nat>) returns (c: map<nat, nat>)
    requires WellFormed(g) && Ranked(g, a) && Ranked(g, b)
    ensures Ranked(g, c) && c.Keys == a.Keys + b.Keys
  {
    var h := Height(a);
    c := map f | f in a.Keys + b.Keys :: if f in a then a[f] else b[f] + h;
  }

  lemma {:induction false} RankAll(g: Graph, files: set<nat>) returns (depth: map<nat, nat>)
    requires WellFormed(g) && forall f :: f in files ==> Grounded(g, f)
    ensures Ranked(g, depth) && files <= depth.Keys
    decreases files
  {
    if files == {} { return map[]; }
    var f :| f in files;
    var rest := RankAll(g, files - {f});
    var own: map<nat, nat> :| Ranked(g, own) && f in own;
    depth := MergeRanks(g, rest, own);
  }

  /** A file is grounded exactly when all the files that include it are. */
  lemma GroundedByIncluders(g: Graph, f: nat)
    requires WellFormed(g) && f < |g.sources|
    ensures Grounded(g, f) <==> forall j: nat :: Includes(g, j, f) ==> Grounded(g, j)
  {
    if Grounded(g, f) {
      var depth: map<nat, nat> :| Ranked(g, depth) && f in depth;
      forall j: nat | Includes(g, j, f) ensures Grounded(g, j) {}
    } else if forall j: nat :: Includes(g, j, f) ==> Grounded(g, j) {
      var includers := set i | 0 <= i < |g.sources[f]| && g.sources[f][i].FromFile? :: g.sources[f][i].file;
      forall j | j in includers ensures Grounded(g, j) { assert Includes(g, j, f); }
      var depth := RankAll(g, includers);
      var h := Height(depth);
      var more := if f in depth then depth else depth[f := h];
      assert Ranked(g, more) && f in more;
    }
  }

  lemma {:induction false} EndlessPath(g: Graph, f: nat, n: nat) returns (p: seq<nat>)
    requires WellFormed(g) && f < |g.sources| && !Grounded(g, f)
    ensures |p| == n + 1 && p[0] == f && Upwards(g, p)
    decreases n
  {
    if n == 0 { return [f]; }
    GroundedByIncluders(g, f);
    var j: nat :| Includes(g, j, f) && !Grounded(g, j);
    var rest := EndlessPath(g, j, n - 1);
    p := [f] + rest;
    assert forall i :: 0 < i < |p| ==> p[i] == rest[i - 1];
    forall i | 0 < i < |p| ensures Includes(g, p[i], p[i - 1]) {
      if i > 1 { assert Includes(g, rest[i - 1], rest[i - 2]); }
    }
  }

  /** A sequence longer than the number of its possible members repeats one. */
  lemma {:induction false} Pigeonhole(p: seq<nat>, members: set<nat>) returns (i: nat, j: nat)
    requires |members| < |p| && forall k :: 0 <= k < |p| ==> p[k] in members
    ensures i < j < |p| && p[i] == p[j]
    decreases |p|
  {
    var last := p[|p| - 1];
    if k :| 0 <= k < |p| - 1 && p[k] == last {
      return k, |p| - 1;
    }
    i, j := Pigeonhole(p[..|p| - 1], members - {last});
  }

  ghost function FirstNumbers(n: nat): (s: set<nat>)
    ensures |s| == n && forall k: nat :: k in s <==> k < n
  {
    if n == 0 then {} else FirstNumbers(n - 1) + {n - 1}
  }

  /** Grounded means what it should: no include cycle above the file. */
  lemma UngroundedHasCycle(g: Graph, f: nat)
    requires WellFormed(g) && f < |g.sources| && !Grounded(g, f)
    ensures CycleAbove(g, f)
  {
    var n := |g.sources|;
    var p := EndlessPath(g, f, n);
    var i, j := Pigeonhole(p, FirstNumbers(n));
  }

  // ---- shared owners on a closed set of files ----

  ghost predicate OnlyFiles(g: Graph) {
    && WellFormed(g)
    && (forall f, i :: 0 <= f < |g.sources| && 0 <= i < |g.sources[f]| ==> g.sources[f][i].FromFile?)
    && forall f :: 0 <= f < |g.calls| ==> g.calls[f] == []
  }

  /** Exactly the files that a file of c includes are in c. */
  ghost predicate ClosedBothWays(g: Graph, c: set<nat>) {
    forall f: nat :: f < |g.sources| ==> (f in c <==> exists j: nat :: Includes(g, j, f) && j in c)
  }

  function OwnedOn(c: set<nat>, u: Unit, n: nat): seq<Unit> {
    seq(n, f requires 0 <= f < n => if f in c then u else NO_OWNER)
  }

  lemma {:induction false} TiesOnFiles(sources: seq<Source>, c: set<nat>, u: Unit, n: nat, v: Unit)
    requires InRange(sources, n) && u != NO_OWNER && forall i :: 0 <= i < |sources| ==> sources[i].FromFile?
    ensures Ties(sources, OwnedOn(c, u, n), v) > 0 <==> v == u && exists j: nat :: HasFile(sources, j) && j in c
  {
    if sources != [] {
      var front, last := sources[..|sources| - 1], sources[|sources| - 1];
      TiesOnFiles(front, c, u, n, v);
      assert sources == front + [last];
      assert HasFile(sources, last.file);
      assert forall j: nat :: HasFile(front, j) ==> HasFile(sources, j);
      assert SpeaksFor(last, OwnedOn(c, u, n), v) <==> v == u && last.file in c;
    }
  }

  /** Where includes are the only ties, any unit may own such a set of files, and nobody the rest. */
  lemma AnyOwnerIsStable(g: Graph, c: set<nat>, u: Unit)
    requires OnlyFiles(g) && ClosedBothWays(g, c) && u != NO_OWNER
    ensures Stable(g, OwnedOn(c, u, |g.sources|))
  {
    var n := |g.sources|;
    var owner := OwnedOn(c, u, n);
    forall f: nat | f < n ensures Settled(g, owner, f) {
      forall v ensures Score(g.sources[f], g.calls[f], owner, v) > 0 <==> v == u && f in c {
        TiesOnFiles(g.sources[f], c, u, n, v);
        assert (exists j: nat :: Includes(g, j, f) && j in c) <==> exists j: nat :: HasFile(g.sources[f], j) && j in c;
      }
    }
  }

  // ---- the two together ----

  /** The same files with the same includes; the units that render, name or are called may differ. */
  ghost predicate SameIncludes(g: Graph, h: Graph) {
    && WellFormed(g) && WellFormed(h) && |g.sources| == |h.sources|
    && forall f: nat, j: nat :: f < |g.sources| ==> (Includes(g, j, f) <==> Includes(h, j, f))
  }

  function FilesOf(sources: seq<Source>): (r: seq<Source>)
    ensures forall i :: 0 <= i < |r| ==> r[i].FromFile?
    ensures forall j: nat :: HasFile(r, j) <==> HasFile(sources, j)
  {
    if sources == [] then []
    else
      var front, last := sources[..|sources| - 1], sources[|sources| - 1];
      var files := FilesOf(front);
      assert forall j: nat :: HasFile(sources, j) <==> HasFile(front, j) || last == FromFile(j);
      assert forall j: nat :: HasFile(files + [last], j) <==> HasFile(files, j) || last == FromFile(j);
      if last.FromFile? then files + [last] else files
  }

  lemma IncludesAlone(g: Graph) returns (h: Graph)
    requires WellFormed(g)
    ensures SameIncludes(g, h) && OnlyFiles(h)
  {
    h := Graph(seq(|g.sources|, f requires 0 <= f < |g.sources| => FilesOf(g.sources[f])), seq(|g.calls|, _ => []));
    forall f, i | 0 <= f < |h.sources| && 0 <= i < |h.sources[f]| && h.sources[f][i].FromFile?
      ensures h.sources[f][i].file < |h.sources|
    {
      var j := h.sources[f][i].file;
      assert HasFile(FilesOf(g.sources[f]), j);
      var k :| 0 <= k < |g.sources[f]| && g.sources[f][k] == FromFile(j);
    }
  }

  lemma RanksCarryOver(g: Graph, h: Graph, depth: map<nat, nat>)
    requires SameIncludes(g, h) && Ranked(g, depth)
    ensures Ranked(h, depth)
  {
    forall f, i | f in depth && 0 <= i < |h.sources[f]| && h.sources[f][i].FromFile?
      ensures h.sources[f][i].file in depth && depth[h.sources[f][i].file] < depth[f]
    {
      var j := h.sources[f][i].file;
      assert Includes(h, j, f) && Includes(g, j, f);
      var k :| 0 <= k < |g.sources[f]| && g.sources[f][k] == FromFile(j);
    }
  }

  /** Under every choice of ties two stable assignments agree on f. */
  ghost predicate OwnerIsFixed(g: Graph, f: nat) {
    forall h: Graph, a: seq<Unit>, b: seq<Unit> |
      SameIncludes(g, h) && Fits(h, a) && Fits(h, b) && Stable(h, a) && Stable(h, b) && f < |a| && f < |b| :: a[f] == b[f]
  }

  lemma GroundedOwnerIsFixed(g: Graph, f: nat)
    requires WellFormed(g) && Grounded(g, f)
    ensures OwnerIsFixed(g, f)
  {
    var depth: map<nat, nat> :| Ranked(g, depth) && f in depth;
    forall h: Graph, a: seq<Unit>, b: seq<Unit> |
      SameIncludes(g, h) && Fits(h, a) && Fits(h, b) && Stable(h, a) && Stable(h, b) && f < |a| && f < |b|
      ensures a[f] == b[f]
    {
      RanksCarryOver(g, h, depth);
      SettledOwnersAgree(h, depth, a, b, depth[f] + 1, f);
    }
  }

  lemma IncluderInRange(g: Graph, j: nat, f: nat)
    requires WellFormed(g) && f < |g.sources| && Includes(g, j, f)
    ensures j < |g.sources|
  {
    var i :| 0 <= i < |g.sources[f]| && g.sources[f][i] == FromFile(j);
  }

  lemma UngroundedIsClosed(g: Graph, h: Graph, c: set<nat>)
    requires SameIncludes(g, h) && c == set k: nat | k < |g.sources| && !Grounded(g, k)
    ensures ClosedBothWays(h, c)
  {
    forall k: nat | k < |h.sources| ensures k in c <==> exists j: nat :: Includes(h, j, k) && j in c {
      GroundedByIncluders(g, k);
      forall j: nat | Includes(h, j, k) ensures Includes(g, j, k) && (j in c <==> !Grounded(g, j)) {
        assert Includes(g, j, k);
        IncluderInRange(g, j, k);
      }
      if j: nat :| Includes(g, j, k) && !Grounded(g, j) {
        assert Includes(h, j, k);
      }
    }
  }

  lemma UngroundedOwnerIsOpen(g: Graph, f: nat)
    requires WellFormed(g) && f < |g.sources| && !Grounded(g, f)
    ensures !OwnerIsFixed(g, f)
  {
    var h := IncludesAlone(g);
    var n := |g.sources|;
    var c := set k: nat | k < n && !Grounded(g, k);
    var none: set<nat> := {};
    UngroundedIsClosed(g, h, c);
    AnyOwnerIsStable(h, c, "a");
    AnyOwnerIsStable(h, none, "a");
    assert OwnedOn(c, "a", n)[f] != OwnedOn(none, "a", n)[f];
  }

  /** The includes fix a file's owner, whatever units are tied to whatever files, exactly when no cycle is above it. */
  lemma OnlyCyclesLeaveOwnersOpen(g: Graph, f: nat)
    requires WellFormed(g) && f < |g.sources|
    ensures OwnerIsFixed(g, f) <==> !CycleAbove(g, f)
  {
    if Grounded(g, f) {
      GroundedHasNoCycle(g, f);
      GroundedOwnerIsFixed(g, f);
    } else {
      UngroundedHasCycle(g, f);
      UngroundedOwnerIsOpen(g, f);
    }
  }
}
