/** The edges of a code map: accumulated call by call, emitted in one canonical order (codescan/builder.go). */
module EdgeFacts {
  import opened Sorting
  import opened Text

  const MAX_EVIDENCE: nat := 5

  datatype EdgeKey = EdgeKey(kind: int, from: string, to: string)
  datatype Site = Site(file: string, line: int)
  datatype EdgeAcc = EdgeAcc(sites: set<Site>, ops: set<string>)
  datatype Edge = Edge(kind: int, from: string, to: string, weight: int, evidence: seq<Site>, ops: seq<string>) {
    function Key(): EdgeKey { EdgeKey(kind, from, to) }
  }

  /** One call of the extractors; `file` is already relative to the repository. */
  datatype Call = Call(kind: int, from: string, to: string, file: string, line: int, op: string) {
    predicate Counts() { from != "" && to != "" && from != to }
    function Key(): EdgeKey { EdgeKey(kind, from, to) }
    function At(): Site { Site(file, Int32(line)) }
  }

  /** Go's conversion to int32. */
  function Int32(n: int): (r: int)
    ensures -0x8000_0000 <= r < 0x8000_0000
    ensures r == n <==> -0x8000_0000 <= n < 0x8000_0000
  {
    var low := n % 0x1_0000_0000;
    if low < 0x8000_0000 then low else low - 0x1_0000_0000
  }

  // ---- what a list of calls amounts to ----

  function SitesOf(calls: seq<Call>, k: EdgeKey): set<Site> {
    set c | c in calls && c.Counts() && c.Key() == k :: c.At()
  }

  function OpsOf(calls: seq<Call>, k: EdgeKey): set<string> {
    set c | c in calls && c.Counts() && c.Key() == k && c.op != "" :: c.op
  }

  function Table(calls: seq<Call>): map<EdgeKey, EdgeAcc> {
    var keys := set c | c in calls && c.Counts() :: c.Key();
    map k | k in keys :: EdgeAcc(SitesOf(calls, k), OpsOf(calls, k))
  }

  lemma TableIgnoresOrder(p: seq<Call>, q: seq<Call>)
    requires forall c :: c in p <==> c in q
    ensures Table(p) == Table(q)
  {
    forall k ensures SitesOf(p, k) == SitesOf(q, k) && OpsOf(p, k) == OpsOf(q, k) {
    }
  }

  // ---- orders ----

  predicate SiteLess(a: Site, b: Site) {
    if a.file != b.file then StringLess(a.file, b.file) else a.line < b.line
  }

  predicate KeyLess(a: EdgeKey, b: EdgeKey) {
    if a.kind != b.kind then a.kind < b.kind
    else if a.from != b.from then StringLess(a.from, b.from)
    else StringLess(a.to, b.to)
  }

  lemma SitesAreOrdered()
    ensures StrictTotal(SiteLess)
  {
    forall a ensures !SiteLess(a, a) {
      StringLessIrreflexive(a.file);
    }
    forall a, b, c | SiteLess(a, b) && SiteLess(b, c) ensures SiteLess(a, c) {
      StringsChain(a.file, b.file, c.file);
    }
    forall a, b ensures a == b || SiteLess(a, b) || SiteLess(b, a) {
      StringLessTotal(a.file, b.file);
    }
  }

  lemma StringsChain(a: string, b: string, c: string)
    ensures StringLess(a, b) && StringLess(b, c) ==> StringLess(a, c) && a != c
  {
    if StringLess(a, b) && StringLess(b, c) {
      StringLessTransitive(a, b, c);
      StringLessIrreflexive(a);
    }
  }

  lemma KeysAreOrdered()
    ensures StrictTotal(KeyLess)
  {
    forall a ensures !KeyLess(a, a) {
      StringLessIrreflexive(a.to);
    }
    forall a, b, c | KeyLess(a, b) && KeyLess(b, c) ensures KeyLess(a, c) {
      StringsChain(a.from, b.from, c.from);
      StringsChain(a.to, b.to, c.to);
    }
    forall a, b ensures a == b || KeyLess(a, b) || KeyLess(b, a) {
      StringLessTotal(a.from, b.from);
      StringLessTotal(a.to, b.to);
    }
  }

  // ---- the emitted list ----

  function SiteItself(s: Site): Site { s }
  function StringItself(s: string): string { s }
  function EdgeKeyOf(e: Edge): EdgeKey { e.Key() }

  /** e is what an accumulator emits: all its sites counted, the smallest five kept, its operations sorted. */
  ghost predicate IsEdge(k: EdgeKey, acc: EdgeAcc, e: Edge) {
    && e.Key() == k
    && e.weight == Int32(|acc.sites|)
    && IsSorting(multiset(acc.ops), e.ops, StringItself, StringLess)
    && exists sites ::
         && IsSorting(multiset(acc.sites), sites, SiteItself, SiteLess)
         && e.evidence == sites[..Min(MAX_EVIDENCE, |sites|)]
  }

  ghost predicate IsFacts(table: map<EdgeKey, EdgeAcc>, out: seq<Edge>) {
    && SortedBy(out, EdgeKeyOf, KeyLess)
    && (forall i :: 0 <= i < |out| ==> out[i].Key() in table && IsEdge(out[i].Key(), table[out[i].Key()], out[i]))
    && forall k :: k in table ==> exists i :: 0 <= i < |out| && out[i].Key() == k
  }

  lemma EdgeIsUnique(k: EdgeKey, acc: EdgeAcc, a: Edge, b: Edge)
    requires IsEdge(k, acc, a) && IsEdge(k, acc, b)
    ensures a == b
  {
    StringsAreOrdered();
    SitesAreOrdered();
    SortingIsUnique(multiset(acc.ops), a.ops, b.ops, StringItself, StringLess);
    var s :| IsSorting(multiset(acc.sites), s, SiteItself, SiteLess) && a.evidence == s[..Min(MAX_EVIDENCE, |s|)];
    var t :| IsSorting(multiset(acc.sites), t, SiteItself, SiteLess) && b.evidence == t[..Min(MAX_EVIDENCE, |t|)];
    SortingIsUnique(multiset(acc.sites), s, t, SiteItself, SiteLess);
  }

  /** The evidence is in order, and every site left out comes after every site kept. */
  lemma EvidenceIsTheSmallestSites(k: EdgeKey, acc: EdgeAcc, e: Edge)
    requires IsEdge(k, acc, e)
    ensures |e.evidence| == Min(MAX_EVIDENCE, |acc.sites|)
    ensures SortedBy(e.evidence, SiteItself, SiteLess)
    ensures forall s :: s in e.evidence ==> s in acc.sites
    ensures forall s, t :: s in acc.sites && s !in e.evidence && t in e.evidence ==> SiteLess(t, s)
  {
    var sites :| IsSorting(multiset(acc.sites), sites, SiteItself, SiteLess) &&
                 e.evidence == sites[..Min(MAX_EVIDENCE, |sites|)];
    assert |sites| == |multiset(sites)| == |acc.sites|;
    forall s | s in sites ensures s in acc.sites {
      assert s in multiset(sites);
    }
    forall s, t | s in acc.sites && s !in e.evidence && t in e.evidence ensures SiteLess(t, s) {
      assert s in multiset(sites);
      var j :| 0 <= j < |sites| && sites[j] == s;
      var i :| 0 <= i < |e.evidence| && e.evidence[i] == t;
      assert sites[i] == t && j >= |e.evidence|;
      assert SiteLess(SiteItself(sites[i]), SiteItself(sites[j]));
    }
  }

  /** A table has one list of facts. */
  lemma FactsAreUnique(table: map<EdgeKey, EdgeAcc>, a: seq<Edge>, b: seq<Edge>)
    requires IsFacts(table, a) && IsFacts(table, b)
    ensures a == b
  {
    KeysAreOrdered();
    forall e ensures e in a <==> e in b {
      FactIn(table, a, b, e);
      FactIn(table, b, a, e);
    }
    SortedSameElements(a, b, EdgeKeyOf, KeyLess);
  }

  lemma FactIn(table: map<EdgeKey, EdgeAcc>, a: seq<Edge>, b: seq<Edge>, e: Edge)
    requires IsFacts(table, a) && IsFacts(table, b)
    ensures e in a ==> e in b
  {
    if e in a {
      var i :| 0 <= i < |b| && b[i].Key() == e.Key();
      EdgeIsUnique(e.Key(), table[e.Key()], e, b[i]);
    }
  }

  /** The emitted edges depend on which calls were made, not on their order nor on how often each was repeated. */
  lemma SameCallsSameFacts(p: seq<Call>, q: seq<Call>, a: seq<Edge>, b: seq<Edge>)
    requires forall c :: c in p <==> c in q
    requires IsFacts(Table(p), a) && IsFacts(Table(q), b)
    ensures a == b
  {
    TableIgnoresOrder(p, q);
    FactsAreUnique(Table(p), a, b);
  }

  // ---- in terms of the calls ----

  /** A call between two different nodes. */
  predicate IsCallOf(c: Call, kind: int, from: string, to: string) {
    c.kind == kind && c.from == from && c.to == to && from != "" && to != "" && from != to
  }

  /** The distinct places of the calls of an edge, with lines as the source stores them. */
  function PlacesOf(calls: seq<Call>, e: Edge): set<Site> {
    set c | c in calls && IsCallOf(c, e.kind, e.from, e.to) :: Site(c.file, Int32(c.line))
  }

  ghost predicate Called(calls: seq<Call>, kind: int, from: string, to: string) {
    exists c :: c in calls && IsCallOf(c, kind, from, to)
  }

  ghost predicate Listed(out: seq<Edge>, kind: int, from: string, to: string) {
    exists i :: 0 <= i < |out| && out[i].kind == kind && out[i].from == from && out[i].to == to
  }

  /** The list has an edge exactly for each kind and pair of a call between two different nodes, in order. */
  lemma EdgesAreTheCalls(calls: seq<Call>, out: seq<Edge>, kind: int, from: string, to: string)
    requires IsFacts(Table(calls), out)
    ensures Called(calls, kind, from, to) <==> Listed(out, kind, from, to)
    ensures forall i, j :: 0 <= i < j < |out| ==> Before(out[i], out[j])
  {
    var k := EdgeKey(kind, from, to);
    KeysOfTable(calls, k);
    ListedKeys(Table(calls), out, k);
    forall i, j | 0 <= i < j < |out| ensures Before(out[i], out[j]) {
      assert KeyLess(EdgeKeyOf(out[i]), EdgeKeyOf(out[j]));
    }
  }

  lemma ListedKeys(table: map<EdgeKey, EdgeAcc>, out: seq<Edge>, k: EdgeKey)
    requires IsFacts(table, out)
    ensures k in table <==> Listed(out, k.kind, k.from, k.to)
  {
    if k in table {
      var i :| 0 <= i < |out| && out[i].Key() == k;
      assert out[i].kind == k.kind;
    }
    if Listed(out, k.kind, k.from, k.to) {
      var i :| 0 <= i < |out| && out[i].kind == k.kind && out[i].from == k.from && out[i].to == k.to;
      assert out[i].Key() == k;
    }
  }

  lemma KeysOfTable(calls: seq<Call>, k: EdgeKey)
    ensures k in Table(calls) <==> exists c :: c in calls && IsCallOf(c, k.kind, k.from, k.to)
    ensures forall c :: c in calls ==> (c.Counts() && c.Key() == k <==> IsCallOf(c, k.kind, k.from, k.to))
  {
    if k in Table(calls) {
      var c :| c in calls && c.Counts() && c.Key() == k;
      assert IsCallOf(c, k.kind, k.from, k.to);
    }
    if c :| c in calls && IsCallOf(c, k.kind, k.from, k.to) {
      assert c.Counts() && c.Key() == k;
    }
  }

  /**
   Its weight is the number of distinct places of its calls, its evidence the smallest five of them, its operations those
   its calls name.
   */
  lemma EdgeTellsItsCalls(calls: seq<Call>, e: Edge)
    requires e.Key() in Table(calls) && IsEdge(e.Key(), Table(calls)[e.Key()], e)
    ensures e.weight == Int32(|PlacesOf(calls, e)|)
    ensures |e.evidence| == Min(5, |PlacesOf(calls, e)|)
    ensures forall s :: s in e.evidence ==> s in PlacesOf(calls, e)
    ensures forall s, t :: s in PlacesOf(calls, e) && s !in e.evidence && t in e.evidence ==> SiteLess(t, s)
    ensures forall o :: o in e.ops <==> o != "" && exists c :: c in calls && IsCallOf(c, e.kind, e.from, e.to) && c.op == o
  {
    KeysOfTable(calls, e.Key());
    assert SitesOf(calls, e.Key()) == PlacesOf(calls, e);
    EvidenceIsTheSmallestSites(e.Key(), Table(calls)[e.Key()], e);
    forall o ensures o in e.ops <==> o != "" && exists c :: c in calls && IsCallOf(c, e.kind, e.from, e.to) && c.op == o {
      OperationsNamed(calls, e, o);
    }
  }

  predicate Before(a: Edge, b: Edge) {
    a.kind < b.kind || (a.kind == b.kind && (StringLess(a.from, b.from) || (a.from == b.from && StringLess(a.to, b.to))))
  }

  lemma OperationsNamed(calls: seq<Call>, e: Edge, o: string)
    requires e.Key() in Table(calls) && IsEdge(e.Key(), Table(calls)[e.Key()], e)
    ensures o in e.ops <==> o != "" && exists c :: c in calls && IsCallOf(c, e.kind, e.from, e.to) && c.op == o
  {
    assert o in e.ops <==> o in multiset(e.ops);
    assert o in e.ops <==> o in OpsOf(calls, e.Key());
    if o in e.ops {
      var c :| c in calls && c.Counts() && c.Key() == e.Key() && c.op != "" && c.op == o;
      assert IsCallOf(c, e.kind, e.from, e.to);
    }
    if c :| o != "" && c in calls && IsCallOf(c, e.kind, e.from, e.to) && c.op == o {
      assert c.Counts() && c.Key() == e.Key();
    }
  }

  // ---- the builder ----

  method SortSites(xs: seq<Site>) returns (s: seq<Site>)
    requires DistinctKeys(xs, SiteItself)
    ensures IsSorting(multiset(xs), s, SiteItself, SiteLess)
  {
    SitesAreOrdered();
    s := SortBy(xs, SiteItself, SiteLess);
  }

  method SortStrings(xs: seq<string>) returns (s: seq<string>)
    requires DistinctKeys(xs, StringItself)
    ensures IsSorting(multiset(xs), s, StringItself, StringLess)
  {
    StringsAreOrdered();
    s := SortBy(xs, StringItself, StringLess);
  }

  method SortEdges(xs: seq<Edge>) returns (s: seq<Edge>)
    requires DistinctKeys(xs, EdgeKeyOf)
    ensures IsSorting(multiset(xs), s, EdgeKeyOf, KeyLess)
  {
    KeysAreOrdered();
    s := SortBy(xs, EdgeKeyOf, KeyLess);
  }

  class Builder {
    var edges: map<EdgeKey, EdgeAcc>
    ghost var calls: seq<Call>

    ghost predicate Valid() reads this {
      edges == Table(calls)
    }

    constructor ()
      ensures Valid() && calls == []
    {
      edges, calls := map[], [];
    }

    method Add(c: Call)
      requires Valid()
      modifies this
      ensures Valid() && calls == old(calls) + [c]
    {
      TableAdd(calls, c);
      calls := calls + [c];
      if c.from == "" || c.to == "" || c.from == c.to {
        return;
      }
      var k := c.Key();
      var acc := if k in edges then edges[k] else EdgeAcc({}, {});
      ghost var was := acc;
      acc := acc.(sites := acc.sites + {c.At()});
      if c.op != "" {
        acc := acc.(ops := acc.ops + {c.op});
      }
      assert acc.ops == Added(was, c).ops;
      edges := edges[k := acc];
    }

    method Facts() returns (out: seq<Edge>)
      requires Valid()
      ensures IsFacts(Table(calls), out)
    {
      var keys := Listing(edges.Keys);
      var list := [];
      for n := 0 to |keys|
        invariant |list| == n
        invariant forall i :: 0 <= i < n ==> keys[i] in edges && IsEdge(keys[i], edges[keys[i]], list[i])
      {
        assert keys[n] in multiset(keys);
        var e := Emit(keys[n], edges[keys[n]]);
        list := list + [e];
      }
      out := SortEdges(list);
      ListedFacts(edges, keys, list, out);
    }
  }

  /** One accumulator, its sites and operations copied out in map order and sorted. */
  method Emit(k: EdgeKey, acc: EdgeAcc) returns (e: Edge)
    ensures IsEdge(k, acc, e)
  {
    var sites := Listing(acc.sites);
    sites := SortSites(sites);
    var evidence := [];
    for i := 0 to |sites|
      invariant i <= MAX_EVIDENCE && evidence == sites[..i]
    {
      if i == MAX_EVIDENCE {
        break;
      }
      assert sites[..i + 1] == sites[..i] + [sites[i]];
      evidence := evidence + [sites[i]];
    }
    assert |sites| == |multiset(sites)| == |acc.sites|;
    var ops := Listing(acc.ops);
    ops := SortStrings(ops);
    e := Edge(k.kind, k.from, k.to, Int32(|sites|), evidence, ops);
  }

  function Added(acc: EdgeAcc, c: Call): EdgeAcc {
    EdgeAcc(acc.sites + {c.At()}, acc.ops + if c.op != "" then {c.op} else {})
  }

  lemma TableAdd(calls: seq<Call>, c: Call)
    ensures var t, k := Table(calls), c.Key();
            Table(calls + [c]) ==
              if c.Counts() then t[k := Added(if k in t then t[k] else EdgeAcc({}, {}), c)] else t
  {
    var t, after := Table(calls), calls + [c];
    KeysAdd(calls, c);
    forall k | k in Table(after)
      ensures Table(after)[k] ==
        if c.Counts() && k == c.Key() then Added(if k in t then t[k] else EdgeAcc({}, {}), c) else t[k]
    {
      SitesAdd(calls, c, k);
    }
  }

  lemma KeysAdd(calls: seq<Call>, c: Call)
    ensures forall k :: k in Table(calls + [c]) <==> k in Table(calls) || (c.Counts() && k == c.Key())
  {
    var after := calls + [c];
    assert c in after;
    assert forall d :: d in after <==> d in calls || d == c;
  }

  lemma SitesAdd(calls: seq<Call>, c: Call, k: EdgeKey)
    ensures var hit := c.Counts() && c.Key() == k;
            && SitesOf(calls + [c], k) == SitesOf(calls, k) + (if hit then {c.At()} else {})
            && OpsOf(calls + [c], k) == OpsOf(calls, k) + (if hit && c.op != "" then {c.op} else {})
    ensures k !in Table(calls) ==> SitesOf(calls, k) == {} && OpsOf(calls, k) == {}
  {
    var after := calls + [c];
    assert forall d :: d in after <==> d in calls || d == c;
  }

  lemma ListedFacts(table: map<EdgeKey, EdgeAcc>, keys: seq<EdgeKey>, list: seq<Edge>, out: seq<Edge>)
    requires multiset(keys) == multiset(table.Keys) && |list| == |keys|
    requires forall i :: 0 <= i < |keys| ==> keys[i] in table && IsEdge(keys[i], table[keys[i]], list[i])
    requires IsSorting(multiset(list), out, EdgeKeyOf, KeyLess)
    ensures IsFacts(table, out)
  {
    forall i | 0 <= i < |out| ensures out[i].Key() in table && IsEdge(out[i].Key(), table[out[i].Key()], out[i]) {
      assert out[i] in multiset(list);
      var j :| 0 <= j < |list| && list[j] == out[i];
    }
    forall k | k in table ensures exists i :: 0 <= i < |out| && out[i].Key() == k {
      assert k in multiset(keys);
      var j :| 0 <= j < |keys| && keys[j] == k;
      assert list[j] in multiset(out);
      var i :| 0 <= i < |out| && out[i] == list[j];
    }
  }
}
