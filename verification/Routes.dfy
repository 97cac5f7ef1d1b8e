/**
 Which server route a path in a script calls (codescan/extract_frontend.go, routeMatches). A path may hold markers for
 text only known at run time; matching it is compared with matching the paths the script can really request.
 */
module Routes {
  import opened JsStrings
  import opened Text

  // ---- paths and patterns ----

  /** The pattern behind a method name, as in "GET /x". */
  function AfterSpace(s: string): string
    requires ' ' in s
  {
    if s[0] == ' ' then s[1..] else AfterSpace(s[1..])
  }

  function TrimLeftSlashes(s: string): string {
    if s != "" && s[0] == '/' then TrimLeftSlashes(s[1..]) else s
  }

  function TrimRightSlashes(s: string): string {
    if s == "" then ""
    else
      var rest := TrimRightSlashes(s[1..]);
      if rest == "" && s[0] == '/' then "" else [s[0]] + rest
  }

  function SplitPath(p: string): seq<string> {
    var trimmed := TrimRightSlashes(TrimLeftSlashes(p));
    if trimmed == "" then [] else Split(trimmed, '/')
  }

  function PathSegments(reqPath: string): seq<string> {
    SplitPath(Before(Before(reqPath, '?'), '#'))
  }

  function PatternSegments(pattern: string): seq<string> {
    SplitPath(if ' ' in pattern then AfterSpace(pattern) else pattern)
  }

  /** A trailing * or {name...} takes every segment that is left. */
  predicate IsRest(p: string) {
    p == "*" || (|p| >= 4 && p[|p| - 4..] == "...}")
  }

  predicate IsParam(p: string) {
    p != "" && p[0] == '{' && p[|p| - 1] == '}'
  }

  predicate SegmentMatches(p: string, r: string) {
    IsParam(p) || (DYNAMIC !in r && p == r)
  }

  predicate SegmentsMatch(ps: seq<string>, rs: seq<string>) {
    if ps == [] then rs == []
    else if IsRest(ps[0]) then rs != []
    else rs != [] && SegmentMatches(ps[0], rs[0]) && SegmentsMatch(ps[1..], rs[1..])
  }

  /** A last segment with a dot is a file, not an endpoint, unless part of it is unknown. */
  predicate LooksLikeFile(last: string) {
    '.' in last && DYNAMIC !in last
  }

  predicate Matches(pattern: string, reqPath: string) {
    var ps, rs := PatternSegments(pattern), PathSegments(reqPath);
    ps != [] && rs != [] && !LooksLikeFile(rs[|rs| - 1]) && SegmentsMatch(ps, rs)
  }

  method RouteMatches(pattern: string, reqPath: string) returns (ok: bool)
    ensures ok == Matches(pattern, reqPath)
  {
    var ps, rs := PatternSegments(pattern), PathSegments(reqPath);
    if |ps| == 0 || |rs| == 0 {
      return false;
    }
    var last := rs[|rs| - 1];
    if '.' in last && DYNAMIC !in last {
      return false;
    }
    for i := 0 to |ps|
      invariant i <= |rs| && SegmentsMatch(ps, rs) == SegmentsMatch(ps[i..], rs[i..])
    {
      var p := ps[i];
      if IsRest(p) {
        return i < |rs|;
      }
      if i >= |rs| {
        return false;
      }
      assert ps[i..][1..] == ps[i + 1..] && rs[i..][1..] == rs[i + 1..];
      if !IsParam(p) && (DYNAMIC in rs[i] || p != rs[i]) {
        return false;
      }
    }
    return |rs| == |ps|;
  }

  // ---- the paths a script can request ----

  /** Text a marker can stand for: not empty, and nothing that ends a segment, a path or a file name. */
  predicate IsText(t: string) {
    t != "" && '/' !in t && '?' !in t && '#' !in t && '.' !in t && DYNAMIC !in t
  }

  /** c is `a` with every marker replaced by some text. */
  ghost predicate Fills(a: string, c: string) {
    if a == "" then c == ""
    else if a[0] == DYNAMIC then exists k :: 0 < k <= |c| && IsText(c[..k]) && Fills(a[1..], c[k..])
    else c != "" && c[0] == a[0] && Fills(a[1..], c[1..])
  }

  lemma {:induction false} FillsPrepend(a: string, t: string, c: string)
    requires IsText(t) && Fills(a, c)
    ensures Fills([DYNAMIC] + a, t + c)
  {
    assert ([DYNAMIC] + a)[1..] == a && (t + c)[..|t|] == t && (t + c)[|t|..] == c;
  }

  lemma FillsPrependPlain(x: char, a: string, c: string)
    requires x != DYNAMIC && Fills(a, c)
    ensures Fills([x] + a, [x] + c)
  {
    assert ([x] + a)[1..] == a && ([x] + c)[1..] == c;
  }

  /** The text the first marker stands for, and what the rest of the path becomes. */
  lemma FillsHead(a: string, c: string) returns (t: string, rest: string)
    requires a != "" && a[0] == DYNAMIC && Fills(a, c)
    ensures IsText(t) && c == t + rest && Fills(a[1..], rest)
  {
    var k :| 0 < k <= |c| && IsText(c[..k]) && Fills(a[1..], c[k..]);
    t, rest := c[..k], c[k..];
  }

  lemma {:induction false} BeforeText(t: string, c: string, stop: char)
    requires stop !in t
    ensures Before(t + c, stop) == t + Before(c, stop)
  {
    if t == "" {
      assert t + c == c;
    } else {
      assert (t + c)[1..] == t[1..] + c;
      BeforeText(t[1..], c, stop);
    }
  }

  lemma {:induction false} FillsBefore(a: string, c: string, stop: char)
    requires Fills(a, c) && (stop == '?' || stop == '#')
    ensures Fills(Before(a, stop), Before(c, stop))
  {
    if a != "" && a[0] == DYNAMIC {
      var t, rest := FillsHead(a, c);
      FillsBefore(a[1..], rest, stop);
      BeforeText(t, rest, stop);
      FillsPrepend(Before(a[1..], stop), t, Before(rest, stop));
    } else if a != "" {
      FillsBefore(a[1..], c[1..], stop);
      if a[0] != stop {
        FillsPrependPlain(a[0], Before(a[1..], stop), Before(c[1..], stop));
      }
    }
  }

  lemma {:induction false} FillsTrimLeft(a: string, c: string)
    requires Fills(a, c)
    ensures Fills(TrimLeftSlashes(a), TrimLeftSlashes(c))
  {
    if a != "" && a[0] == DYNAMIC {
      var t, rest := FillsHead(a, c);
      assert c[0] == t[0] && t[0] in t;
    } else if a != "" && a[0] == '/' {
      FillsTrimLeft(a[1..], c[1..]);
    }
  }

  lemma {:induction false} TrimRightText(t: string, c: string)
    requires '/' !in t
    ensures TrimRightSlashes(t + c) == t + TrimRightSlashes(c)
  {
    if t == "" {
      assert t + c == c;
    } else {
      assert (t + c)[1..] == t[1..] + c;
      TrimRightText(t[1..], c);
    }
  }

  lemma {:induction false} FillsTrimRight(a: string, c: string)
    requires Fills(a, c)
    ensures Fills(TrimRightSlashes(a), TrimRightSlashes(c))
  {
    if a != "" && a[0] == DYNAMIC {
      var t, rest := FillsHead(a, c);
      FillsTrimRight(a[1..], rest);
      TrimRightText(t, rest);
      FillsPrepend(TrimRightSlashes(a[1..]), t, TrimRightSlashes(rest));
    } else if a != "" {
      FillsTrimRight(a[1..], c[1..]);
      var ra, rc := TrimRightSlashes(a[1..]), TrimRightSlashes(c[1..]);
      FillsEmpty(ra, rc);
      if !(ra == "" && a[0] == '/') {
        FillsPrependPlain(a[0], ra, rc);
      }
    }
  }

  lemma FillsEmpty(a: string, c: string)
    requires Fills(a, c)
    ensures a == "" <==> c == ""
  {
  }

  ghost predicate AllFill(abs: seq<string>, cs: seq<string>) {
    |abs| == |cs| && forall i :: 0 <= i < |abs| ==> Fills(abs[i], cs[i])
  }

  lemma {:induction false} SplitText(t: string, c: string)
    requires '/' !in t
    ensures Split(t + c, '/') == [t + Split(c, '/')[0]] + Split(c, '/')[1..]
  {
    if t == "" {
      assert t + c == c && t + Split(c, '/')[0] == Split(c, '/')[0];
    } else {
      assert (t + c)[1..] == t[1..] + c;
      SplitText(t[1..], c);
      assert [t[0]] + (t[1..] + Split(c, '/')[0]) == t + Split(c, '/')[0];
    }
  }

  lemma {:induction false} FillsSplit(a: string, c: string)
    requires Fills(a, c)
    ensures AllFill(Split(a, '/'), Split(c, '/'))
  {
    if a != "" && a[0] == DYNAMIC {
      var t, rest := FillsHead(a, c);
      FillsSplit(a[1..], rest);
      SplitText(t, rest);
      FillsPrepend(Split(a[1..], '/')[0], t, Split(rest, '/')[0]);
      FillFirst(Split(a[1..], '/'), Split(rest, '/'), [DYNAMIC] + Split(a[1..], '/')[0], t + Split(rest, '/')[0]);
    } else if a != "" {
      FillsSplit(a[1..], c[1..]);
      if a[0] != '/' {
        FillsPrependPlain(a[0], Split(a[1..], '/')[0], Split(c[1..], '/')[0]);
        FillFirst(Split(a[1..], '/'), Split(c[1..], '/'), [a[0]] + Split(a[1..], '/')[0], [a[0]] + Split(c[1..], '/')[0]);
      }
    }
  }

  lemma FillFirst(abs: seq<string>, cs: seq<string>, a: string, c: string)
    requires AllFill(abs, cs) && abs != [] && Fills(a, c)
    ensures AllFill([a] + abs[1..], [c] + cs[1..])
  {
  }

  lemma FillsSegments(a: string, c: string)
    requires Fills(a, c)
    ensures AllFill(PathSegments(a), PathSegments(c))
  {
    FillsBefore(a, c, '?');
    FillsBefore(Before(a, '?'), Before(c, '?'), '#');
    var a1, c1 := Before(Before(a, '?'), '#'), Before(Before(c, '?'), '#');
    FillsTrimLeft(a1, c1);
    FillsTrimRight(TrimLeftSlashes(a1), TrimLeftSlashes(c1));
    var a2, c2 := TrimRightSlashes(TrimLeftSlashes(a1)), TrimRightSlashes(TrimLeftSlashes(c1));
    FillsEmpty(a2, c2);
    FillsSplit(a2, c2);
  }

  /** Filling adds no dot, leaves no marker, and changes nothing when there was none. */
  lemma {:induction false} FilledSegment(a: string, c: string)
    requires Fills(a, c)
    ensures '.' in c <==> '.' in a
    ensures DYNAMIC !in c
    ensures DYNAMIC !in a ==> c == a
  {
    if a != "" && a[0] == DYNAMIC {
      var t, rest := FillsHead(a, c);
      FilledSegment(a[1..], rest);
      assert a == [a[0]] + a[1..];
    } else if a != "" {
      FilledSegment(a[1..], c[1..]);
      assert a == [a[0]] + a[1..] && c == [c[0]] + c[1..];
    }
  }

  lemma {:induction false} FilledSegmentsMatch(ps: seq<string>, abs: seq<string>, cs: seq<string>)
    requires AllFill(abs, cs) && SegmentsMatch(ps, abs)
    ensures SegmentsMatch(ps, cs)
  {
    if ps != [] && !IsRest(ps[0]) {
      FilledSegment(abs[0], cs[0]);
      FilledSegmentsMatch(ps[1..], abs[1..], cs[1..]);
    }
  }

  /**
   If a path with markers matches a pattern, a path it can become matches it too exactly when the last segment has no dot.
   */
  lemma AbstractMatchIsSound(pattern: string, a: string, c: string)
    requires Fills(a, c) && Matches(pattern, a)
    ensures PathSegments(a) != []
    ensures Matches(pattern, c) <==> '.' !in PathSegments(a)[|PathSegments(a)| - 1]
  {
    var abs, cs := PathSegments(a), PathSegments(c);
    FillsSegments(a, c);
    FilledSegment(abs[|abs| - 1], cs[|cs| - 1]);
    FilledSegmentsMatch(PatternSegments(pattern), abs, cs);
  }

  /** A literal segment of a matched pattern faces that same text in the path, never a marker. */
  lemma {:induction false} MarkersClaimNoLiteral(ps: seq<string>, rs: seq<string>, i: nat)
    requires SegmentsMatch(ps, rs) && i < |ps|
    requires !IsParam(ps[i]) && forall k :: 0 <= k <= i ==> !IsRest(ps[k])
    ensures i < |rs| && rs[i] == ps[i] && DYNAMIC !in rs[i]
  {
    if i > 0 {
      MarkersClaimNoLiteral(ps[1..], rs[1..], i - 1);
    }
  }
}
