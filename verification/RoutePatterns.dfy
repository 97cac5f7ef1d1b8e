/**
 Which paths a route pattern claims, stated on what the pattern is written from (codescan/extract_frontend.go,
 routeMatches): literal segments, `{name}` parameters, and a trailing `{name...}` or `*`.
 */
module RoutePatterns {
  import opened JsStrings
  import opened Text
  import opened Routes

  datatype Part = Exactly(text: string) | Parameter(name: string) | Remainder(name: string) | Star

  function Spelled(p: Part): string {
    match p
    case Exactly(text) => text
    case Parameter(name) => "{" + name + "}"
    case Remainder(name) => "{" + name + "...}"
    case Star => "*"
  }

  predicate EndsWith(s: string, end: string) {
    |s| >= |end| && s[|s| - |end|..] == end
  }

  /** A literal segment is not written like one of the others, and a parameter's name does not end in dots. */
  predicate Proper(p: Part) {
    && '/' !in Spelled(p) && ' ' !in Spelled(p)
    && match p
       case Exactly(text) => text != "" && text != "*" && !EndsWith(text, "...}") && !(text[0] == '{' && text[|text| - 1] == '}')
       case Parameter(name) => !EndsWith(name, "...")
       case _ => true
  }

  predicate TakesTheRest(p: Part) {
    p.Remainder? || p.Star?
  }

  /**
   Up to the first part that takes the rest, each part has its segment, a literal one its own text; if no part takes the
   rest there are no more segments, and one that does takes at least one.
   */
  ghost predicate Fits(parts: seq<Part>, segs: seq<string>) {
    exists n: nat :: FitsTo(parts, segs, n)
  }

  predicate FitsTo(parts: seq<Part>, segs: seq<string>, n: nat) {
    && n <= |parts| && n <= |segs|
    && (forall i :: 0 <= i < n ==> !TakesTheRest(parts[i]))
    && (forall i :: 0 <= i < n && parts[i].Exactly? ==> segs[i] == parts[i].text && DYNAMIC !in segs[i])
    && if n < |parts| then TakesTheRest(parts[n]) && n < |segs| else n == |segs|
  }

  /** A pattern as it is written: perhaps a method, the parts behind slashes, perhaps a slash at the end. */
  function Written(verb: string, parts: seq<Part>, slash: bool): string {
    (if verb == "" then "" else verb + " ") + ("/" + Join(Texts(parts), '/') + if slash then "/" else "")
  }

  function Texts(parts: seq<Part>): (r: seq<string>)
    ensures |r| == |parts| && forall i :: 0 <= i < |parts| ==> r[i] == Spelled(parts[i])
  {
    seq(|parts|, i requires 0 <= i < |parts| => Spelled(parts[i]))
  }

  /** A path as a script requests it: the segments behind slashes, perhaps a slash, perhaps a query or a fragment. */
  function Requested(segs: seq<string>, slash: bool, extra: string): string {
    "/" + Join(segs, '/') + (if slash then "/" else "") + extra
  }

  predicate IsExtra(extra: string) {
    extra == "" || extra[0] == '?' || extra[0] == '#'
  }

  /** Segments of a path that neither starts nor ends with a further slash. */
  predicate AreSegments(segs: seq<string>) {
    && (forall i :: 0 <= i < |segs| ==> '/' !in segs[i] && '?' !in segs[i] && '#' !in segs[i])
    && (segs != [] ==> segs[0] != "" && segs[|segs| - 1] != "")
  }

  // ---- taking the texts apart ----

  lemma {:induction false} JoinedEnds(segs: seq<string>)
    requires segs != [] && segs[0] != "" && segs[|segs| - 1] != ""
    ensures var j := Join(segs, '/'); j != "" && j[0] == segs[0][0] && j[|j| - 1] == segs[|segs| - 1][|segs[|segs| - 1]| - 1]
  {
    if |segs| > 1 {
      JoinedLast(segs[1..]);
    }
  }

  lemma {:induction false} JoinedLast(segs: seq<string>)
    requires segs != [] && segs[|segs| - 1] != ""
    ensures var j, last := Join(segs, '/'), segs[|segs| - 1]; j != "" && j[|j| - 1] == last[|last| - 1]
  {
    if |segs| > 1 {
      JoinedLast(segs[1..]);
    }
  }

  lemma {:induction false} JoinedLacks(segs: seq<string>, c: char)
    requires c != '/' && forall i :: 0 <= i < |segs| ==> c !in segs[i]
    ensures c !in Join(segs, '/')
  {
    if |segs| > 1 {
      JoinedLacks(segs[1..], c);
    }
  }

  lemma {:induction false} NoTrailingSlash(s: string)
    requires s != "" && s[|s| - 1] != '/'
    ensures TrimRightSlashes(s) == s && TrimRightSlashes(s + "/") == s
  {
    assert (s + "/")[1..] == s[1..] + "/";
    if |s| == 1 {
      assert s[1..] == "" && TrimRightSlashes("/"[1..]) == "" && TrimRightSlashes("/") == "";
      assert s[1..] + "/" == "/";
    } else {
      NoTrailingSlash(s[1..]);
    }
    assert s == [s[0]] + s[1..];
  }

  lemma OnlySlashes(slash: bool)
    ensures SplitPath("/" + Join([], '/') + if slash then "/" else "") == []
  {
    var s := "/" + Join([], '/') + if slash then "/" else "";
    assert s[1..] == if slash then "/" else "";
    assert TrimLeftSlashes("/"[1..]) == "" && TrimLeftSlashes("/") == "";
    assert TrimLeftSlashes(s) == "";
  }

  lemma TrimsBack(j: string, slash: bool)
    requires j != "" && j[0] != '/' && j[|j| - 1] != '/'
    ensures TrimRightSlashes(TrimLeftSlashes("/" + j + if slash then "/" else "")) == j
  {
    var s := if slash then j + "/" else j;
    assert "/" + j + (if slash then "/" else "") == "/" + s;
    assert ("/" + s)[1..] == s && s[0] == j[0];
    NoTrailingSlash(j);
  }

  lemma SplitsBack(segs: seq<string>, slash: bool)
    requires (forall i :: 0 <= i < |segs| ==> '/' !in segs[i]) && (segs != [] ==> segs[0] != "" && segs[|segs| - 1] != "")
    ensures SplitPath("/" + Join(segs, '/') + if slash then "/" else "") == segs
  {
    if segs == [] {
      OnlySlashes(slash);
    } else {
      var j := Join(segs, '/');
      JoinedEnds(segs);
      assert segs[0][0] in segs[0] && segs[|segs| - 1][|segs[|segs| - 1]| - 1] in segs[|segs| - 1];
      TrimsBack(j, slash);
      SplitJoin(segs, '/');
    }
  }

  lemma {:induction false} BehindTheVerb(verb: string, rest: string)
    requires ' ' !in verb
    ensures ' ' in verb + " " + rest && AfterSpace(verb + " " + rest) == rest
  {
    var s := verb + " " + rest;
    assert s[|verb|] == ' ';
    if verb == "" {
      assert s[1..] == rest;
    } else {
      BehindTheVerb(verb[1..], rest);
      assert s[1..] == verb[1..] + " " + rest && s[0] in verb;
    }
  }

  lemma PatternSplits(verb: string, parts: seq<Part>, slash: bool)
    requires ' ' !in verb && forall i :: 0 <= i < |parts| ==> Proper(parts[i])
    ensures PatternSegments(Written(verb, parts, slash)) == Texts(parts)
  {
    var texts := Texts(parts);
    var rest := "/" + Join(texts, '/') + if slash then "/" else "";
    JoinedLacks(texts, ' ');
    assert ' ' !in rest;
    if verb != "" {
      BehindTheVerb(verb, rest);
    } else {
      assert "" + rest == rest;
    }
    SplitsBack(texts, slash);
  }

  lemma PathSplits(segs: seq<string>, slash: bool, extra: string)
    requires AreSegments(segs) && IsExtra(extra)
    ensures PathSegments(Requested(segs, slash, extra)) == segs
  {
    var rest := "/" + Join(segs, '/') + if slash then "/" else "";
    JoinedLacks(segs, '?');
    JoinedLacks(segs, '#');
    BeforeText(rest, extra, '?');
    BeforeText(rest, Before(extra, '?'), '#');
    assert Before(Before(extra, '?'), '#') == "";
    assert rest + "" == rest;
    SplitsBack(segs, slash);
  }

  // ---- matching ----

  lemma DotsAndBrace(s: string)
    ensures EndsWith(s, "...}") <==>
      |s| >= 4 && s[|s| - 4] == '.' && s[|s| - 3] == '.' && s[|s| - 2] == '.' && s[|s| - 1] == '}'
  {
    if |s| >= 4 {
      var end := s[|s| - 4..];
      assert end[0] == s[|s| - 4] && end[1] == s[|s| - 3] && end[2] == s[|s| - 2] && end[3] == s[|s| - 1];
    }
  }

  lemma Dots(s: string)
    requires |s| >= 3 && s[|s| - 3] == '.' && s[|s| - 2] == '.' && s[|s| - 1] == '.'
    ensures EndsWith(s, "...")
  {
    var end := s[|s| - 3..];
    assert end[0] == s[|s| - 3] && end[1] == s[|s| - 2] && end[2] == s[|s| - 1];
  }

  lemma Braced(name: string)
    ensures var s := "{" + name + "}";
      && |s| == |name| + 2 && s[0] == '{' && s[|s| - 1] == '}'
      && forall i :: 0 <= i < |name| ==> s[i + 1] == name[i]
  {
  }

  lemma ParameterIsNoRest(name: string)
    requires !EndsWith(name, "...")
    ensures !EndsWith("{" + name + "}", "...}")
  {
    Braced(name);
    DotsAndBrace("{" + name + "}");
    if EndsWith("{" + name + "}", "...}") { Dots(name); }
  }

  lemma RemainderIsRest(name: string)
    ensures EndsWith("{" + name + "...}", "...}")
  {
    DotsAndBrace("{" + name + "...}");
  }

  lemma Kinds(p: Part)
    requires Proper(p)
    ensures IsRest(Spelled(p)) <==> TakesTheRest(p)
    ensures !TakesTheRest(p) ==> (IsParam(Spelled(p)) <==> p.Parameter?)
  {
    match p
    case Parameter(name) =>
      ParameterIsNoRest(name);
      Braced(name);
    case Remainder(name) => RemainderIsRest(name);
    case _ =>
  }

  lemma {:induction false} FitsIsMatch(parts: seq<Part>, segs: seq<string>)
    requires forall i :: 0 <= i < |parts| ==> Proper(parts[i])
    ensures SegmentsMatch(Texts(parts), segs) <==> Fits(parts, segs)
  {
    if parts == [] {
      assert FitsTo(parts, segs, 0) <==> segs == [];
    } else {
      Kinds(parts[0]);
      if TakesTheRest(parts[0]) {
        assert FitsTo(parts, segs, 0) <==> segs != [];
      } else if segs != [] {
        FitsIsMatch(parts[1..], segs[1..]);
        assert Texts(parts)[1..] == Texts(parts[1..]);
        FitsStep(parts, segs);
      }
    }
  }

  lemma FitsStep(parts: seq<Part>, segs: seq<string>)
    requires parts != [] && segs != [] && !TakesTheRest(parts[0])
    ensures Fits(parts, segs) <==>
      (parts[0].Exactly? ==> segs[0] == parts[0].text && DYNAMIC !in segs[0]) && Fits(parts[1..], segs[1..])
  {
    if Fits(parts, segs) {
      var n: nat :| FitsTo(parts, segs, n);
      assert n > 0;
      assert FitsTo(parts[1..], segs[1..], n - 1);
    }
    if (parts[0].Exactly? ==> segs[0] == parts[0].text && DYNAMIC !in segs[0]) && Fits(parts[1..], segs[1..]) {
      var n: nat :| FitsTo(parts[1..], segs[1..], n);
      assert forall i :: 0 < i < |parts| ==> parts[i] == parts[1..][i - 1];
      assert forall i :: 0 < i < |segs| ==> segs[i] == segs[1..][i - 1];
      assert FitsTo(parts, segs, n + 1);
    }
  }

  /**
   A pattern claims a path exactly when both have segments, the last segment is not a file's, and the segments fit the
   parts: method, query, fragment and outer slashes play no part.
   */
  lemma PatternClaimsExactly(verb: string, parts: seq<Part>, slash: bool, segs: seq<string>, ending: bool, extra: string)
    requires ' ' !in verb && forall i :: 0 <= i < |parts| ==> Proper(parts[i])
    requires AreSegments(segs) && IsExtra(extra)
    ensures Matches(Written(verb, parts, slash), Requested(segs, ending, extra)) <==>
      && parts != [] && segs != [] && ('.' in segs[|segs| - 1] ==> DYNAMIC in segs[|segs| - 1])
      && Fits(parts, segs)
  {
    PatternSplits(verb, parts, slash);
    PathSplits(segs, ending, extra);
    FitsIsMatch(parts, segs);
  }

  /** Literals and parameters only: as many segments, equal at the literals and anything at the parameters. */
  lemma ParametersTakeAnything(verb: string, parts: seq<Part>, slash: bool, segs: seq<string>, ending: bool, extra: string)
    requires ' ' !in verb && forall i :: 0 <= i < |parts| ==> Proper(parts[i]) && !TakesTheRest(parts[i])
    requires AreSegments(segs) && IsExtra(extra)
    requires |segs| == |parts| > 0 && '.' !in segs[|segs| - 1]
    requires forall i :: 0 <= i < |parts| && parts[i].Exactly? ==> segs[i] == parts[i].text && DYNAMIC !in segs[i]
    ensures Matches(Written(verb, parts, slash), Requested(segs, ending, extra))
  {
    assert FitsTo(parts, segs, |parts|);
    PatternClaimsExactly(verb, parts, slash, segs, ending, extra);
  }

  /** A last part `*` or `{name...}` takes any one or more segments. */
  lemma LastPartTakesTheRest(verb: string, parts: seq<Part>, slash: bool, segs: seq<string>, ending: bool, extra: string)
    requires ' ' !in verb && parts != [] && TakesTheRest(parts[|parts| - 1])
    requires forall i :: 0 <= i < |parts| ==> Proper(parts[i]) && (i < |parts| - 1 ==> !TakesTheRest(parts[i]))
    requires AreSegments(segs) && IsExtra(extra)
    requires |segs| >= |parts| && '.' !in segs[|segs| - 1]
    requires forall i :: 0 <= i < |parts| && parts[i].Exactly? ==> segs[i] == parts[i].text && DYNAMIC !in segs[i]
    ensures Matches(Written(verb, parts, slash), Requested(segs, ending, extra))
  {
    assert FitsTo(parts, segs, |parts| - 1);
    PatternClaimsExactly(verb, parts, slash, segs, ending, extra);
  }
}
