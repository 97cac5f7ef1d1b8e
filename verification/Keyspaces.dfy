/**
 Redis keyspaces found by reading key expressions (codescan/extract_keyspaces.go): the static text the analysis
 returns, compared with the string the expression has at run time.
 */
module Keyspaces {
  import opened Wrappers
  import opened Text

  /** `id` names what only the running program knows. Sprintf's `args` counts the arguments after the format. */
  datatype Expr =
    | Const(text: string)
    | Add(left: Expr, right: Expr)
    | OtherBinary(id: nat)
    | Sprintf(format: Option<string>, args: nat, id: nat)
    | Other(id: nat)

  // ---- at run time ----

  /** strings.Index of one character, or the length when it does not occur. */
  function IndexOf(s: string, c: char): (i: nat)
    ensures i <= |s|
    ensures forall k :: 0 <= k < i ==> s[k] != c
    ensures i < |s| ==> s[i] == c
  {
    if s == "" || s[0] == c then 0
    else
      var i := IndexOf(s[1..], c);
      assert forall k :: 1 <= k < |s| ==> s[k] == s[1..][k - 1];
      i + 1
  }

  /**
   fmt.Sprintf copies the format up to the first verb, then prints something only known at run time. Arguments left over
   when the format has no verb are reported behind it.
   */
  function Format(format: string, args: nat, rest: string): string {
    var verb := IndexOf(format, '%');
    if verb < |format| then format[..verb] + rest
    else if args > 0 then format + "%!(EXTRA " + rest + ")"
    else format
  }

  function Eval(e: Expr, env: nat -> string): string {
    match e
    case Const(text) => text
    case Add(x, y) => Eval(x, env) + Eval(y, env)
    case OtherBinary(id) => env(id)
    case Sprintf(Some(format), args, id) => Format(format, args, env(id))
    case Sprintf(None, _, id) => env(id)
    case Other(id) => env(id)
  }

  // ---- the analysis ----

  /** The leading static text, and whether it is the whole value. */
  datatype Static = Static(text: string, complete: bool)

  function EvalKey(e: Expr): Option<Static> {
    match e
    case Const(text) => Some(Static(text, true))
    case Add(x, y) =>
      (match EvalKey(x)
       case None => None
       case Some(left) =>
         if !left.complete then Some(left)
         else
           match EvalKey(y)
           case None => Some(Static(left.text, false))
           case Some(right) => Some(Static(left.text + right.text, right.complete)))
    case OtherBinary(_) => None
    case Sprintf(Some(format), _, _) => Some(Static(format, '%' !in format))
    case Sprintf(None, _, _) => None
    case Other(_) => None
  }

  predicate IsWild(c: char) {
    c == '%' || c == '*' || c == '{' || c == '[' || c == '?'
  }

  function WildIndex(s: string): (i: nat)
    ensures i <= |s|
    ensures forall k :: 0 <= k < i ==> !IsWild(s[k])
    ensures i < |s| ==> IsWild(s[i])
  {
    if s == "" || IsWild(s[0]) then 0
    else
      var i := WildIndex(s[1..]);
      assert forall k :: 1 <= k < |s| ==> s[k] == s[1..][k - 1];
      i + 1
  }

  /** One past the last colon, or 0. */
  function AfterLastColon(s: string): (n: nat)
    ensures n <= |s|
    ensures n > 0 ==> s[n - 1] == ':'
    ensures forall k :: n <= k < |s| ==> s[k] != ':'
  {
    if s == "" then 0
    else if s[|s| - 1] == ':' then |s|
    else AfterLastColon(s[..|s| - 1])
  }

  /** The text kept before it is trimmed: up to a wildcard, then back to a colon unless it is the whole key. */
  function Cut(key: Static): string {
    var wild := WildIndex(key.text);
    var prefix := key.text[..wild];
    var complete := key.complete && wild == |key.text|;
    if complete || AfterLastColon(prefix) == 0 then prefix else prefix[..AfterLastColon(prefix)]
  }

  function KeyPrefix(e: Expr): Option<string> {
    match EvalKey(e)
    case None => None
    case Some(key) =>
      var prefix := TrimSpace(Cut(key));
      if prefix == "" || prefix == ":" then None else Some(prefix)
  }

  // ---- what the analysis finds ----

  /** The operands of nested additions, from left to right. */
  function Leaves(e: Expr): (r: seq<Expr>)
    ensures r != []
  {
    match e
    case Add(x, y) => Leaves(x) + Leaves(y)
    case _ => [e]
  }

  predicate IsKnown(e: Expr) {
    e.Const? || (e.Sprintf? && e.format.Some?)
  }

  /** Constants and formats one behind the other, up to a format with a verb or a value only known at run time. */
  function Run(leaves: seq<Expr>): Static {
    if leaves == [] then Static("", true)
    else if !IsKnown(leaves[0]) then Static("", false)
    else
      var text := if leaves[0].Const? then leaves[0].text else leaves[0].format.value;
      if leaves[0].Sprintf? && '%' in text then Static(text, false)
      else Static(text + Run(leaves[1..]).text, Run(leaves[1..]).complete)
  }

  lemma {:induction false} RunOfBoth(a: seq<Expr>, b: seq<Expr>)
    ensures Run(a + b) == if Run(a).complete then Static(Run(a).text + Run(b).text, Run(b).complete) else Run(a)
  {
    if a == [] {
      assert a + b == b;
    } else {
      assert (a + b)[1..] == a[1..] + b;
      RunOfBoth(a[1..], b);
    }
  }

  /** However the additions nest, the analysis finds the whole run of static text the operands start with, if any. */
  lemma {:induction false} AnalysisFindsTheRun(e: Expr)
    ensures EvalKey(e) == if IsKnown(Leaves(e)[0]) then Some(Run(Leaves(e))) else None
  {
    match e
    case Add(x, y) =>
      AnalysisFindsTheRun(x);
      AnalysisFindsTheRun(y);
      RunOfBoth(Leaves(x), Leaves(y));
      assert Leaves(e)[0] == Leaves(x)[0];
      assert Run(Leaves(x)).text + "" == Run(Leaves(x)).text;
    case Const(text) =>
      assert Leaves(e)[1..] == [] && text + "" == text;
    case Sprintf(Some(format), _, _) =>
      assert Leaves(e)[1..] == [] && format + "" == format;
    case _ =>
  }

  lemma WildIsWhere(t: string, wild: nat)
    requires wild <= |t| && (forall k :: 0 <= k < wild ==> t[k] !in "%*{[?") && (wild < |t| ==> t[wild] in "%*{[?")
    ensures WildIndex(t) == wild
  {
    assert forall c :: c in "%*{[?" <==> IsWild(c);
  }

  /** The keyspace: all the text of a complete key, else the text up to a wildcard, back to the last colon if it has one. */
  lemma KeyspaceIs(e: Expr, wild: nat, colon: nat)
    requires IsKnown(Leaves(e)[0])
    requires var t := Run(Leaves(e)).text;
      && wild <= |t| && (forall k :: 0 <= k < wild ==> t[k] !in "%*{[?") && (wild < |t| ==> t[wild] in "%*{[?")
      && colon <= wild && (colon > 0 ==> t[colon - 1] == ':') && forall k :: colon <= k < wild ==> t[k] != ':'
    ensures var key := Run(Leaves(e));
      var kept := TrimSpace(if (key.complete && wild == |key.text|) || colon == 0 then key.text[..wild] else key.text[..colon]);
      KeyPrefix(e) == if kept == "" || kept == ":" then None else Some(kept)
  {
    var t := Run(Leaves(e)).text;
    AnalysisFindsTheRun(e);
    WildIsWhere(t, wild);
    assert AfterLastColon(t[..wild]) == colon;
    assert t[..wild][..colon] == t[..colon];
  }

  // ---- soundness ----

  /** Where, in the static text, the first Sprintf with left-over arguments ends: its report follows there at run time. */
  function SurplusAt(e: Expr): Option<nat> {
    match e
    case Sprintf(Some(format), args, _) => if '%' !in format && args > 0 then Some(|format|) else None
    case Add(x, y) =>
      (match (SurplusAt(x), EvalKey(x), SurplusAt(y))
       case (Some(k), _, _) => Some(k)
       case (None, Some(left), Some(k)) => if left.complete && EvalKey(y).Some? then Some(|left.text| + k) else None
       case _ => None)
    case _ => None
  }

  /** How the static text relates to the value `v`. */
  ghost predicate Describes(key: Static, surplus: Option<nat>, v: string) {
    match surplus
    case None => if key.complete then key.text == v else key.text[..IndexOf(key.text, '%')] <= v
    case Some(k) =>
      && k <= |key.text|
      && key.text[..k] + "%" <= v
      && (key.complete ==> |key.text| < |v|)
  }

  lemma {:induction false} StaticTextDescribesValue(e: Expr, env: nat -> string)
    requires EvalKey(e).Some?
    ensures Describes(EvalKey(e).value, SurplusAt(e), Eval(e, env))
  {
    match e
    case Sprintf(Some(format), args, id) => FormatDescribes(format, args, env(id));
    case Add(x, y) =>
      StaticTextDescribesValue(x, env);
      if EvalKey(x).value.complete && EvalKey(y).Some? {
        StaticTextDescribesValue(y, env);
        AddDescribes(EvalKey(x).value, SurplusAt(x), Eval(x, env), EvalKey(y).value, SurplusAt(y), Eval(y, env));
      }
    case _ =>
  }

  lemma FormatDescribes(format: string, args: nat, rest: string)
    ensures Describes(Static(format, '%' !in format),
                      if '%' !in format && args > 0 then Some(|format|) else None, Format(format, args, rest))
  {
    if '%' !in format {
      assert format[..|format|] == format;
      assert format + "%!(EXTRA " + rest + ")" == format + "%" + ("!(EXTRA " + rest + ")");
    }
  }

  lemma AddDescribes(left: Static, ls: Option<nat>, lv: string, right: Static, rs: Option<nat>, rv: string)
    requires left.complete && Describes(left, ls, lv) && Describes(right, rs, rv)
    ensures Describes(Static(left.text + right.text, right.complete),
                      if ls.Some? then ls else if rs.Some? then Some(|left.text| + rs.value) else None, lv + rv)
  {
    var text := left.text + right.text;
    match ls
    case Some(k) =>
      assert text[..k] == left.text[..k];
    case None =>
      match rs
      case Some(k) =>
        assert text[..|left.text| + k] + "%" == left.text + (right.text[..k] + "%");
      case None =>
        if !right.complete {
          FirstOfSum(left.text, right.text);
        }
  }

  lemma FirstOfSum(a: string, b: string)
    ensures '%' in a ==> (a + b)[..IndexOf(a + b, '%')] == a[..IndexOf(a, '%')]
    ensures '%' !in a ==> (a + b)[..IndexOf(a + b, '%')] == a + b[..IndexOf(b, '%')]
  {
    var i, j := IndexOf(a, '%'), IndexOf(a + b, '%');
    if '%' in a {
      assert i < |a|;
      assert (a + b)[i] == '%';
      assert i == j;
    } else {
      var n := IndexOf(b, '%');
      assert forall k :: 0 <= k < |b| ==> (a + b)[|a| + k] == b[k];
      assert j >= |a|;
      if n < |b| {
        assert (a + b)[|a| + n] == '%';
      }
      if j < |a + b| {
        assert b[j - |a|] == '%';
      }
      assert j == |a| + n;
    }
  }

  /** A text flagged complete is the value, unless a Sprintf reports left-over arguments. */
  lemma CompleteTextIsTheValue(e: Expr, env: nat -> string)
    requires EvalKey(e).Some? && EvalKey(e).value.complete
    ensures Eval(e, env) == EvalKey(e).value.text <==> SurplusAt(e).None?
  {
    StaticTextDescribesValue(e, env);
  }

  lemma {:induction false} TrimRightIsPrefix(s: string)
    ensures TrimRight(s) <= s
  {
    if s != "" && IsSpace(s[|s| - 1]) {
      TrimRightIsPrefix(s[..|s| - 1]);
    }
  }

  /** Trimming a prefix of v leaves a prefix of v exactly when there was nothing to trim in front. */
  lemma TrimmedPrefix(q: string, v: string)
    requires q <= v && TrimSpace(q) != ""
    ensures TrimSpace(q) <= v <==> !IsSpace(q[0])
    ensures |TrimSpace(q)| <= |q| && TrimSpace(q)[0] in q && !IsSpace(TrimSpace(q)[0])
  {
    BlankTrimsToNothing(q);
    TrimLeftStops(q);
    TrimRightIsPrefix(TrimLeft(q));
    TrimLeftIsShorter(q);
    assert TrimSpace(q)[0] == TrimLeft(q)[0];
  }

  lemma {:induction false} TrimLeftIsShorter(s: string)
    ensures |TrimLeft(s)| <= |s| && forall c :: c in TrimLeft(s) ==> c in s
  {
    if s != "" && IsSpace(s[0]) {
      TrimLeftIsShorter(s[1..]);
    }
  }

  lemma CutIsPrefix(key: Static)
    ensures Cut(key) <= key.text && forall k :: 0 <= k < |Cut(key)| ==> !IsWild(Cut(key)[k])
    ensures |Cut(key)| <= IndexOf(key.text, '%')
  {
  }

  /** Nothing but spaces is left of the cut text behind the place where a report of left-over arguments starts. */
  predicate EndsBefore(cut: string, surplus: Option<nat>) {
    surplus.Some? && surplus.value < |cut| ==> Blank(cut[surplus.value..])
  }

  lemma {:induction false} TrimmedLength(q: string, k: nat)
    requires q != "" && !IsSpace(q[0]) && k <= |q|
    ensures |TrimRight(q)| <= k <==> Blank(q[k..])
  {
    if IsSpace(q[|q| - 1]) {
      var front := q[..|q| - 1];
      if k < |q| {
        TrimmedLength(front, k);
        assert forall i :: 0 <= i < |front[k..]| ==> front[k..][i] == q[k..][i];
        assert q[k..][|q[k..]| - 1] == q[|q| - 1];
      } else {
        TrimRightIsPrefix(q);
      }
    } else if k < |q| {
      assert q[k..][|q[k..]| - 1] == q[|q| - 1];
    }
  }

  /**
   The keyspace is a prefix of every key the expression makes, exactly when the static text has no leading space and its
   cut ends, but for spaces, before any report of left-over arguments.
   */
  lemma KeyspaceIsAPrefix(e: Expr, env: nat -> string)
    requires KeyPrefix(e).Some?
    ensures EvalKey(e).value.text != ""
    ensures KeyPrefix(e).value <= Eval(e, env) <==>
      !IsSpace(EvalKey(e).value.text[0]) && EndsBefore(Cut(EvalKey(e).value), SurplusAt(e))
  {
    var key, v := EvalKey(e).value, Eval(e, env);
    var q := Cut(key);
    StaticTextDescribesValue(e, env);
    CutIsPrefix(key);
    match SurplusAt(e)
    case None =>
      assert q <= v;
      TrimmedPrefix(q, v);
    case Some(k) =>
      SurplusCase(key, k, v, q);
      if !IsSpace(key.text[0]) && k < |q| {
        TrimmedLength(q, k);
      }
      TrimmedPrefix(q, q);
  }

  lemma SurplusCase(key: Static, k: nat, v: string, q: string)
    requires k <= |key.text| && key.text[..k] + "%" <= v
    requires q <= key.text && TrimSpace(q) != "" && forall j :: 0 <= j < |q| ==> !IsWild(q[j])
    ensures TrimSpace(q) <= v <==> !IsSpace(key.text[0]) && |TrimSpace(q)| <= k
  {
    var p := TrimSpace(q);
    var report := key.text[..k] + "%";
    TrimmedPrefix(q, q);
    assert q[0] == key.text[0] && v[k] == report[k] == '%';
    if IsSpace(key.text[0]) {
      assert v[0] == report[0] && p[0] != report[0];
    } else if |p| <= k {
      assert p <= report;
    } else {
      assert p[k] == q[k] != '%';
    }
  }

  /** A fully static key without wildcards or surrounding space is kept whole. */
  lemma StaticKeyIsKeptWhole(e: Expr, env: nat -> string)
    requires EvalKey(e).Some? && EvalKey(e).value.complete && SurplusAt(e).None?
    requires var t := EvalKey(e).value.text;
             && t != "" && t != ":" && !IsSpace(t[0]) && !IsSpace(t[|t| - 1])
             && forall k :: 0 <= k < |t| ==> !IsWild(t[k])
    ensures KeyPrefix(e) == Some(Eval(e, env))
  {
    CompleteTextIsTheValue(e, env);
    var t := EvalKey(e).value.text;
    assert WildIndex(t) == |t| && t[..|t|] == t;
  }

  /** Any other key that has a colon in what is left of it is cut back to just behind a colon. */
  lemma KeyspaceEndsAtColon(e: Expr)
    requires KeyPrefix(e).Some?
    requires var key := EvalKey(e).value;
             && ':' in key.text[..WildIndex(key.text)]
             && (!key.complete || WildIndex(key.text) < |key.text|)
    ensures var p := KeyPrefix(e).value; p[|p| - 1] == ':'
  {
    var key := EvalKey(e).value;
    CutEndsAtColon(key);
    TrimKeepsColon(Cut(key));
  }

  lemma CutEndsAtColon(key: Static)
    requires ':' in key.text[..WildIndex(key.text)]
    requires !key.complete || WildIndex(key.text) < |key.text|
    ensures Cut(key) != "" && Cut(key)[|Cut(key)| - 1] == ':'
  {
  }

  lemma TrimKeepsColon(q: string)
    requires q != "" && q[|q| - 1] == ':'
    ensures TrimSpace(q) != "" && TrimSpace(q)[|TrimSpace(q)| - 1] == ':'
  {
    TrimLeftKeepsLast(q);
  }

  lemma {:induction false} TrimLeftKeepsLast(s: string)
    requires s != "" && !IsSpace(s[|s| - 1])
    ensures TrimLeft(s) != "" && TrimLeft(s)[|TrimLeft(s)| - 1] == s[|s| - 1]
  {
    if IsSpace(s[0]) {
      TrimLeftKeepsLast(s[1..]);
    }
  }
}
