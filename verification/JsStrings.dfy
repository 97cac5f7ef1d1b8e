/**
 The string literals of a script (codescan/extract_frontend.go, jsStrings): a lexical grammar of positions, and the
 hand-written scanner proved to find the one way of reading the source by that grammar.
 */
module JsStrings {
  import opened Text
  import opened Wrappers

  /** Stands for a path segment only known at run time. */
  const DYNAMIC := 0 as char

  datatype JsStr = JsStr(val: string, start: nat, end: nat, line: int)

  predicate IsQuote(c: char) {
    c == '\'' || c == '"' || c == '`'
  }

  predicate StartsAt(src: string, i: nat, a: char, b: char) {
    i + 1 < |src| && src[i] == a && src[i + 1] == b
  }

  // ---- the grammar of a literal's body ----

  /** A stretch of a literal: one character, a backslash with the character it escapes, or a hole `${...}`. */
  datatype PieceKind = Plain | Escape | Hole
  datatype Piece = Piece(kind: PieceKind, from: nat, to: nat)

  /** Opening braces less closing braces in src[from..to]. */
  function Depth(src: string, from: nat, to: nat): int
    requires from <= to <= |src|
  {
    if from == to then 0
    else Depth(src, from, to - 1) + (if src[to - 1] == '{' then 1 else if src[to - 1] == '}' then -1 else 0)
  }

  /** A hole ends with the brace that closes it, or with the source when none does. */
  ghost predicate IsHole(src: string, from: nat, to: nat) {
    && StartsAt(src, from, '$', '{')
    && from + 2 <= to <= |src|
    && (forall k :: from + 2 <= k < to ==> Depth(src, from, k) > 0)
    && (Depth(src, from, to) == 0 || (to == |src| && Depth(src, from, to) > 0))
  }

  ghost predicate ValidPiece(src: string, quote: char, p: Piece) {
    && p.from < p.to <= |src|
    && src[p.from] != quote
    && match p.kind
       case Plain =>
         && p.to == p.from + 1
         && !(src[p.from] == '\\' && p.to < |src|)
         && (quote != '`' ==> src[p.from] != '\n')
         && (quote == '`' ==> !StartsAt(src, p.from, '$', '{'))
       case Escape => src[p.from] == '\\' && p.to == p.from + 2
       case Hole => quote == '`' && IsHole(src, p.from, p.to)
  }

  /** The pieces read src[from..to] without a gap. */
  ghost predicate Reads(src: string, quote: char, pieces: seq<Piece>, from: nat, to: nat) {
    && to <= |src|
    && (forall k :: 0 <= k < |pieces| ==> ValidPiece(src, quote, pieces[k]))
    && (forall j, k :: 0 <= j < k < |pieces| && k == j + 1 ==> pieces[k].from == pieces[j].to)
    && (if pieces == [] then from == to else pieces[0].from == from && pieces[|pieces| - 1].to == to)
  }

  /** What a piece stands for. */
  function PieceChar(src: string, p: Piece): char
    requires p.from < p.to <= |src|
  {
    if p.kind.Hole? then DYNAMIC else src[p.to - 1]
  }

  function Value(src: string, pieces: seq<Piece>): string
    requires forall k :: 0 <= k < |pieces| ==> pieces[k].from < pieces[k].to <= |src|
  {
    if pieces == [] then ""
    else Value(src, pieces[..|pieces| - 1]) + [PieceChar(src, pieces[|pieces| - 1])]
  }

  function Newlines(src: string, from: nat, to: nat): nat
    requires from <= to <= |src|
  {
    if from == to then 0 else Newlines(src, from, to - 1) + if src[to - 1] == '\n' then 1 else 0
  }

  /** Newlines the scanner walks past without counting: escaped ones, and those inside a hole. */
  function Hidden(src: string, pieces: seq<Piece>): nat
    requires forall k :: 0 <= k < |pieces| ==> pieces[k].from < pieces[k].to <= |src|
  {
    if pieces == [] then 0
    else
      var last := pieces[|pieces| - 1];
      Hidden(src, pieces[..|pieces| - 1]) + if last.kind.Plain? then 0 else Newlines(src, last.from, last.to)
  }

  // ---- the grammar of a source ----

  datatype Kind =
    | Other
    | LineComment
    | BlockComment
    | Unclosed
    | Literal(pieces: seq<Piece>, stop: nat)
    | Broken(pieces: seq<Piece>, stop: nat)

  datatype Lexeme = Lexeme(kind: Kind, from: nat, to: nat)

  ghost predicate Body(src: string, pieces: seq<Piece>, from: nat, stop: nat) {
    && from < stop <= |src|
    && IsQuote(src[from])
    && Reads(src, src[from], pieces, from + 1, stop)
  }

  ghost predicate ValidLexeme(src: string, l: Lexeme) {
    && l.from < l.to <= |src|
    && match l.kind
       case Other =>
         && l.to == l.from + 1
         && !IsQuote(src[l.from])
         && !StartsAt(src, l.from, '/', '/')
         && !StartsAt(src, l.from, '/', '*')
       case LineComment =>
         && StartsAt(src, l.from, '/', '/')
         && (forall k :: l.from <= k < l.to - 1 ==> src[k] != '\n')
         && (src[l.to - 1] == '\n' || l.to == |src|)
       case BlockComment =>
         && StartsAt(src, l.from, '/', '*')
         && l.from + 4 <= l.to
         && StartsAt(src, l.to - 2, '*', '/')
         && forall k :: l.from + 2 <= k < l.to - 2 ==> !StartsAt(src, k, '*', '/')
       case Unclosed =>
         && StartsAt(src, l.from, '/', '*')
         && l.to == |src|
         && forall k :: l.from + 2 <= k < |src| ==> !StartsAt(src, k, '*', '/')
       case Literal(pieces, stop) =>
         && Body(src, pieces, l.from, stop)
         && (stop < |src| ==> src[stop] == src[l.from])
         && l.to == Min(stop + 1, |src|)
       case Broken(pieces, stop) =>
         && Body(src, pieces, l.from, stop)
         && src[l.from] != '`'
         && stop < |src| && src[stop] == '\n'
         && l.to == stop + 1
  }

  /** The lexemes cover src[..to] without a gap. */
  ghost predicate Lexes(src: string, lexemes: seq<Lexeme>, to: nat) {
    && (forall k :: 0 <= k < |lexemes| ==> ValidLexeme(src, lexemes[k]))
    && (forall j, k :: 0 <= j < k < |lexemes| && k == j + 1 ==> lexemes[k].from == lexemes[j].to)
    && (if lexemes == [] then to == 0 else lexemes[0].from == 0 && lexemes[|lexemes| - 1].to == to)
  }

  function HiddenIn(src: string, l: Lexeme): nat
    requires ValidLexeme(src, l)
  {
    if l.kind.Literal? || l.kind.Broken? then Hidden(src, l.kind.pieces) else 0
  }

  function HiddenBefore(src: string, lexemes: seq<Lexeme>, to: nat): nat
    requires Lexes(src, lexemes, to)
    decreases |lexemes|
  {
    if lexemes == [] then 0
    else
      var last := lexemes[|lexemes| - 1];
      HiddenBefore(src, lexemes[..|lexemes| - 1], last.from) + HiddenIn(src, last)
  }

  /** The token of a lexeme, if it is a literal, placed after the lexemes of `before`. */
  function TokenOf(src: string, before: seq<Lexeme>, l: Lexeme): seq<JsStr>
    requires Lexes(src, before, l.from) && ValidLexeme(src, l)
  {
    if l.kind.Literal? then
      [JsStr(Value(src, l.kind.pieces), l.from, l.to, 1 + Newlines(src, 0, l.from) - HiddenBefore(src, before, l.from))]
    else []
  }

  /** The literals of a reading, with the line each starts on as the scanner counts lines. */
  function Tokens(src: string, lexemes: seq<Lexeme>, to: nat): seq<JsStr>
    requires Lexes(src, lexemes, to) && to <= |src|
    decreases |lexemes|
  {
    if lexemes == [] then []
    else
      var last := lexemes[|lexemes| - 1];
      var front := lexemes[..|lexemes| - 1];
      Tokens(src, front, last.from) + TokenOf(src, front, last)
  }

  // ---- the scanner ----

  method SkipHole(src: string, start: nat) returns (i: nat)
    requires StartsAt(src, start, '$', '{')
    ensures start + 2 <= i <= |src| && IsHole(src, start, Min(i + 1, |src|))
    ensures i < |src| ==> src[i] == '}'
  {
    var depth := 0;
    i := start;
    while i < |src|
      invariant start <= i <= |src|
      invariant depth == Depth(src, start, i)
      invariant i <= start + 1 ==> depth == 0
      invariant forall k :: start + 2 <= k <= i ==> Depth(src, start, k) > 0
    {
      if src[i] == '{' {
        depth := depth + 1;
      } else if src[i] == '}' {
        depth := depth - 1;
        if depth == 0 {
          break;
        }
      }
      i := i + 1;
    }
  }

  /** The scanner stands at `to` inside the literal opened at `start`, having read `pieces`. */
  ghost predicate Inside(src: string, start: nat, startLine: int, pieces: seq<Piece>, to: nat, val: string, line: int) {
    && Body(src, pieces, start, to)
    && val == Value(src, pieces)
    && line + Hidden(src, pieces) == startLine + Newlines(src, start, to)
  }

  lemma AddPiece(src: string, start: nat, startLine: int, pieces: seq<Piece>, p: Piece, val: string, line: int)
    requires Inside(src, start, startLine, pieces, p.from, val, line) && ValidPiece(src, src[start], p)
    ensures Inside(src, start, startLine, pieces + [p], p.to, val + [PieceChar(src, p)],
                   line + if p.kind.Plain? && src[p.from] == '\n' then 1 else 0)
  {
    assert (pieces + [p])[..|pieces|] == pieces;
    NewlinesSplit(src, start, p.from, p.to);
  }

  /** From the opening quote to the closing one, to the newline that breaks a quoted literal, or to the end. */
  method ScanLiteral(src: string, start: nat, startLine: int)
    returns (i: nat, val: string, line: int, broken: bool, ghost pieces: seq<Piece>)
    requires start < |src| && IsQuote(src[start])
    ensures start < i <= |src| + 1
    ensures Inside(src, start, startLine, pieces, Min(i, |src|), val, line)
    ensures if broken then src[start] != '`' && i < |src| && src[i] == '\n'
            else i < |src| ==> src[i] == src[start]
  {
    var c := src[start];
    i, val, line, broken, pieces := start + 1, "", startLine, false, [];
    StartInside(src, start, startLine);
    while i < |src| && src[i] != c
      invariant start < i <= |src| + 1 && !broken
      invariant Inside(src, start, startLine, pieces, Min(i, |src|), val, line)
      decreases |src| + 1 - i
    {
      ghost var piece: Piece;
      ghost var valThere, lineThere := val, line;
      if src[i] == '\\' && i + 1 < |src| {
        val := val + [src[i + 1]];
        i, piece := i + 2, Piece(Escape, i, i + 2);
      } else if c != '`' && src[i] == '\n' {
        broken := true;
        return;
      } else if c == '`' && src[i] == '$' && i + 1 < |src| && src[i + 1] == '{' {
        var close := SkipHole(src, i);
        val := val + [DYNAMIC];
        i, piece := close + 1, Piece(Hole, i, Min(close + 1, |src|));
      } else {
        if src[i] == '\n' {
          line := line + 1;
        }
        val := val + [src[i]];
        i, piece := i + 1, Piece(Plain, i, i + 1);
      }
      assert ValidPiece(src, c, piece) && piece.to == Min(i, |src|);
      assert val == valThere + [PieceChar(src, piece)];
      AddPiece(src, start, startLine, pieces, piece, valThere, lineThere);
      pieces := pieces + [piece];
    }
  }

  lemma StartInside(src: string, start: nat, startLine: int)
    requires start < |src| && IsQuote(src[start])
    ensures Inside(src, start, startLine, [], start + 1, "", startLine)
  {
    assert Newlines(src, start, start + 1) == Newlines(src, start, start) == 0;
  }

  lemma {:induction false} NewlinesSplit(src: string, a: nat, b: nat, c: nat)
    requires a <= b <= c <= |src|
    ensures Newlines(src, a, c) == Newlines(src, a, b) + Newlines(src, b, c)
  {
    if b < c {
      NewlinesSplit(src, a, b, c - 1);
    }
  }

  lemma {:induction false} NoNewlines(src: string, a: nat, b: nat)
    requires a <= b <= |src| && forall k :: a <= k < b ==> src[k] != '\n'
    ensures Newlines(src, a, b) == 0
  {
    if a < b {
      NoNewlines(src, a, b - 1);
    }
  }

  /** The newline that ends a line comment, or the end of the source. */
  method LineEnd(src: string, start: nat) returns (i: nat)
    requires start < |src| && src[start] != '\n'
    ensures start < i <= |src|
    ensures (forall k :: start <= k < i ==> src[k] != '\n') && (i < |src| ==> src[i] == '\n')
    ensures i < |src| ==> Newlines(src, start, i + 1) == 1
  {
    i := start;
    while i < |src| && src[i] != '\n'
      invariant start <= i <= |src|
      invariant forall k :: start <= k < i ==> src[k] != '\n'
    {
      i := i + 1;
    }
    NoNewlines(src, start, i);
  }

  method FindClose(src: string, from: nat) returns (close: Option<nat>)
    requires from <= |src|
    ensures match close
            case Some(j) => from <= j && StartsAt(src, j, '*', '/') && forall k :: from <= k < j ==> !StartsAt(src, k, '*', '/')
            case None => forall k :: from <= k < |src| ==> !StartsAt(src, k, '*', '/')
  {
    for j := from to |src|
      invariant forall k :: from <= k < j ==> !StartsAt(src, k, '*', '/')
    {
      if StartsAt(src, j, '*', '/') {
        return Some(j);
      }
    }
    return None;
  }

  /** The scanner stands at `to`, having read `lexemes`. */
  ghost predicate Scanned(src: string, lexemes: seq<Lexeme>, to: nat, out: seq<JsStr>, line: int) {
    && to <= |src|
    && Lexes(src, lexemes, to)
    && out == Tokens(src, lexemes, to)
    && line + HiddenBefore(src, lexemes, to) == 1 + Newlines(src, 0, to)
  }

  lemma AddLexeme(src: string, lexemes: seq<Lexeme>, l: Lexeme, out: seq<JsStr>, line: int)
    requires Scanned(src, lexemes, l.from, out, line) && ValidLexeme(src, l)
    ensures Scanned(src, lexemes + [l], l.to, out + TokenOf(src, lexemes, l),
                    line + Newlines(src, l.from, l.to) - HiddenIn(src, l))
  {
    assert (lexemes + [l])[..|lexemes|] == lexemes;
    NewlinesSplit(src, 0, l.from, l.to);
  }

  /** A block comment is left behind; one that never closes ends the scan. */
  method SkipBlock(src: string, start: nat, startLine: int) returns (i: nat, line: int, ghost lexeme: Lexeme)
    requires StartsAt(src, start, '/', '*')
    ensures ValidLexeme(src, lexeme) && lexeme.from == start && lexeme.to == i
    ensures lexeme.kind.BlockComment? || lexeme.kind.Unclosed?
    ensures i < |src| ==> line == startLine + Newlines(src, start, i)
  {
    var close := FindClose(src, start + 2);
    if close.None? {
      return |src|, startLine, Lexeme(Unclosed, start, |src|);
    }
    line := startLine + Newlines(src, start, close.value);
    NewlinesSplit(src, start, close.value, close.value + 2);
    i := close.value + 2;
    lexeme := Lexeme(BlockComment, start, i);
  }

  /** A literal is a token, unless a newline breaks it. */
  method TakeLiteral(src: string, start: nat, startLine: int, ghost before: seq<Lexeme>)
    returns (i: nat, line: int, token: seq<JsStr>, ghost lexeme: Lexeme)
    requires start < |src| && IsQuote(src[start]) && Lexes(src, before, start)
    requires startLine + HiddenBefore(src, before, start) == 1 + Newlines(src, 0, start)
    ensures ValidLexeme(src, lexeme) && lexeme.from == start && lexeme.to == Min(i, |src|) && i <= |src| + 2
    ensures token == TokenOf(src, before, lexeme)
    ensures i < |src| ==> line == startLine + Newlines(src, start, i) - HiddenIn(src, lexeme)
  {
    var val, broken;
    ghost var pieces;
    i, val, line, broken, pieces := ScanLiteral(src, start, startLine);
    if broken {
      line, token := line + 1, [];
      lexeme := Lexeme(Broken(pieces, i), start, i + 1);
    } else {
      token := [JsStr(val, start, Min(i + 1, |src|), startLine)];
      lexeme := Lexeme(Literal(pieces, Min(i, |src|)), start, Min(i + 1, |src|));
    }
    i := i + 1;
  }

  /** One step: the lexeme that starts here, the token it gives and where to go on. */
  method ScanOne(src: string, start: nat, startLine: int, ghost before: seq<Lexeme>)
    returns (i: nat, line: int, token: seq<JsStr>, ghost lexeme: Lexeme)
    requires start < |src| && Lexes(src, before, start)
    requires startLine + HiddenBefore(src, before, start) == 1 + Newlines(src, 0, start)
    ensures ValidLexeme(src, lexeme) && lexeme.from == start && lexeme.to == Min(i, |src|) && i <= |src| + 2
    ensures token == TokenOf(src, before, lexeme)
    ensures i < |src| ==> line == startLine + Newlines(src, start, i) - HiddenIn(src, lexeme)
  {
    var c := src[start];
    if c == '/' && start + 1 < |src| && src[start + 1] == '/' {
      i := LineEnd(src, start);
      lexeme := Lexeme(LineComment, start, Min(i + 1, |src|));
      i, line, token := i + 1, startLine + 1, [];
    } else if c == '/' && start + 1 < |src| && src[start + 1] == '*' {
      i, line, lexeme := SkipBlock(src, start, startLine);
      token := [];
    } else if IsQuote(c) {
      i, line, token, lexeme := TakeLiteral(src, start, startLine, before);
    } else {
      i, line, token := start + 1, if c == '\n' then startLine + 1 else startLine, [];
      lexeme := Lexeme(Other, start, i);
    }
  }

  // ---- what the tokens promise ----

  /** A token lies in the source, opens with a quote and ends after the same quote or with the source. */
  ghost predicate WellPlaced(src: string, t: JsStr) {
    && t.start < t.end <= |src|
    && IsQuote(src[t.start])
    && ((t.start + 1 < t.end && src[t.end - 1] == src[t.start]) || t.end == |src|)
  }

  ghost predicate Placed(src: string, ts: seq<JsStr>, bound: nat) {
    && (forall k :: 0 <= k < |ts| ==> WellPlaced(src, ts[k]) && ts[k].end <= bound)
    && forall j, k :: 0 <= j < k < |ts| ==> ts[j].end <= ts[k].start
  }

  lemma Unfold(src: string, lexemes: seq<Lexeme>, to: nat)
    returns (front: seq<Lexeme>, last: Lexeme, earlier: seq<JsStr>, token: seq<JsStr>)
    requires Lexes(src, lexemes, to) && lexemes != []
    ensures lexemes == front + [last] && Lexes(src, front, last.from) && ValidLexeme(src, last) && last.to == to
    ensures earlier == Tokens(src, front, last.from) && token == TokenOf(src, front, last)
    ensures Tokens(src, lexemes, to) == earlier + token
    ensures HiddenBefore(src, lexemes, to) == HiddenBefore(src, front, last.from) + HiddenIn(src, last)
  {
    front, last := lexemes[..|lexemes| - 1], lexemes[|lexemes| - 1];
    earlier, token := Tokens(src, front, last.from), TokenOf(src, front, last);
  }

  /** Tokens are in bounds, strictly ordered and disjoint, and delimited by their quotes. */
  lemma {:induction false} TokensAreOrdered(src: string, lexemes: seq<Lexeme>, to: nat)
    requires Lexes(src, lexemes, to) && to <= |src|
    ensures Placed(src, Tokens(src, lexemes, to), to)
    decreases |lexemes|
  {
    if lexemes != [] {
      var front, last, earlier, token := Unfold(src, lexemes, to);
      TokensAreOrdered(src, front, last.from);
      if last.kind.Literal? {
        assert token == [token[0]] && WellPlaced(src, token[0]);
      }
    }
  }

  /**
   One pass with an index and a line counter: it ends on every input, and returns the literals of the source as the
   grammar reads it, which is in one way only.
   */
  method Scan(src: string) returns (out: seq<JsStr>)
    ensures exists lexemes :: Lexes(src, lexemes, |src|) && out == Tokens(src, lexemes, |src|)
    ensures Placed(src, out, |src|)
  {
    ghost var lexemes: seq<Lexeme> := [];
    out := [];
    var line, i := 1, 0;
    ghost var lineThere := 1;
    while i < |src|
      invariant i <= |src| + 2
      invariant Scanned(src, lexemes, Min(i, |src|), out, lineThere)
      invariant i < |src| ==> line == lineThere
      decreases |src| + 2 - i
    {
      var token;
      ghost var lexeme;
      i, line, token, lexeme := ScanOne(src, i, line, lexemes);
      AddLexeme(src, lexemes, lexeme, out, lineThere);
      lineThere := lineThere + Newlines(src, lexeme.from, lexeme.to) - HiddenIn(src, lexeme);
      out := out + token;
      lexemes := lexemes + [lexeme];
    }
    TokensAreOrdered(src, lexemes, |src|);
  }

  /** A literal without escapes and holes stands for the very text between its quotes. */
  lemma {:induction false} PlainValueIsText(src: string, quote: char, pieces: seq<Piece>, from: nat, to: nat)
    requires Reads(src, quote, pieces, from, to)
    requires forall k :: 0 <= k < |pieces| ==> pieces[k].kind.Plain?
    ensures from <= to && Value(src, pieces) == src[from..to]
  {
    if pieces != [] {
      var front, last := pieces[..|pieces| - 1], pieces[|pieces| - 1];
      PlainValueIsText(src, quote, front, from, last.from);
      assert src[from..to] == src[from..last.from] + [src[last.from]];
    }
  }

  /** No literal, read or broken, holds an escaped newline or a newline inside a hole. */
  ghost predicate NothingHidden(src: string, lexemes: seq<Lexeme>) {
    forall k :: 0 <= k < |lexemes| && ValidLexeme(src, lexemes[k]) ==> HiddenIn(src, lexemes[k]) == 0
  }

  /** Each token belongs to a lexeme of the reading; its line falls short by the newlines hidden before that lexeme. */
  lemma {:induction false} LineShortfall(src: string, lexemes: seq<Lexeme>, to: nat, k: nat) returns (n: nat)
    requires Lexes(src, lexemes, to) && to <= |src| && k < |Tokens(src, lexemes, to)|
    decreases |lexemes|
    ensures n < |lexemes| && lexemes[n].kind.Literal?
    ensures Lexes(src, lexemes[..n], lexemes[n].from)
    ensures var t := Tokens(src, lexemes, to)[k];
            && t.start == lexemes[n].from <= |src|
            && t.line == 1 + Newlines(src, 0, t.start) - HiddenBefore(src, lexemes[..n], t.start)
  {
    var front, last, earlier, token := Unfold(src, lexemes, to);
    if k < |earlier| {
      n := LineShortfall(src, front, last.from, k);
      assert front[..n] == lexemes[..n];
    } else {
      n := |front|;
      assert lexemes[..n] == front;
    }
  }

  lemma {:induction false} HiddenIsZero(src: string, lexemes: seq<Lexeme>, to: nat)
    requires Lexes(src, lexemes, to)
    ensures HiddenBefore(src, lexemes, to) == 0 <==> NothingHidden(src, lexemes)
    decreases |lexemes|
  {
    if lexemes != [] {
      var front, last, _, _ := Unfold(src, lexemes, to);
      HiddenIsZero(src, front, last.from);
    }
  }

  /** A token's line is one plus the newlines before it exactly when no earlier literal hides a newline. */
  lemma LineIsExactUnlessHidden(src: string, lexemes: seq<Lexeme>, to: nat, k: nat) returns (n: nat)
    requires Lexes(src, lexemes, to) && to <= |src| && k < |Tokens(src, lexemes, to)|
    ensures n < |lexemes| && lexemes[n].from == Tokens(src, lexemes, to)[k].start <= |src|
    ensures var t := Tokens(src, lexemes, to)[k];
            t.line == 1 + Newlines(src, 0, t.start) <==> NothingHidden(src, lexemes[..n])
  {
    n := LineShortfall(src, lexemes, to, k);
    HiddenIsZero(src, lexemes[..n], lexemes[n].from);
  }

  // ---- the grammar reads every source in one way ----

  /** Of two pieces that start at the same place one is the other. */
  lemma PieceIsUnique(src: string, quote: char, a: Piece, b: Piece)
    requires ValidPiece(src, quote, a) && ValidPiece(src, quote, b) && a.from == b.from
    ensures a == b
  {
    if a.kind.Hole? && b.kind.Hole? {
      HoleIsUnique(src, a.from, a.to, b.to);
      HoleIsUnique(src, a.from, b.to, a.to);
    }
  }

  lemma HoleIsUnique(src: string, from: nat, a: nat, b: nat)
    requires IsHole(src, from, a) && IsHole(src, from, b)
    ensures b <= a
  {
    assert Depth(src, from, from + 2) == 1 + Depth(src, from, from + 1);
  }

  lemma {:induction false} PiecesAgree(src: string, quote: char, a: seq<Piece>, b: seq<Piece>, from: nat, m: nat, n: nat, k: nat)
    requires Reads(src, quote, a, from, m) && Reads(src, quote, b, from, n)
    requires k <= |a| && k <= |b|
    ensures forall j :: 0 <= j < k ==> a[j] == b[j]
  {
    if k > 0 {
      PiecesAgree(src, quote, a, b, from, m, n, k - 1);
      assert a[k - 1].from == b[k - 1].from by {
        if k > 1 {
          assert a[k - 2] == b[k - 2];
        }
      }
      PieceIsUnique(src, quote, a[k - 1], b[k - 1]);
    }
  }

  /** Where a literal's body ends: at its quote, at a newline that breaks it, or with the source. */
  ghost predicate Stops(src: string, quote: char, stop: nat) {
    stop == |src| || (stop < |src| && (src[stop] == quote || (quote != '`' && src[stop] == '\n')))
  }

  lemma NotLonger(src: string, quote: char, a: seq<Piece>, b: seq<Piece>, from: nat, m: nat, n: nat)
    requires Reads(src, quote, a, from, m) && Reads(src, quote, b, from, n)
    requires Stops(src, quote, m)
    ensures |b| <= |a|
  {
    if |a| < |b| {
      PiecesAgree(src, quote, a, b, from, m, n, |a|);
      assert b[|a|].from == m by {
        if |a| > 0 {
          assert a[|a| - 1] == b[|a| - 1];
        }
      }
    }
  }

  lemma BodyIsUnique(src: string, quote: char, a: seq<Piece>, b: seq<Piece>, from: nat, m: nat, n: nat)
    requires Reads(src, quote, a, from, m) && Reads(src, quote, b, from, n)
    requires Stops(src, quote, m) && Stops(src, quote, n)
    ensures a == b && m == n
  {
    NotLonger(src, quote, a, b, from, m, n);
    NotLonger(src, quote, b, a, from, n, m);
    PiecesAgree(src, quote, a, b, from, m, n, |a|);
  }

  lemma LexemeIsUnique(src: string, a: Lexeme, b: Lexeme)
    requires ValidLexeme(src, a) && ValidLexeme(src, b) && a.from == b.from
    ensures a == b
  {
    if IsQuote(src[a.from]) {
      BodyIsUnique(src, src[a.from], a.kind.pieces, b.kind.pieces, a.from + 1, a.kind.stop, b.kind.stop);
    }
  }

  lemma {:induction false} LexemesAgree(src: string, a: seq<Lexeme>, b: seq<Lexeme>, m: nat, n: nat, k: nat)
    requires Lexes(src, a, m) && Lexes(src, b, n) && k <= |a| && k <= |b|
    ensures forall j :: 0 <= j < k ==> a[j] == b[j]
  {
    if k > 0 {
      LexemesAgree(src, a, b, m, n, k - 1);
      assert a[k - 1].from == b[k - 1].from by {
        if k > 1 {
          assert a[k - 2] == b[k - 2];
        }
      }
      LexemeIsUnique(src, a[k - 1], b[k - 1]);
    }
  }

  lemma NotMoreLexemes(src: string, a: seq<Lexeme>, b: seq<Lexeme>)
    requires Lexes(src, a, |src|) && Lexes(src, b, |src|)
    ensures |b| <= |a|
  {
    if |a| < |b| {
      LexemesAgree(src, a, b, |src|, |src|, |a|);
      assert b[|a|].from == |src| by {
        if |a| > 0 {
          assert a[|a| - 1] == b[|a| - 1];
        }
      }
    }
  }

  /** The grammar reads a source in exactly one way, so it alone fixes the scanner's tokens. */
  lemma ReadingIsUnique(src: string, a: seq<Lexeme>, b: seq<Lexeme>)
    requires Lexes(src, a, |src|) && Lexes(src, b, |src|)
    ensures a == b
  {
    NotMoreLexemes(src, a, b);
    NotMoreLexemes(src, b, a);
    LexemesAgree(src, a, b, |src|, |src|, |a|);
  }
}
