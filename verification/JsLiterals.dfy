/**
 The tokens of sources written down as text: what the scanner returns for a literal of each quote, with escapes and holes,
 and for comments and broken literals (codescan/extract_frontend.go, jsStrings).
 */
module JsLiterals {
  import opened JsStrings
  import opened Text

  /** Every way of reading the source gives these tokens; the scanner finds one. */
  ghost predicate Yields(src: string, tokens: seq<JsStr>) {
    forall lexemes | Lexes(src, lexemes, |src|) :: Tokens(src, lexemes, |src|) == tokens
  }

  lemma OneReadingSuffices(src: string, lexemes: seq<Lexeme>)
    requires Lexes(src, lexemes, |src|)
    ensures Yields(src, Tokens(src, lexemes, |src|))
  {
    forall other | Lexes(src, other, |src|) ensures Tokens(src, other, |src|) == Tokens(src, lexemes, |src|) {
      ReadingIsUnique(src, other, lexemes);
    }
  }

  // ---- code in front ----

  /** Text that neither quotes nor comments. */
  predicate IsCode(s: string) {
    CodeTo(s, |s|)
  }

  predicate CodeTo(s: string, n: nat)
    requires n <= |s|
  {
    forall i :: 0 <= i < n ==> s[i] != '\'' && s[i] != '"' && s[i] != '`' && s[i] != '/'
  }

  /** The text stands at that place of the source. */
  predicate StandsAt(src: string, from: nat, text: string) {
    from + |text| <= |src| && forall i :: 0 <= i < |text| ==> src[from + i] == text[i]
  }

  function Others(n: nat): (r: seq<Lexeme>)
    ensures |r| == n && forall i :: 0 <= i < n ==> r[i] == Lexeme(Other, i, i + 1)
  {
    seq(n, i requires 0 <= i < n => Lexeme(Other, i, i + 1))
  }

  lemma {:induction false} CodeIsRead(src: string, n: nat)
    requires n <= |src| && CodeTo(src, n)
    ensures Lexes(src, Others(n), n) && Tokens(src, Others(n), n) == [] && HiddenBefore(src, Others(n), n) == 0
  {
    if n > 0 {
      CodeIsRead(src, n - 1);
      assert Others(n)[..n - 1] == Others(n - 1);
      assert ValidLexeme(src, Lexeme(Other, n - 1, n));
    }
  }

  function TokenBehind(src: string, n: nat, l: Lexeme): seq<JsStr>
    requires n <= |src| && ValidLexeme(src, l)
  {
    if l.kind.Literal? then [JsStr(Value(src, l.kind.pieces), n, l.to, 1 + Newlines(src, 0, n))] else []
  }

  lemma LexesOneMore(src: string, lexemes: seq<Lexeme>, l: Lexeme)
    requires Lexes(src, lexemes, l.from) && ValidLexeme(src, l)
    ensures Lexes(src, lexemes + [l], l.to)
    ensures Tokens(src, lexemes + [l], l.to) == Tokens(src, lexemes, l.from) + TokenOf(src, lexemes, l)
  {
    var all := lexemes + [l];
    assert all[..|lexemes|] == lexemes && all[|all| - 1] == l;
  }

  lemma NothingHiddenBefore(src: string, lexemes: seq<Lexeme>, l: Lexeme)
    requires Lexes(src, lexemes, l.from) && ValidLexeme(src, l) && HiddenBefore(src, lexemes, l.from) == 0
    ensures TokenOf(src, lexemes, l) == TokenBehind(src, l.from, l)
  {
  }

  lemma OneMoreLexeme(src: string, lexemes: seq<Lexeme>, l: Lexeme)
    requires Lexes(src, lexemes, l.from) && ValidLexeme(src, l)
    requires Tokens(src, lexemes, l.from) == [] && HiddenBefore(src, lexemes, l.from) == 0
    ensures Lexes(src, lexemes + [l], l.to)
    ensures Tokens(src, lexemes + [l], l.to) == TokenBehind(src, l.from, l)
  {
    LexesOneMore(src, lexemes, l);
    NothingHiddenBefore(src, lexemes, l);
  }

  /** Code and one lexeme to the end. */
  lemma CodeThen(src: string, n: nat, l: Lexeme)
    requires n <= |src| && CodeTo(src, n) && ValidLexeme(src, l) && l.from == n && l.to == |src|
    ensures Yields(src, TokenBehind(src, n, l))
  {
    CodeIsRead(src, n);
    OneMoreLexeme(src, Others(n), l);
    OneReadingSuffices(src, Others(n) + [l]);
  }

  predicate IsOpening(q: char) {
    q == '\'' || q == '"' || q == '`'
  }

  /** n characters of code, a quote, the body of a literal and the same quote. */
  predicate IsSource(src: string, n: nat, q: char, body: string) {
    && IsOpening(q)
    && |src| == n + |body| + 2 && CodeTo(src, n) && src[n] == q && src[|src| - 1] == q
    && StandsAt(src, n + 1, body)
  }

  lemma SourceParts(code: string, q: char, body: string)
    requires IsCode(code) && IsOpening(q)
    ensures IsSource(code + [q] + body + [q], |code|, q, body)
  {
    var src := code + [q] + body + [q];
    assert forall i :: 0 <= i < |code| ==> src[i] == code[i];
  }

  lemma LiteralThen(src: string, n: nat, q: char, body: string, pieces: seq<Piece>)
    requires IsSource(src, n, q, body) && Reads(src, q, pieces, n + 1, n + 1 + |body|)
    ensures Yields(src, [JsStr(Value(src, pieces), n, |src|, 1 + Newlines(src, 0, n))])
  {
    CodeThen(src, n, Lexeme(Literal(pieces, n + 1 + |body|), n, |src|));
  }

  // ---- text as it is ----

  /** Text a literal can hold unescaped. */
  predicate IsPlain(s: string, q: char) {
    forall i :: 0 <= i < |s| ==>
      s[i] != q && s[i] != '\\' && (q != '`' ==> s[i] != '\n') && (q == '`' && i + 1 < |s| ==> !(s[i] == '$' && s[i + 1] == '{'))
  }

  function PlainPieces(from: nat, n: nat): (r: seq<Piece>)
    ensures |r| == n && forall i :: 0 <= i < n ==> r[i] == Piece(Plain, from + i, from + i + 1)
  {
    seq(n, i requires 0 <= i < n => Piece(Plain, from + i, from + i + 1))
  }

  lemma PlainIsRead(src: string, from: nat, q: char, text: string)
    requires StandsAt(src, from, text) && from + |text| < |src| && src[from + |text|] != '{' && IsPlain(text, q)
    ensures Reads(src, q, PlainPieces(from, |text|), from, from + |text|)
    ensures Value(src, PlainPieces(from, |text|)) == text
  {
    var pieces := PlainPieces(from, |text|);
    forall i | 0 <= i < |text| ensures ValidPiece(src, q, pieces[i]) {
      assert src[from + i] == text[i];
      assert i + 1 < |text| ==> src[from + i + 1] == text[i + 1];
    }
    PlainValueIsText(src, q, pieces, from, from + |text|);
    assert src[from..from + |text|] == text;
  }

  /** Plain text in quotes of any kind is one token with that text, on its line and between its quotes. */
  lemma PlainLiteral(src: string, n: nat, q: char, text: string)
    requires IsSource(src, n, q, text) && IsPlain(text, q)
    ensures Yields(src, [JsStr(text, n, |src|, 1 + Newlines(src, 0, n))])
  {
    PlainIsRead(src, n + 1, q, text);
    LiteralThen(src, n, q, text, PlainPieces(n + 1, |text|));
  }

  // ---- escapes ----

  /** The body is the text with a backslash before each character. */
  predicate Escapes(body: string, v: string) {
    |body| == 2 * |v| && forall i :: 0 <= i < |v| ==> body[2 * i] == '\\' && body[2 * i + 1] == v[i]
  }

  predicate EscapedAt(src: string, from: nat, v: string) {
    from + 2 * |v| <= |src| && forall i :: 0 <= i < |v| ==> src[from + 2 * i] == '\\' && src[from + 2 * i + 1] == v[i]
  }

  function EscapePiece(from: nat, i: nat): Piece {
    Piece(Escape, from + 2 * i, from + 2 * i + 2)
  }

  function EscapePieces(from: nat, n: nat): (r: seq<Piece>)
    ensures |r| == n && forall i :: 0 <= i < n ==> r[i] == EscapePiece(from, i)
  {
    seq(n, i requires 0 <= i < n => EscapePiece(from, i))
  }

  lemma {:induction false} ValueAt(src: string, pieces: seq<Piece>)
    requires forall k :: 0 <= k < |pieces| ==> pieces[k].from < pieces[k].to <= |src|
    ensures |Value(src, pieces)| == |pieces|
    ensures forall k :: 0 <= k < |pieces| ==> Value(src, pieces)[k] == PieceChar(src, pieces[k])
  {
    if pieces != [] {
      ValueAt(src, pieces[..|pieces| - 1]);
    }
  }

  lemma AddToReads(src: string, q: char, pieces: seq<Piece>, p: Piece, from: nat)
    requires Reads(src, q, pieces, from, p.from) && ValidPiece(src, q, p)
    ensures Reads(src, q, pieces + [p], from, p.to)
    ensures Value(src, pieces + [p]) == Value(src, pieces) + [PieceChar(src, p)]
  {
    var all := pieces + [p];
    assert all[..|pieces|] == pieces && all[|all| - 1] == p;
  }

  lemma EscapedIsRead(src: string, from: nat, q: char, v: string)
    requires IsOpening(q) && EscapedAt(src, from, v)
    ensures Reads(src, q, EscapePieces(from, |v|), from, from + 2 * |v|)
    ensures Value(src, EscapePieces(from, |v|)) == v
  {
    var pieces := EscapePieces(from, |v|);
    forall i | 0 <= i < |v| ensures ValidPiece(src, q, pieces[i]) && PieceChar(src, pieces[i]) == v[i] {
      EscapedCharacter(src, from, q, v, i);
    }
    ValueAt(src, pieces);
  }

  lemma EscapedCharacter(src: string, from: nat, q: char, v: string, i: nat)
    requires IsOpening(q) && EscapedAt(src, from, v) && i < |v|
    ensures ValidPiece(src, q, EscapePiece(from, i)) && PieceChar(src, EscapePiece(from, i)) == v[i]
  {
  }

  /** Any text at all, each character behind a backslash, is one token with that text. */
  lemma EscapedLiteral(src: string, n: nat, q: char, body: string, v: string)
    requires IsSource(src, n, q, body) && Escapes(body, v)
    ensures Yields(src, [JsStr(v, n, |src|, 1 + Newlines(src, 0, n))])
  {
    forall i | 0 <= i < |v| ensures src[n + 1 + 2 * i] == '\\' && src[n + 1 + 2 * i + 1] == v[i] {
      assert src[n + 1 + 2 * i] == body[2 * i] && src[n + 1 + (2 * i + 1)] == body[2 * i + 1];
    }
    EscapedIsRead(src, n + 1, q, v);
    LiteralThen(src, n, q, body, EscapePieces(n + 1, |v|));
  }

  // ---- holes ----

  lemma {:induction false} FlatDepth(src: string, from: nat, to: nat)
    requires from + 2 <= to <= |src| && src[from] == '$' && src[from + 1] == '{'
    requires forall i :: from + 2 <= i < to ==> src[i] != '{' && src[i] != '}'
    ensures Depth(src, from, to) == 1
  {
    if to == from + 2 {
      assert Depth(src, from, from + 1) == Depth(src, from, from) == 0;
    } else {
      FlatDepth(src, from, to - 1);
    }
  }

  lemma HoleIsRead(src: string, from: nat, expression: string)
    requires from + |expression| + 3 <= |src| && src[from] == '$' && src[from + 1] == '{'
    requires StandsAt(src, from + 2, expression) && src[from + 2 + |expression|] == '}'
    requires '{' !in expression && '}' !in expression
    ensures ValidPiece(src, '`', Piece(Hole, from, from + |expression| + 3))
  {
    var close := from + 2 + |expression|;
    forall i | from + 2 <= i < close ensures src[i] != '{' && src[i] != '}' {
      assert src[i] == expression[i - from - 2];
    }
    forall k | from + 2 <= k <= close ensures Depth(src, from, k) == 1 { FlatDepth(src, from, k); }
    assert Depth(src, from, close + 1) == 0;
  }

  function HoleText(expression: string): (r: string)
    ensures |r| == |expression| + 3 && r[0] == '$' && r[1] == '{' && r[2 + |expression|] == '}'
    ensures StandsAt(r, 2, expression)
  {
    "${" + expression + "}"
  }

  lemma HoleInside(src: string, n: nat, expression: string)
    requires IsSource(src, n, '`', HoleText(expression))
    ensures src[n + 1] == '$' && src[n + 2] == '{' && src[n + 3 + |expression|] == '}'
    ensures StandsAt(src, n + 3, expression)
  {
    var body := HoleText(expression);
    assert src[n + 1] == body[0] && src[n + 2] == body[1] && src[n + 3 + |expression|] == body[2 + |expression|];
    forall i | 0 <= i < |expression| ensures src[n + 3 + i] == expression[i] {
      assert body[2 + i] == expression[i] && src[n + 1 + (2 + i)] == body[2 + i];
    }
  }

  /** In a template a hole is one marker, whatever expression without braces it holds. */
  lemma HoleIsAMarker(src: string, n: nat, expression: string)
    requires IsSource(src, n, '`', HoleText(expression)) && '{' !in expression && '}' !in expression
    ensures Yields(src, [JsStr([0 as char], n, |src|, 1 + Newlines(src, 0, n))])
  {
    HoleInside(src, n, expression);
    HoleIsRead(src, n + 1, expression);
    var hole := Piece(Hole, n + 1, n + |expression| + 4);
    OnePiece(src, '`', hole);
    LiteralThen(src, n, '`', HoleText(expression), [hole]);
  }

  lemma OnePiece(src: string, q: char, p: Piece)
    requires ValidPiece(src, q, p)
    ensures Reads(src, q, [p], p.from, p.to) && Value(src, [p]) == [PieceChar(src, p)]
  {
    AddToReads(src, q, [], p, p.from);
    assert [] + [p] == [p];
  }

  // ---- what is no token ----

  /** Code alone gives no token. */
  lemma CodeHasNoTokens(code: string)
    requires IsCode(code)
    ensures Yields(code, [])
  {
    CodeIsRead(code, |code|);
    OneReadingSuffices(code, Others(|code|));
  }

  /** Nothing in a line comment is a token, nor in a block comment. */
  lemma LineCommentHasNoTokens(code: string, comment: string)
    requires IsCode(code) && '\n' !in comment
    ensures Yields(code + "//" + comment + "\n", [])
  {
    var src, n := code + "//" + comment + "\n", |code|;
    assert src[..n] == code && src[n] == '/' && src[n + 1] == '/' && src[|src| - 1] == '\n';
    forall k | n <= k < |src| - 1 ensures src[k] != '\n' {
      assert k >= n + 2 ==> src[k] == comment[k - n - 2];
    }
    CodeThen(src, n, Lexeme(LineComment, n, |src|));
  }

  lemma BlockCommentHasNoTokens(code: string, comment: string)
    requires IsCode(code) && '*' !in comment
    ensures Yields(code + "/*" + comment + "*/", [])
  {
    var src, n := code + "/*" + comment + "*/", |code|;
    assert src[..n] == code && src[n] == '/' && src[n + 1] == '*' && src[|src| - 2] == '*' && src[|src| - 1] == '/';
    forall k | n + 2 <= k < |src| - 2 ensures !StartsAt(src, k, '*', '/') {
      assert src[k] == comment[k - n - 2];
    }
    CodeThen(src, n, Lexeme(BlockComment, n, |src|));
  }

  /** A newline breaks a quoted literal, and what was read of it is no token. */
  lemma BrokenLiteralIsNoToken(code: string, q: char, text: string)
    requires IsCode(code) && (q == '\'' || q == '"') && IsPlain(text, q)
    ensures Yields(code + [q] + text + "\n", [])
  {
    var src, from := code + [q] + text + "\n", |code| + 1;
    var pieces := PlainPieces(from, |text|);
    assert src[..|code|] == code && src[|code|] == q && src[|src| - 1] == '\n' && src[from..from + |text|] == text;
    PlainIsRead(src, from, q, text);
    CodeThen(src, |code|, Lexeme(Broken(pieces, from + |text|), |code|, |src|));
  }
}
