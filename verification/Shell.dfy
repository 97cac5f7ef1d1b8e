/**
 Text that a remote shell reads (app/deploy_k8s.go): quoted arguments and files written through here-documents, against
 the rules of the POSIX.1-2017 Shell Command Language, sections 2.2 (quoting), 2.3 (tokens) and 2.7.4 (here-documents).
 */
module Shell {
  import opened Wrappers

  const DELIM := "NUZUR_EOF"

  // ---- quoting ----

  function EscapeQuote(c: char): string {
    if c == '\'' then "'\\''" else [c]
  }

  function EscapeQuotes(s: string): string {
    if s == "" then "" else EscapeQuote(s[0]) + EscapeQuotes(s[1..])
  }

  function ShellQuote(s: string): string {
    "'" + EscapeQuotes(s) + "'"
  }

  /** What the characters read so far leave open; the last two are behind a backslash. */
  datatype Quote = Bare | InSingle | InDouble | EscapedBare | EscapedInDouble

  /** The characters that end an unquoted word: blanks, the newline and those that start an operator. */
  predicate EndsWord(c: char) {
    c == ' ' || c == '\t' || c == '\n' || c == ';' || c == '&' || c == '|' || c == '<' || c == '>' || c == '(' || c == ')'
  }

  /** The unquoted characters behind which a shell may expand, comment or group: none of them is taken literally here. */
  predicate Expands(c: char) {
    c == '$' || c == '`' || c == '*' || c == '?' || c == '[' || c == '~' || c == '#' || c == '{' || c == '}'
  }

  function Next(q: Quote, c: char): Quote {
    match q
    case Bare => if c == '\'' then InSingle else if c == '"' then InDouble else if c == '\\' then EscapedBare else Bare
    case InSingle => if c == '\'' then Bare else InSingle
    case InDouble => if c == '"' then Bare else if c == '\\' then EscapedInDouble else InDouble
    case EscapedBare => Bare
    case EscapedInDouble => InDouble
  }

  /** What one character adds to a word; none if the shell does not take it literally. */
  function Emits(q: Quote, c: char): Option<string> {
    match q
    case Bare => if c == '\'' || c == '"' || c == '\\' then Some("") else if Expands(c) then None else Some([c])
    case InSingle => Some(if c == '\'' then "" else [c])
    case InDouble =>
      if c == '$' || c == '`' then None else Some(if c == '"' || c == '\\' then "" else [c])
    case EscapedBare => Some(if c == '\n' then "" else [c])
    case EscapedInDouble =>
      Some(if c == '\n' then "" else if c == '$' || c == '`' || c == '"' || c == '\\' then [c] else ['\\', c])
  }

  datatype Word = Word(value: string, rest: string)

  function Prepend(text: string, w: Option<Word>): Option<Word> {
    if w.None? || text == "" then w else Some(Word(text + w.value.value, w.value.rest))
  }

  /** The literal word at the start of s, with its quotes removed; none if a quote stays open or something is expanded. */
  function ReadWord(s: string, q: Quote): Option<Word> {
    if s == "" then (if q == Bare then Some(Word("", "")) else None)
    else if q == Bare && EndsWord(s[0]) then Some(Word("", s))
    else
      match Emits(q, s[0])
      case None => None
      case Some(text) => Prepend(text, ReadWord(s[1..], Next(q, s[0])))
  }

  lemma ReadStep(c: char, after: string, q: Quote)
    requires Emits(q, c).Some? && !(q == Bare && EndsWord(c))
    ensures ReadWord([c] + after, q) == Prepend(Emits(q, c).value, ReadWord(after, Next(q, c)))
  {
    assert ([c] + after)[1..] == after;
  }

  /** Four characters stand for a quote: leave the quotes, an escaped quote, enter them again. */
  lemma ReadEscaped(c: char, after: string)
    ensures ReadWord(EscapeQuote(c) + after, InSingle) == Prepend([c], ReadWord(after, InSingle))
  {
    if c == '\'' {
      var reopen := "'" + after;
      var escaped := "'" + reopen;
      ReadStep('\'', after, Bare);
      ReadStep('\'', reopen, EscapedBare);
      ReadStep('\\', escaped, Bare);
      ReadStep('\'', "\\" + escaped, InSingle);
      assert EscapeQuote(c) + after == "'" + ("\\" + escaped);
    } else {
      ReadStep(c, after, InSingle);
    }
  }

  lemma Assoc(a: string, b: string, c: string)
    ensures a + b + c == a + (b + c)
    ensures a == "" ==> a + b == b
    ensures c == "" ==> b + c == b
    ensures |a| == 1 ==> (a + b)[1..] == b && (a + b)[0] == a[0]
  {
  }

  lemma HeadAndTail(s: string)
    requires s != ""
    ensures [s[0]] + s[1..] == s
  {
  }

  lemma {:induction false} QuotedTextReadsBack(s: string, rest: string)
    requires rest != "" ==> EndsWord(rest[0])
    ensures ReadWord(EscapeQuotes(s) + ("'" + rest), InSingle) == Some(Word(s, rest))
  {
    var closing := "'" + rest;
    if s == "" {
      ReadStep('\'', rest, InSingle);
      Assoc("", closing, "");
    } else {
      QuotedTextReadsBack(s[1..], rest);
      ReadEscaped(s[0], EscapeQuotes(s[1..]) + closing);
      Assoc(EscapeQuote(s[0]), EscapeQuotes(s[1..]), closing);
      HeadAndTail(s);
    }
  }

  /** A quoted value is one word, and that word is the value: for every string. */
  lemma QuoteReadsBack(s: string, rest: string)
    requires rest != "" ==> EndsWord(rest[0])
    ensures ReadWord(ShellQuote(s) + rest, Bare) == Some(Word(s, rest))
  {
    QuotedTextReadsBack(s, rest);
    Assoc("'" + EscapeQuotes(s), "'", rest);
    Assoc("'", EscapeQuotes(s), "'" + rest);
    ReadStep('\'', EscapeQuotes(s) + ("'" + rest), Bare);
  }

  /** Taken by the shell as it is, without quotes. */
  predicate Literal(c: char) {
    !EndsWord(c) && !Expands(c) && c != '\'' && c != '"' && c != '\\'
  }

  lemma {:induction false} LiteralReadsBack(s: string, rest: string)
    requires forall i :: 0 <= i < |s| ==> Literal(s[i])
    requires rest != "" ==> EndsWord(rest[0])
    ensures ReadWord(s + rest, Bare) == Some(Word(s, rest))
  {
    if s == "" {
      Assoc(s, rest, "");
    } else {
      LiteralReadsBack(s[1..], rest);
      HeadAndTail(s);
      Assoc([s[0]], s[1..], rest);
      ReadStep(s[0], s[1..] + rest, Bare);
    }
  }

  /** What a backslash inside double quotes may still add. */
  function Owed(q: Quote): nat {
    if q == EscapedInDouble then 1 else 0
  }

  lemma {:induction false} ReadingNeverGrows(s: string, q: Quote)
    ensures ReadWord(s, q).Some? ==>
      |ReadWord(s, q).value.value| + |ReadWord(s, q).value.rest| <= |s| + Owed(q)
  {
    if s != "" && !(q == Bare && EndsWord(s[0])) && Emits(q, s[0]).Some? {
      ReadingNeverGrows(s[1..], Next(q, s[0]));
    }
  }

  lemma {:induction false} UnquotedIsChanged(s: string, rest: string, k: nat)
    requires k < |s| && !Literal(s[k]) && forall i :: 0 <= i < k ==> Literal(s[i])
    ensures ReadWord(s + rest, Bare) != Some(Word(s, rest))
  {
    HeadAndTail(s);
    Assoc([s[0]], s[1..], rest);
    if k == 0 {
      ReadingNeverGrows(s[1..] + rest, Next(Bare, s[0]));
      if !EndsWord(s[0]) && Emits(Bare, s[0]).Some? {
        ReadStep(s[0], s[1..] + rest, Bare);
      }
    } else {
      UnquotedIsChanged(s[1..], rest, k - 1);
      ReadStep(s[0], s[1..] + rest, Bare);
    }
  }

  /** Text put on a command line without quotes is one word that means itself exactly when all of it is literal. */
  lemma UnquotedReadsBack(s: string, rest: string)
    requires rest != "" ==> EndsWord(rest[0])
    ensures ReadWord(s + rest, Bare) == Some(Word(s, rest)) <==> forall i :: 0 <= i < |s| ==> Literal(s[i])
  {
    if forall i :: 0 <= i < |s| ==> Literal(s[i]) {
      LiteralReadsBack(s, rest);
    } else {
      var k := FirstUnquotable(s);
      UnquotedIsChanged(s, rest, k);
    }
  }

  lemma {:induction false} FirstUnquotable(s: string) returns (k: nat)
    requires exists i :: 0 <= i < |s| && !Literal(s[i])
    ensures k < |s| && !Literal(s[k]) && forall i :: 0 <= i < k ==> Literal(s[i])
  {
    if !Literal(s[0]) {
      return 0;
    }
    k := FirstUnquotable(s[1..]);
    k := k + 1;
  }

  // ---- reading a script ----

  /** How far a command line goes: up to the first newline that is not quoted. */
  function LineLength(s: string, q: Quote): (n: nat)
    ensures n <= |s| && (n < |s| ==> s[n] == '\n')
  {
    if s == "" || (q == Bare && s[0] == '\n') then 0 else 1 + LineLength(s[1..], Next(q, s[0]))
  }

  /** Where an unquoted << stands in a line. */
  function HereAt(line: string, q: Quote): (at: Option<nat>)
    ensures at.Some? ==> at.value + 2 <= |line|
  {
    if |line| < 2 then None
    else if q == Bare && line[0] == '<' && line[1] == '<' then Some(0)
    else
      match HereAt(line[1..], Next(q, line[0]))
      case None => None
      case Some(k) => Some(k + 1)
  }

  /** Text up to the first newline, quoted or not. */
  function RawLine(s: string): (raw: string)
    ensures raw <= s && '\n' !in raw && (|raw| < |s| ==> s[|raw|] == '\n')
  {
    if s == "" || s[0] == '\n' then "" else [s[0]] + RawLine(s[1..])
  }

  function AfterLine(s: string): string {
    if |RawLine(s)| < |s| then s[|RawLine(s)| + 1..] else ""
  }

  datatype Here = Here(body: string, rest: string, closed: bool)

  /** A here-document: the lines up to the one that is exactly the delimiter. */
  function ReadHere(s: string, delim: string): (h: Here)
    ensures |h.rest| <= |s|
    decreases |s|
  {
    if s == "" then Here("", "", false)
    else if RawLine(s) == delim then Here("", AfterLine(s), true)
    else if |RawLine(s)| == |s| then Here(s, "", false)
    else
      var h := ReadHere(AfterLine(s), delim);
      h.(body := RawLine(s) + "\n" + h.body)
  }

  /** A command as the shell takes it. A literal here-document has a quoted delimiter: nothing in it is expanded. */
  datatype Command = Simple(text: string) | Redirected(text: string, body: string, literal: bool, closed: bool)

  predicate HasQuote(s: string) {
    '\'' in s || '"' in s || '\\' in s
  }

  datatype Reading = Reading(command: Command, rest: string)

  /** The command on a line, given what stands behind the line. */
  function ParseLine(line: string, rest: string): (r: Reading)
    ensures |r.rest| <= |rest|
  {
    match HereAt(line, Bare)
    case None => Reading(Simple(line), rest)
    case Some(k) =>
      match ReadWord(line[k + 2..], Bare)
      case None => Reading(Simple(line), rest)
      case Some(w) =>
        var h := ReadHere(rest, w.value);
        Reading(Redirected(line[..k] + w.rest, h.body, HasQuote(line[k + 2..]), h.closed), h.rest)
  }

  /** The first command of a script and what is left to read behind it. */
  function ParseFirst(s: string): (r: Reading)
    requires s != ""
    ensures |r.rest| < |s|
  {
    var n := LineLength(s, Bare);
    ParseLine(s[..n], if n < |s| then s[n + 1..] else "")
  }

  function Parse(s: string): seq<Command>
    decreases |s|
  {
    if s == "" then [] else [ParseFirst(s).command] + Parse(ParseFirst(s).rest)
  }

  // ---- writing a script ----

  /** strings.TrimRight(s, "\n") */
  function TrimNewlines(s: string): string {
    if s == "" then ""
    else
      var rest := TrimNewlines(s[1..]);
      if rest == "" && s[0] == '\n' then "" else [s[0]] + rest
  }

  /** A command fed a here-document: quoted delimiter, text, and the delimiter alone on its line. */
  function HereText(command: string, delim: string, text: string): string {
    command + ("<<'" + delim + "'") + "\n" + text + "\n" + delim
  }

  /** A step of a script: a command on one line, or a file filled by a here-document. */
  datatype Step = Run(line: string) | Fill(command: string, content: string)

  function Text(step: Step, delim: string): string {
    match step
    case Run(line) => line
    case Fill(command, content) => HereText(command, delim, TrimNewlines(content))
  }

  /** strings.Join(steps, "\n") */
  function Script(steps: seq<Step>, delim: string): string {
    if steps == [] then ""
    else Text(steps[0], delim) + if |steps| == 1 then "" else "\n" + Script(steps[1..], delim)
  }

  /** What the author of the steps means: each file holds its content, with the trailing newlines reduced to one. */
  function Meaning(step: Step): Command {
    match step
    case Run(line) => Simple(line)
    case Fill(command, content) => Redirected(command, TrimNewlines(content) + "\n", true, true)
  }

  function Meanings(steps: seq<Step>): seq<Command> {
    if steps == [] then [] else [Meaning(steps[0])] + Meanings(steps[1..])
  }

  /** Every quote is closed, and no newline stands outside quotes. */
  predicate Closed(s: string, q: Quote) {
    if s == "" then q == Bare else !(q == Bare && s[0] == '\n') && Closed(s[1..], Next(q, s[0]))
  }

  /** One command line without here-documents: closed, and no < stands outside quotes. */
  predicate Tame(s: string, q: Quote) {
    if s == "" then q == Bare
    else !(q == Bare && (s[0] == '\n' || s[0] == '<')) && Tame(s[1..], Next(q, s[0]))
  }

  predicate WellFormed(step: Step) {
    match step
    case Run(line) => line != "" && Tame(line, Bare)
    case Fill(command, _) => Tame(command, Bare)
  }

  /** Some line of s is exactly `line`. */
  predicate HasLine(s: string, line: string)
    decreases |s|
  {
    RawLine(s) == line || (|RawLine(s)| < |s| && HasLine(AfterLine(s), line))
  }

  // ---- the two agree ----

  lemma {:induction false} TameHasNoHere(line: string, q: Quote)
    requires Tame(line, q)
    ensures HereAt(line, q) == None
  {
    if line != "" {
      TameHasNoHere(line[1..], Next(q, line[0]));
    }
  }

  lemma {:induction false} TameIsClosed(s: string, q: Quote)
    requires Tame(s, q)
    ensures Closed(s, q)
  {
    if s != "" {
      TameIsClosed(s[1..], Next(q, s[0]));
    }
  }

  /** A closed text is passed over, whatever follows it. */
  lemma {:induction false} LineAfterClosed(p: string, q: Quote, t: string)
    requires Closed(p, q)
    ensures LineLength(p + t, q) == |p| + LineLength(t, Bare)
  {
    if p == "" {
      assert p + t == t;
    } else {
      LineAfterClosed(p[1..], Next(q, p[0]), t);
      assert (p + t)[1..] == p[1..] + t;
    }
  }

  lemma {:induction false} HereAfterTame(p: string, q: Quote, t: string)
    requires Tame(p, q) && |t| >= 2 && t[0] == '<' && t[1] == '<'
    ensures HereAt(p + t, q) == Some(|p|)
  {
    if p == "" {
      assert p + t == t;
    } else {
      HereAfterTame(p[1..], Next(q, p[0]), t);
      assert (p + t)[1..] == p[1..] + t;
    }
  }

  // ---- here-documents ----

  lemma {:induction false} RawLineOf(raw: string, t: string)
    requires '\n' !in raw && (t != "" ==> t[0] == '\n')
    ensures RawLine(raw + t) == raw
    ensures AfterLine(raw + t) == if t == "" then "" else t[1..]
  {
    var s := raw + t;
    assert forall k :: 0 <= k < |raw| ==> s[k] == raw[k] && raw[k] in raw;
    assert forall k :: 0 <= k < |RawLine(s)| ==> RawLine(s)[k] == s[k] && RawLine(s)[k] in RawLine(s);
    assert t != "" ==> s[|raw|] == '\n';
    assert |RawLine(s)| == |raw|;
  }

  /** What stands behind the closing delimiter: nothing, or the next line. */
  function Tail(after: string): string {
    if after == "" then "" else after[1..]
  }

  lemma HereStep(raw: string, next: string, d: string)
    requires '\n' !in raw
    ensures var h := ReadHere(next, d);
            ReadHere(raw + ("\n" + next), d) ==
              if raw == d then Here("", next, true) else Here(raw + "\n" + h.body, h.rest, h.closed)
  {
    RawLineOf(raw, "\n" + next);
    assert ("\n" + next)[1..] == next;
  }

  lemma HereEnd(after: string, d: string)
    requires d != "" && '\n' !in d && (after != "" ==> after[0] == '\n')
    ensures ReadHere(d + after, d) == Here("", Tail(after), true)
  {
    RawLineOf(d, after);
  }

  lemma FirstLine(t: string)
    requires |RawLine(t)| < |t|
    ensures t == RawLine(t) + ("\n" + AfterLine(t)) && |AfterLine(t)| < |t|
  {
    var n := |RawLine(t)|;
    assert t[n] == '\n' && t == t[..n] + ([t[n]] + t[n + 1..]);
  }

  lemma HasLineStep(raw: string, next: string, d: string)
    requires '\n' !in raw
    ensures HasLine(raw + ("\n" + next), d) <==> raw == d || HasLine(next, d)
  {
    RawLineOf(raw, "\n" + next);
    assert ("\n" + next)[1..] == next;
  }

  /** What the here-document reads of t when `ending` closes it. */
  ghost predicate ReadsBack(t: string, ending: string, d: string) {
    var h := ReadHere(t + ("\n" + ending), d);
    if HasLine(t, d) then |h.body| < |t| + 1 else h == Here(t + "\n", ReadHere(ending, d).rest, true)
  }

  lemma LineInFront(raw: string, next: string, ending: string, d: string)
    requires '\n' !in raw && ReadsBack(next, ending, d)
    ensures ReadsBack(raw + ("\n" + next), ending, d)
  {
    HereStep(raw, next + ("\n" + ending), d);
    HasLineStep(raw, next, d);
    Regroup(raw, next, ending);
  }

  lemma Regroup(raw: string, next: string, ending: string)
    ensures raw + ("\n" + next) + ("\n" + ending) == raw + ("\n" + (next + ("\n" + ending)))
    ensures raw + "\n" + (next + "\n") == raw + ("\n" + next) + "\n"
  {
  }

  /** The body is the text given to it exactly when no line of the text is the delimiter; otherwise it is cut short. */
  lemma {:induction false} HereReadsBack(t: string, ending: string, d: string)
    requires ReadHere(ending, d).body == "" && ReadHere(ending, d).closed
    ensures ReadsBack(t, ending, d)
    decreases |t|
  {
    if |RawLine(t)| < |t| {
      FirstLine(t);
      HereReadsBack(AfterLine(t), ending, d);
      LineInFront(RawLine(t), AfterLine(t), ending, d);
    } else {
      HereStep(t, ending, d);
    }
  }

  /** Without a line that is the delimiter the document never closes and takes the whole rest of the script. */
  lemma {:induction false} NeverClosed(s: string, d: string)
    requires !HasLine(s, d)
    ensures ReadHere(s, d).rest == "" && !ReadHere(s, d).closed
    decreases |s|
  {
    if s != "" && |RawLine(s)| < |s| {
      NeverClosed(AfterLine(s), d);
    }
  }

  lemma {:induction false} QuotedIsClosed(d: string)
    requires '\'' !in d
    ensures Closed(d + "'", InSingle)
    ensures EscapeQuotes(d) == d
  {
    if d == "" {
      assert d + "'" == "'";
    } else {
      QuotedIsClosed(d[1..]);
      assert (d + "'")[1..] == d[1..] + "'" && d == [d[0]] + d[1..];
    }
  }

  // ---- one step ----

  function Operator(d: string): string {
    "<<" + ShellQuote(d)
  }

  lemma OperatorIsClosed(d: string)
    requires '\'' !in d
    ensures Closed(Operator(d), Bare)
  {
    QuotedIsClosed(d);
    Assoc("'", d, "'");
    Assoc("<", "<", "'" + d + "'");
    Assoc("<", "'" + d + "'", "");
    Assoc("<", "<" + ("'" + d + "'"), "");
    Assoc("<<", "'" + d, "'");
    Assoc("<<", "'", d);
  }

  lemma OperatorReadsBack(d: string)
    ensures Operator(d)[2..] == ShellQuote(d) && HasQuote(ShellQuote(d))
    ensures ReadWord(ShellQuote(d), Bare) == Some(Word(d, ""))
  {
    QuoteReadsBack(d, "");
    assert ShellQuote(d) + "" == ShellQuote(d);
    assert ShellQuote(d)[0] == '\'';
  }

  lemma Around(line: string, rest: string)
    ensures var s := line + ("\n" + rest); |s| > |line| && s[..|line|] == line && s[|line| + 1..] == rest
  {
  }

  lemma LineOfRedirection(w: string, d: string, rest: string)
    requires Tame(w, Bare) && '\'' !in d
    ensures LineLength(w + Operator(d) + ("\n" + rest), Bare) == |w + Operator(d)|
    ensures HereAt(w + Operator(d), Bare) == Some(|w|)
  {
    var op, tail := Operator(d), "\n" + rest;
    OperatorIsClosed(d);
    TameIsClosed(w, Bare);
    LineAfterClosed(w, Bare, op + tail);
    LineAfterClosed(op, Bare, tail);
    assert w + op + tail == w + (op + tail);
    HereAfterTame(w, Bare, op);
  }

  lemma ParseRedirected(w: string, d: string, rest: string)
    requires Tame(w, Bare) && '\'' !in d
    ensures var h := ReadHere(rest, d);
            ParseFirst(w + Operator(d) + ("\n" + rest)) == Reading(Redirected(w, h.body, true, h.closed), h.rest)
  {
    LineOfRedirection(w, d, rest);
    OperatorReadsBack(d);
    Halves(w, Operator(d));
    FirstIsLine(w + Operator(d), rest);
  }

  lemma FirstIsLine(line: string, rest: string)
    requires LineLength(line + ("\n" + rest), Bare) == |line|
    ensures ParseFirst(line + ("\n" + rest)) == ParseLine(line, rest)
  {
    Around(line, rest);
  }

  lemma Halves(w: string, op: string)
    requires |op| >= 2
    ensures (w + op)[..|w|] + "" == w && (w + op)[|w| + 2..] == op[2..]
  {
  }

  lemma ParseRun(line: string, after: string)
    requires line != "" && Tame(line, Bare) && (after != "" ==> after[0] == '\n')
    ensures ParseFirst(line + after) == Reading(Simple(line), Tail(after))
  {
    TameIsClosed(line, Bare);
    TameHasNoHere(line, Bare);
    LineAfterClosed(line, Bare, after);
    assert (line + after)[..|line|] == line;
    if after != "" {
      assert (line + after)[|line| + 1..] == after[1..];
    }
  }

  // ---- trailing newlines ----

  lemma {:induction false} TrimStep(raw: string, next: string)
    requires '\n' !in raw
    ensures TrimNewlines(raw) == raw
    ensures TrimNewlines(raw + ("\n" + next)) ==
      if TrimNewlines(next) == "" then raw else raw + ("\n" + TrimNewlines(next))
  {
    if raw == "" {
      Assoc(raw, "\n" + next, "");
      Assoc("\n", next, "");
    } else {
      TrimStep(raw[1..], next);
      HeadAndTail(raw);
      Assoc([raw[0]], raw[1..], "\n" + next);
      Assoc([raw[0]], raw[1..] + ("\n" + next), "");
      Assoc([raw[0]], raw[1..], "\n" + TrimNewlines(next));
    }
  }

  /** Trimming trailing newlines removes no line but empty ones. */
  lemma {:induction false} TrimKeepsLines(s: string, d: string)
    requires d != ""
    ensures HasLine(TrimNewlines(s), d) <==> HasLine(s, d)
    decreases |s|
  {
    if |RawLine(s)| < |s| {
      var raw, next := RawLine(s), AfterLine(s);
      FirstLine(s);
      TrimKeepsLines(next, d);
      TrimStep(raw, next);
      HasLineStep(raw, next, d);
      HasLineStep(raw, TrimNewlines(next), d);
      RawLineOf(raw, "");
      assert raw + "" == raw;
    } else {
      TrimStep(s, "");
    }
  }

  // ---- the whole script ----

  /** No line of the content is the delimiter. */
  predicate Survives(step: Step, d: string) {
    step.Fill? ==> !HasLine(step.content, d)
  }

  /** The first command is the redirection, and its file holds t, unless t has a line that is the delimiter. */
  ghost predicate WritesFile(r: Reading, w: string, t: string, d: string, after: string) {
    if HasLine(t, d) then r.command.Redirected? && |r.command.body| < |t| + 1
    else r == Reading(Redirected(w, t + "\n", true, true), Tail(after))
  }

  lemma HereTextRegroups(w: string, d: string, t: string, after: string)
    requires '\'' !in d
    ensures HereText(w, d, t) + after == w + Operator(d) + ("\n" + (t + ("\n" + (d + after))))
  {
    QuotedIsClosed(d);
    assert "<<'" + d + "'" == Operator(d);
    RegroupFile(w, "<<'" + d + "'", t, d, after);
  }

  lemma RegroupFile(w: string, op: string, t: string, d: string, after: string)
    ensures w + op + "\n" + t + "\n" + d + after == w + op + ("\n" + (t + ("\n" + (d + after))))
  {
  }

  lemma ParseHere(w: string, d: string, t: string, after: string)
    requires Tame(w, Bare) && d != "" && '\n' !in d && '\'' !in d && (after != "" ==> after[0] == '\n')
    ensures WritesFile(ParseFirst(HereText(w, d, t) + after), w, t, d, after)
  {
    HereTextRegroups(w, d, t, after);
    ParseRedirected(w, d, t + ("\n" + (d + after)));
    HereEnd(after, d);
    HereReadsBack(t, d + after, d);
  }

  predicate IsDelimiter(d: string) {
    d != "" && '\n' !in d && '\'' !in d
  }

  /** The first step is read as it is meant exactly when it survives; then the reader goes on behind it. */
  lemma FirstStep(step: Step, d: string, after: string)
    requires WellFormed(step) && IsDelimiter(d) && (after != "" ==> after[0] == '\n')
    ensures Text(step, d) != ""
    ensures var r := ParseFirst(Text(step, d) + after);
            if Survives(step, d) then r == Reading(Meaning(step), Tail(after)) else r.command != Meaning(step)
  {
    match step
    case Run(line) => ParseRun(line, after);
    case Fill(command, content) =>
      ParseHere(command, d, TrimNewlines(content), after);
      TrimKeepsLines(content, d);
  }

  /** A script reads back as the commands it was made from exactly when no file holds a line that is the delimiter. */
  lemma {:induction false} ScriptReadsBack(steps: seq<Step>, d: string)
    requires IsDelimiter(d) && forall k :: 0 <= k < |steps| ==> WellFormed(steps[k])
    ensures Parse(Script(steps, d)) == Meanings(steps) <==> forall k :: 0 <= k < |steps| ==> Survives(steps[k], d)
  {
    if steps != [] {
      var rest := steps[1..];
      var after := if rest == [] then "" else "\n" + Script(rest, d);
      FirstStep(steps[0], d, after);
      ScriptReadsBack(rest, d);
      assert Tail(after) == Script(rest, d);
      Unfold(steps, d, after);
      SurviveTogether(steps, d);
    }
  }

  lemma SurviveTogether(steps: seq<Step>, d: string)
    requires steps != []
    ensures (forall k :: 0 <= k < |steps| ==> Survives(steps[k], d)) <==>
      Survives(steps[0], d) && forall k :: 0 <= k < |steps[1..]| ==> Survives(steps[1..][k], d)
  {
    assert steps == [steps[0]] + steps[1..];
  }

  lemma Unfold(steps: seq<Step>, d: string, after: string)
    requires steps != [] && Text(steps[0], d) != ""
    requires after == if |steps| == 1 then "" else "\n" + Script(steps[1..], d)
    ensures var r := ParseFirst(Text(steps[0], d) + after);
            Parse(Script(steps, d)) == Meanings(steps) <==>
              r.command == Meaning(steps[0]) && Parse(r.rest) == Meanings(steps[1..])
  {
    var r := ParseFirst(Text(steps[0], d) + after);
    assert Script(steps, d) == Text(steps[0], d) + after;
    OneThenRest(r.command, Parse(r.rest), Meaning(steps[0]), Meanings(steps[1..]));
  }

  lemma OneThenRest(a: Command, s: seq<Command>, b: Command, t: seq<Command>)
    ensures [a] + s == [b] + t <==> a == b && s == t
  {
    assert ([a] + s)[1..] == s && ([b] + t)[1..] == t;
    assert ([a] + s)[0] == a && ([b] + t)[0] == b;
  }

  /** Whatever follows the delimiter on its line keeps the here-document open: that text is never run. */
  lemma Swallowed(w: string, d: string, t: string, more: string)
    requires Tame(w, Bare) && IsDelimiter(d) && !HasLine(t + ("\n" + (d + more)), d)
    ensures var r := ParseFirst(HereText(w, d, t) + more);
            r.rest == "" && r.command.Redirected? && !r.command.closed
  {
    HereTextRegroups(w, d, t, more);
    ParseRedirected(w, d, t + ("\n" + (d + more)));
    NeverClosed(t + ("\n" + (d + more)), d);
  }

  /** A content that ends in exactly one newline is written as it is. */
  lemma {:induction false} OneTrailingNewlineIsKept(text: string)
    requires text == "" || text[|text| - 1] != '\n'
    ensures TrimNewlines(text + "\n") == text
  {
    if text == "" {
      assert TrimNewlines("\n"[1..]) == "";
    } else {
      assert (text + "\n")[1..] == text[1..] + "\n" && text == [text[0]] + text[1..];
      OneTrailingNewlineIsKept(text[1..]);
    }
  }

  // ---- the commands of the deploy ----

  const MAKE: string := "mkdir -p "
  const INTO: string := " && cat > "

  /** What writeFileCmd puts in front of the here-document: both paths as they are, without quotes. */
  function WriteTo(dir: string, path: string): string {
    MAKE + dir + INTO + path + " "
  }

  function WriteFileCmd(dir: string, path: string, content: string): string {
    HereText(WriteTo(dir, path), DELIM, TrimNewlines(content))
  }

  predicate AllLiteral(s: string) {
    forall i :: 0 <= i < |s| ==> Literal(s[i])
  }

  /** The words of the command: the directory made and the file written, where they stand in it. */
  ghost predicate NamesItsPaths(dir: string, path: string) {
    && ReadWord(WriteTo(dir, path)[9..], Bare) == Some(Word(dir, " && cat > " + (path + " ")))
    && ReadWord(WriteTo(dir, path)[19 + |dir|..], Bare) == Some(Word(path, " "))
  }

  datatype Token = Arg(text: string) | Op(text: string)

  /** A command line as the shell splits it: words with their quotes removed, and operators. */
  function Tokens(s: string): Option<seq<Token>>
    decreases |s|
  {
    if s == "" then Some([])
    else if s[0] == ' ' || s[0] == '\t' then Tokens(s[1..])
    else if s[..Min(2, |s|)] == "&&" then Before(Op("&&"), Tokens(s[2..]))
    else if EndsWord(s[0]) then Before(Op([s[0]]), Tokens(s[1..]))
    else
      match ReadWord(s, Bare)
      case None => None
      case Some(w) => if |w.rest| < |s| then Before(Arg(w.value), Tokens(w.rest)) else None
  }

  function Before(t: Token, rest: Option<seq<Token>>): Option<seq<Token>> {
    if rest.None? then None else Some([t] + rest.value)
  }

  function Min(a: nat, b: nat): nat {
    if a < b then a else b
  }

  lemma WordFirst(word: string, rest: string)
    requires word != "" && AllLiteral(word) && (rest != "" ==> EndsWord(rest[0]))
    ensures Tokens(word + rest) == Before(Arg(word), Tokens(rest))
  {
    UnquotedReadsBack(word, rest);
    assert (word + rest)[0] == word[0] && Literal(word[0]);
    assert (word + rest)[..Min(2, |word + rest|)][0] == word[0];
  }

  lemma BlankFirst(rest: string)
    ensures Tokens(" " + rest) == Tokens(rest)
  {
    assert (" " + rest)[1..] == rest;
  }

  lemma WordThen(word: string, rest: string)
    requires word != "" && AllLiteral(word)
    ensures Tokens(word + (" " + rest)) == Before(Arg(word), Tokens(rest))
  {
    WordFirst(word, " " + rest);
    BlankFirst(rest);
  }

  lemma AndThen(rest: string)
    ensures Tokens("&&" + (" " + rest)) == Before(Op("&&"), Tokens(rest))
  {
    var s := "&&" + (" " + rest);
    assert s[..2] == "&&" && s[2..] == " " + rest;
    BlankFirst(rest);
  }

  lemma IntoThen(rest: string)
    ensures Tokens(">" + (" " + rest)) == Before(Op(">"), Tokens(rest))
  {
    var s := ">" + (" " + rest);
    assert s[..2][0] == '>' && s[1..] == " " + rest;
    BlankFirst(rest);
  }

  /** Words and operators with a blank behind each. */
  function Line(words: seq<string>): string {
    if words == [] then "" else words[0] + (" " + Line(words[1..]))
  }

  function Read(word: string): Token {
    if word == "&&" || word == ">" then Op(word) else Arg(word)
  }

  function AllRead(words: seq<string>): seq<Token> {
    if words == [] then [] else [Read(words[0])] + AllRead(words[1..])
  }

  lemma {:induction false} LineSplits(words: seq<string>)
    requires forall i :: 0 <= i < |words| ==> words[i] == "&&" || words[i] == ">" || (words[i] != "" && AllLiteral(words[i]))
    ensures Tokens(Line(words)) == Some(AllRead(words))
  {
    if words != [] {
      LineSplits(words[1..]);
      var rest := Line(words[1..]);
      if words[0] == "&&" { AndThen(rest); } else if words[0] == ">" { IntoThen(rest); } else { WordThen(words[0], rest); }
    }
  }

  lemma {:induction false} LineOfBoth(a: seq<string>, b: seq<string>)
    ensures Line(a + b) == Line(a) + Line(b)
  {
    if a == [] {
      assert a + b == b;
    } else {
      assert (a + b)[1..] == a[1..] + b;
      LineOfBoth(a[1..], b);
    }
  }

  lemma OneWord(word: string)
    ensures Line([word]) == word + " "
  {
    assert [word][1..] == [];
  }

  lemma TheFixedWords()
    ensures Line(["mkdir", "-p"]) == "mkdir -p " && Line(["&&", "cat", ">"]) == "&& cat > "
  {
    assert ["mkdir", "-p"] == ["mkdir"] + ["-p"] && ["&&", "cat", ">"] == ["&&"] + (["cat"] + [">"]);
    LineOfBoth(["mkdir"], ["-p"]);
    LineOfBoth(["cat"], [">"]);
    LineOfBoth(["&&"], ["cat"] + [">"]);
    OneWord("mkdir");
    OneWord("-p");
    OneWord("&&");
    OneWord("cat");
    OneWord(">");
  }

  lemma WriteToIsALine(dir: string, path: string)
    ensures WriteTo(dir, path) == Line(["mkdir", "-p"] + ([dir] + (["&&", "cat", ">"] + [path])))
  {
    TheFixedWords();
    OneWord(dir);
    OneWord(path);
    LineOfBoth(["&&", "cat", ">"], [path]);
    LineOfBoth([dir], ["&&", "cat", ">"] + [path]);
    LineOfBoth(["mkdir", "-p"], [dir] + (["&&", "cat", ">"] + [path]));
    FourParts("mkdir -p ", dir, "&& cat > ", path);
  }

  lemma FourParts(make: string, dir: string, into: string, path: string)
    ensures make + dir + (" " + into) + path + " " == make + ((dir + " ") + (into + (path + " ")))
  {
  }

  lemma {:induction false} AllReadAt(words: seq<string>)
    ensures |AllRead(words)| == |words| && forall i :: 0 <= i < |words| ==> AllRead(words)[i] == Read(words[i])
  {
    if words != [] {
      AllReadAt(words[1..]);
    }
  }

  /** On literal paths the command is `mkdir -p dir && cat > path`, word for word. */
  lemma WriteToIsTheCommand(dir: string, path: string)
    requires dir != "" && AllLiteral(dir) && path != "" && AllLiteral(path)
    ensures Tokens(WriteTo(dir, path)) ==
      Some([Arg("mkdir"), Arg("-p"), Arg(dir), Op("&&"), Arg("cat"), Op(">"), Arg(path)])
  {
    var words := ["mkdir", "-p"] + ([dir] + (["&&", "cat", ">"] + [path]));
    WriteToIsALine(dir, path);
    assert words == ["mkdir", "-p", dir, "&&", "cat", ">", path];
    assert AllLiteral("mkdir") && AllLiteral("-p") && AllLiteral("cat");
    LineSplits(words);
    AllReadAt(words);
    LiteralIsArg("mkdir");
    LiteralIsArg("-p");
    LiteralIsArg(dir);
    LiteralIsArg("cat");
    LiteralIsArg(path);
    assert AllRead(words) == [Arg("mkdir"), Arg("-p"), Arg(dir), Op("&&"), Arg("cat"), Op(">"), Arg(path)];
  }

  lemma LiteralIsArg(word: string)
    requires word != "" && AllLiteral(word)
    ensures Read(word) == Arg(word)
  {
    assert Literal(word[0]);
  }

  lemma CommandWords(make: string, dir: string, into: string, path: string)
    ensures (make + dir + into + path + " ")[|make|..] == dir + (into + (path + " "))
    ensures (make + dir + into + path + " ")[|make| + |dir| + |into|..] == path + " "
  {
  }

  /** The command makes and writes the paths it was given exactly when every character of both is literal. */
  lemma PathsReadBack(dir: string, path: string)
    ensures NamesItsPaths(dir, path) <==> AllLiteral(dir) && AllLiteral(path)
  {
    CommandWords(MAKE, dir, INTO, path);
    UnquotedReadsBack(dir, INTO + (path + " "));
    UnquotedReadsBack(path, " ");
  }

  /** No character that quotes, redirects or ends the line. */
  predicate Plain(s: string) {
    forall i :: 0 <= i < |s| ==> s[i] != '\n' && s[i] != '<' && s[i] != '\\' && s[i] != '\'' && s[i] != '"'
  }

  lemma {:induction false} PlainIsTame(s: string)
    requires Plain(s)
    ensures Tame(s, Bare)
  {
    if s != "" {
      PlainIsTame(s[1..]);
    }
  }

  lemma PlainParts(make: string, dir: string, into: string, path: string, last: string)
    requires Plain(make) && Plain(dir) && Plain(into) && Plain(path) && Plain(last)
    ensures Plain(make + dir + into + path + last)
  {
    assert Plain(make + dir);
    assert Plain(make + dir + into);
    assert Plain(make + dir + into + path);
  }

  lemma WriteToIsTame(dir: string, path: string)
    requires Plain(dir) && Plain(path)
    ensures Tame(WriteTo(dir, path), Bare)
  {
    PlainParts(MAKE, dir, INTO, path, " ");
    PlainIsTame(WriteTo(dir, path));
  }

  lemma OneFillReadsBack(before: seq<Step>, file: Step, following: seq<Step>, d: string)
    requires forall k :: 0 <= k < |before| ==> before[k].Run? && WellFormed(before[k])
    requires forall k :: 0 <= k < |following| ==> following[k].Run? && WellFormed(following[k])
    requires file.Fill? && WellFormed(file) && IsDelimiter(d)
    ensures var steps := before + [file] + following;
            Parse(Script(steps, d)) == Meanings(steps) <==> Survives(file, d)
  {
    var steps := before + [file] + following;
    assert forall k :: 0 <= k < |steps| ==> steps[k] == file || (steps[k].Run? && WellFormed(steps[k]));
    assert steps[|before|] == file;
    ScriptReadsBack(steps, d);
  }

  /**
   A script of the shape stepK8sWriteConfig builds, around one file: it reads back as the commands before, the file
   holding its content with one newline at the end, and the commands after, exactly when no line of the content is the
   delimiter. It writes that file at the path given exactly when moreover both paths are literal text.
   */
  lemma WrittenFileReadsBack(before: seq<Step>, dir: string, path: string, content: string, following: seq<Step>)
    requires forall k :: 0 <= k < |before| ==> before[k].Run? && WellFormed(before[k])
    requires forall k :: 0 <= k < |following| ==> following[k].Run? && WellFormed(following[k])
    requires Plain(dir) && Plain(path)
    ensures Text(Fill(WriteTo(dir, path), content), DELIM) == WriteFileCmd(dir, path, content)
    ensures var steps := before + [Fill(WriteTo(dir, path), content)] + following;
            Parse(Script(steps, "NUZUR_EOF")) == Meanings(steps) <==> !HasLine(content, "NUZUR_EOF")
    ensures NamesItsPaths(dir, path) <==> AllLiteral(dir) && AllLiteral(path)
  {
    WriteToIsTame(dir, path);
    OneFillReadsBack(before, Fill(WriteTo(dir, path), content), following, DELIM);
    PathsReadBack(dir, path);
  }
}
