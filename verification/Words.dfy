// POSIX word splitting and quoting: sections 2.2.1 to 2.2.3 and 2.3 of the Shell
// Command Language volume of POSIX.1-2017, without expansions and operators.
module Words {
  import opened Wrappers

  datatype Mode = Gap | Comment | Bare | BareEscape | Single | Double | DoubleEscape

  // Finished words, and the word being read (empty between words).
  datatype Lexer = Lexer(mode: Mode, words: seq<string>, word: string)

  const Start := Lexer(Gap, [], "")

  predicate IsBlank(c: char) {
    c == ' ' || c == '\t' || c == '\n'
  }

  // One character outside quotes, in or at the start of a word.
  function StepBare(l: Lexer, c: char): Lexer {
    if c == '"' then l.(mode := Double)
    else if c == '\'' then l.(mode := Single)
    else if c == '\\' then l.(mode := BareEscape)
    else if IsBlank(c) then Lexer(Gap, l.words + [l.word], "")
    else l.(mode := Bare, word := l.word + [c])
  }

  function StepGap(l: Lexer, c: char): Lexer {
    if IsBlank(c) then l
    else if c == '#' then l.(mode := Comment)
    else StepBare(l, c)
  }

  function StepDoubleEscape(l: Lexer, c: char): Lexer {
    if c == '$' || c == '`' || c == '"' || c == '\\' then l.(mode := Double, word := l.word + [c])
    else if c == '\n' then l.(mode := Double)
    else l.(mode := Double, word := l.word + ['\\', c])
  }

  function Step(l: Lexer, c: char): Lexer {
    match l.mode
    case Gap => StepGap(l, c)
    case Comment => if c == '\n' then l.(mode := Gap) else l
    case Bare => StepBare(l, c)
    case BareEscape => l.(mode := Bare, word := if c == '\n' then l.word else l.word + [c])
    case Single => if c == '\'' then l.(mode := Bare) else l.(word := l.word + [c])
    case Double =>
      if c == '"' then l.(mode := Bare)
      else if c == '\\' then l.(mode := DoubleEscape)
      else l.(word := l.word + [c])
    case DoubleEscape => StepDoubleEscape(l, c)
  }

  function Run(l: Lexer, s: string): Lexer
    decreases |s|
  {
    if s == "" then l else Run(Step(l, s[0]), s[1..])
  }

  // None for an unterminated quote or escape.
  function Finish(l: Lexer): Option<seq<string>> {
    match l.mode
    case Gap => Some(l.words)
    case Comment => Some(l.words)
    case Bare => Some(l.words + [l.word])
    case _ => None
  }

  // shlex::split
  function Split(s: string): Option<seq<string>> {
    Finish(Run(Start, s))
  }

  function Escaped(v: string): string {
    if v == "" then ""
    else (if v[0] == '\'' then "'\\''" else [v[0]]) + Escaped(v[1..])
  }

  // quote_posix
  function Quote(v: string): string {
    "'" + Escaped(v) + "'"
  }

  // ---- lexing in parts ----------------------------------------------------------

  lemma {:induction false} RunAppend(l: Lexer, a: string, b: string)
    ensures Run(l, a + b) == Run(Run(l, a), b)
    decreases |a|
  {
    if a == "" {
      assert a + b == b;
    } else {
      assert (a + b)[1..] == a[1..] + b;
      RunAppend(Step(l, a[0]), a[1..], b);
    }
  }

  function Behind(ws: seq<string>, l: Lexer): Lexer {
    l.(words := ws + l.words)
  }

  lemma StepBehind(ws: seq<string>, l: Lexer, c: char)
    ensures Step(Behind(ws, l), c) == Behind(ws, Step(l, c))
  {
    assert ws + (l.words + [l.word]) == (ws + l.words) + [l.word];
  }

  // Words already read do not influence what follows.
  lemma {:induction false} RunBehind(ws: seq<string>, l: Lexer, s: string)
    ensures Run(Behind(ws, l), s) == Behind(ws, Run(l, s))
    decreases |s|
  {
    if s != "" {
      StepBehind(ws, l, s[0]);
      RunBehind(ws, Step(l, s[0]), s[1..]);
    }
  }

  function After(ws: seq<string>, rest: Option<seq<string>>): Option<seq<string>> {
    match rest
    case None => None
    case Some(more) => Some(ws + more)
  }

  // From a gap between words, the rest of the text is split on its own.
  lemma SplitAtGap(a: string, b: string)
    requires Run(Start, a).mode == Gap && Run(Start, a).word == ""
    ensures Split(a + b) == After(Run(Start, a).words, Split(b))
  {
    var l := Run(Start, a);
    RunAppend(Start, a, b);
    assert l == Behind(l.words, Start);
    RunBehind(l.words, Start, b);
    var r := Run(Start, b);
    assert l.words + (r.words + [r.word]) == (l.words + r.words) + [r.word];
  }

  // ---- quoting -------------------------------------------------------------------

  lemma RunFour(l: Lexer)
    requires l.mode == Single
    ensures Run(l, "'\\''") == l.(word := l.word + ['\''])
  {
    assert "'\\''"[1..] == "\\''" && "\\''"[1..] == "''" && "''"[1..] == "'" && "'"[1..] == "";
    assert Run(l, "'\\''") == Run(l.(mode := Bare), "\\''");
    assert Run(l.(mode := Bare), "\\''") == Run(l.(mode := BareEscape), "''");
    var m := l.(mode := Bare, word := l.word + ['\'']);
    assert Run(l.(mode := BareEscape), "''") == Run(m, "'");
    assert Run(m, "'") == Run(m.(mode := Single), "");
  }

  lemma RunOne(l: Lexer, c: char)
    ensures Run(l, [c]) == Step(l, c)
  {
    assert [c][1..] == "";
    assert Run(Step(l, c), "") == Step(l, c);
  }

  lemma {:induction false} RunEscaped(l: Lexer, v: string)
    requires l.mode == Single
    ensures Run(l, Escaped(v)) == l.(word := l.word + v)
    decreases |v|
  {
    if v == "" {
      assert l.word + v == l.word;
    } else {
      var m := l.(word := l.word + [v[0]]);
      if v[0] == '\'' {
        RunFour(l);
        RunAppend(l, "'\\''", Escaped(v[1..]));
      } else {
        RunOne(l, v[0]);
        RunAppend(l, [v[0]], Escaped(v[1..]));
      }
      RunEscaped(m, v[1..]);
      assert (l.word + [v[0]]) + v[1..] == l.word + v;
    }
  }

  // A quoted value is one word, or the rest of the word being read.
  lemma RunQuote(l: Lexer, v: string)
    requires l.mode in {Gap, Bare}
    ensures Run(l, Quote(v)) == l.(mode := Bare, word := l.word + v)
  {
    RunAppend(l, "'" + Escaped(v), "'");
    RunAppend(l, "'", Escaped(v));
    RunOne(l, '\'');
    RunEscaped(l.(mode := Single), v);
    RunOne(l.(mode := Single, word := l.word + v), '\'');
  }

  lemma QuoteThenSpace(v: string)
    ensures Run(Start, Quote(v) + " ") == Lexer(Gap, [v], "")
  {
    RunQuote(Start, v);
    RunAppend(Start, Quote(v), " ");
    RunOne(Lexer(Bare, [], v), ' ');
    assert "" + v == v && [] + [v] == [v];
  }

  // Splitting undoes quoting ...
  lemma SplitQuote(v: string)
    ensures Split(Quote(v)) == Some([v])
  {
    RunQuote(Start, v);
    assert "" + v == v && [] + [v] == [v];
  }

  // ... whatever follows, a bad tail included.
  lemma SplitQuoteThen(v: string, s: string)
    ensures Split(Quote(v) + " " + s) == After([v], Split(s))
  {
    QuoteThenSpace(v);
    SplitAtGap(Quote(v) + " ", s);
  }

  function QuoteAll(ws: seq<string>): string {
    if ws == [] then "" else Quote(ws[0]) + " " + QuoteAll(ws[1..])
  }

  lemma {:induction false} SplitQuoteAll(ws: seq<string>)
    ensures Split(QuoteAll(ws)) == Some(ws)
  {
    if ws == [] {
      assert Split("") == Some([]);
    } else {
      SplitQuoteAll(ws[1..]);
      SplitQuoteThen(ws[0], QuoteAll(ws[1..]));
      assert [ws[0]] + ws[1..] == ws;
    }
  }

  // ---- plain words ---------------------------------------------------------------

  predicate IsPlain(c: char) {
    !IsBlank(c) && c != '"' && c != '\'' && c != '\\' && c != '#'
  }

  lemma {:induction false} RunPlain(l: Lexer, v: string)
    requires l.mode == Bare || (l.mode == Gap && v != "")
    requires forall c :: c in v ==> IsPlain(c)
    ensures Run(l, v) == l.(mode := Bare, word := l.word + v)
    decreases |v|
  {
    if v == "" {
      assert l.word + v == l.word;
    } else {
      assert IsPlain(v[0]);
      RunPlain(Step(l, v[0]), v[1..]);
      assert (l.word + [v[0]]) + v[1..] == l.word + v;
    }
  }

  lemma SplitPlain(v: string)
    requires v != "" && forall c :: c in v ==> IsPlain(c)
    ensures Split(v) == Some([v])
  {
    RunPlain(Start, v);
    assert "" + v == v && [] + [v] == [v];
  }

  // An unquoted word and a space before the rest of the text.
  lemma SplitPlainThen(v: string, s: string)
    requires v != "" && forall c :: c in v ==> IsPlain(c)
    ensures Split(v + " " + s) == After([v], Split(s))
  {
    RunPlain(Start, v);
    RunAppend(Start, v, " ");
    RunOne(Lexer(Bare, [], v), ' ');
    assert "" + v == v && [] + [v] == [v];
    SplitAtGap(v + " ", s);
  }

  // ---- other ways to quote ---------------------------------------------------------

  // In double quotes, with a backslash before the characters that keep a meaning there.
  function DoubleEscaped(v: string): string {
    if v == "" then ""
    else (if v[0] in {'$', '`', '"', '\\'} then ['\\', v[0]] else [v[0]]) + DoubleEscaped(v[1..])
  }

  lemma RunTwo(l: Lexer, c: char, d: char)
    ensures Run(l, [c, d]) == Step(Step(l, c), d)
  {
    assert [c, d] == [c] + [d];
    RunAppend(l, [c], [d]);
    RunOne(l, c);
    RunOne(Step(l, c), d);
  }

  lemma {:induction false} RunDoubleEscaped(l: Lexer, v: string)
    requires l.mode == Double
    ensures Run(l, DoubleEscaped(v)) == l.(word := l.word + v)
    decreases |v|
  {
    if v == "" {
      assert l.word + v == l.word;
    } else {
      if v[0] in {'$', '`', '"', '\\'} {
        RunTwo(l, '\\', v[0]);
        RunAppend(l, ['\\', v[0]], DoubleEscaped(v[1..]));
      } else {
        RunOne(l, v[0]);
        RunAppend(l, [v[0]], DoubleEscaped(v[1..]));
      }
      RunDoubleEscaped(l.(word := l.word + [v[0]]), v[1..]);
      assert (l.word + [v[0]]) + v[1..] == l.word + v;
    }
  }

  // A value in double quotes is one word.
  lemma SplitDoubleQuoted(v: string)
    ensures Split(['"'] + DoubleEscaped(v) + ['"']) == Some([v])
  {
    RunAppend(Start, ['"'] + DoubleEscaped(v), ['"']);
    RunAppend(Start, ['"'], DoubleEscaped(v));
    RunOne(Start, '"');
    RunDoubleEscaped(Start.(mode := Double), v);
    RunOne(Lexer(Double, [], v), '"');
    assert "" + v == v && [] + [v] == [v];
  }

  // A backslash before every character.
  function AllEscaped(v: string): string {
    if v == "" then "" else ['\\', v[0]] + AllEscaped(v[1..])
  }

  lemma {:induction false} RunAllEscaped(l: Lexer, v: string)
    requires l.mode == Bare || (l.mode == Gap && v != "")
    requires '\n' !in v
    ensures Run(l, AllEscaped(v)) == l.(mode := Bare, word := l.word + v)
    decreases |v|
  {
    if v == "" {
      assert l.word + v == l.word;
    } else {
      RunTwo(l, '\\', v[0]);
      RunAppend(l, ['\\', v[0]], AllEscaped(v[1..]));
      RunAllEscaped(l.(mode := Bare, word := l.word + [v[0]]), v[1..]);
      assert (l.word + [v[0]]) + v[1..] == l.word + v;
    }
  }

  lemma SplitAllEscaped(v: string)
    requires v != "" && '\n' !in v
    ensures Split(AllEscaped(v)) == Some([v])
  {
    RunAllEscaped(Start, v);
    assert "" + v == v && [] + [v] == [v];
  }

  // A quote that is not closed makes the whole text unreadable.
  lemma Unterminated(v: string)
    ensures Split("'" + Escaped(v)) == None && Split(['"'] + DoubleEscaped(v)) == None
  {
    RunAppend(Start, "'", Escaped(v));
    RunOne(Start, '\'');
    RunEscaped(Start.(mode := Single), v);
    RunAppend(Start, ['"'], DoubleEscaped(v));
    RunOne(Start, '"');
    RunDoubleEscaped(Start.(mode := Double), v);
  }
}
