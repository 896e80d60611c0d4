/**
 The lightweight Rust lexer of scripts/check-recovery-state-budget.py.

 `Lex` says what a source text lexes to; `RustTokens` is the program's cursor loop,
 proved to compute it.
 */
module RustLexer {
  import opened Text

  datatype LexError =
    | UnterminatedRawString
    | UnterminatedLiteral
    | UnterminatedUnicodeEscape
    | UnterminatedBlockComment

  /** What a scanner found at a position: nothing, a literal of `length` characters, or an error. */
  datatype Span = Absent | Span(length: nat) | Bad(error: LexError)

  // ---------------------------------------------------------------- character classes

  predicate IsSpace(c: char) {
    || '\t' <= c <= '\r' || 0x1c as char <= c <= ' ' || c == 0x85 as char || c == 0xa0 as char
    || c == 0x1680 as char || 0x2000 as char <= c <= 0x200a as char || c == 0x2028 as char
    || c == 0x2029 as char || c == 0x202f as char || c == 0x205f as char || c == 0x3000 as char
  }

  /** The white space of Unicode as Python has it, by code point. */
  const SPACES := {
    9, 10, 11, 12, 13, 28, 29, 30, 31, 32, 133, 160, 5760, 8192, 8193, 8194, 8195, 8196, 8197, 8198, 8199,
    8200, 8201, 8202, 8232, 8233, 8239, 8287, 12288}

  lemma SpaceIs(c: char)
    ensures IsSpace(c) <==> c as int in SPACES
  {
  }

  predicate IsNameStart(c: char) {
    'A' <= c <= 'Z' || 'a' <= c <= 'z' || c == '_'
  }

  predicate IsNameChar(c: char) {
    IsNameStart(c) || '0' <= c <= '9'
  }

  /** The length of the longest prefix of name characters. */
  function NameRun(s: string): (n: nat)
    ensures n <= |s| && forall i :: 0 <= i < n ==> IsNameChar(s[i])
    ensures n < |s| ==> !IsNameChar(s[n])
  {
    if s != "" && IsNameChar(s[0]) then 1 + NameRun(s[1..]) else 0
  }

  /** The match length of `[A-Za-z_][A-Za-z0-9_]*` at the start of `s`; 0 for no match. */
  function NameLength(s: string): (n: nat)
    ensures n <= |s|
  {
    if s != "" && IsNameStart(s[0]) then NameRun(s) else 0
  }

  /** The match length of `r#[A-Za-z_][A-Za-z0-9_]*`; 0 for no match. */
  function RawNameLength(s: string): (n: nat)
    ensures n <= |s|
  {
    if |s| >= 3 && s[0] == 'r' && s[1] == '#' && IsNameStart(s[2]) then 2 + NameRun(s[2..]) else 0
  }

  /** `IDENTIFIER.fullmatch`. */
  predicate IsIdentifier(t: string) {
    || (t != "" && NameLength(t) == |t|)
    || (t != "" && RawNameLength(t) == |t|)
  }

  /** By code point: A to Z, a to z and the underscore. */
  predicate Letter(c: char) {
    65 <= c as int <= 90 || 97 <= c as int <= 122 || c as int == 95
  }

  predicate Digit(c: char) {
    48 <= c as int <= 57
  }

  /** A name without the raw prefix. */
  predicate PlainName(name: string) {
    name != "" && Letter(name[0]) && forall i :: 0 <= i < |name| ==> Letter(name[i]) || Digit(name[i])
  }

  lemma NameCharsAre(c: char)
    ensures IsNameStart(c) <==> Letter(c)
    ensures IsNameChar(c) <==> Letter(c) || Digit(c)
  {
  }

  lemma PlainRuns(s: string)
    ensures NameLength(s) == |s| > 0 <==> PlainName(s)
    ensures s != "" && Letter(s[0]) && NameRun(s) == |s| <==> PlainName(s)
  {
    hide IsNameStart, IsNameChar, Letter, Digit;
    forall i | 0 <= i < |s| ensures IsNameChar(s[i]) <==> Letter(s[i]) || Digit(s[i]) {
      NameCharsAre(s[i]);
    }
    if s != "" {
      NameCharsAre(s[0]);
    }
  }

  /** An identifier is a plain name, or one behind `r#`. */
  lemma IdentifierIs(t: string)
    ensures IsIdentifier(t) <==> PlainName(t) || (|t| > 2 && t[..2] == "r#" && PlainName(t[2..]))
  {
    hide PlainName, NameRun;
    PlainRuns(t);
    if |t| > 2 {
      PlainRuns(t[2..]);
      NameCharsAre(t[2]);
    }
  }

  // ---------------------------------------------------------------- what each scanner accepts

  /** `br`, `rb`, `cr` or `rc`. */
  predicate IsRawPair(c: char, d: char) {
    (c == 'r' && (d == 'b' || d == 'c')) || (d == 'r' && (c == 'b' || c == 'c'))
  }

  lemma RawPairIs(c: char, d: char)
    ensures IsRawPair(c, d) <==> [c, d] in {"br", "rb", "cr", "rc"}
  {
    assert forall p <- {"br", "rb", "cr", "rc"} :: [c, d] == p <==> c == p[0] && d == p[1];
  }

  function RawPrefix(s: string): nat {
    if |s| >= 2 && IsRawPair(s[0], s[1]) then 2
    else if s != "" && s[0] == 'r' then 1
    else 0
  }

  function Hashes(s: string): (n: nat)
    ensures n <= |s| && forall i :: 0 <= i < n ==> s[i] == '#'
    ensures n < |s| ==> s[n] != '#'
  {
    if s != "" && s[0] == '#' then 1 + Hashes(s[1..]) else 0
  }

  function RawTerminator(hashes: nat): string {
    "\"" + Repeat('#', hashes)
  }

  function RawSpan(s: string): Span {
    var p := RawPrefix(s);
    if p == 0 then Absent
    else
      assert p <= |s|;
      var h := Hashes(s[p..]);
      if p + h >= |s| || s[p + h] != '\"' then Absent
      else
        var f := Find(s[p + h + 1..], RawTerminator(h));
        if f < 0 then Bad(UnterminatedRawString) else Span(p + h + 1 + f + 1 + h)
  }

  /** From just after the opening quote: how far the closing quote ends, skipping escapes. */
  function QuotedSpan(s: string): (r: Span)
    ensures !r.Absent? && (r.Span? ==> 1 <= r.length <= |s|)
  {
    if s == "" then Bad(UnterminatedLiteral)
    else if s[0] == '\\' then
      if |s| < 2 then Bad(UnterminatedLiteral) else Shift(QuotedSpan(s[2..]), 2)
    else if s[0] == '\"' then Span(1)
    else Shift(QuotedSpan(s[1..]), 1)
  }

  function Shift(r: Span, d: nat): Span {
    if r.Span? then Span(r.length + d) else r
  }

  /** From just after a single quote: a one-codepoint literal's end, or nothing (a lifetime). */
  function CharSpan(s: string): Span {
    if s == "" || s[0] == '\'' || s[0] == '\n' then Absent
    else if s[0] != '\\' then CharClose(s, 1)
    else if Marker(s, '\\', 'u') && |s| > 2 && s[2] == '{' then
      var f := Find(s[3..], "}");
      if f < 0 then Bad(UnterminatedUnicodeEscape) else CharClose(s, 4 + f)
    else if Marker(s, '\\', 'x') then CharClose(s, 4)
    else CharClose(s, 2)
  }

  function CharClose(s: string, at: nat): Span {
    if at < |s| && s[at] == '\'' then Span(at + 1) else Absent
  }

  /** From inside `depth` nested block comments: how far until the outermost closes. */
  function CommentSpan(s: string, depth: nat): (r: Span)
    ensures !r.Absent? && (r.Span? ==> r.length <= |s|)
  {
    if depth == 0 then Span(0)
    else if s == "" then Bad(UnterminatedBlockComment)
    else if Marker(s, '/', '*') then Shift(CommentSpan(s[2..], depth + 1), 2)
    else if Marker(s, '*', '/') then Shift(CommentSpan(s[2..], depth - 1), 2)
    else Shift(CommentSpan(s[1..], depth), 1)
  }

  /** `startswith` for a two-character marker. */
  predicate Marker(s: string, c: char, d: char) {
    |s| >= 2 && s[0] == c && s[1] == d
  }

  function LineCommentLength(s: string): nat {
    var f := Find(s, "\n");
    if f < 0 then |s| else f + 1
  }

  // ---------------------------------------------------------------- the token stream

  /** One turn of the main loop: skip some characters, emit the next few as a token, or fail. */
  datatype Step = Skip(n: nat) | Emit(n: nat) | Fail(error: LexError)

  function SkipSpan(r: Span, d: nat): Step
    requires !r.Absent?
  {
    if r.Span? then Skip(d + r.length) else Fail(r.error)
  }

  function Prefixed(s: string, quote: char, prefixes: set<char>): nat {
    if |s| >= 2 && s[0] in prefixes && s[1] == quote then 1 else 0
  }

  function NextStep(s: string): (r: Step)
    requires s != ""
    ensures !r.Fail? ==> 1 <= r.n <= |s|
  {
    if Marker(s, '/', '/') then Skip(2 + LineCommentLength(s[2..]))
    else if Marker(s, '/', '*') then SkipSpan(CommentSpan(s[2..], 1), 2)
    else if !RawSpan(s).Absent? then SkipSpan(RawSpan(s), 0)
    else
      var p := Prefixed(s, '\"', {'b', 'c'});
      if s[p] == '\"' then SkipSpan(QuotedSpan(s[p + 1..]), p + 1)
      else
        var q := Prefixed(s, '\'', {'b'});
        if s[q] == '\'' && !CharSpan(s[q + 1..]).Absent? then SkipSpan(CharSpan(s[q + 1..]), q + 1)
        else PlainStep(s)
  }

  function PlainStep(s: string): (r: Step)
    requires s != ""
    ensures !r.Fail? && 1 <= r.n <= |s|
  {
    if IsSpace(s[0]) then Skip(1)
    else if RawNameLength(s) > 0 then Emit(RawNameLength(s))
    else if NameLength(s) > 0 then Emit(NameLength(s))
    else Emit(1)
  }

  type Lexed = Result<seq<string>, LexError>

  function Before(tokens: seq<string>, rest: Lexed): Lexed {
    if rest.Ok? then Ok(tokens + rest.value) else rest
  }

  function Lex(s: string): Lexed
    decreases |s|
  {
    if s == "" then Ok([])
    else
      match NextStep(s)
      case Skip(n) => Lex(s[n..])
      case Emit(n) => Before([s[..n]], Lex(s[n..]))
      case Fail(e) => Err(e)
  }

  // ---------------------------------------------------------------- the program

  method CountHashes(source: string, start: nat) returns (hashes: nat)
    requires start <= |source|
    ensures hashes == Hashes(source[start..])
  {
    var cursor := start;
    hashes := 0;
    while cursor < |source| && source[cursor] == '#'
      invariant cursor <= |source| && hashes == cursor - start
      invariant Hashes(source[start..]) == hashes + Hashes(source[cursor..])
    {
      assert source[cursor..][1..] == source[cursor + 1..];
      hashes := hashes + 1;
      cursor := cursor + 1;
    }
  }

  method RawStringEnd(source: string, start: nat) returns (r: Span)
    requires start <= |source|
    ensures r == Shift(RawSpan(source[start..]), start)
  {
    ghost var s := source[start..];
    var cursor := start;
    if start + 2 <= |source| && IsRawPair(source[start], source[start + 1]) {
      cursor := cursor + 2;
    } else if start < |source| && source[start] == 'r' {
      cursor := cursor + 1;
    } else {
      return Absent;
    }
    ghost var p := cursor - start;
    assert p == RawPrefix(s) && s[p..] == source[cursor..];
    var hashes := CountHashes(source, cursor);
    cursor := cursor + hashes;
    if cursor >= |source| || source[cursor] != '\"' {
      return Absent;
    }
    assert s[p + hashes + 1..] == source[cursor + 1..];
    var found := Find(source[cursor + 1..], RawTerminator(hashes));
    if found < 0 {
      return Bad(UnterminatedRawString);
    }
    return Span(cursor + 1 + found + 1 + hashes);
  }

  method QuotedEnd(source: string, quote: nat) returns (r: Span)
    requires quote < |source|
    ensures r == Shift(QuotedSpan(source[quote + 1..]), quote + 1)
  {
    var cursor := quote + 1;
    while cursor < |source|
      invariant quote < cursor <= |source|
      invariant Shift(QuotedSpan(source[cursor..]), cursor)
             == Shift(QuotedSpan(source[quote + 1..]), quote + 1)
    {
      ghost var s := source[cursor..];
      var c := source[cursor];
      if c == '\\' {
        if cursor + 2 > |source| {
          break;
        }
        assert s[2..] == source[cursor + 2..];
        cursor := cursor + 2;
        continue;
      }
      if c == '\"' {
        return Span(cursor + 1);
      }
      assert s[1..] == source[cursor + 1..];
      cursor := cursor + 1;
    }
    return Bad(UnterminatedLiteral);
  }

  method CharLiteralEnd(source: string, quote: nat) returns (r: Span)
    requires quote < |source|
    ensures r == Shift(CharSpan(source[quote + 1..]), quote + 1)
  {
    ghost var s := source[quote + 1..];
    var cursor := quote + 1;
    if cursor >= |source| || source[cursor] == '\'' || source[cursor] == '\n' {
      return Absent;
    }
    if source[cursor] != '\\' {
      cursor := cursor + 1;
    } else if Marker(source[cursor..], '\\', 'u') && cursor + 2 < |source| && source[cursor + 2] == '{' {
      assert s[3..] == source[cursor + 3..];
      var closing := Find(source[cursor + 3..], "}");
      if closing < 0 {
        return Bad(UnterminatedUnicodeEscape);
      }
      cursor := cursor + 3 + closing + 1;
    } else if Marker(source[cursor..], '\\', 'x') {
      cursor := cursor + 4;
    } else {
      cursor := cursor + 2;
    }
    if cursor < |source| && source[cursor] == '\'' {
      return Span(cursor + 1);
    }
    return Absent;
  }

  /** From just after the opening of a block comment. */
  method BlockCommentEnd(source: string, start: nat) returns (r: Span)
    requires start <= |source|
    ensures r == Shift(CommentSpan(source[start..], 1), start)
  {
    var depth, cursor := 1, start;
    while cursor < |source| && depth > 0
      invariant start <= cursor <= |source|
      invariant Shift(CommentSpan(source[cursor..], depth), cursor)
             == Shift(CommentSpan(source[start..], 1), start)
    {
      ghost var s := source[cursor..];
      assert |s| >= 2 ==> s[2..] == source[cursor + 2..];
      assert s[1..] == source[cursor + 1..];
      if Marker(source[cursor..], '/', '*') {
        depth, cursor := depth + 1, cursor + 2;
      } else if Marker(source[cursor..], '*', '/') {
        depth, cursor := depth - 1, cursor + 2;
      } else {
        cursor := cursor + 1;
      }
    }
    return if depth > 0 then Bad(UnterminatedBlockComment) else Span(cursor);
  }

  lemma BeforeNothing(rest: Lexed)
    ensures Before([], rest) == rest
  {
    if rest.Ok? {
      assert [] + rest.value == rest.value;
    }
  }

  lemma BeforeBoth(first: seq<string>, second: seq<string>, rest: Lexed)
    ensures Before(first, Before(second, rest)) == Before(first + second, rest)
  {
    if rest.Ok? {
      assert first + (second + rest.value) == (first + second) + rest.value;
    }
  }

  /** The body of the main loop: what to do at `cursor`. */
  method StepAt(source: string, cursor: nat) returns (r: Step)
    requires cursor < |source|
    ensures r == NextStep(source[cursor..])
  {
    hide RawSpan, QuotedSpan, CharSpan, CommentSpan, NameRun, Find;
    ghost var s := source[cursor..];
    assert forall n {:trigger s[n..]} :: 0 <= n <= |s| ==> s[n..] == source[cursor + n..];
    if Marker(source[cursor..], '/', '/') {
      var newline := Find(source[cursor + 2..], "\n");
      return Skip(if newline < 0 then |source| - cursor else 2 + newline + 1);
    }
    if Marker(source[cursor..], '/', '*') {
      var end := BlockCommentEnd(source, cursor + 2);
      return if end.Bad? then Fail(end.error) else Skip(end.length - cursor);
    }
    var rawEnd := RawStringEnd(source, cursor);
    if !rawEnd.Absent? {
      return if rawEnd.Bad? then Fail(rawEnd.error) else Skip(rawEnd.length - cursor);
    }
    var prefix := Prefixed(source[cursor..], '\"', {'b', 'c'});
    if source[cursor + prefix] == '\"' {
      var end := QuotedEnd(source, cursor + prefix);
      return if end.Bad? then Fail(end.error) else Skip(end.length - cursor);
    }
    var charPrefix := Prefixed(source[cursor..], '\'', {'b'});
    if source[cursor + charPrefix] == '\'' {
      var end := CharLiteralEnd(source, cursor + charPrefix);
      if !end.Absent? {
        return if end.Bad? then Fail(end.error) else Skip(end.length - cursor);
      }
    }
    if IsSpace(source[cursor]) {
      return Skip(1);
    }
    var length := RawNameLength(source[cursor..]);
    if length == 0 {
      length := NameLength(source[cursor..]);
    }
    return Emit(if length == 0 then 1 else length);
  }

  /** `rust_tokens`: terminates on every text and returns what `Lex` says. */
  method RustTokens(source: string) returns (r: Lexed)
    ensures r == Lex(source)
  {
    hide NextStep;
    var tokens: seq<string> := [];
    var cursor := 0;
    assert source[0..] == source;
    BeforeNothing(Lex(source));
    while cursor < |source|
      invariant cursor <= |source|
      invariant Lex(source) == Before(tokens, Lex(source[cursor..]))
    {
      var step := StepAt(source, cursor);
      if step.Fail? {
        return Err(step.error);
      }
      assert source[cursor..][step.n..] == source[cursor + step.n..];
      if step.Emit? {
        var token := source[cursor..cursor + step.n];
        assert token == source[cursor..][..step.n];
        BeforeBoth(tokens, [token], Lex(source[cursor + step.n..]));
        tokens := tokens + [token];
      }
      cursor := cursor + step.n;
    }
    assert source[cursor..] == "" && tokens + [] == tokens;
    return Ok(tokens);
  }
}
