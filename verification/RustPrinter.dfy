/**
 A printer for everything the recovery-state lexer is meant to read: lexemes laid out among
 whitespace, comments and literals. The main theorem, `LexUndoesPrint`, says the lexer
 returns exactly the printed tokens, whatever the layout hides in comments and literals.
 */
module RustPrinter {
  import opened Text
  import opened RustLexer

  // ---------------------------------------------------------------- trivia

  /** What remains of a block comment, up to and including its closing marker. */
  datatype Comment =
    | Close
    | Text(c: char, rest: Comment)
    | Nested(inner: Comment, rest: Comment)

  function CommentText(c: Comment): (s: string)
    ensures |s| >= 2
  {
    match c
    case Close => "*/"
    case Text(x, rest) => [x] + CommentText(rest)
    case Nested(inner, rest) => "/*" + CommentText(inner) + CommentText(rest)
  }

  /** No two neighbouring characters may look like a marker that is not there. */
  predicate CommentOk(c: Comment) {
    match c
    case Close => true
    case Text(x, rest) =>
      && CommentOk(rest)
      && !(x == '/' && CommentText(rest)[0] == '*')
      && !(x == '*' && CommentText(rest)[0] == '/')
    case Nested(inner, rest) => CommentOk(inner) && CommentOk(rest)
  }

  datatype StringUnit = Plain(c: char) | Escape(c: char)

  function UnitsText(units: seq<StringUnit>): string {
    if units == [] then ""
    else (if units[0].Plain? then [units[0].c] else ['\\', units[0].c]) + UnitsText(units[1..])
  }

  predicate UnitsOk(units: seq<StringUnit>) {
    forall u <- units :: u.Plain? ==> u.c != '\"' && u.c != '\\'
  }

  datatype CharForm = One(c: char) | Simple(c: char) | Hex(h: char, l: char) | Unicode(digits: string)

  function CharText(f: CharForm): string {
    match f
    case One(c) => [c]
    case Simple(c) => ['\\', c]
    case Hex(h, l) => ['\\', 'x', h, l]
    case Unicode(digits) => "\\u{" + digits + "}"
  }

  predicate CharOk(f: CharForm) {
    match f
    case One(c) => c != '\'' && c != '\n' && c != '\\'
    case Simple(c) => c != 'x'
    case Hex(_, _) => true
    case Unicode(digits) => '}' !in digits
  }

  datatype Piece =
    | Space(c: char)
    | LineComment(text: string)
    | BlockComment(comment: Comment)
    | StringLiteral(prefix: string, units: seq<StringUnit>)
    | RawString(prefix: string, hashes: nat, body: string)
    | CharLiteral(byte: bool, form: CharForm)

  function PieceText(p: Piece): string {
    match p
    case Space(c) => [c]
    case LineComment(text) => "//" + text + "\n"
    case BlockComment(body) => "/*" + CommentText(body)
    case StringLiteral(prefix, units) => prefix + "\"" + UnitsText(units) + "\""
    case RawString(prefix, hashes, body) =>
      prefix + Repeat('#', hashes) + "\"" + body + RawTerminator(hashes)
    case CharLiteral(byte, form) => (if byte then "b'" else "'") + CharText(form) + "'"
  }

  predicate PieceOk(p: Piece) {
    match p
    case Space(c) => IsSpace(c)
    case LineComment(text) => '\n' !in text
    case BlockComment(body) => CommentOk(body)
    case StringLiteral(prefix, units) => (prefix == "" || prefix == "b" || prefix == "c") && UnitsOk(units)
    case RawString(prefix, hashes, body) =>
      && (prefix == "r" || (|prefix| == 2 && IsRawPair(prefix[0], prefix[1])))
      && forall k :: 0 <= k <= |body| ==> !(RawTerminator(hashes) <= body[k..])
    case CharLiteral(_, form) => CharOk(form)
  }

  // ---------------------------------------------------------------- lexemes

  datatype Lexeme = Name(text: string) | Punct(c: char) | Lifetime(name: string)

  predicate LexemeOk(x: Lexeme) {
    match x
    case Name(text) => IsIdentifier(text)
    case Punct(c) => !IsSpace(c) && !IsNameStart(c) && c != '\'' && c != '\"'
    case Lifetime(name) => IsIdentifier(name)
  }

  function LexemeText(x: Lexeme): (s: string)
    requires LexemeOk(x)
    ensures s != ""
  {
    match x
    case Name(text) => text
    case Punct(c) => [c]
    case Lifetime(name) => "'" + name
  }

  function LexemeTokens(x: Lexeme): seq<string> {
    match x
    case Name(text) => [text]
    case Punct(c) => [[c]]
    case Lifetime(name) => ["'", name]
  }

  /** Whether `x` may be followed directly by `text` (whitespace always separates). */
  predicate Separated(x: Lexeme, text: string) {
    text == "" ||
    match x
    case Punct(c) => c == '/' ==> text[0] != '/' && text[0] != '*'
    case _ => !IsNameChar(text[0]) && text[0] != '\'' && text[0] != '\"' && text[0] != '#'
  }

  // ---------------------------------------------------------------- layouts

  datatype Item = Trivia(piece: Piece) | Word(lexeme: Lexeme)

  predicate ItemOk(item: Item) {
    if item.Trivia? then PieceOk(item.piece) else LexemeOk(item.lexeme)
  }

  function ItemText(item: Item): string
    requires ItemOk(item)
  {
    if item.Trivia? then PieceText(item.piece) else LexemeText(item.lexeme)
  }

  /** Every item is well formed and no word runs into what follows it. */
  predicate LayoutOk(items: seq<Item>)
    decreases |items|, 0
  {
    items == [] ||
    (&& ItemOk(items[0])
     && LayoutOk(items[1..])
     && (items[0].Word? ==> Separated(items[0].lexeme, PrintSource(items[1..]))))
  }

  function PrintSource(items: seq<Item>): string
    requires LayoutOk(items)
    decreases |items|, 1
  {
    if items == [] then "" else ItemText(items[0]) + PrintSource(items[1..])
  }

  function WordTokens(items: seq<Item>): seq<string> {
    if items == [] then []
    else (if items[0].Word? then LexemeTokens(items[0].lexeme) else []) + WordTokens(items[1..])
  }

  // ---------------------------------------------------------------- trivia is skipped

  lemma {:induction false} CommentScans(c: Comment, rest: string, depth: nat)
    requires CommentOk(c) && depth > 0
    ensures CommentSpan(CommentText(c) + rest, depth)
         == Shift(CommentSpan(rest, depth - 1), |CommentText(c)|)
  {
    hide CommentSpan;
    match c
    case Close =>
      CommentStep("*/", rest, depth);
    case Text(x, more) =>
      var tail := CommentText(more) + rest;
      assert CommentText(c) + rest == [x] + tail;
      assert tail[0] == CommentText(more)[0];
      CommentStep([x], tail, depth);
      CommentScans(more, rest, depth);
    case Nested(inner, more) =>
      var tail := CommentText(more) + rest;
      assert CommentText(c) + rest == "/*" + (CommentText(inner) + tail);
      CommentStep("/*", CommentText(inner) + tail, depth);
      CommentScans(inner, tail, depth + 1);
      CommentScans(more, rest, depth);
  }

  /** One step of the comment scanner over `head`, which leaves `tail`. */
  lemma CommentStep(head: string, tail: string, depth: nat)
    requires depth > 0
    ensures head == "/*" ==> CommentSpan(head + tail, depth) == Shift(CommentSpan(tail, depth + 1), 2)
    ensures head == "*/" ==> CommentSpan(head + tail, depth) == Shift(CommentSpan(tail, depth - 1), 2)
    ensures |head| == 1 && !Marker(head + tail, '/', '*') && !Marker(head + tail, '*', '/') ==>
      CommentSpan(head + tail, depth) == Shift(CommentSpan(tail, depth), 1)
  {
    assert (head + tail)[|head|..] == tail;
  }

  lemma {:induction false} UnitsScan(units: seq<StringUnit>, rest: string)
    requires UnitsOk(units)
    ensures QuotedSpan(UnitsText(units) + "\"" + rest) == Span(|UnitsText(units)| + 1)
  {
    var s := UnitsText(units) + "\"" + rest;
    if units == [] {
    } else {
      var n := if units[0].Plain? then 1 else 2;
      assert s[n..] == UnitsText(units[1..]) + "\"" + rest;
      assert units[0] in units;
      UnitsScan(units[1..], rest);
    }
  }

  lemma {:induction false} HashesOf(n: nat, rest: string)
    requires rest == "" || rest[0] != '#'
    ensures Hashes(Repeat('#', n) + rest) == n
  {
    var s := Repeat('#', n) + rest;
    if n > 0 {
      assert s[1..] == Repeat('#', n - 1) + rest;
      HashesOf(n - 1, rest);
    } else {
      assert s == rest;
    }
  }

  /** A terminator cannot begin inside the body and end outside it. */
  lemma TerminatorFound(body: string, hashes: nat, rest: string)
    requires forall k :: 0 <= k <= |body| ==> !(RawTerminator(hashes) <= body[k..])
    ensures Find(body + RawTerminator(hashes) + rest, RawTerminator(hashes)) == |body|
  {
    var t := RawTerminator(hashes);
    var s := body + t + rest;
    assert s[|body|..] == t + rest;
    forall k | 0 <= k < |body|
      ensures !(t <= s[k..])
    {
      assert !(t <= body[k..]);
      assert forall i :: 0 <= i < |body| - k ==> body[k..][i] == s[k..][i];
      assert s[k..][|body| - k] == s[|body|] == '\"';
      assert |body| - k < |t| ==> t[|body| - k] == '#';
    }
    FindIs(s, t, |body|);
  }

  lemma LineSkips(text: string, rest: string)
    requires '\n' !in text
    ensures NextStep("//" + text + "\n" + rest) == Skip(|text| + 3)
  {
    var s := "//" + text + "\n" + rest;
    assert s[2..] == text + "\n" + rest;
    assert s[2..][|text|..] == "\n" + rest;
    forall k | 0 <= k < |text| ensures !("\n" <= s[2..][k..]) {
      assert s[2..][k..][0] == text[k];
    }
    FindIs(s[2..], "\n", |text|);
  }

  lemma BlockSkips(body: Comment, rest: string)
    requires CommentOk(body)
    ensures NextStep("/*" + CommentText(body) + rest) == Skip(|CommentText(body)| + 2)
  {
    var s := "/*" + CommentText(body) + rest;
    assert s[2..] == CommentText(body) + rest;
    CommentScans(body, rest, 1);
  }

  lemma RawPrefixOf(prefix: string, rest: string)
    requires prefix == "r" || (|prefix| == 2 && IsRawPair(prefix[0], prefix[1]))
    requires rest != "" && (rest[0] == '#' || rest[0] == '\"')
    ensures RawPrefix(prefix + rest) == |prefix|
  {
    assert |prefix| == 1 ==> (prefix + rest)[1] == rest[0];
  }

  lemma RawStringSkips(s: string, p: nat, hashes: nat, length: nat)
    requires RawPrefix(s) == p && 0 < p <= |s| && Hashes(s[p..]) == hashes
    requires p + hashes < |s| && s[p + hashes] == '\"'
    requires Find(s[p + hashes + 1..], RawTerminator(hashes)) == length
    ensures NextStep(s) == Skip(p + hashes + 1 + length + 1 + hashes)
  {
  }

  lemma Regroup(a: string, b: string, c: string, d: string, e: string)
    ensures a + b + "\"" + c + d + e == a + (b + ("\"" + (c + d + e)))
  {
  }

  lemma DropThree(a: string, b: string, c: string)
    ensures var s := a + (b + ("\"" + c));
      s[|a| + |b|] == '\"' && s[|a| + |b| + 1..] == c
  {
  }

  lemma RawSkips(prefix: string, hashes: nat, body: string, rest: string)
    requires PieceOk(RawString(prefix, hashes, body))
    ensures NextStep(PieceText(RawString(prefix, hashes, body)) + rest)
         == Skip(|PieceText(RawString(prefix, hashes, body))|)
  {
    var marks := Repeat('#', hashes);
    var inner := body + RawTerminator(hashes) + rest;
    var s := prefix + (marks + ("\"" + inner));
    Regroup(prefix, marks, body, RawTerminator(hashes), rest);
    RawPrefixOf(prefix, marks + ("\"" + inner));
    assert s[|prefix|..] == marks + ("\"" + inner);
    HashesOf(hashes, "\"" + inner);
    DropThree(prefix, marks, inner);
    TerminatorFound(body, hashes, rest);
    RawStringSkips(s, |prefix|, hashes, |body|);
  }

  lemma QuoteSkips(s: string, p: nat)
    requires p < |s| && s[p] == '\"' && QuotedSpan(s[p + 1..]).Span?
    requires p == 0 || (p == 1 && (s[0] == 'b' || s[0] == 'c'))
    ensures NextStep(s) == Skip(p + 1 + QuotedSpan(s[p + 1..]).length)
  {
    hide CharSpan, PlainStep, CommentSpan, Find, QuotedSpan;
    assert RawSpan(s).Absent? by {
      assert RawPrefix(s) == 0;
    }
  }

  lemma StringSkips(prefix: string, units: seq<StringUnit>, rest: string)
    requires PieceOk(StringLiteral(prefix, units))
    ensures NextStep(PieceText(StringLiteral(prefix, units)) + rest)
         == Skip(|PieceText(StringLiteral(prefix, units))|)
  {
    var inner := UnitsText(units) + "\"" + rest;
    StringText(prefix, units, rest);
    UnitsScan(units, rest);
    hide NextStep, QuotedSpan, PieceText, UnitsText;
    QuoteSkips(prefix + ("\"" + inner), |prefix|);
  }

  lemma StringText(prefix: string, units: seq<StringUnit>, rest: string)
    ensures var s := prefix + ("\"" + (UnitsText(units) + "\"" + rest));
      && PieceText(StringLiteral(prefix, units)) + rest == s
      && s[|prefix|] == '\"' && s[|prefix| + 1..] == UnitsText(units) + "\"" + rest
      && |PieceText(StringLiteral(prefix, units))| == |prefix| + 2 + |UnitsText(units)|
  {
  }

  lemma UnicodeScans(digits: string, rest: string)
    requires '}' !in digits
    ensures CharSpan("\\u{" + digits + "}" + "'" + rest) == Span(|digits| + 5)
  {
    var s := "\\u{" + digits + "}" + "'" + rest;
    assert s[3..] == digits + "}" + "'" + rest;
    assert s[3..][|digits|..] == "}" + "'" + rest;
    forall k | 0 <= k < |digits| ensures !("}" <= s[3..][k..]) {
      assert s[3..][k..][0] == digits[k];
    }
    FindIs(s[3..], "}", |digits|);
    assert s[4 + |digits|] == '\'';
  }

  lemma CharScans(f: CharForm, rest: string)
    requires CharOk(f)
    ensures CharSpan(CharText(f) + "'" + rest) == Span(|CharText(f)| + 1)
  {
    match f
    case One(c) =>
    case Simple(c) =>
    case Hex(h, l) => assert (CharText(f) + "'" + rest)[4] == '\'';
    case Unicode(digits) => UnicodeScans(digits, rest);
  }

  lemma CharSkips(byte: bool, form: CharForm, rest: string)
    requires CharOk(form)
    ensures NextStep(PieceText(CharLiteral(byte, form)) + rest)
         == Skip(|PieceText(CharLiteral(byte, form))|)
  {
    hide CharSpan, PlainStep, CommentSpan, Find, QuotedSpan, CharText;
    var s := PieceText(CharLiteral(byte, form)) + rest;
    var q := if byte then 1 else 0;
    assert s[q] == '\'';
    assert s[q + 1..] == CharText(form) + "'" + rest;
    CharScans(form, rest);
  }

  lemma PieceSkips(p: Piece, rest: string)
    requires PieceOk(p)
    ensures PieceText(p) != "" && NextStep(PieceText(p) + rest) == Skip(|PieceText(p)|)
  {
    match p
    case Space(_) =>
    case LineComment(text) =>
      LineSkips(text, rest);
      assert PieceText(p) + rest == "//" + text + "\n" + rest;
    case BlockComment(body) =>
      BlockSkips(body, rest);
      assert PieceText(p) + rest == "/*" + CommentText(body) + rest;
    case StringLiteral(prefix, units) => StringSkips(prefix, units, rest);
    case RawString(prefix, hashes, body) => RawSkips(prefix, hashes, body, rest);
    case CharLiteral(byte, form) => CharSkips(byte, form, rest);
  }

  // ---------------------------------------------------------------- lexemes are emitted

  lemma {:induction false} NameRunStops(name: string, rest: string)
    requires NameRun(name) == |name| && (rest == "" || !IsNameChar(rest[0]))
    ensures NameRun(name + rest) == |name|
  {
    if name == "" {
      assert name + rest == rest;
    } else {
      assert (name + rest)[1..] == name[1..] + rest;
      NameRunStops(name[1..], rest);
    }
  }

  /** With no literal at its front, a text yields its longest name. */
  lemma NoLiteral(s: string)
    requires s != "" && IsNameStart(s[0]) && RawSpan(s).Absent?
    requires |s| >= 2 ==> s[1] != '\'' && s[1] != '\"'
    ensures NextStep(s) == PlainStep(s)
  {
  }

  lemma RawNameEmits(name: string, rest: string)
    requires name != "" && RawNameLength(name) == |name| && Separated(Name(name), rest)
    ensures NextStep(name + rest) == Emit(|name|)
  {
    var s := name + rest;
    assert s[2..] == name[2..] + rest && s[2] == name[2];
    NameRunStops(name[2..], rest);
    assert Hashes(s[2..]) == 0;
    assert s[1..][1..] == s[2..];
    NoLiteral(s);
  }

  lemma PlainNameEmits(name: string, rest: string)
    requires name != "" && NameLength(name) == |name| && Separated(Name(name), rest)
    ensures NextStep(name + rest) == Emit(|name|)
  {
    var s := name + rest;
    NameRunStops(name, rest);
    NoHash(name, rest);
    var p := RawPrefix(s);
    assert p <= 2;
    if 0 < p < |s| {
      assert s[p..][0] == s[p];
    }
    NoLiteral(s);
  }

  lemma NameEmits(name: string, rest: string)
    requires IsIdentifier(name) && Separated(Name(name), rest)
    ensures NextStep(name + rest) == Emit(|name|)
  {
    if RawNameLength(name) == |name| {
      RawNameEmits(name, rest);
    } else {
      PlainNameEmits(name, rest);
    }
  }

  /** No hash or quote follows a raw-string prefix of a plain name. */
  lemma NoHash(name: string, rest: string)
    requires name != "" && NameLength(name) == |name| && Separated(Name(name), rest)
    ensures var s := name + rest;
      forall p :: 0 < p <= 2 && p <= |name| && p < |s| ==> s[p] != '#' && s[p] != '\"' && s[p] != '\''
    ensures |name| == 1 && rest != "" ==> RawPrefix(name + rest) <= 1
  {
    var s := name + rest;
    forall p | 0 < p <= 2 && p <= |name| && p < |s|
      ensures s[p] != '#' && s[p] != '\"' && s[p] != '\''
    {
      if p < |name| {
        assert s[p] == name[p] && IsNameChar(name[p]);
      } else {
        assert s[p] == rest[0];
      }
    }
    assert |name| == 1 && rest != "" ==> s[1] == rest[0];
  }

  lemma PunctEmits(c: char, rest: string)
    requires LexemeOk(Punct(c)) && Separated(Punct(c), rest)
    ensures NextStep([c] + rest) == Emit(1)
  {
    var s := [c] + rest;
    assert rest != "" ==> s[1] == rest[0];
  }

  lemma QuoteEmits(name: string, rest: string)
    requires IsIdentifier(name) && Separated(Lifetime(name), rest)
    ensures NextStep("'" + name + rest) == Emit(1)
  {
    NoCharacter(name, rest);
    hide IsIdentifier, Separated, CharSpan, NextStep;
    assert "'" + name + rest == ['\''] + (name + rest);
    QuoteAlone(name + rest);
  }

  lemma NoCharacter(name: string, rest: string)
    requires IsIdentifier(name) && Separated(Lifetime(name), rest)
    ensures CharSpan(name + rest).Absent?
  {
    hide Find;
    var s := name + rest;
    assert s[0] == name[0] && (|s| > 1 ==> s[1] == (if |name| > 1 then name[1] else rest[0]));
    if RawNameLength(name) == |name| {
      assert name[1] == '#';
    } else {
      assert |name| > 1 ==> IsNameChar(name[1]);
    }
  }

  /** A quote that opens no character literal is a token of its own. */
  lemma QuoteAlone(rest: string)
    requires CharSpan(rest).Absent?
    ensures NextStep(['\''] + rest) == Emit(1)
  {
    hide QuotedSpan, CommentSpan, CharSpan, Find;
    var s := ['\''] + rest;
    assert s[0] == '\'' && s[1..] == rest;
  }

  lemma LexEmits(token: string, rest: string)
    requires token != "" && NextStep(token + rest) == Emit(|token|)
    ensures Lex(token + rest) == Before([token], Lex(rest))
  {
    assert (token + rest)[|token|..] == rest && (token + rest)[..|token|] == token;
  }

  lemma LexemeLexes(x: Lexeme, rest: string)
    requires LexemeOk(x) && Separated(x, rest)
    ensures Lex(LexemeText(x) + rest) == Before(LexemeTokens(x), Lex(rest))
  {
    match x
    case Name(text) =>
      NameEmits(text, rest);
      LexEmits(text, rest);
    case Punct(c) =>
      PunctEmits(c, rest);
      LexEmits([c], rest);
    case Lifetime(name) =>
      QuoteEmits(name, rest);
      assert LexemeText(x) + rest == "'" + (name + rest) == "'" + name + rest;
      LexEmits("'", name + rest);
      NameEmits(name, rest);
      LexEmits(name, rest);
      BeforeBoth(["'"], [name], Lex(rest));
      assert ["'"] + [name] == LexemeTokens(x);
  }

  // ---------------------------------------------------------------- the theorem

  /** Lexing undoes printing. */
  lemma {:induction false} LexUndoesPrint(items: seq<Item>)
    requires LayoutOk(items)
    ensures Lex(PrintSource(items)) == Ok(WordTokens(items))
  {
    hide NextStep, PieceText, PieceOk, LexemeText, LexemeOk, Separated;
    if items == [] {
    } else {
      var rest := PrintSource(items[1..]);
      LexUndoesPrint(items[1..]);
      if items[0].Trivia? {
        var text := PieceText(items[0].piece);
        PieceSkips(items[0].piece, rest);
        assert (text + rest)[|text|..] == rest;
        assert [] + WordTokens(items[1..]) == WordTokens(items[1..]);
      } else {
        LexemeLexes(items[0].lexeme, rest);
      }
    }
  }
}
