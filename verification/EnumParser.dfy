/**
 Enum discovery and variant counting over a token stream, from
 scripts/check-recovery-state-budget.py. The functions say what each loop computes on a suffix
 of the stream; the methods are the program's loops.
 */
module EnumParser {
  import opened Text
  import opened RustLexer

  type Tokens = seq<string>

  datatype ParseError =
    | Unlexable(cause: LexError)
    | NoBody
    | UnterminatedBody
    | MalformedAttribute
    | UnterminatedAttribute
    | ExplicitDiscriminant
    | UnrecognizedVariant

  type Parsed<T> = Result<T, ParseError>

  /** The token is this one character. */
  predicate Is(t: string, c: char) {
    |t| == 1 && t[0] == c
  }

  // ---------------------------------------------------------------- finding the body

  /** Bracket counters; closers without an opener are ignored. */
  datatype Depth = Depth(a: nat, b: nat, c: nat) {
    predicate Zero() { a == 0 && b == 0 && c == 0 }

    /** The counters after `t`, `a`, `b` and `c` counting the three given bracket pairs. */
    function Count(t: string, a0: char, a1: char, b0: char, b1: char, c0: char, c1: char): Depth {
      if Is(t, a0) then this.(a := a + 1)
      else if Is(t, a1) && a > 0 then this.(a := a - 1)
      else if Is(t, b0) then this.(b := b + 1)
      else if Is(t, b1) && b > 0 then this.(b := b - 1)
      else if Is(t, c0) then this.(c := c + 1)
      else if Is(t, c1) && c > 0 then this.(c := c - 1)
      else this
    }

    function Head(t: string): Depth { Count(t, '<', '>', '(', ')', '[', ']') }

    function Body(t: string): Depth { Count(t, '{', '}', '(', ')', '[', ']') }
  }

  const FLAT := Depth(0, 0, 0)

  function More(n: nat, r: Parsed<nat>): Parsed<nat> {
    if r.Ok? then Ok(n + r.value) else r
  }

  /** `_enum_body_start`, counted from just after the name. */
  function HeadLength(ts: Tokens, d: Depth): (r: Parsed<nat>)
    ensures r.Ok? ==> r.value < |ts|
  {
    if ts == [] then Err(NoBody)
    else if d.Zero() && Is(ts[0], '{') then Ok(0)
    else if d.Zero() && Is(ts[0], ';') then Err(NoBody)
    else More(1, HeadLength(ts[1..], d.Head(ts[0])))
  }

  lemma {:induction false} HeadEndsAtBrace(ts: Tokens, d: Depth)
    ensures var r := HeadLength(ts, d); r.Ok? ==> Is(ts[r.value], '{')
  {
    if ts == [] || (d.Zero() && (Is(ts[0], '{') || Is(ts[0], ';'))) {
    } else {
      HeadEndsAtBrace(ts[1..], d.Head(ts[0]));
    }
  }

  /** `_matching_brace`: how many tokens up to and including the brace that closes `depth` levels. */
  function BraceLength(ts: Tokens, depth: nat): (r: Parsed<nat>)
    requires depth > 0
    ensures r.Ok? ==> 1 <= r.value <= |ts|
  {
    if ts == [] then Err(UnterminatedBody)
    else if Is(ts[0], '{') then More(1, BraceLength(ts[1..], depth + 1))
    else if Is(ts[0], '}') then
      if depth == 1 then Ok(1) else More(1, BraceLength(ts[1..], depth - 1))
    else More(1, BraceLength(ts[1..], depth))
  }

  // ---------------------------------------------------------------- counting variants

  /** How many tokens until the square brackets are balanced again. */
  function SquareLength(ts: Tokens, depth: nat): (r: Parsed<nat>)
    ensures r.Ok? ==> r.value <= |ts|
  {
    if depth == 0 then Ok(0)
    else if ts == [] then Err(UnterminatedAttribute)
    else if Is(ts[0], '[') then More(1, SquareLength(ts[1..], depth + 1))
    else if Is(ts[0], ']') then More(1, SquareLength(ts[1..], depth - 1))
    else More(1, SquareLength(ts[1..], depth))
  }

  /** `_strip_outer_attributes`. */
  function Strip(segment: Tokens): Parsed<Tokens>
    decreases |segment|
  {
    if segment == [] || !Is(segment[0], '#') then Ok(segment)
    else
      var k := if |segment| > 1 && Is(segment[1], '!') then 2 else 1;
      if k >= |segment| || !Is(segment[k], '[') then Err(MalformedAttribute)
      else
        var n := SquareLength(segment[k + 1..], 1);
        if n.Err? then Err(n.error) else Strip(segment[k + 1 + n.value..])
  }

  /** The comma-separated segments of a body, `current` being the one under way. */
  function Segments(body: Tokens, current: Tokens, d: Depth): Parsed<seq<Tokens>>
    decreases |body|
  {
    if body == [] then Ok(if current == [] then [] else [current])
    else if d.Zero() && Is(body[0], '=') then Err(ExplicitDiscriminant)
    else if d.Zero() && Is(body[0], ',') then
      var rest := Segments(body[1..], [], d);
      if rest.Ok? then Ok([current] + rest.value) else rest
    else Segments(body[1..], current + [body[0]], d.Body(body[0]))
  }

  function CountSegments(segments: seq<Tokens>): Parsed<nat> {
    if segments == [] then Ok(0)
    else
      var candidate := Strip(segments[0]);
      if candidate.Err? then Err(candidate.error)
      else if candidate.value == [] then CountSegments(segments[1..])
      else if !IsIdentifier(candidate.value[0]) then Err(UnrecognizedVariant)
      else More(1, CountSegments(segments[1..]))
  }

  function VariantCount(body: Tokens): Parsed<nat> {
    var segments := Segments(body, [], FLAT);
    if segments.Ok? then CountSegments(segments.value) else Err(segments.error)
  }

  // ---------------------------------------------------------------- whole token streams

  function BareName(t: string): string {
    if |t| >= 2 && t[..2] == "r#" then t[2..] else t
  }

  /** Where the braces of the enum whose name is `ts[1]` lie: (opening, one past closing). */
  function Extent(ts: Tokens): (r: Parsed<(nat, nat)>)
    requires |ts| >= 2
    ensures r.Ok? ==> 2 <= r.value.0 < r.value.1 - 1 < |ts| && r.value.1 <= |ts|
  {
    var head := HeadLength(ts[2..], FLAT);
    if head.Err? then Err(head.error)
    else
      var opening := 2 + head.value;
      var body := BraceLength(ts[opening + 1..], 1);
      if body.Err? then Err(body.error) else Ok((opening, opening + 1 + body.value))
  }

  predicate Declares(ts: Tokens) {
    |ts| >= 2 && ts[0] == "enum" && IsIdentifier(ts[1])
  }

  type Counted = seq<(string, nat)>

  /** `parse_enums` on tokens. */
  function ParseTokens(ts: Tokens): Parsed<Counted>
    decreases |ts|
  {
    if ts == [] then Ok([])
    else if !Declares(ts) then ParseTokens(ts[1..])
    else
      var at := Extent(ts);
      if at.Err? then Err(at.error)
      else
        var count := VariantCount(ts[at.value.0 + 1..at.value.1 - 1]);
        if count.Err? then Err(count.error)
        else
          var rest := ParseTokens(ts[at.value.1..]);
          if rest.Err? then rest else Ok([(BareName(ts[1]), count.value)] + rest.value)
  }

  /** `discover_enum_names` on tokens. */
  function DiscoverTokens(ts: Tokens): Parsed<seq<string>>
    decreases |ts|
  {
    if ts == [] then Ok([])
    else if !Declares(ts) then DiscoverTokens(ts[1..])
    else
      var at := Extent(ts);
      if at.Err? then Err(at.error)
      else
        var rest := DiscoverTokens(ts[at.value.1..]);
        if rest.Err? then rest else Ok([BareName(ts[1])] + rest.value)
  }

  function ParseEnums(source: string): Parsed<Counted> {
    var ts := Lex(source);
    if ts.Ok? then ParseTokens(ts.value) else Err(Unlexable(ts.error))
  }

  function DiscoverNames(source: string): Parsed<seq<string>> {
    var ts := Lex(source);
    if ts.Ok? then DiscoverTokens(ts.value) else Err(Unlexable(ts.error))
  }

  function Names(enums: Counted): seq<string> {
    seq(|enums|, i requires 0 <= i < |enums| => enums[i].0)
  }

  lemma {:induction false} NamesAgreeOnTokens(ts: Tokens)
    ensures ParseTokens(ts).Ok? ==> DiscoverTokens(ts) == Ok(Names(ParseTokens(ts).value))
    ensures DiscoverTokens(ts).Err? ==> ParseTokens(ts).Err?
    decreases |ts|
  {
    if ts == [] {
      assert Names([]) == [];
    } else if !Declares(ts) {
      NamesAgreeOnTokens(ts[1..]);
    } else if Extent(ts).Ok? {
      var tail := ts[Extent(ts).value.1..];
      NamesAgreeOnTokens(tail);
      if ParseTokens(ts).Ok? {
        var enums := ParseTokens(ts).value;
        assert enums[1..] == ParseTokens(tail).value;
        assert Names(enums) == [enums[0].0] + Names(enums[1..]);
      }
    }
  }

  /** Whenever `parse_enums` succeeds, discovery finds the same names in the same order. */
  lemma NamesAgree(source: string)
    ensures ParseEnums(source).Ok? ==> DiscoverNames(source) == Ok(Names(ParseEnums(source).value))
    ensures DiscoverNames(source).Err? ==> ParseEnums(source).Err?
  {
    if Lex(source).Ok? {
      NamesAgreeOnTokens(Lex(source).value);
    }
  }

  // ---------------------------------------------------------------- the program

  method EnumBodyStart(tokens: Tokens, nameIndex: nat) returns (r: Parsed<nat>)
    requires nameIndex < |tokens|
    ensures r == More(nameIndex + 1, HeadLength(tokens[nameIndex + 1..], FLAT))
  {
    var d := FLAT;
    for index := nameIndex + 1 to |tokens|
      invariant More(index, HeadLength(tokens[index..], d))
             == More(nameIndex + 1, HeadLength(tokens[nameIndex + 1..], FLAT))
    {
      var token := tokens[index];
      assert tokens[index..][1..] == tokens[index + 1..];
      if Is(token, '{') && d.Zero() {
        return Ok(index);
      } else if Is(token, ';') && d.Zero() {
        return Err(NoBody);
      }
      d := d.Head(token);
    }
    return Err(NoBody);
  }

  method MatchingBrace(tokens: Tokens, opening: nat) returns (r: Parsed<nat>)
    requires opening < |tokens| && Is(tokens[opening], '{')
    ensures r == More(opening, BraceLength(tokens[opening + 1..], 1))
    ensures r.Ok? ==> opening < r.value < |tokens|
  {
    var depth: nat := 0;
    for index := opening to |tokens|
      invariant depth == 0 <==> index == opening
      invariant index > opening ==>
        More(index - 1, BraceLength(tokens[index..], depth))
          == More(opening, BraceLength(tokens[opening + 1..], 1))
    {
      assert tokens[index..][1..] == tokens[index + 1..];
      assert index == opening ==> Is(tokens[index], '{');
      if Is(tokens[index], '{') {
        depth := depth + 1;
      } else if Is(tokens[index], '}') {
        depth := depth - 1;
        if depth == 0 {
          return Ok(index);
        }
      }
    }
    return Err(UnterminatedBody);
  }

  /** The inner loop of `_strip_outer_attributes`. */
  method SkipSquare(segment: Tokens, start: nat) returns (r: Parsed<nat>)
    requires start <= |segment|
    ensures r == More(start, SquareLength(segment[start..], 1))
  {
    var cursor, depth := start, 1;
    while cursor < |segment| && depth > 0
      invariant start <= cursor <= |segment|
      invariant More(cursor, SquareLength(segment[cursor..], depth))
             == More(start, SquareLength(segment[start..], 1))
    {
      assert segment[cursor..][1..] == segment[cursor + 1..];
      if Is(segment[cursor], '[') {
        depth := depth + 1;
      } else if Is(segment[cursor], ']') {
        depth := depth - 1;
      }
      cursor := cursor + 1;
    }
    return if depth > 0 then Err(UnterminatedAttribute) else Ok(cursor);
  }

  lemma StripEnds(segment: Tokens)
    requires segment == [] || !Is(segment[0], '#')
    ensures Strip(segment) == Ok(segment)
  {
  }

  /** An attribute at `cursor`, whose bracket would be after `k` tokens. */
  lemma StripReads(segment: Tokens, cursor: nat, k: nat)
    requires cursor < |segment| && Is(segment[cursor], '#')
    requires k == if cursor + 1 < |segment| && Is(segment[cursor + 1], '!') then 2 else 1
    ensures Strip(segment[cursor..]) ==
      if cursor + k >= |segment| || !Is(segment[cursor + k], '[') then Err(MalformedAttribute)
      else
        var n := SquareLength(segment[cursor + k + 1..], 1);
        if n.Err? then Err(n.error) else Strip(segment[cursor + k + 1 + n.value..])
  {
    hide Is, SquareLength;
    var s := segment[cursor..];
    assert s[0] == segment[cursor] && (cursor + 1 < |segment| ==> s[1] == segment[cursor + 1]);
    if cursor + k < |segment| {
      assert s[k] == segment[cursor + k] && s[k + 1..] == segment[cursor + k + 1..];
      var n := SquareLength(s[k + 1..], 1);
      if n.Ok? {
        assert s[k + 1 + n.value..] == segment[cursor + k + 1 + n.value..];
      }
    }
  }

  method StripOuterAttributes(segment: Tokens) returns (r: Parsed<Tokens>)
    ensures r == Strip(segment)
  {
    hide SquareLength, Strip, Is;
    var cursor := 0;
    assert segment[0..] == segment;
    while cursor < |segment| && Is(segment[cursor], '#')
      invariant cursor <= |segment| && Strip(segment[cursor..]) == Strip(segment)
    {
      var k := 1;
      if cursor + k < |segment| && Is(segment[cursor + k], '!') {
        k := k + 1;
      }
      StripReads(segment, cursor, k);
      if cursor + k >= |segment| || !Is(segment[cursor + k], '[') {
        return Err(MalformedAttribute);
      }
      var end := SkipSquare(segment, cursor + k + 1);
      if end.Err? {
        return Err(end.error);
      }
      cursor := end.value;
    }
    StripEnds(segment[cursor..]);
    return Ok(segment[cursor..]);
  }

  /** The first loop of `_variant_count`. */
  method SplitSegments(body: Tokens) returns (r: Parsed<seq<Tokens>>)
    ensures r == Segments(body, [], FLAT)
  {
    var segments: seq<Tokens> := [];
    var segment: Tokens := [];
    var d := FLAT;
    assert body[0..] == body;
    JoinNothing(Segments(body, [], FLAT));
    for index := 0 to |body|
      invariant Join(segments, Segments(body[index..], segment, d)) == Segments(body, [], FLAT)
    {
      var token := body[index];
      assert body[index..][1..] == body[index + 1..];
      if Is(token, '=') && d.Zero() {
        return Err(ExplicitDiscriminant);
      }
      if Is(token, ',') && d.Zero() {
        JoinBoth(segments, [segment], Segments(body[index + 1..], [], d));
        segments := segments + [segment];
        segment := [];
      } else {
        segment := segment + [token];
        d := d.Body(token);
      }
    }
    assert body[|body|..] == [];
    assert segments + [] == segments;
    return Ok(if segment != [] then segments + [segment] else segments);
  }

  /** `_variant_count`. */
  method CountVariants(body: Tokens) returns (r: Parsed<nat>)
    ensures r == VariantCount(body)
  {
    hide Segments, Strip, IsIdentifier;
    var split := SplitSegments(body);
    if split.Err? {
      return Err(split.error);
    }
    var segments := split.value;
    var count := 0;
    assert segments[0..] == segments;
    for index := 0 to |segments|
      invariant More(count, CountSegments(segments[index..])) == CountSegments(segments)
    {
      assert segments[index..][1..] == segments[index + 1..];
      var candidate := StripOuterAttributes(segments[index]);
      if candidate.Err? {
        return Err(candidate.error);
      }
      if candidate.value != [] {
        if !IsIdentifier(candidate.value[0]) {
          return Err(UnrecognizedVariant);
        }
        count := count + 1;
      }
    }
    return Ok(count);
  }

  function Join(done: seq<Tokens>, rest: Parsed<seq<Tokens>>): Parsed<seq<Tokens>> {
    if rest.Ok? then Ok(done + rest.value) else rest
  }

  lemma JoinNothing(rest: Parsed<seq<Tokens>>)
    ensures Join([], rest) == rest
  {
    if rest.Ok? {
      assert [] + rest.value == rest.value;
    }
  }

  lemma JoinBoth(a: seq<Tokens>, b: seq<Tokens>, rest: Parsed<seq<Tokens>>)
    ensures Join(a, Join(b, rest)) == Join(a + b, rest)
  {
    if rest.Ok? {
      assert a + (b + rest.value) == a + b + rest.value;
    }
  }

  function Append(done: Counted, rest: Parsed<Counted>): Parsed<Counted> {
    if rest.Ok? then Ok(done + rest.value) else rest
  }

  /** Where the enum declared at `cursor` has its braces. */
  method FindExtent(tokens: Tokens, cursor: nat) returns (r: Parsed<(nat, nat)>)
    requires cursor + 2 <= |tokens|
    ensures r == (var at := Extent(tokens[cursor..]);
                  if at.Ok? then Ok((cursor + at.value.0, cursor + at.value.1)) else Err(at.error))
  {
    ghost var ts := tokens[cursor..];
    assert ts[2..] == tokens[cursor + 2..];
    var opening := EnumBodyStart(tokens, cursor + 1);
    if opening.Err? {
      return Err(opening.error);
    }
    HeadEndsAtBrace(ts[2..], FLAT);
    assert ts[opening.value - cursor + 1..] == tokens[opening.value + 1..];
    var closing := MatchingBrace(tokens, opening.value);
    if closing.Err? {
      return Err(closing.error);
    }
    return Ok((opening.value, closing.value + 1));
  }

  /** Read the enum declared at `cursor`: its entry and where to go on. */
  method ReadEnum(tokens: Tokens, cursor: nat) returns (r: Parsed<((string, nat), nat)>)
    requires cursor < |tokens| && Declares(tokens[cursor..])
    ensures r.Ok? ==> cursor < r.value.1 <= |tokens|
    ensures r.Ok? ==> ParseTokens(tokens[cursor..]) == Append([r.value.0], ParseTokens(tokens[r.value.1..]))
    ensures r.Err? ==> ParseTokens(tokens[cursor..]) == Err(r.error)
  {
    ghost var ts := tokens[cursor..];
    var at := FindExtent(tokens, cursor);
    if at.Err? {
      return Err(at.error);
    }
    var opening, end := at.value.0, at.value.1;
    assert ts[opening - cursor + 1..end - cursor - 1] == tokens[opening + 1..end - 1];
    assert ts[end - cursor..] == tokens[end..];
    var count := CountVariants(tokens[opening + 1..end - 1]);
    if count.Err? {
      return Err(count.error);
    }
    return Ok(((BareName(tokens[cursor + 1]), count.value), end));
  }

  lemma AppendBoth(a: Counted, b: Counted, rest: Parsed<Counted>)
    ensures Append(a, Append(b, rest)) == Append(a + b, rest)
  {
    if rest.Ok? {
      assert a + (b + rest.value) == a + b + rest.value;
    }
  }

  /** `parse_enums`. */
  method ParseSource(source: string) returns (r: Parsed<Counted>)
    ensures r == ParseEnums(source)
  {
    var lexed := RustTokens(source);
    if lexed.Err? {
      return Err(Unlexable(lexed.error));
    }
    hide IsIdentifier, Extent, BareName, VariantCount;
    var tokens := lexed.value;
    var enums: Counted := [];
    var cursor := 0;
    assert tokens[0..] == tokens;
    assert ParseTokens(tokens).Ok? ==> [] + ParseTokens(tokens).value == ParseTokens(tokens).value;
    while cursor < |tokens|
      invariant cursor <= |tokens|
      invariant Append(enums, ParseTokens(tokens[cursor..])) == ParseTokens(tokens)
    {
      assert tokens[cursor..][1..] == tokens[cursor + 1..];
      var nameIndex := cursor + 1;
      if tokens[cursor] != "enum" || nameIndex >= |tokens| || !IsIdentifier(tokens[nameIndex]) {
        cursor := cursor + 1;
        continue;
      }
      var found := ReadEnum(tokens, cursor);
      if found.Err? {
        return Err(found.error);
      }
      AppendBoth(enums, [found.value.0], ParseTokens(tokens[found.value.1..]));
      enums := enums + [found.value.0];
      cursor := found.value.1;
    }
    assert enums + [] == enums;
    return Ok(enums);
  }

  function AppendNames(done: seq<string>, rest: Parsed<seq<string>>): Parsed<seq<string>> {
    if rest.Ok? then Ok(done + rest.value) else rest
  }

  lemma AppendNamesBoth(a: seq<string>, b: seq<string>, rest: Parsed<seq<string>>)
    ensures AppendNames(a, AppendNames(b, rest)) == AppendNames(a + b, rest)
  {
    if rest.Ok? {
      assert a + (b + rest.value) == a + b + rest.value;
    }
  }

  lemma AppendNothing(names: seq<string>, rest: Parsed<seq<string>>)
    ensures AppendNames([], rest) == rest && AppendNames(names, Ok([])) == Ok(names)
    ensures rest.Err? ==> AppendNames(names, rest) == rest
  {
    assert rest.Ok? ==> [] + rest.value == rest.value;
    assert names + [] == names;
  }

  lemma DiscoverEnds(ts: Tokens)
    requires |ts| <= 1
    ensures DiscoverTokens(ts) == Ok([])
  {
  }

  lemma DiscoverPasses(tokens: Tokens, cursor: nat)
    requires cursor + 1 < |tokens| && (tokens[cursor] != "enum" || !IsIdentifier(tokens[cursor + 1]))
    ensures DiscoverTokens(tokens[cursor..]) == DiscoverTokens(tokens[cursor + 1..])
  {
    assert tokens[cursor..][1..] == tokens[cursor + 1..];
  }

  lemma DiscoverReads(tokens: Tokens, cursor: nat)
    requires cursor + 1 < |tokens| && tokens[cursor] == "enum" && IsIdentifier(tokens[cursor + 1])
    ensures var at := Extent(tokens[cursor..]);
      DiscoverTokens(tokens[cursor..]) ==
        if at.Err? then Err(at.error)
        else AppendNames([BareName(tokens[cursor + 1])], DiscoverTokens(tokens[cursor + at.value.1..]))
  {
    var ts, at := tokens[cursor..], Extent(tokens[cursor..]);
    assert Declares(ts);
    if at.Ok? {
      assert ts[at.value.1..] == tokens[cursor + at.value.1..];
    }
  }

  /** `discover_enum_names`. */
  method DiscoverSource(source: string) returns (r: Parsed<seq<string>>)
    ensures r == DiscoverNames(source)
  {
    var lexed := RustTokens(source);
    if lexed.Err? {
      return Err(Unlexable(lexed.error));
    }
    r := DiscoverIn(lexed.value);
  }

  method DiscoverIn(tokens: Tokens) returns (r: Parsed<seq<string>>)
    ensures r == DiscoverTokens(tokens)
  {
    hide IsIdentifier, Extent, BareName, DiscoverTokens, AppendNames;
    var names: seq<string> := [];
    var cursor := 0;
    assert tokens[0..] == tokens;
    AppendNothing(names, DiscoverTokens(tokens));
    while cursor + 1 < |tokens|
      invariant cursor <= |tokens|
      invariant AppendNames(names, DiscoverTokens(tokens[cursor..])) == DiscoverTokens(tokens)
    {
      if tokens[cursor] != "enum" || !IsIdentifier(tokens[cursor + 1]) {
        DiscoverPasses(tokens, cursor);
        cursor := cursor + 1;
        continue;
      }
      DiscoverReads(tokens, cursor);
      AppendNothing(names, DiscoverTokens(tokens[cursor..]));
      var at := FindExtent(tokens, cursor);
      if at.Err? {
        return Err(at.error);
      }
      var name := BareName(tokens[cursor + 1]);
      AppendNamesBoth(names, [name], DiscoverTokens(tokens[at.value.1..]));
      names := names + [name];
      cursor := at.value.1;
    }
    DiscoverEnds(tokens[cursor..]);
    AppendNothing(names, DiscoverTokens(tokens));
    return Ok(names);
  }
}
