/**
 A printer for files of enum declarations, and the theorem that `parse_enums` reads each one
 back with its name and exact variant count, rejecting exactly the enums with an explicit
 discriminant. `SourceReadsBack` carries the result through the lexer to source texts.
 */
module EnumPrinter {
  import opened Text
  import opened RustLexer
  import opened RustPrinter
  import opened EnumParser

  // ---------------------------------------------------------------- bracketed tokens

  datatype Bracket = Curly | Round | Square | Angle

  function Opener(b: Bracket): string {
    [match b case Curly => '{' case Round => '(' case Square => '[' case Angle => '<']
  }

  function Closer(b: Bracket): string {
    [match b case Curly => '}' case Round => ')' case Square => ']' case Angle => '>']
  }

  /** A run of tokens in which brackets balance. */
  datatype Tree =
    | End
    | Leaf(token: string, rest: Tree)
    | Group(bracket: Bracket, inner: Tree, rest: Tree)

  function Flat(t: Tree): Tokens {
    match t
    case End => []
    case Leaf(token, rest) => [token] + Flat(rest)
    case Group(b, inner, rest) => [Opener(b)] + Flat(inner) + [Closer(b)] + Flat(rest)
  }

  predicate IsCurlyRoundSquare(t: string) {
    Is(t, '{') || Is(t, '}') || Is(t, '(') || Is(t, ')') || Is(t, '[') || Is(t, ']')
  }

  /** In a body, angle brackets are ordinary tokens: only the other three kinds must balance. */
  predicate PayloadOk(t: Tree) {
    match t
    case End => true
    case Leaf(token, rest) => !IsCurlyRoundSquare(token) && PayloadOk(rest)
    case Group(b, inner, rest) => b != Angle && PayloadOk(inner) && PayloadOk(rest)
  }

  /** No comma or equals sign outside every group (`equals` allows the latter). */
  predicate OneSegment(t: Tree, equals: bool) {
    match t
    case End => true
    case Leaf(token, rest) => !Is(token, ',') && (equals || !Is(token, '=')) && OneSegment(rest, equals)
    case Group(_, _, rest) => OneSegment(rest, equals)
  }

  /**
   Between an enum's name and its body, angle, round and square brackets must balance. Outside
   all of them there may be no brace and no semicolon; inside them these are ordinary tokens.
   A `>` without its opener (as in `->`) is harmless unless an angle bracket is open.
   */
  predicate HeadOk(t: Tree, inside: bool, angled: bool) {
    match t
    case End => true
    case Leaf(token, rest) =>
      && !Is(token, '<') && !Is(token, '(') && !Is(token, ')') && !Is(token, '[') && !Is(token, ']')
      && (angled ==> !Is(token, '>'))
      && (!inside ==> !Is(token, '{') && !Is(token, '}') && !Is(token, ';'))
      && HeadOk(rest, inside, angled)
    case Group(b, inner, rest) =>
      b != Curly && HeadOk(inner, true, angled || b == Angle) && HeadOk(rest, inside, angled)
  }

  // ---------------------------------------------------------------- files of enums

  datatype Attribute = Attribute(bang: bool, body: Tree)

  /** `attributes name payload [= discriminant]`. */
  datatype Variant = Variant(attributes: seq<Attribute>, name: string, payload: Tree, discriminant: Option<Tree>)

  /**
   `name` is the bare name, written behind `r#` if `raw`. `variants` are the comma-separated
   segments; `None` is an empty one (a trailing comma).
   */
  datatype Declaration = Declaration(name: string, raw: bool, head: Tree, variants: seq<Option<Variant>>)

  /** Anything else: a token other than `enum`, or `enum` before something not an identifier. */
  datatype FileItem = Other(token: string) | Decoy(next: string) | Enum(decl: Declaration)

  /** One tree after another. */
  function Then(t: Tree, rest: Tree): Tree {
    match t
    case End => rest
    case Leaf(token, more) => Leaf(token, Then(more, rest))
    case Group(b, inner, more) => Group(b, inner, Then(more, rest))
  }

  function AttributesTree(attributes: seq<Attribute>, rest: Tree): Tree {
    if attributes == [] then rest
    else
      var more := Group(Square, attributes[0].body, AttributesTree(attributes[1..], rest));
      Leaf("#", if attributes[0].bang then Leaf("!", more) else more)
  }

  function FrontTree(v: Variant): Tree {
    AttributesTree(v.attributes, Leaf(v.name, v.payload))
  }

  function SegmentTree(s: Option<Variant>): Tree {
    match s
    case None => End
    case Some(v) =>
      if v.discriminant.Some? then Then(FrontTree(v), Leaf("=", v.discriminant.value)) else FrontTree(v)
  }

  function BodyTree(variants: seq<Option<Variant>>): Tree {
    if variants == [] then End
    else if |variants| == 1 then SegmentTree(variants[0])
    else Then(SegmentTree(variants[0]), Leaf(",", BodyTree(variants[1..])))
  }

  function NameToken(d: Declaration): string {
    if d.raw then "r#" + d.name else d.name
  }

  function DeclarationTokens(d: Declaration): Tokens {
    ["enum", NameToken(d)] + Flat(d.head) + ["{"] + Flat(BodyTree(d.variants)) + ["}"]
  }

  predicate VariantOk(v: Variant) {
    && (forall a <- v.attributes :: PayloadOk(a.body))
    && IsIdentifier(v.name)
    && PayloadOk(v.payload) && OneSegment(v.payload, false)
    && (v.discriminant.Some? ==> PayloadOk(v.discriminant.value) && OneSegment(v.discriminant.value, true))
  }

  predicate BodyOk(variants: seq<Option<Variant>>) {
    forall s <- variants :: s.Some? ==> VariantOk(s.value)
  }

  predicate DeclarationOk(d: Declaration) {
    PlainName(d.name) && HeadOk(d.head, false, false) && BodyOk(d.variants)
  }

  predicate ItemFits(item: FileItem) {
    match item
    case Other(token) => token != "enum"
    case Decoy(next) => !IsIdentifier(next)
    case Enum(decl) => DeclarationOk(decl)
  }

  predicate FileOk(items: seq<FileItem>) {
    forall item <- items :: ItemFits(item)
  }

  function ItemTokens(item: FileItem): Tokens {
    match item
    case Other(token) => [token]
    case Decoy(next) => ["enum", next]
    case Enum(decl) => DeclarationTokens(decl)
  }

  function FileTokens(items: seq<FileItem>): Tokens {
    if items == [] then [] else ItemTokens(items[0]) + FileTokens(items[1..])
  }

  // ---------------------------------------------------------------- the expected reading

  function CountOf(variants: seq<Option<Variant>>): nat {
    if variants == [] then 0
    else (if variants[0].Some? then 1 else 0) + CountOf(variants[1..])
  }

  predicate Discriminated(variants: seq<Option<Variant>>) {
    exists s <- variants :: s.Some? && s.value.discriminant.Some?
  }

  /** The enum has an explicit discriminant, which the script refuses to count. */
  predicate Forbidden(item: FileItem) {
    item.Enum? && Discriminated(item.decl.variants)
  }

  predicate AnyForbidden(items: seq<FileItem>) {
    exists item <- items :: Forbidden(item)
  }

  function Entry(item: FileItem): Counted {
    if item.Enum? then [(item.decl.name, CountOf(item.decl.variants))] else []
  }

  function Inventory(items: seq<FileItem>): Counted {
    if items == [] then [] else Entry(items[0]) + Inventory(items[1..])
  }

  // ---------------------------------------------------------------- the head

  lemma FlatLeaf(token: string, rest: Tree, after: Tokens)
    ensures Flat(Leaf(token, rest)) + after == [token] + (Flat(rest) + after)
  {
  }

  lemma FlatGroup(b: Bracket, inner: Tree, rest: Tree, after: Tokens)
    ensures Flat(Group(b, inner, rest)) + after
         == [Opener(b)] + (Flat(inner) + ([Closer(b)] + (Flat(rest) + after)))
    ensures |Flat(Group(b, inner, rest))| == |Flat(inner)| + 2 + |Flat(rest)|
  {
  }

  lemma HeadStep(token: string, after: Tokens, d: Depth)
    requires d.Zero() ==> !Is(token, '{') && !Is(token, ';')
    ensures HeadLength([token] + after, d) == More(1, HeadLength(after, d.Head(token)))
  {
    assert ([token] + after)[1..] == after;
  }

  /** An opener of a head's group is counted, and its closer undoes that. */
  lemma HeadBracket(b: Bracket, d: Depth)
    requires b != Curly
    ensures !Is(Opener(b), '{') && !Is(Opener(b), ';')
    ensures var deep := d.Head(Opener(b));
      !deep.Zero() && deep.Head(Closer(b)) == d && (deep.a > 0 <==> d.a > 0 || b == Angle)
  {
    match b
    case Curly =>
    case Round =>
    case Square =>
    case Angle =>
  }

  lemma HeadLeaf(token: string, rest: Tree, d: Depth)
    requires HeadOk(Leaf(token, rest), !d.Zero(), d.a > 0)
    ensures d.Head(token) == d && (d.Zero() ==> !Is(token, '{') && !Is(token, ';'))
  {
  }

  /** A head leaves the bracket counters as it found them and contains no body start. */
  lemma {:induction false} HeadScans(t: Tree, after: Tokens, d: Depth)
    requires HeadOk(t, !d.Zero(), d.a > 0)
    ensures HeadLength(Flat(t) + after, d) == More(|Flat(t)|, HeadLength(after, d))
  {
    hide HeadLength, Depth.Count, Is;
    match t
    case End =>
      assert Flat(t) + after == after;
    case Leaf(token, rest) =>
      FlatLeaf(token, rest, after);
      HeadLeaf(token, rest, d);
      HeadStep(token, Flat(rest) + after, d);
      HeadScans(rest, after, d);
    case Group(b, inner, rest) =>
      var deep := d.Head(Opener(b));
      var tail := Flat(rest) + after;
      HeadBracket(b, d);
      HeadStep(Opener(b), Flat(inner) + ([Closer(b)] + tail), d);
      HeadScans(inner, [Closer(b)] + tail, deep);
      HeadStep(Closer(b), tail, deep);
      HeadScans(rest, after, d);
      FlatGroup(b, inner, rest, after);
  }

  // ---------------------------------------------------------------- braces and attributes

  lemma BraceStep(token: string, after: Tokens, depth: nat)
    requires depth > 0 && (Is(token, '}') ==> depth > 1)
    ensures BraceLength([token] + after, depth) == More(1, BraceLength(after,
      if Is(token, '{') then depth + 1 else if Is(token, '}') then depth - 1 else depth))
  {
    assert ([token] + after)[1..] == after;
  }

  lemma BraceGroup(b: Bracket, inner: Tokens, tail: Tokens, depth: nat)
    requires depth > 0 && b != Angle
    requires var deep := if b == Curly then depth + 1 else depth;
      BraceLength(inner + ([Closer(b)] + tail), deep) == More(|inner|, BraceLength([Closer(b)] + tail, deep))
    ensures BraceLength([Opener(b)] + (inner + ([Closer(b)] + tail)), depth)
         == More(|inner| + 2, BraceLength(tail, depth))
  {
    BraceStep(Opener(b), inner + ([Closer(b)] + tail), depth);
    BraceStep(Closer(b), tail, if b == Curly then depth + 1 else depth);
  }

  lemma {:induction false} BracesScan(t: Tree, after: Tokens, depth: nat)
    requires PayloadOk(t) && depth > 0
    ensures BraceLength(Flat(t) + after, depth) == More(|Flat(t)|, BraceLength(after, depth))
  {
    hide BraceLength;
    match t
    case End =>
      assert Flat(t) + after == after;
    case Leaf(token, rest) =>
      FlatLeaf(token, rest, after);
      BraceStep(token, Flat(rest) + after, depth);
      BracesScan(rest, after, depth);
    case Group(b, inner, rest) =>
      var deep := if b == Curly then depth + 1 else depth;
      BracesScan(inner, [Closer(b)] + (Flat(rest) + after), deep);
      FlatGroup(b, inner, rest, after);
      BraceGroup(b, Flat(inner), Flat(rest) + after, depth);
      BracesScan(rest, after, depth);
  }

  lemma SquareStep(token: string, after: Tokens, depth: nat)
    requires depth > 0
    ensures SquareLength([token] + after, depth) == More(1, SquareLength(after,
      if Is(token, '[') then depth + 1 else if Is(token, ']') then depth - 1 else depth))
  {
    assert ([token] + after)[1..] == after;
  }

  lemma SquareGroup(b: Bracket, inner: Tokens, tail: Tokens, depth: nat)
    requires depth > 0 && b != Angle
    requires var deep := if b == Square then depth + 1 else depth;
      SquareLength(inner + ([Closer(b)] + tail), deep) == More(|inner|, SquareLength([Closer(b)] + tail, deep))
    ensures SquareLength([Opener(b)] + (inner + ([Closer(b)] + tail)), depth)
         == More(|inner| + 2, SquareLength(tail, depth))
  {
    SquareStep(Opener(b), inner + ([Closer(b)] + tail), depth);
    SquareStep(Closer(b), tail, if b == Square then depth + 1 else depth);
  }

  lemma {:induction false} SquaresScan(t: Tree, after: Tokens, depth: nat)
    requires PayloadOk(t) && depth > 0
    ensures SquareLength(Flat(t) + after, depth) == More(|Flat(t)|, SquareLength(after, depth))
  {
    hide SquareLength;
    match t
    case End =>
      assert Flat(t) + after == after;
    case Leaf(token, rest) =>
      FlatLeaf(token, rest, after);
      SquareStep(token, Flat(rest) + after, depth);
      SquaresScan(rest, after, depth);
    case Group(b, inner, rest) =>
      var deep := if b == Square then depth + 1 else depth;
      SquaresScan(inner, [Closer(b)] + (Flat(rest) + after), deep);
      FlatGroup(b, inner, rest, after);
      SquareGroup(b, Flat(inner), Flat(rest) + after, depth);
      SquaresScan(rest, after, depth);
  }

  lemma StripStep(bang: bool, inside: Tokens, tail: Tokens)
    requires SquareLength(inside + tail, 1) == More(|inside|, SquareLength(tail, 1))
    requires tail != [] && Is(tail[0], ']')
    ensures Strip((if bang then ["#", "!"] else ["#"]) + (["["] + (inside + tail))) == Strip(tail[1..])
  {
    var k, n := if bang then 2 else 1, |inside| + 1;
    var ts := (if bang then ["#", "!"] else ["#"]) + (["["] + (inside + tail));
    SquareLast(inside, tail);
    assert ts[k + 1..] == inside + tail;
    assert ts[k + 1 + n..] == tail[1..];
    hide SquareLength, Strip;
    StripOne(ts, k, n);
  }

  lemma SquareLast(inside: Tokens, tail: Tokens)
    requires SquareLength(inside + tail, 1) == More(|inside|, SquareLength(tail, 1))
    requires tail != [] && Is(tail[0], ']')
    ensures SquareLength(inside + tail, 1) == Ok(|inside| + 1)
  {
    assert SquareLength(tail[1..], 0) == Ok(0);
  }

  lemma StripOne(ts: Tokens, k: nat, n: nat)
    requires 1 <= k <= 2 && |ts| > k + n && Is(ts[0], '#') && (k == 2 <==> Is(ts[1], '!')) && Is(ts[k], '[')
    requires SquareLength(ts[k + 1..], 1) == Ok(n)
    ensures Strip(ts) == Strip(ts[k + 1 + n..])
  {
    hide SquareLength;
  }

  lemma AttributeFlat(a: Attribute, more: seq<Attribute>, rest: Tree)
    ensures Flat(AttributesTree([a] + more, rest))
         == (if a.bang then ["#", "!"] else ["#"])
            + (["["] + (Flat(a.body) + (["]"] + Flat(AttributesTree(more, rest)))))
  {
    assert ([a] + more)[1..] == more;
    var g := Group(Square, a.body, AttributesTree(more, rest));
    assert Flat(g) == ["["] + (Flat(a.body) + (["]"] + Flat(AttributesTree(more, rest))));
    assert Flat(Leaf("!", g)) == ["!"] + Flat(g);
  }

  /** Attributes are stripped, whatever their contents. */
  lemma {:induction false} AttributesStrip(attributes: seq<Attribute>, rest: Tree)
    requires forall a <- attributes :: PayloadOk(a.body)
    requires Flat(rest) != [] && !Is(Flat(rest)[0], '#')
    ensures Strip(Flat(AttributesTree(attributes, rest))) == Ok(Flat(rest))
  {
    if attributes == [] {
    } else {
      var a, more := attributes[0], attributes[1..];
      assert a in attributes && attributes == [a] + more;
      var tail := ["]"] + Flat(AttributesTree(more, rest));
      AttributeFlat(a, more, rest);
      SquaresScan(a.body, tail, 1);
      StripStep(a.bang, Flat(a.body), tail);
      assert tail[1..] == Flat(AttributesTree(more, rest));
      AttributesStrip(more, rest);
    }
  }

  // ---------------------------------------------------------------- segments

  lemma SegmentStep(token: string, after: Tokens, current: Tokens, d: Depth)
    requires d.Zero() ==> !Is(token, ',') && !Is(token, '=')
    ensures Segments([token] + after, current, d) == Segments(after, current + [token], d.Body(token))
  {
    assert ([token] + after)[1..] == after;
  }

  lemma SegmentGroup(b: Bracket, inner: Tokens, tail: Tokens, current: Tokens, d: Depth)
    requires b != Angle
    requires var deep := d.Body(Opener(b));
      Segments(inner + ([Closer(b)] + tail), current + [Opener(b)], deep)
        == Segments([Closer(b)] + tail, current + [Opener(b)] + inner, deep)
    ensures Segments([Opener(b)] + (inner + ([Closer(b)] + tail)), current, d)
         == Segments(tail, current + [Opener(b)] + inner + [Closer(b)], d)
  {
    BodyBracket(b, d);
    SegmentStep(Opener(b), inner + ([Closer(b)] + tail), current, d);
    SegmentStep(Closer(b), tail, current + [Opener(b)] + inner, d.Body(Opener(b)));
  }

  lemma BodyBracket(b: Bracket, d: Depth)
    requires b != Angle
    ensures !Is(Opener(b), ',') && !Is(Opener(b), '=')
    ensures var deep := d.Body(Opener(b)); !deep.Zero() && deep.Body(Closer(b)) == d
  {
    match b
    case Curly =>
    case Round =>
    case Square =>
    case Angle =>
  }

  lemma LeafBody(token: string, d: Depth)
    requires !IsCurlyRoundSquare(token)
    ensures d.Body(token) == d
  {
  }

  /** Inside a group every token is kept; outside, so are all but commas and equals signs. */
  lemma {:induction false} SegmentScans(t: Tree, after: Tokens, current: Tokens, d: Depth)
    requires PayloadOk(t) && (d.Zero() ==> OneSegment(t, false))
    ensures Segments(Flat(t) + after, current, d) == Segments(after, current + Flat(t), d)
  {
    FlatJoins(t, current, after);
    hide Segments, Depth.Count, Is, Flat;
    match t
    case End =>
    case Leaf(token, rest) =>
      LeafBody(token, d);
      SegmentStep(token, Flat(rest) + after, current, d);
      SegmentScans(rest, after, current + [token], d);
    case Group(b, inner, rest) =>
      BodyBracket(b, d);
      SegmentScans(inner, [Closer(b)] + (Flat(rest) + after), current + [Opener(b)], d.Body(Opener(b)));
      SegmentGroup(b, Flat(inner), Flat(rest) + after, current, d);
      SegmentScans(rest, after, current + [Opener(b)] + Flat(inner) + [Closer(b)], d);
  }

  /** The printed tree before `after` and behind `current`, regrouped. */
  lemma FlatJoins(t: Tree, current: Tokens, after: Tokens)
    ensures match t
      case End => Flat(t) + after == after && current + Flat(t) == current
      case Leaf(token, rest) =>
        Flat(t) + after == [token] + (Flat(rest) + after) && current + Flat(t) == current + [token] + Flat(rest)
      case Group(b, inner, rest) =>
        && Flat(t) + after == [Opener(b)] + (Flat(inner) + ([Closer(b)] + (Flat(rest) + after)))
        && current + Flat(t) == current + [Opener(b)] + Flat(inner) + [Closer(b)] + Flat(rest)
  {
    match t
    case End =>
    case Leaf(token, rest) => FlatLeaf(token, rest, after);
    case Group(b, inner, rest) => FlatGroup(b, inner, rest, after);
  }

  // ---------------------------------------------------------------- bodies

  /** An identifier is no bracket, comma, equals sign or hash. */
  lemma IdentifierIsPlain(t: string)
    requires IsIdentifier(t)
    ensures !IsCurlyRoundSquare(t) && !Is(t, ',') && !Is(t, '=') && !Is(t, '#')
  {
    assert IsNameStart(t[0]);
  }

  lemma {:induction false} ThenFlat(t: Tree, rest: Tree)
    ensures Flat(Then(t, rest)) == Flat(t) + Flat(rest)
    ensures PayloadOk(t) && PayloadOk(rest) ==> PayloadOk(Then(t, rest))
  {
    match t
    case End =>
    case Leaf(_, more) => ThenFlat(more, rest);
    case Group(_, _, more) => ThenFlat(more, rest);
  }

  lemma {:induction false} AttributesOk(attributes: seq<Attribute>, rest: Tree)
    requires forall a <- attributes :: PayloadOk(a.body)
    requires PayloadOk(rest) && OneSegment(rest, false)
    ensures var t := AttributesTree(attributes, rest); PayloadOk(t) && OneSegment(t, false)
  {
    if attributes == [] {
    } else {
      assert attributes[0] in attributes;
      AttributesOk(attributes[1..], rest);
    }
  }

  lemma SegmentOk(s: Option<Variant>)
    requires s.Some? ==> VariantOk(s.value)
    ensures PayloadOk(SegmentTree(s))
    ensures s.Some? ==> PayloadOk(FrontTree(s.value)) && OneSegment(FrontTree(s.value), false)
    ensures s.Some? ==> Strip(Flat(FrontTree(s.value))) == Ok([s.value.name] + Flat(s.value.payload))
  {
    if s.Some? {
      var v := s.value;
      IdentifierIsPlain(v.name);
      AttributesOk(v.attributes, Leaf(v.name, v.payload));
      AttributesStrip(v.attributes, Leaf(v.name, v.payload));
      if v.discriminant.Some? {
        ThenFlat(FrontTree(v), Leaf("=", v.discriminant.value));
      }
    }
  }

  lemma {:induction false} BodyBalances(variants: seq<Option<Variant>>)
    requires BodyOk(variants)
    ensures PayloadOk(BodyTree(variants))
  {
    if variants == [] {
    } else {
      assert variants[0] in variants;
      SegmentOk(variants[0]);
      BodyBalances(variants[1..]);
      if |variants| > 1 {
        ThenFlat(SegmentTree(variants[0]), Leaf(",", BodyTree(variants[1..])));
      }
    }
  }

  /** The segments the counter sees: all but an empty last one. */
  function SegmentList(variants: seq<Option<Variant>>): seq<Tokens> {
    if variants == [] then []
    else if |variants| == 1 then
      if variants[0].None? then [] else [Flat(SegmentTree(variants[0]))]
    else [Flat(SegmentTree(variants[0]))] + SegmentList(variants[1..])
  }

  /** Reading one segment, up to `after`, either collects it or trips over its discriminant. */
  lemma SegmentReads(s: Option<Variant>, after: Tokens)
    requires s.Some? ==> VariantOk(s.value)
    ensures Segments(Flat(SegmentTree(s)) + after, [], FLAT)
         == if s.Some? && s.value.discriminant.Some? then Err(ExplicitDiscriminant)
            else Segments(after, Flat(SegmentTree(s)), FLAT)
  {
    SegmentOk(s);
    if s.None? {
      assert Flat(SegmentTree(s)) + after == after;
    } else {
      var front := FrontTree(s.value);
      if s.value.discriminant.Some? {
        var tail := ["="] + (Flat(s.value.discriminant.value) + after);
        ThenFlat(front, Leaf("=", s.value.discriminant.value));
        assert Flat(SegmentTree(s)) + after == Flat(front) + tail;
        SegmentScans(front, tail, [], FLAT);
      } else {
        SegmentScans(front, after, [], FLAT);
        assert [] + Flat(front) == Flat(front);
      }
    }
  }

  lemma {:induction false} BodySegments(variants: seq<Option<Variant>>)
    requires BodyOk(variants)
    ensures Segments(Flat(BodyTree(variants)), [], FLAT)
         == if Discriminated(variants) then Err(ExplicitDiscriminant) else Ok(SegmentList(variants))
  {
    hide Segments, VariantOk, SegmentTree;
    SegmentsEnd([]);
    if variants == [] {
    } else {
      var s := variants[0];
      assert s in variants;
      var rest := variants[1..];
      assert variants == [s] + rest;
      if rest == [] {
        SegmentReads(s, []);
        assert Flat(SegmentTree(s)) + [] == Flat(SegmentTree(s));
        SegmentsEnd(Flat(SegmentTree(s)));
        SegmentEmpty(s);
      } else {
        var tail := [","] + Flat(BodyTree(rest));
        ThenFlat(SegmentTree(s), Leaf(",", BodyTree(rest)));
        SegmentReads(s, tail);
        SegmentComma(Flat(BodyTree(rest)), Flat(SegmentTree(s)));
        BodySegments(rest);
        assert Discriminated(variants) <==> (s.Some? && s.value.discriminant.Some?) || Discriminated(rest);
      }
    }
  }

  lemma SegmentsEnd(current: Tokens)
    ensures Segments([], current, FLAT) == Ok(if current == [] then [] else [current])
  {
  }

  lemma SegmentComma(after: Tokens, current: Tokens)
    ensures Segments([","] + after, current, FLAT)
         == (var rest := Segments(after, [], FLAT); if rest.Ok? then Ok([current] + rest.value) else rest)
  {
    assert ([","] + after)[1..] == after;
  }

  lemma SegmentEmpty(s: Option<Variant>)
    ensures s.Some? <==> Flat(SegmentTree(s)) != []
  {
    if s.Some? && s.value.discriminant.Some? {
      ThenFlat(FrontTree(s.value), Leaf("=", s.value.discriminant.value));
    }
  }

  lemma {:induction false} SegmentsCount(variants: seq<Option<Variant>>)
    requires BodyOk(variants) && !Discriminated(variants)
    ensures CountSegments(SegmentList(variants)) == Ok(CountOf(variants))
  {
    if variants == [] {
    } else {
      var s := variants[0];
      assert s in variants;
      var rest := variants[1..];
      assert variants == [s] + rest;
      SegmentOk(s);
      SegmentsCount(rest);
      if rest == [] {
        assert CountOf(rest) == 0 && CountSegments([]) == Ok(0);
        if s.Some? { assert SegmentList(variants)[1..] == []; }
      } else {
        assert SegmentList(variants)[1..] == SegmentList(rest);
      }
    }
  }

  /** Counting undoes printing, and a body is rejected exactly for an explicit discriminant. */
  lemma CountUndoesPrint(variants: seq<Option<Variant>>)
    requires BodyOk(variants)
    ensures VariantCount(Flat(BodyTree(variants)))
         == if Discriminated(variants) then Err(ExplicitDiscriminant) else Ok(CountOf(variants))
  {
    BodySegments(variants);
    if !Discriminated(variants) {
      SegmentsCount(variants);
    }
  }

  // ---------------------------------------------------------------- files

  lemma DeclarationExtent(d: Declaration, after: Tokens)
    requires DeclarationOk(d)
    ensures var o := 2 + |Flat(d.head)|;
      Extent(DeclarationTokens(d) + after) == Ok((o, o + |Flat(BodyTree(d.variants))| + 2))
  {
    hide HeadOk, BodyTree, Flat, BodyOk, IsIdentifier;
    var body := Flat(BodyTree(d.variants));
    var close := ["}"] + after;
    var ts := DeclarationTokens(d) + after;
    assert ts[2..] == Flat(d.head) + (["{"] + (body + close));
    HeadScans(d.head, ["{"] + (body + close), FLAT);
    assert ts[2 + |Flat(d.head)| + 1..] == body + close;
    BodyBalances(d.variants);
    BracesScan(BodyTree(d.variants), close, 1);
  }

  /** The printed name is an identifier, and its bare name the one printed. */
  lemma NameReads(d: Declaration)
    requires PlainName(d.name)
    ensures IsIdentifier(NameToken(d)) && BareName(NameToken(d)) == d.name
  {
    var token := NameToken(d);
    IdentifierIs(token);
    if d.raw {
      assert token[..2] == "r#" && token[2..] == d.name;
    } else {
      assert |d.name| >= 2 ==> d.name[..2][1] != "r#"[1];
    }
  }

  lemma DeclarationReads(d: Declaration, after: Tokens)
    requires DeclarationOk(d)
    ensures ParseTokens(DeclarationTokens(d) + after)
         == if Discriminated(d.variants) then Err(ExplicitDiscriminant)
            else Append([(d.name, CountOf(d.variants))], ParseTokens(after))
  {
    var ts, o, body := DeclarationTokens(d) + after, 2 + |Flat(d.head)|, Flat(BodyTree(d.variants));
    NameReads(d);
    DeclarationParts(d, after);
    DeclarationExtent(d, after);
    CountUndoesPrint(d.variants);
    hide *;
    assert o + |body| + 2 - 1 == o + 1 + |body|;
    ParseOne(ts, o, o + |body| + 2, VariantCount(body), ParseTokens(after));
  }

  lemma DeclarationParts(d: Declaration, after: Tokens)
    ensures var ts, o, body := DeclarationTokens(d) + after, 2 + |Flat(d.head)|, Flat(BodyTree(d.variants));
      && |ts| >= o + |body| + 2 && ts[0] == "enum" && ts[1] == NameToken(d)
      && ts[o + 1..o + 1 + |body|] == body && ts[o + |body| + 2..] == after
  {
    hide BodyTree, Flat, NameToken;
  }

  lemma ParseOne(ts: Tokens, opening: nat, end: nat, count: Parsed<nat>, rest: Parsed<Counted>)
    requires |ts| >= 2 && ts[0] == "enum" && IsIdentifier(ts[1]) && Extent(ts) == Ok((opening, end))
    requires count == VariantCount(ts[opening + 1..end - 1]) && rest == ParseTokens(ts[end..])
    ensures ParseTokens(ts) == if count.Err? then Err(count.error) else Append([(BareName(ts[1]), count.value)], rest)
  {
    hide Extent, VariantCount, IsIdentifier, BareName;
  }

  lemma EnumIsIdentifier()
    ensures IsIdentifier("enum")
  {
    assert "enum"[1..] == "num" && "num"[1..] == "um" && "um"[1..] == "m" && "m"[1..] == "";
    assert NameRun("m") == 1 && NameRun("um") == 2 && NameRun("num") == 3;
  }

  lemma AppendNothing(rest: Parsed<Counted>)
    ensures Append([], rest) == rest
  {
    if rest.Ok? {
      assert [] + rest.value == rest.value;
    }
  }

  /** Tokens that declare nothing are passed over. */
  lemma TokenPasses(token: string, after: Tokens)
    requires token != "enum" || after == [] || !IsIdentifier(after[0])
    ensures ParseTokens([token] + after) == ParseTokens(after)
  {
    var ts := [token] + after;
    assert ts[1..] == after;
    assert |ts| >= 2 ==> ts[1] == after[0];
  }

  lemma ItemReads(item: FileItem, after: Tokens)
    requires ItemFits(item)
    ensures ParseTokens(ItemTokens(item) + after)
         == if Forbidden(item) then Err(ExplicitDiscriminant) else Append(Entry(item), ParseTokens(after))
  {
    match item
    case Other(token) =>
      TokenPasses(token, after);
      AppendNothing(ParseTokens(after));
    case Decoy(next) =>
      EnumIsIdentifier();
      assert ItemTokens(item) + after == ["enum"] + ([next] + after);
      TokenPasses("enum", [next] + after);
      TokenPasses(next, after);
      AppendNothing(ParseTokens(after));
    case Enum(d) =>
      DeclarationReads(d, after);
  }

  /** Parsing undoes printing: names and variant counts, or the discriminant that forbids them. */
  lemma {:induction false} ParseUndoesPrint(items: seq<FileItem>)
    requires FileOk(items)
    ensures ParseTokens(FileTokens(items))
         == if AnyForbidden(items) then Err(ExplicitDiscriminant) else Ok(Inventory(items))
  {
    if items == [] {
    } else {
      var item, rest := items[0], items[1..];
      assert items == [item] + rest && item in items;
      ParseUndoesPrint(rest);
      ItemReads(item, FileTokens(rest));
      assert AnyForbidden(items) <==> Forbidden(item) || AnyForbidden(rest);
    }
  }

  /**
   The two printers composed: for every layout of the tokens of a file of enums, `parse_enums`
   reads exactly those enums, and discovery finds exactly their names.
   */
  lemma SourceReadsBack(layout: seq<Item>, items: seq<FileItem>)
    requires LayoutOk(layout) && FileOk(items) && WordTokens(layout) == FileTokens(items)
    ensures ParseEnums(PrintSource(layout))
         == if AnyForbidden(items) then Err(ExplicitDiscriminant) else Ok(Inventory(items))
    ensures !AnyForbidden(items) ==> DiscoverNames(PrintSource(layout)) == Ok(Names(Inventory(items)))
  {
    LexUndoesPrint(layout);
    ParseUndoesPrint(items);
    NamesAgree(PrintSource(layout));
  }
}
