/**
 The names of scripts/atlas-geometry.py: UTF-8 (RFC 3629, section 3) cut to 60 bytes and then
 back to whole characters, against a strict decoder.
 */
module Utf8 {
  import opened Text
  import opened Varint

  /** A Unicode scalar value. */
  predicate Scalar(c: nat) {
    c < 0xD800 || 0xE000 <= c < 0x11_0000
  }

  predicate Trail(b: Byte) {
    0x80 <= b < 0xC0
  }

  /** How many bytes follow the first one. */
  function Extra(c: nat): nat {
    if c < 0x80 then 0 else if c < 0x800 then 1 else if c < 0x1_0000 then 2 else 3
  }

  function Lead(extra: nat): nat {
    if extra == 0 then 0 else if extra == 1 then 0xC0 else if extra == 2 then 0xE0 else 0xF0
  }

  /** `c` without its lowest 6 * `n` bits. */
  function High(c: nat, n: nat): nat {
    if n == 0 then c else High(c / 64, n - 1)
  }

  /** The lowest 6 * `n` bits of `c`, six a byte. */
  function Low(c: nat, n: nat): (s: seq<Byte>)
    ensures |s| == n && forall i :: 0 <= i < n ==> Trail(s[i])
  {
    if n == 0 then [] else Low(c / 64, n - 1) + [0x80 + c % 64]
  }

  function Char(c: nat): (s: seq<Byte>)
    requires Scalar(c)
    ensures |s| == 1 + Extra(c)
  {
    var n := Extra(c);
    assert High(c, n) < (if n == 0 then 0x80 else if n == 1 then 0x20 else 0x10) by { HighFits(c); }
    [Lead(n) + High(c, n)] + Low(c, n)
  }

  lemma HighFits(c: nat)
    requires Scalar(c)
    ensures High(c, Extra(c)) < (if Extra(c) == 0 then 0x80 else if Extra(c) == 1 then 0x20 else if Extra(c) == 2 then 0x10 else 0x08)
  {
    var n := Extra(c);
    assert n >= 1 ==> High(c, n) == High(c / 64, n - 1);
    assert n >= 2 ==> High(c / 64, n - 1) == High(c / 64 / 64, n - 2);
    assert n >= 3 ==> High(c / 64 / 64, n - 2) == High(c / 64 / 64 / 64, n - 3);
  }

  /** The forms of RFC 3629, section 3, with their bits spelled out. */
  lemma CharBytes(c: nat)
    requires Scalar(c)
    ensures Char(c) ==
      if c < 0x80 then [c]
      else if c < 0x800 then [0xC0 + c / 0x40, 0x80 + c % 0x40]
      else if c < 0x1_0000 then [0xE0 + c / 0x1000, 0x80 + c / 0x40 % 0x40, 0x80 + c % 0x40]
      else [0xF0 + c / 0x4_0000, 0x80 + c / 0x1000 % 0x40, 0x80 + c / 0x40 % 0x40, 0x80 + c % 0x40]
  {
    HighFits(c);
    Sixty4s(c);
    var n := Extra(c);
    assert Low(c, 0) == [] && Low(c / 64, 0) == [] && Low(c / 64 / 64, 0) == [] && Low(c / 64 / 64 / 64, 0) == [];
    assert n >= 1 ==> Low(c, n) == Low(c / 64, n - 1) + [0x80 + c % 64];
    assert n >= 2 ==> Low(c / 64, n - 1) == Low(c / 64 / 64, n - 2) + [0x80 + c / 64 % 64];
    assert n >= 3 ==> Low(c / 64 / 64, n - 2) == Low(c / 64 / 64 / 64, n - 3) + [0x80 + c / 64 / 64 % 64];
    assert n >= 1 ==> High(c, n) == High(c / 64, n - 1);
    assert n >= 2 ==> High(c / 64, n - 1) == High(c / 64 / 64, n - 2);
    assert n >= 3 ==> High(c / 64 / 64, n - 2) == High(c / 64 / 64 / 64, n - 3);
  }

  lemma Sixty4s(c: nat)
    ensures c / 64 / 64 == c / 0x1000 && c / 64 / 64 / 64 == c / 0x4_0000
  {
  }

  /** Everything up to the last code point but the surrogates. */
  lemma ScalarIs(c: nat)
    ensures Scalar(c) <==> c <= 0x10_FFFF && !(0xD800 <= c <= 0xDFFF)
  {
  }

  predicate Scalars(name: seq<nat>) {
    forall i :: 0 <= i < |name| ==> Scalar(name[i])
  }

  function Encode(name: seq<nat>): seq<Byte>
    requires Scalars(name)
  {
    if name == [] then [] else Char(name[0]) + Encode(name[1..])
  }

  /** How many bytes a first byte announces after it, if it is one. */
  function Announced(b: Byte): Option<nat> {
    if b < 0x80 then Some(0) else if b < 0xC0 then None
    else if b < 0xE0 then Some(1) else if b < 0xF0 then Some(2) else if b < 0xF8 then Some(3) else None
  }

  function Gather(high: nat, low: seq<Byte>): nat
    requires forall i :: 0 <= i < |low| ==> Trail(low[i])
  {
    if low == [] then high
    else
      assert Trail(low[|low| - 1]);
      Gather(high, low[..|low| - 1]) * 64 + low[|low| - 1] - 0x80
  }

  /** What a first byte carries of its character. */
  function Carried(b: Byte): nat {
    if b < 0x80 then b else if b < 0xC0 then 0 else if b < 0xE0 then b - 0xC0 else if b < 0xF0 then b - 0xE0 else if b < 0xF8 then b - 0xF0 else 0
  }

  /** No overlong form: the least character that takes `n` further bytes. */
  function Least(n: nat): nat {
    if n == 0 then 0 else if n == 1 then 0x80 else if n == 2 then 0x800 else 0x1_0000
  }

  /** The character `s` starts with, complete, a scalar value and in its shortest form, and its length. */
  function First(s: seq<Byte>): (r: Option<(nat, nat)>)
    ensures r.Some? ==> Scalar(r.value.0) && 0 < r.value.1 <= |s|
  {
    if s == [] then None
    else
      match Announced(s[0])
      case None => None
      case Some(n) =>
        if |s| <= n || exists i :: 1 <= i <= n && !Trail(s[i]) then None
        else
          var c := Gather(Carried(s[0]), s[1..n + 1]);
          if c <= 0x10_FFFF && !(0xD800 <= c <= 0xDFFF) && Least(n) <= c then Some((c, 1 + n)) else None
  }

  function Decode(s: seq<Byte>): Option<seq<nat>> {
    if s == [] then Some([])
    else
      match First(s)
      case None => None
      case Some(read) =>
        match Decode(s[read.1..])
        case None => None
        case Some(name) => Some([read.0] + name)
  }

  lemma {:induction false} GatherUndoes(c: nat, n: nat)
    ensures Gather(High(c, n), Low(c, n)) == c
    decreases n
  {
    if n == 0 {
    } else {
      GatherUndoes(c / 64, n - 1);
      assert Low(c, n)[..n - 1] == Low(c / 64, n - 1);
    }
  }

  lemma CharReads(c: nat, rest: seq<Byte>)
    requires Scalar(c)
    ensures First(Char(c) + rest) == Some((c, |Char(c)|))
  {
    var s, n := Char(c) + rest, Extra(c);
    CharHead(c);
    CharParts(c, rest);
    GatherUndoes(c, n);
    hide Char, High, Low, Gather, Extra, Trail, Announced, Carried, Least;
    ScalarIs(c);
    hide Scalar;
    assert Announced(s[0]) == Some(n) && Gather(Carried(s[0]), s[1..n + 1]) == c;
    FirstIs(s, n, c);
  }

  lemma FirstIs(s: seq<Byte>, n: nat, c: nat)
    requires n < |s| && Announced(s[0]) == Some(n) && forall i :: 1 <= i <= n ==> Trail(s[i])
    requires Gather(Carried(s[0]), s[1..n + 1]) == c && c <= 0x10_FFFF && !(0xD800 <= c <= 0xDFFF) && Least(n) <= c
    ensures First(s) == Some((c, 1 + n))
  {
    hide Gather, Trail, Announced, Carried, Least;
  }

  lemma CharParts(c: nat, rest: seq<Byte>)
    requires Scalar(c)
    ensures var s, n := Char(c) + rest, Extra(c);
      |Char(c)| == n + 1 && s[0] == Char(c)[0] && s[1..n + 1] == Low(c, n) && forall i :: 1 <= i <= n ==> Trail(s[i])
  {
    var s, n, low := Char(c) + rest, Extra(c), Low(c, Extra(c));
    hide High, Low, Trail, Extra;
    forall i | 1 <= i <= n ensures Trail(s[i]) {
      assert s[i] == low[i - 1] && Trail(low[i - 1]);
    }
  }

  lemma CharHead(c: nat)
    requires Scalar(c)
    ensures Char(c)[0] == Lead(Extra(c)) + High(c, Extra(c)) && Announced(Char(c)[0]) == Some(Extra(c))
    ensures Carried(Char(c)[0]) == High(c, Extra(c)) && Least(Extra(c)) <= c
  {
    HighFits(c);
  }

  /** A character cut short is not one. */
  lemma CutCharFails(c: nat, n: nat)
    requires Scalar(c) && 0 < n < |Char(c)|
    ensures Decode(Char(c)[..n]) == None
  {
    CharHead(c);
  }

  lemma {:induction false} DecodeUndoesEncode(name: seq<nat>, rest: seq<Byte>)
    requires Scalars(name)
    ensures Decode(Encode(name) + rest) == match Decode(rest) case None => None case Some(more) => Some(name + more)
  {
    hide Char, First, Scalar, Decode;
    if name == [] {
      assert Encode(name) + rest == rest;
      assert Decode(rest).Some? ==> name + Decode(rest).value == Decode(rest).value;
    } else {
      var tail := Encode(name[1..]) + rest;
      DecodeUndoesEncode(name[1..], rest);
      DecodeChar(name[0], tail);
      assert Encode(name) + rest == Char(name[0]) + tail;
      if Decode(rest).Some? {
        assert [name[0]] + (name[1..] + Decode(rest).value) == name + Decode(rest).value;
      }
    }
  }

  lemma DecodeChar(c: nat, tail: seq<Byte>)
    requires Scalar(c)
    ensures Decode(Char(c) + tail) == match Decode(tail) case None => None case Some(name) => Some([c] + name)
  {
    CharReads(c, tail);
    hide First, Char, Scalar;
    assert (Char(c) + tail)[|Char(c)|..] == tail;
  }

  // ---------------------------------------------------------------- strictness

  lemma SixBits(h: nat, x: nat)
    requires x < 64
    ensures (h * 64 + x) / 64 == h && (h * 64 + x) % 64 == x
  {
  }

  lemma GatherOne(high: nat, low: seq<Byte>, b: Byte)
    requires (forall i :: 0 <= i < |low| ==> Trail(low[i])) && Trail(b)
    ensures (forall i :: 0 <= i < |low + [b]| ==> Trail((low + [b])[i]))
    ensures Gather(high, low + [b]) == Gather(high, low) * 64 + (b - 0x80)
  {
    assert (low + [b])[..|low|] == low;
  }

  /** The bits gathered from the bytes are the bytes' own. */
  lemma {:induction false} LowUndoes(high: nat, low: seq<Byte>)
    requires forall i :: 0 <= i < |low| ==> Trail(low[i])
    ensures Low(Gather(high, low), |low|) == low && High(Gather(high, low), |low|) == high
    decreases |low|
  {
    if low == [] {
    } else {
      var n := |low| - 1;
      assert Trail(low[n]);
      LowUndoes(high, low[..n]);
      GatherOne(high, low[..n], low[n]);
      assert low == low[..n] + [low[n]];
      SixBits(Gather(high, low[..n]), low[n] - 0x80);
    }
  }

  lemma GatherBound(high: nat, low: seq<Byte>)
    requires (forall i :: 0 <= i < |low| ==> Trail(low[i])) && |low| <= 3
    ensures Gather(high, low) <
      (high + 1) * (if |low| == 0 then 1 else if |low| == 1 then 0x40 else if |low| == 2 then 0x1000 else 0x4_0000)
  {
    if low != [] {
      var n := |low| - 1;
      assert Trail(low[n]) && low == low[..n] + [low[n]];
      GatherBound(high, low[..n]);
      GatherOne(high, low[..n], low[n]);
    }
  }

  /** A first byte carries the bits above those of the bytes it announces. */
  lemma HeadIs(b: Byte, n: nat)
    requires Announced(b) == Some(n)
    ensures n <= 3 && b == Lead(n) + Carried(b)
    ensures Carried(b) < if n == 0 then 0x80 else if n == 1 then 0x20 else if n == 2 then 0x10 else 8
  {
  }

  /** Only the bytes of a character are read as that character. */
  lemma OnlyChar(s: seq<Byte>)
    requires First(s).Some?
    ensures s[..First(s).value.1] == Char(First(s).value.0)
  {
    var n, low := Announced(s[0]).value, s[1..Announced(s[0]).value + 1];
    var high := Carried(s[0]);
    assert forall i :: 0 <= i < |low| ==> low[i] == s[i + 1] && Trail(low[i]);
    HeadIs(s[0], n);
    GatherBound(high, low);
    LowUndoes(high, low);
    hide Gather, Low, High, Trail, Carried, Announced;
    assert Extra(First(s).value.0) == n;
    assert s[..n + 1] == [s[0]] + low;
  }

  /** The decoder accepts exactly the encodings of names. */
  lemma {:induction false} EncodeUndoesDecode(s: seq<Byte>)
    requires Decode(s).Some?
    ensures Scalars(Decode(s).value) && Encode(Decode(s).value) == s
    decreases |s|
  {
    if s != [] {
      var read, name := First(s).value, Decode(s).value;
      OnlyChar(s);
      EncodeUndoesDecode(s[read.1..]);
      hide First, Char, Scalar;
      assert name[0] == read.0 && name[1..] == Decode(s[read.1..]).value;
      assert s == s[..read.1] + s[read.1..];
    }
  }

  // ---------------------------------------------------------------- cutting

  lemma {:induction false} EncodeSplits(name: seq<nat>, k: nat)
    requires Scalars(name) && k <= |name|
    ensures Encode(name) == Encode(name[..k]) + Encode(name[k..])
  {
    hide Char, Scalar;
    if k > 0 {
      EncodeSplits(name[1..], k - 1);
      assert name[1..][..k - 1] == name[..k][1..] && name[1..][k - 1..] == name[k..];
    } else {
      assert name[0..] == name;
    }
  }

  /** The longest prefix of the name whose encoding fits in `limit` bytes. */
  function Fitting(name: seq<nat>, limit: nat): (k: nat)
    requires Scalars(name)
    ensures k <= |name|
  {
    if name == [] || |Char(name[0])| > limit then 0 else 1 + Fitting(name[1..], limit - |Char(name[0])|)
  }

  lemma {:induction false} FittingIsLongest(name: seq<nat>, limit: nat)
    requires Scalars(name)
    ensures var k := Fitting(name, limit);
      |Encode(name[..k])| <= limit && (k < |name| ==> |Encode(name[..k + 1])| > limit)
  {
    if name == [] {
    } else {
      var n := |Char(name[0])|;
      assert name[..1] == [name[0]] && Encode([name[0]]) == Char(name[0]) + Encode([]);
      if n <= limit {
        FittingIsLongest(name[1..], limit - n);
        var k := Fitting(name, limit);
        assert name[..k][1..] == name[1..][..k - 1];
        if k < |name| {
          assert name[..k + 1][1..] == name[1..][..k];
        }
      }
    }
  }

  /** Bytes that end inside the character after `k` do not decode; without them they do. */
  lemma CutDecodes(name: seq<nat>, k: nat, n: nat)
    requires Scalars(name) && k <= |name| && |Encode(name[..k])| <= n <= |Encode(name)|
    requires n > |Encode(name[..k])| ==> k < |name| && n < |Encode(name[..k + 1])|
    ensures Decode(Encode(name)[..n]).Some? <==> n == |Encode(name[..k])|
    ensures n == |Encode(name[..k])| ==> Encode(name)[..n] == Encode(name[..k])
  {
    hide Char, Scalar, Decode;
    var head := Encode(name[..k]);
    EncodeSplits(name, k);
    if n == |head| {
      DecodeUndoesEncode(name[..k], []);
      assert head + [] == head && Encode(name)[..n] == head;
      assert Decode([]).Some? by { DecodeEmpty(); }
    } else {
      var c := name[k];
      EncodeNext(name, k);
      var cut := Char(c)[..n - |head|];
      assert Encode(name)[..n] == head + cut by {
        assert Encode(name[k..]) == Char(c) + Encode(name[k + 1..]) by { assert name[k..][1..] == name[k + 1..]; }
      }
      assert Decode(cut) == None by { CutCharFails(c, n - |head|); }
      DecodeUndoesEncode(name[..k], cut);
    }
  }

  lemma DecodeEmpty()
    ensures Decode([]) == Some([])
  {
  }

  lemma EncodeNext(name: seq<nat>, k: nat)
    requires Scalars(name) && k < |name|
    ensures Encode(name[..k + 1]) == Encode(name[..k]) + Char(name[k])
  {
    EncodeSplits(name[..k + 1], k);
    assert name[..k + 1][..k] == name[..k] && name[..k + 1][k..] == [name[k]];
    assert Encode([name[k]]) == Char(name[k]) + Encode([]);
  }

  /** `name.encode("utf-8")` refuses surrogates; the cut then drops bytes until the rest decodes. */
  method EncodeName(name: seq<nat>) returns (r: Result<seq<Byte>, ()>)
    ensures r.Ok? <==> Scalars(name)
    ensures r.Ok? ==> r.value == Encode(name[..Fitting(name, 60)]) && |r.value| <= 60
  {
    if exists i :: 0 <= i < |name| && !Scalar(name[i]) {
      return Err(());
    }
    var all := Encode(name);
    var raw := if |all| <= 60 then all else all[..60];
    ghost var k := Fitting(name, 60);
    FittingIsLongest(name, 60);
    EncodeSplits(name, k);
    if k == |name| {
      assert name[..k] == name;
    }
    hide Encode, Decode, Fitting;
    while true
      invariant |Encode(name[..k])| <= |raw| <= 60 && raw == all[..|raw|]
      invariant |raw| > |Encode(name[..k])| ==> k < |name| && |raw| < |Encode(name[..k + 1])|
      decreases |raw|
    {
      CutDecodes(name, k, |raw|);
      if Decode(raw).Some? {
        break;
      }
      raw := raw[..|raw| - 1];
    }
    r := Ok(raw);
  }
}
