/**
 Signed varints of scripts/atlas-geometry.py: zigzag values in unsigned LEB128 (DWARF 5, section
 7.6), on unbounded integers as the script computes them, with a reader.
 */
module Varint {
  import opened Text

  type Byte = b: int | 0 <= b < 256

  const INT32: int := 0x8000_0000

  function Weight(a: int): nat {
    if a < 0 then -a - 1 else a
  }

  /** Exclusive or of two's complement integers of any width; `/` and `%` round down here. */
  function Xor(a: int, b: int): int
    decreases Weight(a) + Weight(b)
  {
    if Weight(a) == 0 && Weight(b) == 0 then (if a == b then 0 else -1)
    else (a % 2 + b % 2) % 2 + 2 * Xor(a / 2, b / 2)
  }

  function Zigzag(value: int): int {
    Xor(2 * value, value / INT32)
  }

  function Leb(n: nat): seq<Byte> {
    if n < 128 then [n] else [n % 128 + 128] + Leb(n / 128)
  }

  lemma {:induction false} XorSign(a: int, b: int)
    ensures Xor(a, b) >= 0 <==> (a >= 0 <==> b >= 0)
    decreases Weight(a) + Weight(b)
  {
    if Weight(a) == 0 && Weight(b) == 0 {
    } else {
      XorSign(a / 2, b / 2);
    }
  }

  lemma {:induction false} XorMask(a: int)
    ensures Xor(a, 0) == a && Xor(a, -1) == -a - 1
    decreases Weight(a)
  {
    if Weight(a) == 0 {
    } else {
      XorMask(a / 2);
    }
  }

  /** The loop of the writer never meets a negative number, which it could not finish. */
  lemma ZigzagNotNegative(value: int)
    ensures Zigzag(value) >= 0
  {
    XorSign(2 * value, value / INT32);
  }

  /** On 32-bit values the sign moves to the lowest bit. */
  lemma ZigzagIs(value: int)
    requires -INT32 <= value < INT32
    ensures Zigzag(value) == if value < 0 then -2 * value - 1 else 2 * value
  {
    XorMask(2 * value);
    assert value / INT32 == if value < 0 then -1 else 0;
  }

  method ZigzagVarint(value: int) returns (out: seq<Byte>)
    ensures Zigzag(value) >= 0 && out == Leb(Zigzag(value))
  {
    ZigzagNotNegative(value);
    var n: nat := Zigzag(value);
    hide Zigzag;
    out := [];
    while true
      invariant out + Leb(n) == Leb(Zigzag(value))
      decreases n
    {
      var byte := n % 128;
      var more := n / 128;
      assert out + Leb(n) == out + (if more != 0 then [byte + 128] else [byte]) + (if more != 0 then Leb(more) else []);
      if more != 0 {
        out := out + [byte + 128];
        n := more;
      } else {
        out := out + [byte];
        return;
      }
    }
  }

  // ---------------------------------------------------------------- reader

  /** A value and the bytes after it. */
  datatype Parsed<+T> = Parsed(value: T, rest: seq<Byte>)

  function ReadLeb(s: seq<Byte>): Option<Parsed<nat>> {
    if s == [] then None
    else if s[0] < 128 then Some(Parsed(s[0], s[1..]))
    else
      match ReadLeb(s[1..])
      case None => None
      case Some(p) => Some(Parsed(s[0] - 128 + 128 * p.value, p.rest))
  }

  function Unzigzag(n: nat): int {
    if n % 2 == 0 then n / 2 else -((n + 1) / 2)
  }

  function ReadVarint(s: seq<Byte>): Option<Parsed<int>> {
    match ReadLeb(s)
    case None => None
    case Some(p) => Some(Parsed(Unzigzag(p.value), p.rest))
  }

  lemma {:induction false} ReadLebUndoes(n: nat, rest: seq<Byte>)
    ensures ReadLeb(Leb(n) + rest) == Some(Parsed(n, rest))
  {
    var s := Leb(n) + rest;
    if n < 128 {
      assert s[1..] == rest;
    } else {
      ReadLebUndoes(n / 128, rest);
      assert s[1..] == Leb(n / 128) + rest;
    }
  }

  function VarintBytes(value: int): seq<Byte> {
    ZigzagNotNegative(value);
    Leb(Zigzag(value))
  }

  /** Reading undoes writing for every 32-bit value, and takes no more than its own bytes. */
  lemma ReadUndoesVarint(value: int, rest: seq<Byte>)
    requires -INT32 <= value < INT32
    ensures ReadVarint(VarintBytes(value) + rest) == Some(Parsed(value, rest))
  {
    ZigzagIs(value);
    ReadLebUndoes(Zigzag(value), rest);
  }

  /** No encoding is a prefix of another one. */
  lemma PrefixFree(v: int, w: int)
    requires -INT32 <= v < INT32 && -INT32 <= w < INT32 && VarintBytes(v) <= VarintBytes(w)
    ensures v == w
  {
    var rest := VarintBytes(w)[|VarintBytes(v)|..];
    ReadUndoesVarint(v, rest);
    ReadUndoesVarint(w, []);
    assert VarintBytes(w) + [] == VarintBytes(w) == VarintBytes(v) + rest;
  }

  lemma {:induction false} XorKeeps(a: int, b: int)
    ensures Xor(a, b) == a <==> b == 0
    ensures Xor(a, b) == -a - 1 <==> b == -1
    decreases Weight(a) + Weight(b)
  {
    if Weight(a) == 0 && Weight(b) == 0 {
    } else {
      XorKeeps(a / 2, b / 2);
      XorStep(a, b);
      hide Xor;
      XorBit(a % 2, a / 2, b % 2, b / 2, Xor(a / 2, b / 2));
    }
  }

  lemma XorStep(a: int, b: int)
    requires Weight(a) != 0 || Weight(b) != 0
    ensures Xor(a, b) == (a % 2 + b % 2) % 2 + 2 * Xor(a / 2, b / 2)
  {
  }

  lemma XorBit(p: int, a: int, q: int, b: int, x: int)
    requires 0 <= p <= 1 && 0 <= q <= 1 && (x == a <==> b == 0) && (x == -a - 1 <==> b == -1)
    ensures var c := (p + q) % 2 + 2 * x;
      && (c == p + 2 * a <==> q + 2 * b == 0)
      && (c == -(p + 2 * a) - 1 <==> q + 2 * b == -1)
  {
  }

  lemma XorOfDouble(v: int, k: int)
    ensures Xor(2 * v, k) == k % 2 + 2 * Xor(v, k / 2)
  {
    if Weight(2 * v) == 0 && Weight(k) == 0 {
      assert v == 0;
    } else {
      assert 2 * v / 2 == v && 2 * v % 2 == 0;
    }
  }

  lemma UnzigzagIs(x: int, bit: int)
    requires 0 <= bit <= 1 && bit + 2 * x >= 0
    ensures Unzigzag(bit + 2 * x) == if bit == 0 then x else -x - 1
  {
  }

  /** What the reader makes of any integer. */
  lemma ReadsAs(value: int)
    ensures var k := value / INT32; var x := Xor(value, k / 2);
      ReadVarint(VarintBytes(value)) == Some(Parsed(if k % 2 == 0 then x else -x - 1, []))
  {
    var k := value / INT32;
    ZigzagNotNegative(value);
    ReadLebUndoes(Zigzag(value), []);
    assert VarintBytes(value) + [] == VarintBytes(value);
    XorOfDouble(value, k);
    hide Xor;
    UnzigzagIs(Xor(value, k / 2), k % 2);
  }

  /** The reader gets an integer back exactly if it fits in 32 bits. */
  lemma ReadsBackExactly(value: int)
    ensures ReadVarint(VarintBytes(value)) == Some(Parsed(value, [])) <==> -INT32 <= value < INT32
  {
    var k := value / INT32;
    ReadsAs(value);
    XorKeeps(value, k / 2);
    hide Xor, ReadVarint, VarintBytes;
    assert -INT32 <= value < INT32 <==> k == 0 || k == -1;
    assert k == k % 2 + 2 * (k / 2);
  }

  /** From 2^31 to 2^32 it gets a negative one. */
  lemma WideValuesChange(value: int)
    requires INT32 <= value < 2 * INT32
    ensures ReadVarint(VarintBytes(value)) == Some(Parsed(-value - 1, []))
  {
    assert value / INT32 == 1;
    ReadsAs(value);
    XorMask(value);
  }
}
