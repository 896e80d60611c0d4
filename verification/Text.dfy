/** Results, options and the few string operations the models share. */
module Text {

  datatype Option<+T> = None | Some(value: T)

  datatype Result<+T, +E> = Ok(value: T) | Err(error: E)

  function Repeat(c: char, n: nat): (r: string)
    ensures |r| == n && forall i :: 0 <= i < n ==> r[i] == c
  {
    if n == 0 then "" else [c] + Repeat(c, n - 1)
  }

  /** `str.find`: the first index at which `p` occurs in `s`, or -1. */
  function Find(s: string, p: string): (r: int)
    ensures -1 <= r && (r >= 0 ==> r + |p| <= |s|)
  {
    if p <= s then 0
    else if s == "" then -1
    else
      var r := Find(s[1..], p);
      if r < 0 then -1 else r + 1
  }

  /** `Find` stops at an occurrence with none before it. */
  lemma {:induction false} FindIs(s: string, p: string, r: nat)
    requires r <= |s| && p <= s[r..]
    requires forall k :: 0 <= k < r ==> !(p <= s[k..])
    ensures Find(s, p) == r
  {
    if r == 0 {
      assert s[0..] == s;
    } else {
      assert !(p <= s[0..]) && s[0..] == s;
      forall k | 0 <= k < r - 1
        ensures !(p <= s[1..][k..])
      {
        assert s[1..][k..] == s[k + 1..];
      }
      assert s[1..][r - 1..] == s[r..];
      FindIs(s[1..], p, r - 1);
    }
  }

  /** When `Find` fails, there is no occurrence. */
  lemma {:induction false} FindNone(s: string, p: string, k: nat)
    requires Find(s, p) < 0 && k <= |s|
    ensures !(p <= s[k..])
  {
    if k == 0 {
      assert s[0..] == s;
    } else {
      assert s[1..][k - 1..] == s[k..];
      FindNone(s[1..], p, k - 1);
    }
  }

  /** `p` occurs somewhere in `s`. */
  ghost predicate Occurs(s: string, p: string) {
    exists a, b :: s == a + p + b
  }

  lemma OccursIs(s: string, p: string)
    ensures Occurs(s, p) <==> Find(s, p) >= 0
  {
    var r := Find(s, p);
    if r >= 0 {
      FindAt(s, p);
      assert s == s[..r] + p + s[r + |p|..];
    }
    if a, b :| s == a + p + b {
      assert s[|a|..] == p + b;
      if r < 0 {
        FindNone(s, p, |a|);
      }
    }
  }

  lemma {:induction false} FindAt(s: string, p: string)
    requires Find(s, p) >= 0
    ensures p <= s[Find(s, p)..]
  {
    if p <= s {
      assert s[0..] == s;
    } else {
      FindAt(s[1..], p);
      assert s[Find(s, p)..] == s[1..][Find(s[1..], p)..];
    }
  }

  predicate Increasing(s: seq<nat>) {
    forall i, j :: 0 <= i < j < |s| ==> s[i] < s[j]
  }
}
