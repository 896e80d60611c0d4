/** Sorting, up to the order of equal elements, and the order of strings it is used with. */
module Sorting {

  /** Character by character, a prefix first. */
  predicate Below(a: string, b: string) {
    b != "" && (a == "" || a[0] < b[0] || (a[0] == b[0] && Below(a[1..], b[1..])))
  }

  lemma {:induction false} BelowTotal(a: string, b: string)
    ensures Below(a, b) || Below(b, a) || a == b
    ensures !(Below(a, b) && Below(b, a)) && !Below(a, a)
  {
    if a != "" && b != "" {
      BelowTotal(a[1..], b[1..]);
      BelowTotal(a[1..], a[1..]);
      assert a == [a[0]] + a[1..] && b == [b[0]] + b[1..];
    } else if a != "" {
      BelowTotal(a[1..], a[1..]);
    }
  }

  lemma {:induction false} BelowTransitive(a: string, b: string, c: string)
    requires Below(a, b) && Below(b, c)
    ensures Below(a, c)
  {
    if a == "" || a[0] != b[0] || b[0] != c[0] {
    } else {
      BelowTransitive(a[1..], b[1..], c[1..]);
    }
  }

  /** Nothing comes between two strings that are in order, except on one side of each. */
  lemma BelowSplits(a: string, b: string, c: string)
    requires Below(a, c)
    ensures Below(a, b) || Below(b, c)
  {
    BelowTotal(a, b);
    if Below(b, a) {
      BelowTransitive(b, a, c);
    }
  }

  /** A comparison that puts equal keys into one class. */
  ghost predicate StrictWeak<T(!new)>(less: (T, T) -> bool) {
    && (forall a, b :: !(less(a, b) && less(b, a)))
    && (forall a, b, c :: less(a, c) ==> less(a, b) || less(b, c))
  }

  /** No element stands before a smaller one. */
  predicate Ordered<T>(s: seq<T>, less: (T, T) -> bool) {
    forall i, j :: 0 <= i < j < |s| ==> !less(s[j], s[i])
  }

  method Insert<T(!new)>(x: T, s: seq<T>, less: (T, T) -> bool) returns (sorted: seq<T>)
    requires Ordered(s, less) && StrictWeak(less)
    ensures Ordered(sorted, less) && multiset(sorted) == multiset(s) + multiset{x}
  {
    var k := |s|;
    while k > 0 && less(x, s[k - 1])
      invariant 0 <= k <= |s|
      invariant forall i :: k <= i < |s| ==> less(x, s[i])
    {
      k := k - 1;
    }
    InsertKeepsOrder(x, s, k, less);
    sorted := s[..k] + [x] + s[k..];
    assert s == s[..k] + s[k..];
  }

  lemma InsertKeepsOrder<T(!new)>(x: T, s: seq<T>, k: nat, less: (T, T) -> bool)
    requires Ordered(s, less) && StrictWeak(less) && k <= |s|
    requires forall i :: k <= i < |s| ==> less(x, s[i])
    requires k > 0 ==> !less(x, s[k - 1])
    ensures Ordered(s[..k] + [x] + s[k..], less)
  {
    forall i | 0 <= i < k ensures !less(x, s[i]) {
      assert i == k - 1 || !less(s[k - 1], s[i]);
    }
    var sorted := s[..k] + [x] + s[k..];
    forall i, j | 0 <= i < j < |sorted| ensures !less(sorted[j], sorted[i]) {
      assert i < k ==> sorted[i] == s[i];
      assert i > k ==> sorted[i] == s[i - 1];
      assert j < k ==> sorted[j] == s[j];
      assert j > k ==> sorted[j] == s[j - 1];
    }
  }

  method Sort<T(!new)>(s: seq<T>, less: (T, T) -> bool) returns (sorted: seq<T>)
    requires StrictWeak(less)
    ensures Ordered(sorted, less) && multiset(sorted) == multiset(s)
  {
    sorted := [];
    for i := 0 to |s|
      invariant Ordered(sorted, less) && multiset(sorted) == multiset(s[..i])
    {
      assert s[..i + 1] == s[..i] + [s[i]];
      sorted := Insert(s[i], sorted, less);
    }
    assert s[..|s|] == s;
  }
}
