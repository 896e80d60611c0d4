/** The chaotic-iteration closure `descendant_pids` of examples/tui_perf_sampler.rs. */
module ProcessTree {
  import opened Text
  import opened ProcessWorld

  /** The root and everything below it; the root counts whether or not it is in the table. */
  ghost function Descendants(t: Table, root: Pid): set<Pid> {
    {root} + set p | p in t && Descends(t, root, p)
  }

  predicate Ascending(s: seq<Pid>) {
    forall i, j :: 0 <= i < j < |s| ==> s[i] < s[j]
  }

  function Elements(s: seq<Pid>): set<Pid> {
    set p <- s
  }

  lemma NoElements(s: set<Pid>)
    ensures Elements([]) == {} && Ascending([]) && Before([], s)
  {
  }

  lemma ElementsAppend(s: seq<Pid>, p: Pid)
    ensures Elements(s + [p]) == Elements(s) + {p}
  {
    assert forall q :: q in s + [p] <==> q in s || q == p;
  }

  /** A set closed under children contains every descendant of its members. */
  lemma {:induction false} ClosedCoversDescent(t: Table, root: Pid, included: set<Pid>, p: Pid, n: nat)
    requires root in included && Up(t, p, n) == Some(root)
    requires forall q <- t :: t[q].parent.Some? && t[q].parent.value in included ==> q in included
    ensures p in included
    decreases n
  {
    if n == 0 {
    } else {
      ClosedCoversDescent(t, root, included, t[p].parent.value, n - 1);
    }
  }

  predicate Least(m: Pid, s: set<Pid>) {
    m in s && forall p <- s :: m <= p
  }

  lemma {:induction false} HasLeast(s: set<Pid>)
    requires s != {}
    ensures exists m :: Least(m, s)
  {
    var p :| p in s;
    if s - {p} == {} {
      assert s == {p};
      assert Least(p, s);
    } else {
      HasLeast(s - {p});
      var m :| Least(m, s - {p});
      LeastOfTwo(s, p, m);
    }
  }

  lemma LeastOfTwo(s: set<Pid>, p: Pid, m: Pid)
    requires p in s && Least(m, s - {p})
    ensures Least(if p < m then p else m, s)
  {
    assert forall q <- s :: q == p || q in s - {p};
  }

  predicate Before(r: seq<Pid>, rest: set<Pid>) {
    forall i, q :: 0 <= i < |r| && q in rest ==> r[i] < q
  }

  lemma NextLeast(r: seq<Pid>, rest: set<Pid>, m: Pid)
    requires Ascending(r) && Before(r, rest) && Least(m, rest)
    ensures Ascending(r + [m]) && Before(r + [m], rest - {m})
  {
  }

  method Sorted(s: set<Pid>) returns (r: seq<Pid>)
    ensures Ascending(r) && Elements(r) == s
  {
    hide Elements, Ascending, Before, Least;
    r := [];
    assert Ascending(r) && Before(r, s) && Elements(r) == {} by { NoElements(s); }
    var rest := s;
    while rest != {}
      invariant rest <= s && Elements(r) == s - rest && Ascending(r) && Before(r, rest)
    {
      var m := TakeLeast(rest);
      ElementsAppend(r, m);
      NextLeast(r, rest, m);
      r := r + [m];
      rest := rest - {m};
    }
  }

  method TakeLeast(s: set<Pid>) returns (m: Pid)
    requires s != {}
    ensures Least(m, s)
  {
    HasLeast(s);
    m :| m in s && forall p <- s :: m <= p;
  }

  /**
   `descendant_pids`: passes over the table, in any order, until one adds nothing. It ends on
   every table, cyclic parent links included, with exactly the root's descendants.
   */
  method DescendantPids(t: Table, root: Pid) returns (pids: seq<Pid>)
    ensures Ascending(pids) && Elements(pids) == Descendants(t, root)
  {
    var included := {root};
    assert Up(t, root, 0) == Some(root);
    while true
      invariant {root} <= included <= Descendants(t, root) <= t.Keys + {root}
      decreases (t.Keys + {root}) - included
    {
      var before := included;
      var todo := t.Keys;
      while todo != {}
        invariant todo <= t.Keys
        invariant before <= included <= Descendants(t, root)
        invariant included == before ==> forall q <- t.Keys - todo ::
          t[q].parent.Some? && t[q].parent.value in included ==> q in included
      {
        var q :| q in todo;
        todo := todo - {q};
        if t[q].parent.Some? && t[q].parent.value in included {
          assert Descends(t, root, t[q].parent.value) by {
            assert Up(t, root, 0) == Some(root);
          }
          ChildDescends(t, root, q);
          included := included + {q};
        }
      }
      if included == before {
        break;
      }
    }
    forall p <- Descendants(t, root) ensures p in included {
      if p != root {
        var n: nat :| Up(t, p, n) == Some(root);
        ClosedCoversDescent(t, root, included, p, n);
      }
    }
    pids := Sorted(included);
  }
}
