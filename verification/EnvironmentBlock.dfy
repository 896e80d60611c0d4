/**
 The child environment of examples/tui_perf_conpty.rs: checked, sorted by upper-cased name and
 packed into one block of NUL-ended `name=value` strings, which the receiver takes apart again.
 */
module EnvironmentBlock {
  import opened Sorting
  import opened Text

  datatype Entry = Entry(name: string, value: string)

  // ---------------------------------------------------------------- sorting

  /** By upper-cased name. */
  function ByUpper(upper: string -> string): (Entry, Entry) -> bool {
    (a: Entry, b: Entry) => Below(upper(a.name), upper(b.name))
  }

  lemma ByUpperIsOrder(upper: string -> string)
    ensures StrictWeak(ByUpper(upper))
  {
    var less := ByUpper(upper);
    forall a, b ensures !(less(a, b) && less(b, a)) {
      BelowTotal(upper(a.name), upper(b.name));
    }
    forall a, b, c | less(a, c) ensures less(a, b) || less(b, c) {
      BelowSplits(upper(a.name), upper(b.name), upper(c.name));
    }
  }

  /** Upper-cased names are strictly increasing. */
  predicate StrictlyOrdered(entries: seq<Entry>, upper: string -> string) {
    forall i, j :: 0 <= i < j < |entries| ==> Below(upper(entries[i].name), upper(entries[j].name))
  }

  predicate Clash(entries: seq<Entry>, upper: string -> string) {
    exists i, j :: 0 <= i < j < |entries| && upper(entries[i].name) == upper(entries[j].name)
  }

  /** In sorted order equal keys are neighbours. */
  lemma NeighboursShowClash(entries: seq<Entry>, upper: string -> string)
    requires Ordered(entries, ByUpper(upper))
    requires forall i :: 0 < i < |entries| ==> upper(entries[i - 1].name) != upper(entries[i].name)
    ensures StrictlyOrdered(entries, upper) && !Clash(entries, upper)
  {
    forall i, j | 0 <= i < j < |entries| ensures Below(upper(entries[i].name), upper(entries[j].name)) {
      var a, b, c := upper(entries[i].name), upper(entries[i + 1].name), upper(entries[j].name);
      BelowTotal(a, b);
      BelowTotal(b, c);
      if i + 1 < j && b != c {
        BelowTransitive(a, b, c);
      }
    }
    forall i, j | 0 <= i < j < |entries| ensures upper(entries[i].name) != upper(entries[j].name) {
      BelowTotal(upper(entries[i].name), upper(entries[j].name));
    }
  }

  // ---------------------------------------------------------------- block

  function Block(entries: seq<Entry>): string {
    if entries == [] then "\0" else entries[0].name + "=" + entries[0].value + "\0" + Block(entries[1..])
  }

  /** Two entries of the bag have one upper-cased name. */
  predicate BagClash(entries: multiset<Entry>, upper: string -> string) {
    exists e, f :: e in entries && f in entries && upper(e.name) == upper(f.name) && (e != f || entries[e] > 1)
  }

  lemma TwoCount(s: seq<Entry>, i: nat, j: nat)
    requires i < j < |s| && s[i] == s[j]
    ensures multiset(s)[s[i]] > 1
  {
    assert s == s[..j] + s[j..];
    assert s[i] in s[..j] && s[j] in s[j..];
  }

  lemma CountTwo(s: seq<Entry>, e: Entry) returns (i: nat, j: nat)
    requires multiset(s)[e] > 1
    ensures i < j < |s| && s[i] == s[j] == e
  {
    i :| i < |s| && s[i] == e;
    var rest := s[..i] + s[i + 1..];
    assert s == s[..i] + [e] + s[i + 1..];
    assert multiset(s) == multiset(rest) + multiset{e};
    assert e in rest;
    var k :| 0 <= k < |rest| && rest[k] == e;
    i, j := if k < i then k else i, if k < i then i else k + 1;
  }

  lemma ClashShows(entries: seq<Entry>, upper: string -> string)
    requires Clash(entries, upper)
    ensures BagClash(multiset(entries), upper)
  {
    var i, j :| 0 <= i < j < |entries| && upper(entries[i].name) == upper(entries[j].name);
    if entries[i] == entries[j] {
      TwoCount(entries, i, j);
    }
    assert entries[i] in multiset(entries) && entries[j] in multiset(entries);
  }

  lemma BagClashShows(entries: seq<Entry>, upper: string -> string)
    requires BagClash(multiset(entries), upper)
    ensures Clash(entries, upper)
  {
    var bag := multiset(entries);
    var e, f :| e in bag && f in bag && upper(e.name) == upper(f.name) && (e != f || bag[e] > 1);
    if e == f {
      var i, j := CountTwo(entries, e);
    } else {
      var i :| 0 <= i < |entries| && entries[i] == e;
      var j :| 0 <= j < |entries| && entries[j] == f;
      assert i < j || j < i;
    }
  }

  /** Whether names clash does not depend on their order. */
  lemma ClashPermutes(entries: seq<Entry>, sorted: seq<Entry>, upper: string -> string)
    requires multiset(entries) == multiset(sorted) && Clash(entries, upper)
    ensures Clash(sorted, upper)
  {
    ClashShows(entries, upper);
    BagClashShows(sorted, upper);
  }

  /**
   The block, unless two names differ only in case. Its entries are those of the environment, in
   strictly increasing order of upper-cased name.
   */
  method UnicodeEnvironmentBlock(environment: seq<Entry>, upper: string -> string)
    returns (r: Result<string, ()>, ghost sorted: seq<Entry>)
    ensures r.Err? <==> Clash(environment, upper)
    ensures r.Ok? ==> r.value == Block(sorted)
    ensures multiset(sorted) == multiset(environment) && (r.Ok? ==> StrictlyOrdered(sorted, upper))
  {
    hide Ordered, Clash, Block;
    ByUpperIsOrder(upper);
    var entries := Sort(environment, ByUpper(upper));
    sorted := entries;
    var i := 1;
    while i < |entries|
      invariant 1 <= i && forall k :: 0 < k < i && k < |entries| ==> upper(entries[k - 1].name) != upper(entries[k].name)
    {
      if upper(entries[i - 1].name) == upper(entries[i].name) {
        ClashAt(entries, i, upper);
        ClashPermutes(entries, environment, upper);
        r := Err(());
        return;
      }
      i := i + 1;
    }
    NeighboursShowClash(entries, upper);
    if Clash(environment, upper) {
      ClashPermutes(environment, entries, upper);
    }
    var block := Pack(entries);
    r := Ok(block);
  }

  lemma ClashAt(entries: seq<Entry>, i: nat, upper: string -> string)
    requires 0 < i < |entries| && upper(entries[i - 1].name) == upper(entries[i].name)
    ensures Clash(entries, upper)
  {
  }

  method Pack(entries: seq<Entry>) returns (block: string)
    ensures block == Block(entries)
  {
    block := "";
    for i := 0 to |entries|
      invariant block + Block(entries[i..]) == Block(entries)
    {
      assert entries[i..][1..] == entries[i + 1..];
      block := block + (entries[i].name + "=" + entries[i].value) + "\0";
    }
    block := block + "\0";
  }

  // ---------------------------------------------------------------- the receiver

  predicate Lacks(s: string, c: char) {
    forall i :: 0 <= i < |s| ==> s[i] != c
  }

  /** What every entry of a loaded environment satisfies. */
  predicate WellFormed(e: Entry) {
    e.name != "" && Lacks(e.name, '=') && Lacks(e.name, '\0') && Lacks(e.value, '\0')
  }

  /** A non-empty environment of well-formed entries, or an error. */
  method LoadEnvironment(parsed: seq<Entry>) returns (r: Result<seq<Entry>, ()>)
    ensures r.Ok? <==> parsed != [] && forall e <- parsed :: e.name != "" && '=' !in e.name && '\0' !in e.name && '\0' !in e.value
    ensures r.Ok? ==> r.value == parsed && forall e <- parsed :: WellFormed(e)
  {
    if parsed == [] {
      return Err(());
    }
    for i := 0 to |parsed|
      invariant forall k :: 0 <= k < i ==> WellFormed(parsed[k])
    {
      var e := parsed[i];
      if e.name == "" || (exists k :: 0 <= k < |e.name| && e.name[k] == '=') || (exists k :: 0 <= k < |e.name| && e.name[k] == '\0')
        || (exists k :: 0 <= k < |e.value| && e.value[k] == '\0') {
        assert !WellFormed(e) && e in parsed;
        return Err(());
      }
    }
    r := Ok(parsed);
  }

  /** The length of `s` before the first `c`. */
  function Until(s: string, c: char): (n: nat)
    ensures n <= |s| && Lacks(s[..n], c) && (n < |s| ==> s[n] == c)
  {
    if s == "" || s[0] == c then 0
    else
      var n := Until(s[1..], c);
      assert s[..n + 1] == [s[0]] + s[1..][..n];
      n + 1
  }

  /** Strings up to an empty one, each split at its first `=`. */
  function Decode(block: string): seq<Entry> {
    var n := Until(block, '\0');
    if n == 0 || n == |block| then []
    else
      var line := block[..n];
      var k := Until(line, '=');
      [Entry(line[..k], if k < |line| then line[k + 1..] else "")] + Decode(block[n + 1..])
  }

  lemma {:induction false} UntilIs(s: string, c: char, rest: string)
    requires Lacks(s, c)
    ensures Until(s + [c] + rest, c) == |s|
  {
    var t := s + [c] + rest;
    if s == "" {
    } else {
      UntilIs(s[1..], c, rest);
      assert t[1..] == s[1..] + [c] + rest;
    }
  }

  /** The receiver finds exactly the entries that were packed, in their order. */
  lemma {:induction false} DecodeUndoesBlock(entries: seq<Entry>)
    requires forall e <- entries :: WellFormed(e)
    ensures Decode(Block(entries)) == entries
  {
    if entries == [] {
    } else {
      var e, rest := entries[0], Block(entries[1..]);
      var line := e.name + "=" + e.value;
      DecodeUndoesBlock(entries[1..]);
      assert Block(entries) == line + "\0" + rest;
      DecodeLine(e, rest);
    }
  }

  lemma DecodeLine(e: Entry, rest: string)
    requires WellFormed(e)
    ensures Decode(e.name + "=" + e.value + "\0" + rest) == [e] + Decode(rest)
  {
    var line := e.name + "=" + e.value;
    var block := line + "\0" + rest;
    assert Lacks(line, '\0');
    UntilIs(line, '\0', rest);
    UntilIs(e.name, '=', e.value);
    assert block[..|line|] == line && block[|line| + 1..] == rest;
    assert line[..|e.name|] == e.name && line[|e.name| + 1..] == e.value;
  }

  /** The receiver of a loaded environment's block has the same bindings, whatever the order of packing. */
  lemma ReceiverSees(environment: seq<Entry>, sorted: seq<Entry>)
    requires multiset(sorted) == multiset(environment) && forall e <- environment :: WellFormed(e)
    ensures multiset(Decode(Block(sorted))) == multiset(environment)
  {
    forall e <- sorted ensures WellFormed(e) {
      assert e in multiset(sorted) && e in multiset(environment);
    }
    DecodeUndoesBlock(sorted);
  }
}
