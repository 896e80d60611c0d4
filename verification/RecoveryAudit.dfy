/**
 The budget audit of scripts/check-recovery-state-budget.py: parse every budgeted file, compare
 each budgeted enum with its expected variant count, and look for control enums nobody budgeted.
 */
module RecoveryAudit {
  import opened Text
  import opened EnumParser

  datatype Group = Core | Transition | Support

  datatype Entry = Entry(group: Group, expected: nat, path: string, name: string)

  /** What reading a source file may yield. */
  datatype Loaded = Missing | Unreadable | Text(source: string)

  type Loader = string -> Loaded

  datatype AuditError =
    | SourceMissing(path: string)
    | SourceUnreadable(path: string)
    | ParseFailed(path: string, cause: ParseError)
    | EnumMissing(path: string, name: string)
    | EnumAmbiguous(path: string, name: string, declarations: nat)
    | BudgetMismatch(path: string, name: string, expected: nat, actual: nat)
    | DiscoveryMissing(path: string)
    | DiscoveryUnreadable(path: string)
    | DiscoveryFailed(path: string, cause: ParseError)
    | Unbudgeted(path: string, name: string)

  datatype AuditResult = AuditResult(core: nat, transition: nat, support: nat, enums: nat, errors: seq<AuditError>)

  // ---------------------------------------------------------------- naming conventions

  const CONTROL_SUFFIXES := [
    "State", "Phase", "Lifecycle", "Publication", "Admission", "Completion", "Intent", "Origin",
    "Plan", "Kind", "Decision", "Stage", "Purpose", "Mode", "Operation", "Receipt", "Outcome",
    "Failure", "Error", "Disposition"]

  predicate Contains(s: string, p: string) {
    Find(s, p) >= 0
  }

  predicate EndsWith(s: string, p: string) {
    |p| <= |s| && s[|s| - |p|..] == p
  }

  function Lower(s: string): string {
    seq(|s|, i requires 0 <= i < |s| =>
      if 'A' <= s[i] <= 'Z' then (s[i] as int + 32) as char else s[i])
  }

  predicate IsGloballyBudgeted(name: string) {
    Contains(name, "Recover") || "Resume" <= name || "Reconnect" <= name || "Restore" <= name
  }

  predicate IsRecoveryPath(path: string) {
    Contains(Lower(path), "recovery") || Contains(Lower(path), "resume")
  }

  predicate IsControlEnum(path: string, name: string, scoped: set<string>) {
    || IsGloballyBudgeted(name)
    || ((path in scoped || IsRecoveryPath(path)) && exists suffix <- CONTROL_SUFFIXES :: EndsWith(name, suffix))
  }

  ghost predicate Ends(s: string, p: string) {
    exists a :: s == a + p
  }

  lemma EndsWithIs(s: string, p: string)
    ensures EndsWith(s, p) <==> Ends(s, p)
  {
    if EndsWith(s, p) {
      assert s == s[..|s| - |p|] + p;
    }
  }

  /** `t` is `s` with the upper-case ASCII letters made lower-case. */
  predicate LowerCased(s: string, t: string) {
    && |t| == |s|
    && forall i :: 0 <= i < |s| ==> t[i] == if s[i] in UPPER then LOWER[s[i] as int - 65] else s[i]
  }

  const UPPER := "ABCDEFGHIJKLMNOPQRSTUVWXYZ"
  const LOWER := "abcdefghijklmnopqrstuvwxyz"

  /** Which names are control enums, in words: what they contain, begin with and end with, and where they are. */
  lemma ControlEnumIs(path: string, name: string, scoped: set<string>, lower: string)
    requires LowerCased(path, lower)
    ensures IsControlEnum(path, name, scoped) <==>
      || Occurs(name, "Recover") || "Resume" <= name || "Reconnect" <= name || "Restore" <= name
      || ((path in scoped || Occurs(lower, "recovery") || Occurs(lower, "resume"))
          && exists suffix <- CONTROL_SUFFIXES :: Ends(name, suffix))
  {
    OccursIs(name, "Recover");
    OccursIs(lower, "recovery");
    OccursIs(lower, "resume");
    LowerIs(path, lower);
    forall suffix: string ensures EndsWith(name, suffix) <==> Ends(name, suffix) {
      EndsWithIs(name, suffix);
    }
  }

  lemma LetterAt(c: char)
    ensures c in UPPER <==> 'A' <= c <= 'Z'
    ensures c in UPPER ==> LOWER[c as int - 65] == (c as int + 32) as char
  {
    assert forall i :: 0 <= i < 26 ==> UPPER[i] as int == 65 + i && LOWER[i] as int == 97 + i;
    if 'A' <= c <= 'Z' {
      assert UPPER[c as int - 65] == c;
    }
  }

  lemma LowerIs(s: string, t: string)
    requires LowerCased(s, t)
    ensures t == Lower(s)
  {
    forall i | 0 <= i < |s| ensures t[i] == Lower(s)[i] {
      LetterAt(s[i]);
    }
  }

  // ---------------------------------------------------------------- what a clean audit means

  function Paths(entries: seq<Entry>): set<string> {
    set e <- entries :: e.path
  }

  function Budgeted(entries: seq<Entry>): set<(string, string)> {
    set e <- entries :: (e.path, e.name)
  }

  /** The declarations `parse_enums` finds, if the file can be read and parsed. */
  function Declared(load: Loader, path: string): Option<Counted> {
    match load(path)
    case Text(source) => if ParseEnums(source).Ok? then Some(ParseEnums(source).value) else None
    case _ => None
  }

  function Discovered(load: Loader, path: string): Option<seq<string>> {
    match load(path)
    case Text(source) => if DiscoverNames(source).Ok? then Some(DiscoverNames(source).value) else None
    case _ => None
  }

  /** The counts of the declarations of `name`, in order. */
  function CountsOf(declared: Counted, name: string): seq<nat> {
    if declared == [] then []
    else (if declared[0].0 == name then [declared[0].1] else []) + CountsOf(declared[1..], name)
  }

  /** The entry's file parses and declares the enum exactly once, with the expected count. */
  predicate Met(e: Entry, load: Loader) {
    Declared(load, e.path).Some? && CountsOf(Declared(load, e.path).value, e.name) == [e.expected]
  }

  /** The one declaration of the name, at index `i`, has so many variants. */
  predicate DeclaredOnce(declared: Counted, name: string, count: nat, i: nat) {
    i < |declared| && declared[i] == (name, count) && forall j :: 0 <= j < |declared| && j != i ==> declared[j].0 != name
  }

  lemma {:induction false} NoCounts(declared: Counted, name: string)
    ensures CountsOf(declared, name) == [] <==> forall i :: 0 <= i < |declared| ==> declared[i].0 != name
  {
    if declared != [] {
      NoCounts(declared[1..], name);
      assert forall i :: 0 < i < |declared| ==> declared[i] == declared[1..][i - 1];
    }
  }

  lemma {:induction false} OneCount(declared: Counted, name: string, count: nat)
    ensures CountsOf(declared, name) == [count] <==> exists i: nat :: DeclaredOnce(declared, name, count, i)
  {
    if declared != [] {
      var rest := declared[1..];
      assert forall i :: 0 < i < |declared| ==> declared[i] == rest[i - 1];
      OneCount(rest, name, count);
      NoCounts(rest, name);
      if declared[0].0 == name {
        var counts := CountsOf(rest, name);
        assert CountsOf(declared, name) == [declared[0].1] + counts;
        if [declared[0].1] + counts == [count] {
          assert |counts| == 0 && ([declared[0].1] + counts)[0] == declared[0].1;
          assert DeclaredOnce(declared, name, count, 0);
        }
      } else {
        if i: nat :| DeclaredOnce(rest, name, count, i) {
          assert DeclaredOnce(declared, name, count, i + 1);
        }
        if i: nat :| DeclaredOnce(declared, name, count, i) {
          assert i > 0;
          assert DeclaredOnce(rest, name, count, i - 1);
        }
      }
    }
  }

  /** An entry is met by a file that can be read and parsed and has exactly one declaration of the enum, of the expected size. */
  lemma MetIs(e: Entry, load: Loader)
    ensures Met(e, load) <==>
      && load(e.path).Text? && ParseEnums(load(e.path).source).Ok?
      && exists i: nat :: DeclaredOnce(ParseEnums(load(e.path).source).value, e.name, e.expected, i)
  {
    hide ParseEnums, CountsOf, DeclaredOnce;
    match load(e.path)
    case Text(source) =>
      if ParseEnums(source).Ok? {
        OneCount(ParseEnums(source).value, e.name, e.expected);
      }
    case _ =>
  }

  /** The file can be inspected and every control enum in it is budgeted. */
  predicate Covered(path: string, entries: seq<Entry>, load: Loader) {
    && Discovered(load, path).Some?
    && forall name <- Discovered(load, path).value ::
         IsControlEnum(path, name, Paths(entries)) ==> (path, name) in Budgeted(entries)
  }

  predicate Clean(entries: seq<Entry>, load: Loader, discovery: seq<string>) {
    && (forall e <- entries :: Met(e, load))
    && (forall path <- discovery :: Covered(path, entries, load))
  }

  function Total(entries: seq<Entry>, group: Group): nat {
    if entries == [] then 0
    else (if entries[0].group == group then entries[0].expected else 0) + Total(entries[1..], group)
  }

  lemma {:induction false} TotalAppends(entries: seq<Entry>, e: Entry, group: Group)
    ensures Total(entries + [e], group) == Total(entries, group) + (if e.group == group then e.expected else 0)
  {
    if entries == [] {
      assert entries + [e] == [e];
    } else {
      assert (entries + [e])[1..] == entries[1..] + [e];
      TotalAppends(entries[1..], e, group);
    }
  }

  function EntryPaths(entries: seq<Entry>): seq<string> {
    seq(|entries|, i requires 0 <= i < |entries| => entries[i].path)
  }

  /** A file that parses can also be inspected, and shows the same names. */
  lemma ParsedIsDiscovered(load: Loader, path: string)
    ensures Declared(load, path).Some? ==> Discovered(load, path) == Some(Names(Declared(load, path).value))
  {
    match load(path)
    case Text(source) => NamesAgree(source);
    case _ =>
  }

  // ---------------------------------------------------------------- the program

  /** The declarations of each budgeted file; every file that has none is an error. */
  method ParseAll(entries: seq<Entry>, load: Loader)
    returns (parsed: map<string, Counted>, failed: set<string>, errors: seq<AuditError>)
    ensures parsed.Keys !! failed && parsed.Keys + failed == Paths(entries)
    ensures forall path <- parsed :: Declared(load, path) == Some(parsed[path])
    ensures forall path <- failed :: Declared(load, path).None?
    ensures errors == [] <==> failed == {}
  {
    parsed, failed, errors := map[], {}, [];
    for i := 0 to |entries|
      invariant parsed.Keys !! failed && parsed.Keys + failed == Paths(entries[..i])
      invariant forall path <- parsed :: Declared(load, path) == Some(parsed[path])
      invariant forall path <- failed :: Declared(load, path).None?
      invariant errors == [] <==> failed == {}
    {
      var path := entries[i].path;
      assert Paths(entries[..i + 1]) == Paths(entries[..i]) + {path} by {
        assert entries[..i + 1] == entries[..i] + [entries[i]];
      }
      if path in parsed || path in failed {
        continue;
      }
      match load(path) {
        case Missing =>
          errors := errors + [SourceMissing(path)];
          failed := failed + {path};
        case Unreadable =>
          errors := errors + [SourceUnreadable(path)];
          failed := failed + {path};
        case Text(source) =>
          var enums := ParseSource(source);
          if enums.Ok? {
            parsed := parsed[path := enums.value];
          } else {
            errors := errors + [ParseFailed(path, enums.error)];
            failed := failed + {path};
          }
      }
    }
    assert entries[..|entries|] == entries;
  }

  /** One entry against the parsed files: the count found, if it is unique, and any error. */
  method CheckEntry(e: Entry, parsed: map<string, Counted>, load: Loader)
    returns (actual: Option<nat>, errors: seq<AuditError>)
    requires e.path in parsed ==> Declared(load, e.path) == Some(parsed[e.path])
    ensures e.path in parsed ==> (errors == [] <==> Met(e, load))
    ensures e.path in parsed && errors == [] ==> actual == Some(e.expected)
  {
    var declarations := if e.path in parsed then CountsOf(parsed[e.path], e.name) else [];
    if declarations == [] {
      return None, if e.path in parsed then [EnumMissing(e.path, e.name)] else [];
    }
    if |declarations| != 1 {
      return None, [EnumAmbiguous(e.path, e.name, |declarations|)];
    }
    assert declarations == [declarations[0]];
    return Some(declarations[0]),
      if declarations[0] != e.expected then [BudgetMismatch(e.path, e.name, e.expected, declarations[0])] else [];
  }

  /** The names to consider in one discovery file, or the error that prevents it. */
  method NamesIn(path: string, parsed: map<string, Counted>, load: Loader)
    returns (r: Result<seq<string>, AuditError>)
    requires path in parsed ==> Declared(load, path) == Some(parsed[path])
    ensures r.Ok? <==> Discovered(load, path).Some?
    ensures r.Ok? ==> r.value == Discovered(load, path).value
  {
    if path in parsed {
      ParsedIsDiscovered(load, path);
      return Ok(Names(parsed[path]));
    }
    match load(path) {
      case Missing => return Err(DiscoveryMissing(path));
      case Unreadable => return Err(DiscoveryUnreadable(path));
      case Text(source) =>
        var names := DiscoverSource(source);
        return if names.Ok? then Ok(names.value) else Err(DiscoveryFailed(path, names.error));
    }
  }

  /** The unbudgeted control enums of one file. */
  method UnbudgetedIn(path: string, names: seq<string>, entries: seq<Entry>) returns (errors: seq<AuditError>)
    ensures errors == [] <==> forall name <- names ::
      IsControlEnum(path, name, Paths(entries)) ==> (path, name) in Budgeted(entries)
  {
    errors := [];
    for i := 0 to |names|
      invariant errors == [] <==> forall name <- names[..i] ::
        IsControlEnum(path, name, Paths(entries)) ==> (path, name) in Budgeted(entries)
    {
      assert names[..i + 1] == names[..i] + [names[i]];
      if IsControlEnum(path, names[i], Paths(entries)) && (path, names[i]) !in Budgeted(entries) {
        errors := errors + [Unbudgeted(path, names[i])];
      }
    }
    assert names[..|names|] == names;
  }

  lemma UnreadableIsUnmet(entries: seq<Entry>, failed: set<string>, load: Loader)
    requires failed != {} && failed <= Paths(entries)
    requires forall path <- failed :: Declared(load, path).None?
    ensures exists e <- entries :: !Met(e, load)
  {
    var path :| path in failed;
    var e :| e in entries && e.path == path;
    assert !Met(e, load);
  }

  /** The entry loop, after `ParseAll`. */
  method CheckEntries(entries: seq<Entry>, parsed: map<string, Counted>, failed: set<string>, load: Loader)
    returns (core: nat, transition: nat, support: nat, errors: seq<AuditError>)
    requires parsed.Keys + failed == Paths(entries)
    requires forall path <- parsed :: Declared(load, path) == Some(parsed[path])
    requires forall path <- failed :: Declared(load, path).None?
    ensures failed == {} ==> (errors == [] <==> forall e <- entries :: Met(e, load))
    ensures failed == {} && errors == [] ==>
      && core == Total(entries, Core)
      && transition == Total(entries, Transition)
      && support == Total(entries, Support)
  {
    core, transition, support, errors := 0, 0, 0, [];
    for i := 0 to |entries|
      invariant failed == {} ==> (errors == [] <==> forall e <- entries[..i] :: Met(e, load))
      invariant failed == {} && errors == [] ==>
        && core == Total(entries[..i], Core)
        && transition == Total(entries[..i], Transition)
        && support == Total(entries[..i], Support)
    {
      var e := entries[i];
      assert e.path in Paths(entries);
      assert entries[..i + 1] == entries[..i] + [e];
      TotalAppends(entries[..i], e, Core);
      TotalAppends(entries[..i], e, Transition);
      TotalAppends(entries[..i], e, Support);
      var actual, found := CheckEntry(e, parsed, load);
      errors := errors + found;
      if actual.Some? {
        match e.group {
          case Core => core := core + actual.value;
          case Transition => transition := transition + actual.value;
          case Support => support := support + actual.value;
        }
      }
    }
    assert entries[..|entries|] == entries;
  }

  /** The discovery loop: each distinct path once, files that already failed left out. */
  method CheckDiscovery(discovery: seq<string>, entries: seq<Entry>, parsed: map<string, Counted>,
                        failed: set<string>, load: Loader)
    returns (errors: seq<AuditError>)
    requires forall path <- parsed :: Declared(load, path) == Some(parsed[path])
    ensures failed == {} ==> (errors == [] <==> forall path <- discovery :: Covered(path, entries, load))
  {
    errors := [];
    var seen: set<string> := {};
    for i := 0 to |discovery|
      invariant seen == set path <- discovery[..i]
      invariant failed == {} ==> (errors == [] <==> forall path <- discovery[..i] :: Covered(path, entries, load))
    {
      var path := discovery[i];
      assert discovery[..i + 1] == discovery[..i] + [path];
      if path in seen {
        continue;
      }
      seen := seen + {path};
      if path in failed {
        continue;
      }
      var names := NamesIn(path, parsed, load);
      if names.Err? {
        errors := errors + [names.error];
      } else {
        var found := UnbudgetedIn(path, names.value, entries);
        errors := errors + found;
      }
    }
    assert discovery[..|discovery|] == discovery;
  }

  /**
   `audit`: no error exactly when every entry is met and every discovery file is covered, and
   then the three totals are the budget's own.
   */
  method Audit(entries: seq<Entry>, load: Loader, discoveryPaths: Option<seq<string>>)
    returns (r: AuditResult)
    ensures var discovery := if discoveryPaths.Some? then discoveryPaths.value else EntryPaths(entries);
      r.errors == [] <==> Clean(entries, load, discovery)
    ensures r.enums == |entries|
    ensures r.errors == [] ==>
      && r.core == Total(entries, Core)
      && r.transition == Total(entries, Transition)
      && r.support == Total(entries, Support)
  {
    var parsed, failed, errors := ParseAll(entries, load);
    if failed != {} {
      UnreadableIsUnmet(entries, failed, load);
    }
    var core, transition, support, unmet := CheckEntries(entries, parsed, failed, load);
    var discovery := if discoveryPaths.Some? then discoveryPaths.value else EntryPaths(entries);
    var uncovered := CheckDiscovery(discovery, entries, parsed, failed, load);
    return AuditResult(core, transition, support, |entries|, errors + unmet + uncovered);
  }
}
