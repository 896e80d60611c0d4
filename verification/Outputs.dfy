/**
 Release artifacts of scripts/download-release-artifacts.py: selected by name, verified by
 digest, staged by inventory, and written all or none. Any operation may fail, and other
 processes may add files to the destination at any time; ours they leave alone.
 */
module Outputs {
  import opened Text

  type Bytes = seq<int>

  type Files = map<string, Bytes>

  /** What the listing says of an artifact; `None` is a value of the wrong type or form. */
  datatype Artifact = Artifact(name: string, expired: Option<bool>, id: Option<int>, digest: Option<string>)

  datatype Member = Member(name: string, regular: bool, content: Bytes)

  /** The files that, in this run, cannot be staged, copied to the destination, or removed from it. */
  datatype Faults = Faults(unstaged: set<string>, uncopied: set<string>, undeletable: set<string>)

  // ---------------------------------------------------------------- selection

  /** The artifact at `k` is the only unexpired one of its name, with an id and a digest, and none of that name has a bad expiry. */
  predicate Picks(artifacts: seq<Artifact>, name: string, k: nat) {
    && k < |artifacts| && artifacts[k].name == name && artifacts[k].expired == Some(false)
    && artifacts[k].id.Some? && artifacts[k].id.value > 0 && artifacts[k].digest.Some?
    && forall i :: 0 <= i < |artifacts| && artifacts[i].name == name ==>
         artifacts[i].expired.Some? && (i != k ==> artifacts[i].expired.value)
  }

  method PickArtifact(artifacts: seq<Artifact>, name: string) returns (r: Option<nat>)
    ensures r.Some? ==> Picks(artifacts, name, r.value)
    ensures r.None? ==> forall k :: !Picks(artifacts, name, k)
  {
    var active: seq<nat> := [];
    for i := 0 to |artifacts|
      invariant forall j :: 0 <= j < |active| ==> active[j] < i
      invariant forall j, k :: 0 <= j < k < |active| ==> active[j] < active[k]
      invariant forall j :: 0 <= j < |active| ==> artifacts[active[j]].name == name && artifacts[active[j]].expired == Some(false)
      invariant forall k :: 0 <= k < i && artifacts[k].name == name ==> artifacts[k].expired.Some? && (artifacts[k].expired.value || k in active)
    {
      if artifacts[i].name == name {
        if artifacts[i].expired.None? {
          return None;
        }
        if !artifacts[i].expired.value {
          active := active + [i];
        }
      }
    }
    if |active| != 1 {
      assert |active| > 1 ==> active[0] < active[1];
      return None;
    }
    var a := artifacts[active[0]];
    if a.id.None? || a.id.value <= 0 || a.digest.None? {
      return None;
    }
    r := Some(active[0]);
  }

  // ---------------------------------------------------------------- staging

  predicate Distinct(names: seq<string>) {
    forall i, j :: 0 <= i < j < |names| ==> names[i] != names[j]
  }

  predicate SafeName(name: string) {
    name != "" && name != "." && name != ".." && forall i :: 0 <= i < |name| ==> name[i] != '/' && name[i] != '\\'
  }

  function Names(members: seq<Member>): (names: seq<string>)
    ensures |names| == |members| && forall i :: 0 <= i < |members| ==> names[i] == members[i].name
  {
    if members == [] then [] else [members[0].name] + Names(members[1..])
  }

  predicate SameNames(a: seq<string>, b: seq<string>) {
    (forall x <- a :: x in b) && forall x <- b :: x in a
  }

  /** The archive holds exactly the expected files, once each, with plain names. */
  predicate GoodInventory(members: seq<Member>, expected: seq<string>) {
    && Distinct(Names(members))
    && (forall i :: 0 <= i < |members| ==> SafeName(members[i].name) && members[i].regular)
    && SameNames(Names(members), expected)
  }

  /** Which archives pass: plain files, each once, under the expected names, none of which is a path. */
  lemma GoodInventoryIs(members: seq<Member>, expected: seq<string>)
    ensures GoodInventory(members, expected) <==>
      && (forall i, j :: 0 <= i < j < |members| ==> members[i].name != members[j].name)
      && (forall n :: n in expected <==> exists m <- members :: m.name == n)
      && forall m <- members :: m.regular && m.name !in {"", ".", ".."} && '/' !in m.name && '\\' !in m.name
  {
    var names := Names(members);
    assert forall n :: n in names <==> exists m <- members :: m.name == n;
    assert Distinct(names) <==> forall i, j :: 0 <= i < j < |members| ==> members[i].name != members[j].name;
    hide Names, Distinct;
    forall m <- members
      ensures SafeName(m.name) <==> m.name !in {"", ".", ".."} && '/' !in m.name && '\\' !in m.name
    {
    }
  }

  function Content(members: seq<Member>, name: string): Bytes
    requires name in Names(members)
  {
    if members[0].name == name then members[0].content else Content(members[1..], name)
  }

  /** Every member of the archive is there under its name, with its own content. */
  predicate Holding(files: Files, members: seq<Member>) {
    forall i :: 0 <= i < |members| ==> members[i].name in files && files[members[i].name] == members[i].content
  }

  lemma DistinctTail(names: seq<string>)
    requires names != [] && Distinct(names)
    ensures Distinct(names[1..]) && names[0] !in names[1..]
  {
    assert forall j :: 0 <= j < |names[1..]| ==> names[1..][j] == names[j + 1];
  }

  /** Names that differ each find their own member. */
  lemma {:induction false} ContentIs(members: seq<Member>, i: nat)
    requires i < |members| && Distinct(Names(members))
    ensures members[i].name in Names(members) && Content(members, members[i].name) == members[i].content
  {
    hide Distinct;
    assert Names(members)[i] == members[i].name;
    if i == 0 {
    } else {
      DistinctTail(Names(members));
      assert Names(members)[1..] == Names(members[1..]);
      assert Names(members[1..])[i - 1] == members[i].name;
      ContentIs(members[1..], i - 1);
    }
  }

  lemma AllHolding(members: seq<Member>, files: Files)
    requires Distinct(Names(members)) && forall n <- Names(members) :: n in files && files[n] == Content(members, n)
    ensures Holding(files, members)
  {
    forall i | 0 <= i < |members| ensures members[i].name in files && files[members[i].name] == members[i].content {
      ContentIs(members, i);
    }
  }

  /** Adds every expected member to the staged files, or fails; a name is staged once. */
  method StageZipMembers(archive: Option<seq<Member>>, expected: seq<string>, staged: Files, unstaged: set<string>)
    returns (r: Result<Files, ()>)
    ensures r.Ok? <==>
      && archive.Some? && GoodInventory(archive.value, expected) && Distinct(expected)
      && forall n <- expected :: n !in staged && n !in unstaged
    ensures r.Ok? ==> Holding(r.value, archive.value)
    ensures r.Ok? ==> r.value.Keys == staged.Keys + set n <- expected
    ensures r.Ok? ==> forall n <- staged :: n in r.value && r.value[n] == staged[n]
  {
    if archive.None? || !GoodInventory(archive.value, expected) {
      return Err(());
    }
    var members, files := archive.value, staged;
    for i := 0 to |expected|
      invariant forall j :: 0 <= j < i ==> expected[j] in files && expected[j] !in staged && expected[j] !in unstaged && files[expected[j]] == Content(members, expected[j])
      invariant Distinct(expected[..i]) && files.Keys == staged.Keys + set n <- expected[..i]
      invariant forall n <- staged :: n in files && files[n] == staged[n]
    {
      var name := expected[i];
      if name in files || name in unstaged {
        assert name in files && name !in staged ==> name in expected[..i];
        return Err(());
      }
      files := files[name := Content(members, name)];
      assert expected[..i + 1] == expected[..i] + [name];
    }
    assert expected[..|expected|] == expected;
    AllHolding(members, files);
    r := Ok(files);
  }

  // ---------------------------------------------------------------- destination

  class Destination {
    /** What other processes may create, if they ever do. */
    const others: (string, Bytes) -> bool
    var files: Files
    ghost var foreign: Files

    /** What the destination holds besides everybody else's files. */
    ghost predicate Holds(ours: Files)
      reads this
    {
      files == foreign + ours && foreign.Keys !! ours.Keys
    }

    /** Everybody else's files stay, and only others have added to them. */
    predicate Grew(was: Files, now: Files) {
      && (forall n <- was :: n in now && now[n] == was[n])
      && (forall n <- now :: n in was || others(n, now[n]))
    }

    lemma GrewMore(first: Files, second: Files, third: Files)
      requires Grew(first, second) && Grew(second, third)
      ensures Grew(first, third) && first.Keys <= second.Keys <= third.Keys
    {
    }

    lemma GrewNot(was: Files)
      ensures Grew(was, was)
    {
    }

    /** Other processes create files under names that are free. */
    method Others(ghost ours: Files)
      requires Holds(ours)
      modifies this
      ensures Holds(ours)
      ensures Grew(old(foreign), foreign)
    {
      GrewNot(foreign);
      var more: nat := *;
      while more > 0
        invariant Holds(ours)
        invariant Grew(old(foreign), foreign)
      {
        more := more - 1;
        var name: string, content: Bytes := *, *;
        if name !in files && others(name, content) {
          ghost var was := foreign;
          files := files[name := content];
          foreign := foreign[name := content];
          assert Grew(was, foreign);
          GrewMore(old(foreign), was, foreign);
        }
      }
    }

    /** `open("xb")` and copy: only a failure or a name already taken keeps the file from being complete. */
    method CreateFrom(name: string, content: Bytes, fails: bool, ghost ours: Files) returns (created: bool, complete: bool, ghost part: Bytes)
      requires Holds(ours)
      modifies this
      ensures created ==> name !in ours && Holds(ours[name := part]) && name !in old(foreign) && part <= content
      ensures !created ==> Holds(ours) && !complete
      ensures complete ==> part == content
      ensures !complete ==> fails || name in ours || name in foreign
      ensures Grew(old(foreign), foreign)
    {
      Others(ours);
      created, complete, part := false, false, [];
      var openable: bool := *;
      if name in files || (fails && !openable) {
        return;
      }
      var copied: int := *;
      var written := if fails && 0 <= copied < |content| then content[..copied] else content;
      part := written;
      files := files[name := written];
      assert files == foreign + ours[name := part];
      created, complete := true, !fails;
    }

    method Unlink(name: string, undeletable: set<string>, ghost ours: Files) returns (ok: bool)
      requires Holds(ours) && name in ours
      modifies this
      ensures ok <==> name !in undeletable
      ensures Holds(if ok then ours - {name} else ours)
      ensures Grew(old(foreign), foreign)
    {
      Others(ours);
      ok := name !in undeletable;
      if ok {
        files := files - {name};
      }
    }

    /**
     All the names with their staged content, or a failure for a reason, which undoes what was
     created: of the first `made` names nothing is left before the first that cannot be removed.
     Nobody else's file is ever touched.
     */
    method WriteOutputs(staging: Files, names: seq<string>, faults: Faults) returns (ok: bool, ghost made: nat, ghost left: Files)
      requires Holds(map[])
      modifies this
      ensures Holds(left)
      ensures ok ==> Distinct(names) && Copies(left, names, staging) && forall n <- names :: n !in old(foreign)
      ensures !ok ==> made <= |names| && left.Keys == (set n <- Kept(names[..made], faults.undeletable))
      ensures !ok ==> forall n <- left :: n in staging && left[n] <= staging[n]
      ensures !ok ==> !Distinct(names) || exists n <- names :: n in foreign || n !in staging || n in faults.uncopied
      ensures Grew(old(foreign), foreign)
    {
      made, left := 0, map[];
      Others(map[]);
      if exists i :: 0 <= i < |names| && names[i] in files {
        return false, 0, map[];
      }
      var created: seq<string> := [];
      hide Holds, Kept, Copies, Distinct, Grew;
      assert Distinct([]) && Copies(left, [], staging) by { NothingCopied(staging); }
      for i := 0 to |names|
        invariant created == names[..i] && Distinct(created) && Holds(left) && Copies(left, created, staging)
        invariant forall n <- created :: n !in old(foreign)
        invariant Grew(old(foreign), foreign)
      {
        var name := names[i];
        ghost var was := foreign;
        GrewNot(was);
        assert names[..i + 1] == names[..i] + [name];
        CopiesAre(left, created, staging);
        var added, complete := false, false;
        ghost var part: Bytes := [];
        if name in staging {
          added, complete, part := CreateFrom(name, staging[name], name in faults.uncopied, left);
        }
        GrewMore(old(foreign), was, foreign);
        if name in created {
          NotDistinct(names, i);
        }
        if added {
          OneMoreCopied(left, created, name, part, staging);
          created := created + [name];
          left := left[name := part];
        }
        if !complete {
          ghost var now := foreign;
          assert name in names;
          made := |created|;
          left := Rollback(created, faults.undeletable, left);
          GrewMore(old(foreign), now, foreign);
          return false, made, left;
        }
      }
      assert names[..|names|] == names;
      ok := true;
    }

    /** Removes the files in order until one cannot be removed. */
    method Rollback(created: seq<string>, undeletable: set<string>, ghost ours: Files) returns (ghost left: Files)
      requires Holds(ours) && Distinct(created) && ours.Keys == set n <- created
      modifies this
      ensures Holds(left) && left == Only(ours, Kept(created, undeletable))
      ensures Grew(old(foreign), foreign)
    {
      left := ours;
      assert created[0..] == created && left == Only(ours, created);
      hide Kept, Distinct, Only, Holds, Grew;
      GrewNot(foreign);
      for i := 0 to |created|
        invariant Holds(left) && left == Only(ours, created[i..]) && Distinct(created[i..])
        invariant Kept(created, undeletable) == Kept(created[i..], undeletable)
        invariant Grew(old(foreign), foreign)
      {
        KeptNext(created, i, undeletable, ours);
        ghost var was := foreign;
        var unlinked := Unlink(created[i], undeletable, left);
        GrewMore(old(foreign), was, foreign);
        if !unlinked {
          return;
        }
        left := left - {created[i]};
      }
      assert created[|created|..] == [] && Kept([], undeletable) == [] by { KeptOfNone(undeletable); }
    }
  }

  function Only(files: Files, names: seq<string>): Files
    requires forall n <- names :: n in files
  {
    map n | n in names :: files[n]
  }

  /** Exactly these names, each with its staged content. */
  predicate Copies(files: Files, names: seq<string>, staging: Files) {
    files.Keys == (set n <- names) && forall n <- names :: n in staging && files[n] == staging[n]
  }

  lemma NothingCopied(staging: Files)
    ensures Distinct([]) && Copies(map[], [], staging)
  {
  }

  lemma CopiesAre(files: Files, names: seq<string>, staging: Files)
    requires Copies(files, names, staging)
    ensures files.Keys == (set n <- names) && forall n <- files :: n in staging && files[n] == staging[n]
  {
  }

  lemma OneMoreCopied(files: Files, names: seq<string>, name: string, part: Bytes, staging: Files)
    requires Copies(files, names, staging) && Distinct(names) && name !in files && name in staging
    ensures Distinct(names + [name]) && files[name := part].Keys == set n <- names + [name]
    ensures part == staging[name] ==> Copies(files[name := part], names + [name], staging)
  {
    assert forall n :: n in names + [name] <==> n in names || n == name;
  }

  lemma NotDistinct(names: seq<string>, i: nat)
    requires i < |names| && names[i] in names[..i]
    ensures !Distinct(names)
  {
    var j :| 0 <= j < i && names[..i][j] == names[i];
    assert names[j] == names[i];
  }

  lemma KeptOfNone(undeletable: set<string>)
    ensures Kept([], undeletable) == []
  {
  }

  lemma KeptNext(created: seq<string>, i: nat, undeletable: set<string>, ours: Files)
    requires i < |created| && Distinct(created[i..]) && forall n <- created[i..] :: n in ours
    ensures created[i] in created[i..] && Distinct(created[i + 1..]) && (forall n <- created[i + 1..] :: n in ours)
    ensures Only(ours, created[i..]) - {created[i]} == Only(ours, created[i + 1..])
    ensures Kept(created[i..], undeletable) == if created[i] in undeletable then created[i..] else Kept(created[i + 1..], undeletable)
  {
    var rest := created[i + 1..];
    assert created[i..] == [created[i]] + rest;
    assert forall k :: 0 <= k < |rest| ==> rest[k] == created[i..][k + 1];
    assert created[i] !in rest;
  }

  /** What is left of these files when they are removed in order: the first that cannot be, and all after it. */
  function Kept(created: seq<string>, undeletable: set<string>): (r: seq<string>)
    ensures forall n <- r :: n in created
    ensures r == [] <==> forall n <- created :: n !in undeletable
  {
    if created == [] || created[0] in undeletable then created else Kept(created[1..], undeletable)
  }

  // ---------------------------------------------------------------- the whole run

  /** An artifact to fetch, and the files its archive must hold. */
  datatype Expected = Expected(artifact: string, members: seq<string>)

  function OutputNames(expected: seq<Expected>): (names: seq<string>)
    ensures forall n :: n in names <==> exists i :: 0 <= i < |expected| && n in expected[i].members
  {
    if expected == [] then [] else expected[0].members + OutputNames(expected[1..])
  }

  /** What the release service lists and serves, and the archive format. */
  datatype Service = Service(artifacts: seq<Artifact>, download: int -> Option<Bytes>,
                             sha256: Bytes -> string, unzip: Bytes -> Option<seq<Member>>)

  /** The one live artifact of the name downloads as an archive with the listed digest and the expected files. */
  predicate Fetched(s: Service, e: Expected, k: nat) {
    Picks(s.artifacts, e.artifact, k) && Verified(s, s.artifacts[k], e.members)
  }

  predicate Verified(s: Service, a: Artifact, members: seq<string>)
    requires a.id.Some?
  {
    var zip := s.download(a.id.value);
    && zip.Some? && a.digest == Some(s.sha256(zip.value))
    && s.unzip(zip.value).Some? && GoodInventory(s.unzip(zip.value).value, members)
  }

  function MembersOf(s: Service, e: Expected, k: nat): seq<Member>
    requires Fetched(s, e, k)
  {
    s.unzip(s.download(s.artifacts[k].id.value).value).value
  }

  lemma FetchedIs(s: Service, e: Expected, k: nat)
    requires Picks(s.artifacts, e.artifact, k)
    ensures s.artifacts[k].id.Some?
    ensures var zip := s.download(s.artifacts[k].id.value);
      && (Fetched(s, e, k) <==>
           && zip.Some? && s.artifacts[k].digest == Some(s.sha256(zip.value))
           && s.unzip(zip.value).Some? && GoodInventory(s.unzip(zip.value).value, e.members))
      && (Fetched(s, e, k) ==> s.unzip(zip.value) == Some(MembersOf(s, e, k)))
  {
  }

  /** Every expected file of the artifact has its content from that archive. */
  ghost predicate Authentic(s: Service, e: Expected, files: Files) {
    exists k :: Fetched(s, e, k) && Holding(files, MembersOf(s, e, k))
  }

  ghost predicate Available(s: Service, e: Expected) {
    exists k :: Fetched(s, e, k)
  }

  ghost predicate Stageable(s: Service, expected: seq<Expected>, unstaged: set<string>) {
    && (forall i :: 0 <= i < |expected| ==> Available(s, expected[i]))
    && Distinct(OutputNames(expected)) && forall n <- OutputNames(expected) :: n !in unstaged
  }

  lemma PicksOnce(artifacts: seq<Artifact>, name: string, k: nat, j: nat)
    requires Picks(artifacts, name, k) && Picks(artifacts, name, j)
    ensures k == j
  {
  }

  /**
   Afterwards the destination holds everyone else's files and, if the run succeeded, exactly the
   expected names, each with its content from a verified archive. If it failed, then for a reason,
   and of ours there is at most what was created from the first file on that cannot be removed.
   */
  method DownloadReleaseArtifacts(destination: Destination, expected: seq<Expected>, service: Service, faults: Faults)
    returns (ok: bool, ghost ours: Files, ghost made: nat)
    requires destination.Holds(map[])
    modifies destination
    ensures destination.Holds(ours)
    ensures ok ==> ours.Keys == (set n <- OutputNames(expected)) && forall e <- expected :: Authentic(service, e, ours)
    ensures !ok ==> made <= |OutputNames(expected)| && ours.Keys == (set n <- Kept(OutputNames(expected)[..made], faults.undeletable))
    ensures !ok && Stageable(service, expected, faults.unstaged) ==>
      exists n <- OutputNames(expected) :: n in destination.foreign || n in faults.uncopied
    ensures destination.Grew(old(destination.foreign), destination.foreign)
  {
    ok, ours, made := false, map[], 0;
    destination.Others(map[]);
    var names := OutputNames(expected);
    if exists i :: 0 <= i < |names| && names[i] in destination.files {
      return;
    }
    var staging := Stage(expected, service, faults.unstaged);
    if staging.Err? {
      return;
    }
    ok, made, ours := destination.WriteOutputs(staging.value, names, faults);
    if ok {
      assert ours == staging.value;
    }
  }

  /** `select_artifacts`. */
  method Select(expected: seq<Expected>, service: Service) returns (selected: Option<seq<nat>>)
    ensures selected.None? ==> exists i :: 0 <= i < |expected| && !Available(service, expected[i])
    ensures selected.Some? ==> |selected.value| == |expected|
    ensures selected.Some? ==> forall i :: 0 <= i < |expected| ==> Picks(service.artifacts, expected[i].artifact, selected.value[i])
  {
    var found: seq<nat> := [];
    for i := 0 to |expected|
      invariant |found| == i && forall j :: 0 <= j < i ==> Picks(service.artifacts, expected[j].artifact, found[j])
    {
      var k := PickArtifact(service.artifacts, expected[i].artifact);
      if k.None? {
        assert !Available(service, expected[i]);
        return None;
      }
      found := found + [k.value];
    }
    selected := Some(found);
  }

  /** Selects every artifact first, then downloads, verifies and unpacks one after the other. */
  method Stage(expected: seq<Expected>, service: Service, unstaged: set<string>) returns (r: Result<Files, ()>)
    ensures r.Ok? <==> Stageable(service, expected, unstaged)
    ensures r.Ok? ==> r.value.Keys == (set n <- OutputNames(expected)) && forall e <- expected :: Authentic(service, e, r.value)
  {
    var selected := Select(expected, service);
    if selected.None? {
      return Err(());
    }
    hide Picks, Available, Authentic, Distinct, OutputNames, Staged;
    var files: Files := map[];
    assert Staged(service, expected[..0], unstaged, files) by { NothingStaged(service, expected[..0], unstaged); }
    for i := 0 to |expected|
      invariant Staged(service, expected[..i], unstaged, files)
    {
      var staged := StageOne(expected, i, service, selected.value[i], files, unstaged);
      if staged.Err? {
        return Err(());
      }
      files := staged.value;
    }
    assert expected[..|expected|] == expected;
    AllStaged(service, expected, unstaged, files);
    r := Ok(files);
  }

  method StageOne(expected: seq<Expected>, i: nat, service: Service, k: nat, files: Files, unstaged: set<string>) returns (r: Result<Files, ()>)
    requires i < |expected| && Picks(service.artifacts, expected[i].artifact, k) && Staged(service, expected[..i], unstaged, files)
    ensures r.Ok? ==> Staged(service, expected[..i + 1], unstaged, r.value)
    ensures r.Err? ==> !Stageable(service, expected, unstaged)
  {
    hide Picks, Stageable, Staged, Distinct, GoodInventory, Holding, Fetched, MembersOf, OutputNames;
    var e, a := expected[i], PickedArtifact(service, expected[i], k);
    var zip := service.download(a.id.value);
    FetchedIs(service, e, k);
    if zip.None? || Some(service.sha256(zip.value)) != a.digest {
      NotFetched(service, expected, i, k, unstaged);
      return Err(());
    }
    var staged := StageZipMembers(service.unzip(zip.value), e.members, files, unstaged);
    if staged.Err? {
      NotStaged(service, expected, i, k, unstaged, files);
      return Err(());
    }
    OneMoreStaged(service, expected[..i], e, k, unstaged, files, staged.value);
    assert expected[..i] + [e] == expected[..i + 1];
    r := staged;
  }

  function PickedArtifact(s: Service, e: Expected, k: nat): (a: Artifact)
    requires Picks(s.artifacts, e.artifact, k)
    ensures a == s.artifacts[k] && a.id.Some?
  {
    s.artifacts[k]
  }

  /** `files` are those of `expected`, each from its archive. */
  ghost predicate Staged(s: Service, expected: seq<Expected>, unstaged: set<string>, files: Files) {
    && Stageable(s, expected, unstaged) && files.Keys == (set n <- OutputNames(expected))
    && forall i :: 0 <= i < |expected| ==> Authentic(s, expected[i], files)
  }

  lemma NothingStaged(s: Service, expected: seq<Expected>, unstaged: set<string>)
    requires expected == []
    ensures Staged(s, expected, unstaged, map[])
  {
  }

  lemma AllStaged(s: Service, expected: seq<Expected>, unstaged: set<string>, files: Files)
    requires Staged(s, expected, unstaged, files)
    ensures Stageable(s, expected, unstaged) && files.Keys == (set n <- OutputNames(expected))
    ensures forall e <- expected :: Authentic(s, e, files)
  {
    forall e <- expected ensures Authentic(s, e, files) {
      var i :| 0 <= i < |expected| && expected[i] == e;
    }
  }

  lemma NotFetched(s: Service, expected: seq<Expected>, i: nat, k: nat, unstaged: set<string>)
    requires i < |expected| && Picks(s.artifacts, expected[i].artifact, k) && !Fetched(s, expected[i], k)
    ensures !Stageable(s, expected, unstaged)
  {
    forall j ensures !Fetched(s, expected[i], j) {
      if Fetched(s, expected[i], j) {
        PicksOnce(s.artifacts, expected[i].artifact, k, j);
      }
    }
  }

  /** Whatever keeps the members of one archive from being staged keeps all of it from being staged. */
  lemma NotStaged(s: Service, expected: seq<Expected>, i: nat, k: nat, unstaged: set<string>, files: Files)
    requires i < |expected| && Picks(s.artifacts, expected[i].artifact, k) && Staged(s, expected[..i], unstaged, files)
    requires Fetched(s, expected[i], k) ==>
      !Distinct(expected[i].members) || exists n <- expected[i].members :: n in files || n in unstaged
    ensures !Stageable(s, expected, unstaged)
  {
    if !Fetched(s, expected[i], k) {
      NotFetched(s, expected, i, k, unstaged);
    } else {
      var before, members, after := OutputNames(expected[..i]), expected[i].members, OutputNames(expected[i + 1..]);
      OutputNamesSplit(expected, i);
      hide OutputNames, Fetched, Picks;
      if Distinct(OutputNames(expected)) {
        DistinctParts(before, members, after);
        assert forall n <- members :: n in before + members + after;
      }
    }
  }

  lemma DistinctParts(a: seq<string>, b: seq<string>, c: seq<string>)
    requires Distinct(a + b + c)
    ensures Distinct(b) && forall n <- b :: n !in a
  {
    var all := a + b + c;
    assert forall i :: 0 <= i < |a| ==> all[i] == a[i];
    assert forall i :: 0 <= i < |b| ==> all[|a| + i] == b[i];
  }

  lemma DistinctBoth(a: seq<string>, b: seq<string>)
    requires Distinct(a) && Distinct(b) && forall n <- b :: n !in a
    ensures Distinct(a + b)
  {
    var both := a + b;
    forall i, j | 0 <= i < j < |both| ensures both[i] != both[j] {
      if i < |a| <= j {
        assert both[j] == b[j - |a|] && both[i] in a;
      }
    }
  }

  lemma {:induction false} OutputNamesSplit(expected: seq<Expected>, i: nat)
    requires i < |expected|
    ensures OutputNames(expected) == OutputNames(expected[..i]) + expected[i].members + OutputNames(expected[i + 1..])
  {
    if i == 0 {
      assert expected[..0] == [];
    } else {
      OutputNamesSplit(expected[1..], i - 1);
      assert expected[1..][..i - 1] == expected[..i][1..] && expected[1..][i..] == expected[i + 1..];
    }
  }

  lemma OutputNamesGrow(expected: seq<Expected>, e: Expected)
    ensures OutputNames(expected + [e]) == OutputNames(expected) + e.members
  {
    var all := expected + [e];
    OutputNamesSplit(all, |expected|);
    assert all[..|expected|] == expected && all[|expected| + 1..] == [];
  }

  lemma StageableGrows(s: Service, expected: seq<Expected>, e: Expected, unstaged: set<string>)
    requires Stageable(s, expected, unstaged) && Available(s, e)
    requires Distinct(e.members) && forall n <- e.members :: n !in OutputNames(expected) && n !in unstaged
    ensures Stageable(s, expected + [e], unstaged)
  {
    OutputNamesGrow(expected, e);
    hide OutputNames, Available;
    DistinctBoth(OutputNames(expected), e.members);
    assert forall n <- OutputNames(expected + [e]) :: n in OutputNames(expected) || n in e.members;
  }

  lemma OneMoreStaged(s: Service, expected: seq<Expected>, e: Expected, k: nat, unstaged: set<string>, files: Files, more: Files)
    requires Staged(s, expected, unstaged, files) && Fetched(s, e, k)
    requires Distinct(e.members) && forall n <- e.members :: n !in files && n !in unstaged
    requires Holding(more, MembersOf(s, e, k))
    requires more.Keys == files.Keys + (set n <- e.members) && forall n <- files :: more[n] == files[n]
    ensures Staged(s, expected + [e], unstaged, more)
  {
    hide Available, Authentic, Distinct, Fetched, MembersOf, Holding, Stageable, OutputNames;
    AuthenticNow(s, e, k, more);
    StageableGrows(s, expected, e, unstaged);
    OutputNamesGrow(expected, e);
    AuthenticGrows(s, expected, e, files, more);
    assert forall n :: n in OutputNames(expected + [e]) <==> n in OutputNames(expected) || n in e.members;
  }

  lemma AuthenticNow(s: Service, e: Expected, k: nat, files: Files)
    requires Fetched(s, e, k) && Holding(files, MembersOf(s, e, k))
    ensures Available(s, e) && Authentic(s, e, files)
  {
    hide Fetched, Holding;
  }

  lemma AuthenticGrows(s: Service, expected: seq<Expected>, e: Expected, files: Files, more: Files)
    requires forall i :: 0 <= i < |expected| ==> Authentic(s, expected[i], files)
    requires Authentic(s, e, more) && forall n <- files :: n in more && more[n] == files[n]
    ensures forall i :: 0 <= i < |expected + [e]| ==> Authentic(s, (expected + [e])[i], more)
  {
    hide Authentic;
    forall i | 0 <= i < |expected| ensures Authentic(s, expected[i], more) {
      MoreFiles(s, expected[i], files, more);
    }
  }

  lemma MoreFiles(s: Service, e: Expected, files: Files, more: Files)
    requires Authentic(s, e, files) && forall n <- files :: n in more && more[n] == files[n]
    ensures Authentic(s, e, more)
  {
    var k :| Fetched(s, e, k) && Holding(files, MembersOf(s, e, k));
    assert Fetched(s, e, k);
  }
}
