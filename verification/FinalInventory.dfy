/**
 Freezing the owner's process family and taking the final inventory, from
 examples/tui_perf_sampler.rs. The recorded descendants are kept as a map from identity: the
 program keeps a vector sorted by that key, with one entry per key.
 */
module FinalInventory {
  import opened Text
  import opened ProcessWorld
  import opened ProcessTree
  import opened SystemCalls

  type Inventory = map<Key, Identity>

  /** Executables already looked up, by identity. */
  type Cache = map<Key, string>

  /** The identity of the owner or the sampler as captured when it was started. */
  datatype LiveIdentity = LiveIdentity(pid: Pid, start: nat, group: Option<Pid>, exe: string)

  predicate Keyed(inventory: Inventory) {
    forall k <- inventory :: inventory[k].pid == k.0 && inventory[k].start == k.1
  }

  /** Whom the discovery looks for: the owner's descendants and, but for the sampler, its group. */
  ghost function Candidates(t: Table, a: Actors): set<Pid> {
    set p | p in t && p != a.owner && (Descends(t, a.owner, p) || (p != a.sampler && t[p].group == a.owner))
  }

  /** The cache wins over what the table says now. */
  function ExeOf(t: Table, cache: Cache, p: Pid): Option<string>
    requires p in t
  {
    if KeyOf(t, p) in cache then Some(cache[KeyOf(t, p)]) else t[p].exe
  }

  function IdentityOf(t: Table, p: Pid, exe: string): Identity
    requires p in t
  {
    Identity(p, t[p].start, exe, t[p].command)
  }

  function KeysOf(t: Table, pids: set<Pid>): set<Key>
    requires pids <= t.Keys
  {
    set p | p in pids :: KeyOf(t, p)
  }

  /** Exactly the candidates are in the inventory, each under what was last known of its executable. */
  ghost predicate Discovered(t: Table, cache: Cache, pids: set<Pid>, found: Inventory, cache': Cache)
    requires pids <= t.Keys
  {
    && found.Keys == KeysOf(t, pids)
    && (forall p <- pids :: ExeOf(t, cache, p).Some? && found[KeyOf(t, p)] == IdentityOf(t, p, ExeOf(t, cache, p).value))
    && cache'.Keys == cache.Keys + found.Keys
    && (forall k <- cache :: cache'[k] == cache[k])
    && (forall k <- found :: cache'[k] == found[k].exe)
  }

  /** Look every process up, unless an executable cannot be read yet. */
  method Describe(t: Table, cache: Cache, pids: set<Pid>) returns (found: Option<Inventory>, newCache: Cache)
    requires pids <= t.Keys
    ensures found.None? <==> exists p <- pids :: ExeOf(t, cache, p).None?
    ensures found.Some? ==> Discovered(t, cache, pids, found.value, newCache)
  {
    var inventory: Inventory := map[];
    newCache := cache;
    var todo := pids;
    while todo != {}
      invariant todo <= pids
      invariant Discovered(t, cache, pids - todo, inventory, newCache)
    {
      var p :| p in todo;
      ghost var done := pids - todo;
      var exe := ExeOf(t, newCache, p);
      assert KeyOf(t, p) !in KeysOf(t, done);
      assert exe == ExeOf(t, cache, p);
      if exe.None? {
        return None, newCache;
      }
      assert KeysOf(t, done + {p}) == KeysOf(t, done) + {KeyOf(t, p)};
      inventory := inventory[KeyOf(t, p) := IdentityOf(t, p, exe.value)];
      newCache := newCache[KeyOf(t, p) := exe.value];
      todo := todo - {p};
      assert pids - todo == done + {p};
    }
    assert pids - todo == pids;
    return Some(inventory), newCache;
  }

  /**
   `discover_descendant_identities`: nothing if the owner is gone or some candidate's executable
   cannot be read yet.
   */
  method Discover(t: Table, cache: Cache, a: Actors) returns (found: Option<Inventory>, newCache: Cache)
    ensures found.None? <==> a.owner !in t || exists p <- Candidates(t, a) :: ExeOf(t, cache, p).None?
    ensures found.Some? ==> a.owner in t && Discovered(t, cache, Candidates(t, a), found.value, newCache)
  {
    if a.owner !in t {
      return None, cache;
    }
    var below := DescendantPids(t, a.owner);
    var pids := (set p | p in below && p != a.owner)
              + (set p | p in t && p != a.owner && p != a.sampler && t[p].group == a.owner);
    assert pids == Candidates(t, a) by {
      assert forall p :: p in below <==> p in Elements(below);
    }
    found, newCache := Describe(t, cache, pids);
  }

  /** `merge_live_descendants`: recorded descendants that are still exactly there stay recorded. */
  function Merge(t: Table, previous: Inventory, current: Inventory): Inventory {
    (map k <- previous | previous[k].pid in t && Matches(previous[k], t[previous[k].pid]) :: previous[k]) + current
  }

  // ---------------------------------------------------------------- checks before a group signal

  /** `live_process_identity_matches`, and the group besides. */
  predicate ExactlyIs(owner: LiveIdentity, p: Process) {
    p.start == owner.start && p.exe == Some(owner.exe) && owner.group == Some(p.group)
  }

  /** `exact_owner_process_group`: the owner's group, if the owner is exactly who it was. */
  method ExactOwnerGroup(k: Kernel, owner: LiveIdentity) returns (group: Option<Pid>)
    requires k.Valid() && Lawful(k.log, k.a) && owner.pid == k.a.owner && owner.start == k.a.start
    modifies k`world, k`script, k`log
    ensures k.Valid() && Later(old(k.world), k.world, k.a) && Lawful(k.log, k.a)
    ensures |k.script| <= |old(k.script)|
    ensures Extends(k.log, old(k.log)) && forall i :: |old(k.log)| <= i < |k.log| ==> k.log[i].Checked?
    ensures group.Some? ==> JustChecked(k.log, k.a) && k.log[|k.log| - 1].exe == Some(owner.exe)
    ensures group.Some? ==> group.value == k.a.owner && group.value != k.a.samplerGroup && !k.reaped
    ensures Calm(old(k.script)) ==> Calm(k.script) && k.world == old(k.world) && |old(k.script)| <= |k.script| + 1
    ensures group.Some? <==>
      && owner.group == Some(owner.pid) && owner.pid != k.a.samplerGroup
      && owner.pid in k.world.table && ExactlyIs(owner, k.world.table[owner.pid])
  {
    LaterItself(k.world, k.a);
    if owner.group.None? || owner.group.value != owner.pid || owner.group.value == k.a.samplerGroup {
      return None;
    }
    k.Breathe();
    var t := k.world.table;
    if owner.pid !in t || t[owner.pid].start != owner.start || t[owner.pid].exe != Some(owner.exe) {
      return None;
    }
    if t[owner.pid].group != owner.group.value {
      return None;
    }
    k.Confirm(Some(owner.exe));
    return owner.group;
  }

  predicate AllStopped(t: Table, group: Pid) {
    Members(t, group) != {} && forall p <- Members(t, group) :: t[p].status == Stopped
  }

  /** `wait_for_dedicated_group_stop`: until the deadline, look for a fully stopped group. */
  method WaitForGroupStop(k: Kernel, group: Pid) returns (stopped: bool)
    requires k.Valid()
    modifies k`world, k`script
    ensures k.Valid() && Later(old(k.world), k.world, k.a)
    ensures |k.script| <= |old(k.script)|
    ensures Calm(old(k.script)) ==> Calm(k.script) && k.world == old(k.world)
    ensures Calm(old(k.script)) && old(k.script) != [] && AllStopped(old(k.world.table), group) ==>
      stopped && |old(k.script)| <= |k.script| + 1
    ensures stopped ==> Members(k.world.table, group) != {}
    ensures stopped ==> forall p <- Members(k.world.table, group) :: p in k.world.table && k.world.table[p].status == Stopped
  {
    LaterItself(k.world, k.a);
    while k.script != []
      invariant k.Valid() && Later(old(k.world), k.world, k.a)
      invariant |k.script| <= |old(k.script)|
      invariant Calm(old(k.script)) ==> Calm(k.script) && k.world == old(k.world)
      invariant Calm(old(k.script)) && AllStopped(old(k.world.table), group) ==> k.script == old(k.script)
      decreases |k.script|
    {
      ghost var before := k.world;
      k.Breathe();
      LaterTransitive(old(k.world), before, k.world, k.a);
      var members := Members(k.world.table, group);
      if members != {} && forall p <- members :: k.world.table[p].status == Stopped {
        return true;
      }
    }
    return false;
  }

  // ---------------------------------------------------------------- the freeze

  /** Identities a run of the sampler may hold: real ones, never init's, the sampler's or the owner's. */
  ghost predicate Recordable(inventory: Inventory, w: World, a: Actors) {
    && Keyed(inventory)
    && forall k <- inventory :: k in w.born && k.0 != INIT && k.0 != a.sampler && k.0 != a.owner
  }

  // ---------------------------------------------------------------- whom the sampler signals

  /** Before entry `upto`, the identity was recorded, or a snapshot from `start` on showed it below the owner or in its group. */
  ghost predicate SourcedBy(log: seq<Entry>, start: nat, upto: nat, a: Actors, known: set<Key>, key: Key) {
    key in known ||
    exists j :: start <= j < upto && j < |log| && log[j].Snapshot? && ShowsBelow(log[j].table, a, key)
  }

  ghost predicate ShowsBelow(t: Table, a: Actors, key: Key) {
    key.0 in t && KeyOf(t, key.0) == key && key.0 != a.owner && InFamily(t, a.owner, key.0)
  }

  ghost predicate AllSourced(log: seq<Entry>, start: nat, a: Actors, known: set<Key>, keys: set<Key>) {
    forall key <- keys :: SourcedBy(log, start, |log|, a, known, key)
  }

  /** Every single process that was signalled since `start` had been recorded or shown before. */
  ghost predicate Conduct(log: seq<Entry>, start: nat, a: Actors, known: set<Key>) {
    forall i :: start <= i < |log| && (log[i].Halted? || log[i].Shot?) ==>
      SourcedBy(log, start, i, a, known, (log[i].id.pid, log[i].id.start))
  }

  /** The entries after `before` signal no single process but those of the inventory. */
  predicate Within(log: seq<Entry>, before: seq<Entry>, inventory: Inventory) {
    && Extends(log, before)
    && forall i :: |before| <= i < |log| && (log[i].Halted? || log[i].Shot?) ==> Recorders(log[i].id, inventory)
  }

  predicate Recorders(id: Identity, inventory: Inventory) {
    (id.pid, id.start) in inventory && inventory[(id.pid, id.start)] == id
  }

  lemma SourcedStays(before: seq<Entry>, log: seq<Entry>, start: nat, upto: nat, more: nat, a: Actors, known: set<Key>, key: Key)
    requires SourcedBy(before, start, upto, a, known, key) && Extends(log, before) && upto <= more
    ensures SourcedBy(log, start, more, a, known, key)
  {
    if key !in known {
      var j :| start <= j < upto && j < |before| && before[j].Snapshot? && ShowsBelow(before[j].table, a, key);
      assert log[j] == log[..|before|][j];
    }
  }

  lemma AllSourcedStay(before: seq<Entry>, log: seq<Entry>, start: nat, a: Actors, known: set<Key>, keys: set<Key>)
    requires AllSourced(before, start, a, known, keys) && Extends(log, before)
    ensures AllSourced(log, start, a, known, keys)
  {
    hide SourcedBy;
    forall key <- keys ensures SourcedBy(log, start, |log|, a, known, key) {
      SourcedStays(before, log, start, |before|, |log|, a, known, key);
    }
  }

  lemma ConductStays(before: seq<Entry>, log: seq<Entry>, start: nat, a: Actors, known: set<Key>, inventory: Inventory)
    requires Conduct(before, start, a, known) && Within(log, before, inventory)
    requires AllSourced(before, start, a, known, inventory.Keys)
    ensures Conduct(log, start, a, known)
  {
    hide SourcedBy;
    forall i | start <= i < |log| && (log[i].Halted? || log[i].Shot?)
      ensures SourcedBy(log, start, i, a, known, (log[i].id.pid, log[i].id.start))
    {
      if i < |before| {
        assert log[i] == log[..|before|][i];
        SourcedStays(before, log, start, i, i, a, known, (log[i].id.pid, log[i].id.start));
      } else {
        SourcedStays(before, log, start, |before|, i, a, known, (log[i].id.pid, log[i].id.start));
      }
    }
  }

  lemma WithinOn(first: seq<Entry>, second: seq<Entry>, third: seq<Entry>, inventory: Inventory)
    requires Within(second, first, inventory) && Within(third, second, inventory)
    ensures Within(third, first, inventory)
  {
    ExtendsOn(first, second, third);
    forall i | |first| <= i < |third| && (third[i].Halted? || third[i].Shot?) ensures Recorders(third[i].id, inventory) {
      if i < |second| {
        assert third[i] == third[..|second|][i];
      }
    }
  }

  lemma WithinNote(log: seq<Entry>, e: Entry, inventory: Inventory)
    requires e.Halted? || e.Shot? ==> Recorders(e.id, inventory)
    ensures Within(log + [e], log, inventory) && Within(log, log, inventory)
  {
  }

  /** What a snapshot's merged inventory lists was recorded before, or is below the owner in that snapshot. */
  lemma MergedSourced(log: seq<Entry>, start: nat, a: Actors, known: set<Key>, previous: Inventory, cache: Cache,
                      current: Inventory, newCache: Cache)
    requires start < |log| && log[|log| - 1].Snapshot? && AllSourced(log, start, a, known, previous.Keys)
    requires var t := log[|log| - 1].table; Discovered(t, cache, Candidates(t, a), current, newCache)
    ensures AllSourced(log, start, a, known, Merge(log[|log| - 1].table, previous, current).Keys)
  {
    var t := log[|log| - 1].table;
    hide Descends;
    forall key <- Merge(t, previous, current) ensures SourcedBy(log, start, |log|, a, known, key) {
      if key in current {
        var p :| p in Candidates(t, a) && KeyOf(t, p) == key;
        assert ShowsBelow(t, a, key);
      }
    }
  }

  /** SIGSTOP to one recorded descendant, if the snapshot `t` shows it exactly. */
  method StopIfShown(k: Kernel, t: Table, key: Key, inventory: Inventory) returns (ok: bool)
    requires k.Valid() && Recordable(inventory, k.world, k.a) && key in inventory
    requires Lawful(k.log, k.a) && LastSnapshot(k.log) == Some(t)
    modifies k`world, k`script, k`quelled, k`log
    ensures k.Valid() && Later(old(k.world), k.world, k.a) && old(k.quelled) <= k.quelled
    ensures |k.script| <= |old(k.script)|
    ensures Lawful(k.log, k.a) && LastSnapshot(k.log) == Some(t) && Within(k.log, old(k.log), inventory)
    ensures ok && key.0 in t && Matches(inventory[key], t[key.0]) ==> key in k.quelled
    ensures Calmly(old(k.script), old(k.world.table), k.script, k.world.table, 1)
    ensures Calm(old(k.script)) && t.Keys <= old(k.world.table).Keys ==> ok
  {
    LaterItself(k.world, k.a);
    WithinNote(k.log, Snapshot(t), inventory);
    WithinNote(k.log, Halted(inventory[key]), inventory);
    CalmlyYet(k.script, k.world.table);
    CalmlyMore(k.script, k.world.table, k.script, k.world.table, 0, 1);
    hide Lawful, Within, LastSnapshot, Calm, Calmly, Later, Quelled, Truthful, WorldOk;
    var id := inventory[key];
    if id.pid in t && Matches(id, t[id.pid]) {
      ok := k.StopProcess(id);
    } else {
      ok := true;
    }
  }

  lemma ChainCalm(first: seq<seq<Event>>, t: Table, second: seq<seq<Event>>, u: Table, third: seq<seq<Event>>, v: Table, spent: nat, all: nat)
    requires Calmly(first, t, second, u, spent) && Calmly(second, u, third, v, 1) && spent < all
    ensures Calmly(first, t, third, v, spent + 1) && Calmly(first, t, third, v, all)
    ensures Calm(first) ==> Calm(second) && t.Keys == u.Keys
  {
    CalmlyOn(first, t, second, u, third, v, spent, 1);
    CalmlyMore(first, t, third, v, spent + 1, all);
    if Calm(first) {
      CalmlyNow(first, t, second, u, spent);
    }
  }

  /** `Calmly`, with `more` turns besides one for each entry. */
  predicate CalmlyFor(was: seq<seq<Event>>, t: Table, now: seq<seq<Event>>, u: Table, more: nat, inventory: Inventory) {
    Calmly(was, t, now, u, more + |inventory.Keys|)
  }

  lemma CalmlyLooked(was: seq<seq<Event>>, t: Table, now: seq<seq<Event>>, u: Table, inventory: Inventory)
    requires Calm(was) ==> Calm(now) && |was| <= |now| + 1 && t == u
    ensures Calmly(was, t, now, u, 1) && CalmlyFor(was, t, now, u, 1, inventory)
  {
    CalmlyStopped(was, t, now, u, {});
    CalmlyMore(was, t, now, u, 1, 1 + |inventory.Keys|);
    hide Calm, Calmly;
  }

  lemma CalmlyRound(first: seq<seq<Event>>, t: Table, second: seq<seq<Event>>, u: Table, third: seq<seq<Event>>, v: Table, inventory: Inventory)
    requires Calmly(first, t, second, u, 1) && CalmlyFor(second, u, third, v, 0, inventory)
    ensures CalmlyFor(first, t, third, v, 1, inventory)
  {
    CalmlyOn(first, t, second, u, third, v, 1, |inventory.Keys|);
    hide Calmly;
  }

  predicate Covered(keys: set<Key>, all: set<Key>) {
    keys <= all
  }

  lemma CoveredIs(keys: set<Key>, all: set<Key>)
    requires keys <= all
    ensures Covered(keys, all)
  {
  }

  lemma CoveredIn(key: Key, some: set<Key>, all: set<Key>)
    requires key in some && Covered(some, all)
    ensures key in all
  {
  }

  lemma CoveredStill(keys: set<Key>, some: set<Key>, all: set<Key>)
    requires Covered(keys, some) && Covered(some, all)
    ensures Covered(keys, all)
  {
  }

  /** Those of `keys` that the snapshot shows exactly are stopped. */
  predicate ShownStopped(t: Table, inventory: Inventory, keys: set<Key>, quelled: set<Key>)
    requires keys <= inventory.Keys
  {
    forall key <- keys :: key.0 in t && Matches(inventory[key], t[key.0]) ==> key in quelled
  }

  /** Send SIGSTOP to every recorded descendant that the snapshot `t` shows exactly, and to nobody else. */
  method StopRecorded(k: Kernel, t: Table, inventory: Inventory) returns (sent: bool)
    requires k.Valid() && Recordable(inventory, k.world, k.a)
    requires Lawful(k.log, k.a) && LastSnapshot(k.log) == Some(t)
    modifies k`world, k`script, k`quelled, k`log
    ensures k.Valid() && Later(old(k.world), k.world, k.a) && Covered(old(k.quelled), k.quelled)
    ensures |k.script| <= |old(k.script)|
    ensures Lawful(k.log, k.a) && Within(k.log, old(k.log), inventory)
    ensures sent ==> ShownStopped(t, inventory, inventory.Keys, k.quelled)
    ensures CalmlyFor(old(k.script), old(k.world.table), k.script, k.world.table, 0, inventory)
    ensures Calm(old(k.script)) && t.Keys <= old(k.world.table).Keys ==> sent
  {
    LaterItself(k.world, k.a);
    WithinNote(k.log, Snapshot(t), inventory);
    CalmlyYet(k.script, k.world.table);
    hide Lawful, Within, LastSnapshot, Calm, Calmly, Later, Recordable, Quelled, Truthful, WorldOk, Matches;
    var todo := inventory.Keys;
    ghost var spent: nat := 0;
    while todo != {}
      invariant todo <= inventory.Keys && spent + |todo| == |inventory.Keys|
      invariant k.Valid() && Later(old(k.world), k.world, k.a) && old(k.quelled) <= k.quelled
      invariant Recordable(inventory, k.world, k.a) && |k.script| <= |old(k.script)|
      invariant Calmly(old(k.script), old(k.world.table), k.script, k.world.table, spent)
      invariant Lawful(k.log, k.a) && LastSnapshot(k.log) == Some(t) && Within(k.log, old(k.log), inventory)
      invariant ShownStopped(t, inventory, inventory.Keys - todo, k.quelled)
    {
      var key :| key in todo;
      ghost var before, log, script := k.world, k.log, k.script;
      var ok := StopIfShown(k, t, key, inventory);
      ChainCalm(old(k.script), old(k.world.table), script, before.table, k.script, k.world.table, spent, |inventory.Keys|);
      LaterTransitive(old(k.world), before, k.world, k.a);
      RecordableLater(inventory, before, k.world, k.a);
      WithinOn(old(k.log), log, k.log, inventory);
      if !ok {
        return false;
      }
      todo, spent := todo - {key}, spent + 1;
    }
    return true;
  }

  /** The last snapshot `w` is frozen, and `last` holds exactly its family but for the owner. */
  ghost predicate Final(w: World, last: Inventory, a: Actors) {
    && Frozen(w, a.owner)
    && Keyed(last)
    && (forall p <- Family(w.table, a.owner) :: p != a.owner ==> KeyOf(w.table, p) in last)
    && (forall k <- last :: Held(w.table, k) && (k.0 !in w.loose ==> w.table[k.0].status != Running))
  }

  /** Whoever the last two equal inventories list was stopped before the later snapshot. */
  lemma EqualInventoriesAreFinal(w: World, cache: Cache, previous: Inventory, current: Inventory,
                                 newCache: Cache, quelled: set<Key>, a: Actors)
    requires WorldOk(w, a) && Quelled(w, quelled) && (a.owner, a.start) in quelled
    requires Held(w.table, (a.owner, a.start))
    requires Keyed(previous) && Discovered(w.table, cache, Candidates(w.table, a), current, newCache)
    requires var merged := Merge(w.table, previous, current); merged.Keys <= quelled
    ensures Final(w, Merge(w.table, previous, current), a)
  {
    var t := w.table;
    var merged := Merge(t, previous, current);
    forall p <- Family(t, a.owner) | p != a.owner ensures KeyOf(t, p) in merged {
      assert p in Candidates(t, a);
      assert KeyOf(t, p) in KeysOf(t, Candidates(t, a));
    }
    forall k <- merged
      ensures Held(t, k) && (k.0 !in w.loose ==> t[k.0].status != Running) && merged[k].pid == k.0 && merged[k].start == k.1
    {
      if k in current {
        var p :| p in Candidates(t, a) && KeyOf(t, p) == k;
      }
    }
    forall p <- t | InFamily(t, a.owner, p) && p !in w.loose ensures t[p].status != Running {
      if p == a.owner {
        assert (a.owner, a.start) in quelled;
      } else {
        assert p in Family(t, a.owner);
        assert KeyOf(t, p) in quelled;
      }
    }
  }

  /** Every entry of a fresh inventory is either matched by the snapshot or was known before. */
  lemma MatchedOrCached(t: Table, cache: Cache, previous: Inventory, current: Inventory, newCache: Cache, a: Actors)
    requires Keyed(previous) && Discovered(t, cache, Candidates(t, a), current, newCache)
    ensures forall k <- Merge(t, previous, current) ::
      k.0 in t && (Matches(Merge(t, previous, current)[k], t[k.0]) || k in cache)
  {
    var merged := Merge(t, previous, current);
    forall k <- merged ensures k.0 in t && (Matches(merged[k], t[k.0]) || k in cache) {
      if k in current {
        var p :| p in Candidates(t, a) && KeyOf(t, p) == k;
      }
    }
  }

  lemma MergeRecordable(w: World, cache: Cache, previous: Inventory, current: Inventory, newCache: Cache, a: Actors)
    requires WorldOk(w, a) && Recordable(previous, w, a)
    requires Discovered(w.table, cache, Candidates(w.table, a), current, newCache)
    ensures Recordable(Merge(w.table, previous, current), w, a)
  {
    var t := w.table;
    var merged := Merge(t, previous, current);
    forall k <- merged
      ensures merged[k].pid == k.0 && merged[k].start == k.1
      ensures k in w.born && k.0 != INIT && k.0 != a.sampler && k.0 != a.owner
    {
      if k in current {
        var p :| p in Candidates(t, a) && KeyOf(t, p) == k;
        assert InFamily(t, a.owner, p);
      }
    }
  }

  lemma RecordableLater(inventory: Inventory, w: World, v: World, a: Actors)
    requires Recordable(inventory, w, a) && Later(w, v, a)
    ensures Recordable(inventory, v, a)
  {
  }

  /** What the inventory records is known to hold for as long as nobody rewrites itself. */
  ghost predicate Recorded(inventory: Inventory, truths: map<Key, Image>) {
    forall k <- inventory :: k in truths && truths[k] == Image(inventory[k].exe, inventory[k].command)
  }

  ghost predicate Looked(cache: Cache, truths: map<Key, Image>, mayRewrite: set<Pid>) {
    forall k <- cache :: k in truths && (k.0 in mayRewrite || truths[k].exe == cache[k])
  }

  function Images(inventory: Inventory): map<Key, Image> {
    map k <- inventory :: Image(inventory[k].exe, inventory[k].command)
  }

  /** Unless somebody has rewritten itself, the cache has not led the discovery astray. */
  lemma DiscoveredIsTrue(w: World, cache: Cache, previous: Inventory, current: Inventory, newCache: Cache,
                         truths: map<Key, Image>, mayRewrite: set<Pid>, a: Actors)
    requires Truthful(w, truths, mayRewrite) && Looked(cache, truths, mayRewrite) && Keyed(previous)
    requires Discovered(w.table, cache, Candidates(w.table, a), current, newCache)
    requires Hollow(w.table) && forall p <- w.table :: KeyOf(w.table, p) in w.born
    ensures var now := truths + Images(Merge(w.table, previous, current));
      Truthful(w, now, mayRewrite) && Looked(newCache, now, mayRewrite) && Recorded(Merge(w.table, previous, current), now)
  {
    var merged := Merge(w.table, previous, current);
    LookedAfter(w, cache, previous, current, newCache, truths, mayRewrite, a);
    forall k <- merged ensures EntryTrue(w, k, merged[k], mayRewrite) {
      if k in current {
        FoundIsTrue(w, cache, current, newCache, truths, mayRewrite, a, k);
      }
    }
    hide Candidates, Discovered, Merge, Looked;
    ImagesAreTrue(w, merged, truths, mayRewrite);
  }

  lemma LookedAfter(w: World, cache: Cache, previous: Inventory, current: Inventory, newCache: Cache,
                    truths: map<Key, Image>, mayRewrite: set<Pid>, a: Actors)
    requires Truthful(w, truths, mayRewrite) && Looked(cache, truths, mayRewrite) && Keyed(previous)
    requires Discovered(w.table, cache, Candidates(w.table, a), current, newCache)
    requires Hollow(w.table) && forall p <- w.table :: KeyOf(w.table, p) in w.born
    ensures Looked(newCache, truths + Images(Merge(w.table, previous, current)), mayRewrite)
  {
    hide Truthful, Candidates, Discovered, EntryTrue;
    forall k <- newCache
      ensures var now := truths + Images(Merge(w.table, previous, current));
        k in now && (k.0 in mayRewrite || now[k].exe == newCache[k])
    {
      if k in current {
        FoundIsTrue(w, cache, current, newCache, truths, mayRewrite, a, k);
      } else {
        CachedIsTrue(w, cache, newCache, previous, current, truths, mayRewrite, a, k);
      }
    }
  }

  lemma ImagesAreTrue(w: World, inventory: Inventory, truths: map<Key, Image>, mayRewrite: set<Pid>)
    requires Truthful(w, truths, mayRewrite) && forall k <- inventory :: EntryTrue(w, k, inventory[k], mayRewrite)
    ensures Truthful(w, truths + Images(inventory), mayRewrite)
  {
  }

  /** The recorded image is the one the process runs, if it is alive. */
  predicate EntryTrue(w: World, k: Key, id: Identity, mayRewrite: set<Pid>) {
    k in w.born && (k.0 !in mayRewrite && Alive(w.table, k) ==> Shows(w.table[k.0], Image(id.exe, id.command)))
  }

  lemma FoundIsTrue(w: World, cache: Cache, current: Inventory, newCache: Cache,
                    truths: map<Key, Image>, mayRewrite: set<Pid>, a: Actors, k: Key)
    requires Truthful(w, truths, mayRewrite) && Looked(cache, truths, mayRewrite) && k in current
    requires Discovered(w.table, cache, Candidates(w.table, a), current, newCache)
    requires forall p <- w.table :: KeyOf(w.table, p) in w.born
    ensures EntryTrue(w, k, current[k], mayRewrite) && newCache[k] == current[k].exe
  {
    hide Descends;
    var p :| p in Candidates(w.table, a) && KeyOf(w.table, p) == k;
    assert current[KeyOf(w.table, p)] == IdentityOf(w.table, p, ExeOf(w.table, cache, p).value);
  }

  lemma CachedIsTrue(w: World, cache: Cache, newCache: Cache, previous: Inventory, current: Inventory,
                     truths: map<Key, Image>, mayRewrite: set<Pid>, a: Actors, k: Key)
    requires Truthful(w, truths, mayRewrite) && Looked(cache, truths, mayRewrite) && Keyed(previous)
    requires Discovered(w.table, cache, Candidates(w.table, a), current, newCache)
    requires k in newCache && k !in current && Hollow(w.table)
    ensures var now := truths + Images(Merge(w.table, previous, current));
      k in now && (k.0 in mayRewrite || now[k].exe == newCache[k])
  {
    hide Candidates, Descends;
    assert k in cache && k in truths && newCache[k] == cache[k];
  }

  // ---------------------------------------------------------------- whom an inventory lists

  /** The recorded descendants still exactly there, and everybody the discovery looks for. */
  ghost function Listed(t: Table, recorded: Inventory, a: Actors): set<Key> {
    (set k | k in recorded && recorded[k].pid in t && Matches(recorded[k], t[recorded[k].pid])) + KeysOf(t, Candidates(t, a))
  }

  lemma MergeLists(t: Table, cache: Cache, recorded: Inventory, current: Inventory, newCache: Cache, a: Actors)
    requires Discovered(t, cache, Candidates(t, a), current, newCache)
    ensures var merged := Merge(t, recorded, current);
      merged.Keys == Listed(t, recorded, a) && Listed(t, merged, a) == merged.Keys
  {
    hide Candidates;
  }

  lemma {:induction false} SlowedUp(t: Table, u: Table, p: Pid, n: nat)
    requires Slowed(t, u)
    ensures Up(t, p, n) == Up(u, p, n)
    decreases n
  {
    if n == 0 || p !in t || t[p].parent.None? {
    } else {
      SlowedUp(t, u, t[p].parent.value, n - 1);
    }
  }

  /** Stopping processes changes neither who is looked for nor who is recognised. */
  lemma SlowedListed(t: Table, u: Table, recorded: Inventory, a: Actors)
    requires Slowed(t, u)
    ensures Candidates(t, a) == Candidates(u, a) && Listed(t, recorded, a) == Listed(u, recorded, a)
  {
    forall p ensures Descends(t, a.owner, p) <==> Descends(u, a.owner, p) {
      if n: nat :| Up(t, p, n) == Some(a.owner) {
        SlowedUp(t, u, p, n);
      }
      if n: nat :| Up(u, p, n) == Some(a.owner) {
        SlowedUp(t, u, p, n);
      }
    }
    hide Descends;
    assert forall p <- t :: KeyOf(t, p) == KeyOf(u, p) && t[p].group == u[p].group;
  }

  /** The executables of everybody the discovery looks for can be read. */
  ghost predicate Readable(t: Table, a: Actors) {
    a.owner in t && forall p <- Candidates(t, a) :: t[p].exe.Some?
  }

  /** Everybody in the inventory is shown exactly by the snapshot or was known before. */
  predicate ShownOrCached(t: Table, merged: Inventory, cache: Cache) {
    forall key <- merged :: key.0 in t && (Matches(merged[key], t[key.0]) || key in cache)
  }

  /** Everybody the snapshot shows exactly was stopped just now, and the others before. */
  lemma AllStilled(t: Table, merged: Inventory, cache: Cache, newCache: Cache, before: set<Key>, quelled: set<Key>)
    requires Covered(cache.Keys, before) && Covered(before, quelled) && Covered(newCache.Keys, cache.Keys + merged.Keys)
    requires ShownOrCached(t, merged, cache) && ShownStopped(t, merged, merged.Keys, quelled)
    ensures Covered(merged.Keys, quelled) && Covered(newCache.Keys, quelled)
  {
    hide Matches;
  }

  /** A snapshot, and what it adds to and removes from the inventory. */
  method TakeInventory(k: Kernel, recorded: Inventory, cache: Cache, ghost start: nat, ghost known: set<Key>)
    returns (found: bool, t: Table, merged: Inventory, newCache: Cache)
    requires k.Valid() && !k.reaped && Recordable(recorded, k.world, k.a) && Looked(cache, k.truths, k.mayRewrite)
    requires (k.a.owner, k.a.start) in k.quelled
    requires Lawful(k.log, k.a) && Conducted(k, start, known, recorded)
    modifies k`world, k`script, k`truths, k`log
    ensures Lawful(k.log, k.a) && Conducted(k, start, known, merged) && Extends(k.log, old(k.log))
    ensures k.Valid() && Recordable(merged, k.world, k.a) && t == k.world.table && LastSnapshot(k.log) == Some(t)
    ensures |k.script| == if old(k.script) == [] then 0 else |old(k.script)| - 1
    ensures Calm(old(k.script)) ==> Calm(k.script) && k.world == old(k.world)
    ensures Readable(t, k.a) ==> found
    ensures found ==> Looked(newCache, k.truths, k.mayRewrite) && Recorded(merged, k.truths)
    ensures found ==> Held(t, (k.a.owner, k.a.start)) && Covered(merged.Keys, k.world.born)
    ensures found ==> Covered(newCache.Keys, cache.Keys + merged.Keys)
    ensures found ==> ShownOrCached(t, merged, cache)
    ensures found ==> merged.Keys == Listed(t, recorded, k.a) == Listed(t, merged, k.a)
    ensures found && Covered(merged.Keys, k.quelled) ==> Final(k.world, merged, k.a)
  {
    hide WorldOk, Candidates, Discovered, Matches, Later, Truthful, Quelled, Looked, Recorded, Recordable, Final, Merge, Listed;
    hide Lawful, Conduct, AllSourced, Within, LastSnapshot, Calm;
    merged := recorded;
    ghost var log := k.log;
    t := k.TakeSnapshot();
    WithinNote(log, Snapshot(t), recorded);
    Noted(log, k.log, Snapshot(t), start, k.a, known, recorded);
    RecordableLater(recorded, old(k.world), k.world, k.a);
    var current, discovered := Discover(t, cache, k.a);
    newCache := discovered;
    if current.None? {
      return false, t, merged, newCache;
    }
    found, merged := true, Merge(t, recorded, current.value);
    MergedSourced(k.log, start, k.a, known, recorded, cache, current.value, newCache);
    MergeLists(t, cache, recorded, current.value, newCache, k.a);
    RoundKnows(k.world, cache, recorded, current.value, newCache, k.quelled, k.truths, k.mayRewrite, k.a);
    k.truths := k.truths + Images(merged);
  }

  /**
   One turn of the freeze loop: take a snapshot, discover, merge, and stop whatever is recorded.
   If everything listed had been stopped before, the list is final for this snapshot.
   */
  method Round(k: Kernel, recorded: Inventory, cache: Cache, ghost start: nat, ghost known: set<Key>)
    returns (ok: bool, merged: Inventory, newCache: Cache, ghost snap: World)
    requires k.Valid() && !k.reaped && Recordable(recorded, k.world, k.a) && Looked(cache, k.truths, k.mayRewrite)
    requires (k.a.owner, k.a.start) in k.quelled && Covered(cache.Keys, k.quelled)
    requires Lawful(k.log, k.a) && Conducted(k, start, known, recorded)
    modifies k`world, k`script, k`quelled, k`truths, k`log
    ensures Lawful(k.log, k.a) && Conducted(k, start, known, merged) && Extends(k.log, old(k.log))
    ensures k.Valid() && !k.reaped && Recordable(merged, k.world, k.a)
    ensures Covered(old(k.quelled), k.quelled) && |k.script| <= |old(k.script)|
    ensures old(k.script) != [] ==> |k.script| < |old(k.script)|
    ensures ok ==> Covered(merged.Keys, k.quelled) && Covered(newCache.Keys, k.quelled)
    ensures ok ==> Looked(newCache, k.truths, k.mayRewrite) && Recorded(merged, k.truths)
    ensures ok ==> Later(snap, k.world, k.a) && Held(snap.table, (k.a.owner, k.a.start)) && Covered(merged.Keys, snap.born)
    ensures ok && Covered(merged.Keys, old(k.quelled)) ==> Final(snap, merged, k.a)
    ensures CalmlyFor(old(k.script), old(k.world.table), k.script, k.world.table, 1, merged)
    ensures Calm(old(k.script)) && Readable(old(k.world.table), k.a) ==>
      ok && merged.Keys == Listed(old(k.world.table), recorded, k.a) == Listed(old(k.world.table), merged, k.a)
  {
    hide WorldOk, Candidates, Matches, Later, Truthful, Quelled, Looked, Recorded, Recordable, Final, Listed, Readable;
    hide Lawful, Conduct, AllSourced, Within, LastSnapshot, Calm, Calmly, CalmlyFor, Covered, ShownOrCached, ShownStopped;
    var found, t, inventory, cacheNow := TakeInventory(k, recorded, cache, start, known);
    merged, newCache, snap := inventory, cacheNow, k.world;
    CalmlyLooked(old(k.script), old(k.world.table), k.script, k.world.table, merged);
    if !found {
      CoveredIs(k.quelled, k.quelled);
      return false, merged, newCache, snap;
    }
    ghost var log, script, quelled := k.log, k.script, k.quelled;
    ok := StopRecorded(k, t, merged);
    if ok {
      AllStilled(t, merged, cache, newCache, quelled, k.quelled);
    }
    CalmlyRound(old(k.script), old(k.world.table), script, snap.table, k.script, k.world.table, merged);
    RecordableLater(merged, snap, k.world, k.a);
    ConductStays(log, k.log, start, k.a, known, merged);
    WithinExtends(log, k.log, merged);
    AllSourcedStay(log, k.log, start, k.a, known, merged.Keys);
    ExtendsOn(old(k.log), log, k.log);
  }

  /** Signals so far went to processes with a source, and so would any to those of the inventory. */
  ghost predicate Conducted(k: Kernel, start: nat, known: set<Key>, inventory: Inventory)
    reads k`log
  {
    start <= |k.log| && Conduct(k.log, start, k.a, known) && AllSourced(k.log, start, k.a, known, inventory.Keys)
  }

  lemma WithinExtends(before: seq<Entry>, log: seq<Entry>, inventory: Inventory)
    requires Within(log, before, inventory)
    ensures Extends(log, before)
  {
  }

  lemma Noted(before: seq<Entry>, log: seq<Entry>, e: Entry, start: nat, a: Actors, known: set<Key>, inventory: Inventory)
    requires log == before + [e] && Conduct(before, start, a, known) && AllSourced(before, start, a, known, inventory.Keys)
    requires e.Halted? || e.Shot? ==> Recorders(e.id, inventory)
    ensures Conduct(log, start, a, known) && AllSourced(log, start, a, known, inventory.Keys) && Extends(log, before)
  {
    hide Conduct, AllSourced;
    WithinNote(before, e, inventory);
    ConductStays(before, log, start, a, known, inventory);
    AllSourcedStay(before, log, start, a, known, inventory.Keys);
  }

  /** What a fresh inventory establishes. */
  lemma RoundKnows(w: World, cache: Cache, previous: Inventory, current: Inventory, newCache: Cache,
                   quelled: set<Key>, truths: map<Key, Image>, mayRewrite: set<Pid>, a: Actors)
    requires WorldOk(w, a) && Quelled(w, quelled) && Truthful(w, truths, mayRewrite)
    requires Held(w.table, (a.owner, a.start)) && (a.owner, a.start) in quelled
    requires Recordable(previous, w, a) && Looked(cache, truths, mayRewrite)
    requires Discovered(w.table, cache, Candidates(w.table, a), current, newCache)
    ensures var merged := Merge(w.table, previous, current); var now := truths + Images(merged);
      && Recordable(merged, w, a) && merged.Keys <= w.born
      && (merged.Keys <= quelled ==> Final(w, merged, a))
      && Truthful(w, now, mayRewrite) && Looked(newCache, now, mayRewrite) && Recorded(merged, now)
      && newCache.Keys <= cache.Keys + merged.Keys
      && forall k <- merged :: k.0 in w.table && (Matches(merged[k], w.table[k.0]) || k in cache)
  {
    var t := w.table;
    var merged := Merge(t, previous, current);
    assert forall p <- t :: KeyOf(t, p) in w.born;
    hide InFamily, Descends, Frozen, WorldOk, Truthful, Quelled, Looked, Recorded, Final, Candidates;
    MatchedOrCached(t, cache, previous, current, newCache, a);
    MergeRecordable(w, cache, previous, current, newCache, a);
    DiscoveredIsTrue(w, cache, previous, current, newCache, truths, mayRewrite, a);
    CacheGrows(t, cache, Candidates(t, a), current, newCache);
    if merged.Keys <= quelled {
      EqualInventoriesAreFinal(w, cache, previous, current, newCache, quelled, a);
    }
  }

  lemma CacheGrows(t: Table, cache: Cache, pids: set<Pid>, found: Inventory, newCache: Cache)
    requires pids <= t.Keys && Discovered(t, cache, pids, found, newCache)
    ensures newCache.Keys == cache.Keys + found.Keys
  {
  }

  // ---------------------------------------------------------------- a freeze nobody disturbs

  /** How many turns a round may take. */
  function TurnsFor(recorded: Inventory, t: Table): nat {
    |recorded.Keys| + |t.Keys| + 2
  }

  /** The owner is there as it was captured, all its family can be read, nobody else acts, and there are turns to spare. */
  ghost predicate Ready(script: seq<seq<Event>>, t: Table, owner: LiveIdentity, recorded: Inventory, spare: nat, a: Actors) {
    && Calm(script) && |script| > 3 * TurnsFor(recorded, t) + 2 + spare
    && IsThere(t, owner, a) && Readable(t, a)
  }

  predicate IsThere(t: Table, owner: LiveIdentity, a: Actors) {
    owner.group == Some(owner.pid) && owner.pid != a.samplerGroup && owner.pid in t && ExactlyIs(owner, t[owner.pid])
  }

  lemma SlowedIsThere(t: Table, u: Table, owner: LiveIdentity, a: Actors)
    requires Slowed(t, u) && IsThere(t, owner, a)
    ensures IsThere(u, owner, a)
  {
  }

  /** Once everybody in the owner's group has been stopped, its whole group is stopped. */
  lemma ReadyStops(w: World, owner: LiveIdentity, a: Actors)
    requires WorldOk(w, a) && owner.pid == a.owner && IsThere(w.table, owner, a) && Readable(w.table, a)
    ensures Members(w.table, a.owner) != {} && AllStopped(StopAll(w.table, Members(w.table, a.owner)), a.owner)
    ensures Slowed(w.table, StopAll(w.table, Members(w.table, a.owner)))
  {
    var t, u := w.table, StopAll(w.table, Members(w.table, a.owner));
    assert a.owner in Members(t, a.owner) && a.owner in Members(u, a.owner);
    forall p <- Members(u, a.owner) ensures u[p].status == Stopped {
      assert p in Members(t, a.owner);
      assert p == a.owner || p in Candidates(t, a);
      assert t[p].exe.Some?;
    }
  }

  /** How many turns are left for the rounds that are still to come. */
  function Room(stable: nat, turns: nat): nat {
    if stable == 0 then 3 * turns else if stable == 1 then 2 * turns else if stable == 2 then turns else 0
  }

  /** Where an undisturbed freeze stands after `stable` rounds. */
  datatype Course = Course(
    script: seq<seq<Event>>, table: Table, owner: LiveIdentity, recorded: Inventory, previous: Option<set<Key>>, stable: nat)

  /** Each round that is still to come may take `turns`, and afterwards there are turns to spare. */
  ghost predicate OnCourse(c: Course, turns: nat, spare: nat, a: Actors) {
    && Calm(c.script) && Readable(c.table, a) && IsThere(c.table, c.owner, a) && |c.script| >= Room(c.stable, turns) + spare
    && (c.stable == 0 ==> c.previous.None? && TurnsFor(c.recorded, c.table) <= turns)
    && (c.stable > 0 ==> Repeats(c, turns, a))
  }

  ghost predicate Repeats(c: Course, turns: nat, a: Actors) {
    c.previous == Some(c.recorded.Keys) && Listed(c.table, c.recorded, a) == c.recorded.Keys && |c.recorded.Keys| + 2 <= turns
  }

  lemma SlowedReadable(t: Table, u: Table, a: Actors)
    requires Slowed(t, u) && Readable(t, a)
    ensures Readable(u, a)
  {
    SlowedListed(t, u, map[], a);
    hide Candidates, Listed;
  }

  lemma {:induction false} KeysAreFew(t: Table, pids: set<Pid>)
    requires pids <= t.Keys
    ensures |KeysOf(t, pids)| <= |pids|
  {
    if pids == {} {
    } else {
      var p :| p in pids;
      KeysAreFew(t, pids - {p});
      assert KeysOf(t, pids) == KeysOf(t, pids - {p}) + {KeyOf(t, p)};
    }
  }

  lemma {:induction false} SubsetIsSmaller<T>(a: set<T>, b: set<T>)
    requires a <= b
    ensures |a| <= |b|
  {
    if a == {} {
    } else {
      var x :| x in a;
      SubsetIsSmaller(a - {x}, b - {x});
    }
  }

  lemma ListedAreFew(t: Table, recorded: Inventory, a: Actors)
    ensures |Listed(t, recorded, a)| <= |recorded.Keys| + |t.Keys|
  {
    var pids := Candidates(t, a);
    KeysAreFew(t, pids);
    hide Candidates;
    SubsetIsSmaller(pids, t.Keys);
    var still := set k | k in recorded && recorded[k].pid in t && Matches(recorded[k], t[recorded[k].pid]);
    SubsetIsSmaller(still, recorded.Keys);
  }

  /** A round of an undisturbed freeze is the first or finds what the one before has found. */
  lemma RoundOnCourse(c: Course, after: seq<seq<Event>>, next: Course, turns: nat, spare: nat, a: Actors)
    requires OnCourse(c, turns, spare, a) && c.stable < 3
    requires Calmly(c.script, c.table, after, next.table, 1 + |next.recorded.Keys|)
    requires (Calm(after) ==> Calm(next.script)) && |after| <= |next.script| + 1
    requires next.recorded.Keys == Listed(c.table, c.recorded, a) == Listed(c.table, next.recorded, a)
    requires next.previous == Some(next.recorded.Keys) && next.stable == c.stable + 1 && next.owner == c.owner
    ensures OnCourse(next, turns, spare, a)
    ensures if c.stable > 0 then c.previous == next.previous else c.previous.None?
  {
    hide Calm, Slowed, Readable, Listed, Calmly, Candidates, IsThere;
    CalmlyNow(c.script, c.table, after, next.table, 1 + |next.recorded.Keys|);
    SlowedReadable(c.table, next.table, a);
    SlowedIsThere(c.table, next.table, c.owner, a);
    SlowedListed(c.table, next.table, next.recorded, a);
    ListedAreFew(c.table, c.recorded, a);
    Settle(c, turns, |next.recorded.Keys|, |next.script|, spare);
  }

  /** An undisturbed freeze goes on: the round succeeds, and lists whom the one before has listed. */
  ghost predicate Advances(c: Course, ok: bool, next: Course, turns: nat, spare: nat, a: Actors) {
    OnCourse(c, turns, spare, a) && c.stable < 3 ==>
      ok && OnCourse(next, turns, spare, a) && if c.stable > 0 then c.previous == next.previous else c.previous.None?
  }

  lemma RoundAdvances(c: Course, after: seq<seq<Event>>, t: Table, ok: bool, next: Course, turns: nat, spare: nat, a: Actors)
    requires CalmlyFor(c.script, c.table, after, t, 1, next.recorded)
    requires (Calm(after) ==> Calm(next.script) && t == next.table) && |after| <= |next.script| + 1
    requires Calm(c.script) && Readable(c.table, a) ==>
      ok && next.recorded.Keys == Listed(c.table, c.recorded, a) == Listed(c.table, next.recorded, a)
    requires next.previous == Some(next.recorded.Keys) && next.stable == c.stable + 1 && next.owner == c.owner
    ensures Advances(c, ok, next, turns, spare, a)
  {
    if OnCourse(c, turns, spare, a) && c.stable < 3 {
      OnCourseIs(c, turns, spare, a);
      CalmlyNow(c.script, c.table, after, t, 1 + |next.recorded.Keys|);
      hide Calm, Calmly, Readable, Listed, OnCourse;
      RoundOnCourse(c, after, next, turns, spare, a);
    }
  }

  lemma Settle(c: Course, turns: nat, listed: nat, left: nat, spare: nat)
    requires |c.script| >= Room(c.stable, turns) + spare && c.stable < 3 && |c.script| <= left + listed + 2 && listed + 2 <= turns
    ensures left >= Room(c.stable + 1, turns) + spare
  {
  }

  lemma OnCourseIs(c: Course, turns: nat, spare: nat, a: Actors)
    requires OnCourse(c, turns, spare, a) && c.stable < 3
    ensures c.script != [] && Calm(c.script) && Readable(c.table, a)
    ensures c.stable == 0 ==> c.previous.None?
  {
    hide Readable, Listed, IsThere;
  }

  /** What an undisturbed freeze has to start its rounds with. */
  lemma CourseBegins(w: World, owner: LiveIdentity, recorded: Inventory, spare: nat, a: Actors,
                     script: seq<seq<Event>>, rest: seq<seq<Event>>)
    requires WorldOk(w, a) && owner.pid == a.owner && Ready(script, w.table, owner, recorded, spare, a)
    requires Calm(rest) && |script| <= |rest| + 3
    ensures OnCourse(Course(rest, StopAll(w.table, Members(w.table, a.owner)), owner, recorded, None, 0),
                     TurnsFor(recorded, w.table), spare, a)
  {
    ReadyStops(w, owner, a);
    SlowedIsThere(w.table, StopAll(w.table, Members(w.table, a.owner)), owner, a);
    SlowedReadable(w.table, StopAll(w.table, Members(w.table, a.owner)), a);
    hide Readable, Listed, WorldOk, IsThere;
  }

  /**
   `freeze_final_process_inventory`. On success the recorded inventory is final for the snapshot
   `snap`: it holds everybody below the owner or in its group, all of them already stopped or
   dead but for those a death has disturbed, and so they still are. It does succeed if the owner
   is there, everybody's executable can be read, nobody else acts and there is time enough.
   */
  method Freeze(k: Kernel, owner: LiveIdentity, recorded: Inventory, ghost spare: nat)
    returns (ok: bool, last: Inventory, ghost snap: World, ghost stop: nat)
    requires k.Valid() && owner.pid == k.a.owner && owner.start == k.a.start
    requires Recordable(recorded, k.world, k.a) && Lawful(k.log, k.a)
    modifies k`world, k`script, k`quelled, k`log, k`truths
    ensures k.Valid() && Lawful(k.log, k.a) && Recordable(last, k.world, k.a)
    ensures ok ==> !k.reaped && Final(snap, last, k.a) && Later(snap, k.world, k.a)
    ensures ok ==> Held(snap.table, (k.a.owner, k.a.start)) && Covered(last.Keys, snap.born)
    ensures ok ==> Recorded(last, k.truths)
    ensures ok ==> StoppedAt(k.log, stop, k.a)
    ensures Extends(k.log, old(k.log)) && Conducted(k, |old(k.log)|, recorded.Keys, last)
    ensures Ready(old(k.script), old(k.world.table), owner, recorded, spare, k.a) ==>
      ok && Done(k, owner, last, TurnsFor(recorded, old(k.world.table)), spare)
  {
    hide WorldOk, Later, Quelled, Truthful, Final, Recordable, Lawful, Recorded, Looked, Covered, Extends;
    hide Conduct, AllSourced, Conducted, StoppedAt, Ready, TurnsFor, OnCourse, Done;
    hide k.Valid;
    ghost var turns, ready := TurnsFor(recorded, k.world.table), Ready(k.script, k.world.table, owner, recorded, spare, k.a);
    ghost var from, known := |k.log|, recorded.Keys;
    var halted, at := HaltGroup(k, owner, recorded, spare);
    ok, last, snap, stop := false, recorded, k.world, at;
    if !halted {
      return;
    }
    var cache: Cache := map[];
    var previous: Option<set<Key>> := None;
    var stable := 0;
    NothingLooked(k);
    assert cache.Keys == {};
    while k.script != [] && stable < 3
      invariant k.Valid() && !k.reaped && Lawful(k.log, k.a) && StoppedAt(k.log, stop, k.a)
      invariant Extends(k.log, old(k.log)) && Conducted(k, from, known, last)
      invariant Recordable(last, k.world, k.a) && Looked(cache, k.truths, k.mayRewrite)
      invariant (k.a.owner, k.a.start) in k.quelled && Covered(cache.Keys, k.quelled)
      invariant previous.Some? ==> Covered(previous.value, k.quelled)
      invariant stable <= 3 && (stable > 0 ==> previous.Some? && Recorded(last, k.truths))
      invariant stable > 1 ==>
        && Final(snap, last, k.a) && Later(snap, k.world, k.a)
        && Held(snap.table, (k.a.owner, k.a.start)) && Covered(last.Keys, snap.born)
      invariant ready ==> OnCourse(Course(k.script, k.world.table, owner, last, previous, stable), turns, spare, k.a)
      decreases |k.script|
    {
      ghost var log := k.log;
      var sent;
      ghost var quelled := k.quelled;
      sent, last, cache, snap := Turn(k, owner, last, cache, previous, stable, turns, spare, from, known);
      ExtendsOn(old(k.log), log, k.log);
      if !sent {
        return false, last, snap, stop;
      }
      StoppedStays(log, k.log, stop, k.a);
      CoveredIn((k.a.owner, k.a.start), quelled, k.quelled);
      if previous.Some? {
        CoveredStill(previous.value, quelled, k.quelled);
      }
      if previous == Some(last.Keys) {
        stable := stable + 1;
      } else {
        previous := Some(last.Keys);
        stable := 1;
      }
    }
    if ready {
      CourseEnds(k, Course(k.script, k.world.table, owner, last, previous, stable), turns, spare);
    }
    return stable == 3, last, snap, stop;
  }

  lemma NothingLooked(k: Kernel)
    ensures Looked(map[], k.truths, k.mayRewrite) && Covered({}, k.quelled)
  {
  }

  /** What an undisturbed freeze leaves behind. */
  ghost predicate Done(k: Kernel, owner: LiveIdentity, last: Inventory, turns: nat, spare: nat)
    reads k`script, k`world
  {
    Calm(k.script) && |k.script| >= spare && IsThere(k.world.table, owner, k.a) && |last.Keys| <= turns
  }

  lemma CourseEnds(k: Kernel, c: Course, turns: nat, spare: nat)
    requires OnCourse(c, turns, spare, k.a) && c.script == k.script && c.table == k.world.table && c.stable <= 3
    ensures c.stable < 3 ==> c.script != []
    ensures c.stable == 3 ==> Done(k, c.owner, c.recorded, turns, spare)
  {
    hide Calm, IsThere, Readable, Listed;
  }

  /** A round and the pause after it. */
  method Turn(k: Kernel, ghost owner: LiveIdentity, recorded: Inventory, cache: Cache, ghost previous: Option<set<Key>>,
              ghost stable: nat, ghost turns: nat, ghost spare: nat, ghost start: nat, ghost known: set<Key>)
    returns (ok: bool, merged: Inventory, newCache: Cache, ghost snap: World)
    requires k.Valid() && !k.reaped && Recordable(recorded, k.world, k.a) && Looked(cache, k.truths, k.mayRewrite)
    requires (k.a.owner, k.a.start) in k.quelled && Covered(cache.Keys, k.quelled)
    requires Lawful(k.log, k.a) && Conducted(k, start, known, recorded)
    modifies k`world, k`script, k`quelled, k`truths, k`log
    ensures Lawful(k.log, k.a) && Conducted(k, start, known, merged) && Extends(k.log, old(k.log))
    ensures k.Valid() && !k.reaped && Recordable(merged, k.world, k.a)
    ensures Covered(old(k.quelled), k.quelled) && |k.script| <= |old(k.script)|
    ensures old(k.script) != [] ==> |k.script| < |old(k.script)|
    ensures ok ==> Covered(merged.Keys, k.quelled) && Covered(newCache.Keys, k.quelled)
    ensures ok ==> Looked(newCache, k.truths, k.mayRewrite) && Recorded(merged, k.truths)
    ensures ok ==> Later(snap, k.world, k.a) && Held(snap.table, (k.a.owner, k.a.start)) && Covered(merged.Keys, snap.born)
    ensures ok && Covered(merged.Keys, old(k.quelled)) ==> Final(snap, merged, k.a)
    ensures Advances(Course(old(k.script), old(k.world.table), owner, recorded, previous, stable), ok,
                     Course(k.script, k.world.table, owner, merged, Some(merged.Keys), stable + 1), turns, spare, k.a)
  {
    ghost var course := Course(k.script, k.world.table, owner, recorded, previous, stable);
    hide WorldOk, Later, Quelled, Truthful, Final, Recordable, Lawful, Recorded, Looked, Held, Extends;
    hide Conduct, AllSourced, Conducted, Calm, CalmlyFor, Readable, Listed, OnCourse, Advances, Covered;
    hide k.Valid;
    ok, merged, newCache, snap := Round(k, recorded, cache, start, known);
    ghost var before, after := k.world, k.script;
    k.Breathe();
    RecordableLater(merged, before, k.world, k.a);
    if ok {
      LaterTransitive(snap, before, k.world, k.a);
    }
    RoundAdvances(course, after, before.table, ok,
                  Course(k.script, k.world.table, owner, merged, Some(merged.Keys), stable + 1), turns, spare, k.a);
  }

  /** Stop the owner's group and wait until nobody in it runs. */
  method HaltGroup(k: Kernel, owner: LiveIdentity, recorded: Inventory, ghost spare: nat) returns (ok: bool, ghost stop: nat)
    requires k.Valid() && owner.pid == k.a.owner && owner.start == k.a.start
    requires Recordable(recorded, k.world, k.a) && Lawful(k.log, k.a)
    modifies k`world, k`script, k`quelled, k`log
    ensures k.Valid() && Lawful(k.log, k.a) && Recordable(recorded, k.world, k.a)
    ensures ok ==> !k.reaped && StoppedAt(k.log, stop, k.a) && (k.a.owner, k.a.start) in k.quelled
    ensures Extends(k.log, old(k.log)) && Conducted(k, |old(k.log)|, recorded.Keys, recorded)
    ensures Ready(old(k.script), old(k.world.table), owner, recorded, spare, k.a) ==>
      ok && OnCourse(Course(k.script, k.world.table, owner, recorded, None, 0), TurnsFor(recorded, old(k.world.table)), spare, k.a)
  {
    hide WorldOk, Later, Quelled, Truthful, Recordable, Lawful, JustChecked, Conduct, AllSourced, StoppedAt;
    hide Ready, Calm, OnCourse, ExactlyIs, IsThere, AllStopped, StopAll, Members, TurnsFor;
    ReadyMeans(k, owner, recorded, spare);
    ok, stop := false, 0;
    ghost var from, known, start := |k.log|, recorded.Keys, k.world;
    NothingConducted(k, recorded);
    var group := ExactOwnerGroup(k, owner);
    RecordableLater(recorded, start, k.world, k.a);
    ChecksOnly(old(k.log), k.log, from, k.a, known, recorded);
    if group.None? {
      return;
    }
    ghost var before, log := k.world, k.log;
    stop := |k.log|;
    var sent := k.StopOwnerGroup(group.value);
    RecordableLater(recorded, before, k.world, k.a);
    ChecksOnly(log, k.log, from, k.a, known, recorded);
    ExtendsOn(old(k.log), log, k.log);
    if !sent {
      return;
    }
    before := k.world;
    ok := WaitForGroupStop(k, group.value);
    RecordableLater(recorded, before, k.world, k.a);
    if Ready(old(k.script), start.table, owner, recorded, spare, k.a) {
      CourseBegins(start, owner, recorded, spare, k.a, old(k.script), k.script);
    }
  }

  lemma ReadyMeans(k: Kernel, owner: LiveIdentity, recorded: Inventory, spare: nat)
    requires k.Valid() && owner.pid == k.a.owner
    ensures Ready(k.script, k.world.table, owner, recorded, spare, k.a) ==>
      && Calm(k.script) && |k.script| > 2
      && owner.group == Some(owner.pid) && owner.pid != k.a.samplerGroup
      && owner.pid in k.world.table && ExactlyIs(owner, k.world.table[owner.pid])
      && Members(k.world.table, k.a.owner) != {} && AllStopped(StopAll(k.world.table, Members(k.world.table, k.a.owner)), k.a.owner)
  {
    if Ready(k.script, k.world.table, owner, recorded, spare, k.a) {
      ReadyStops(k.world, owner, k.a);
    }
  }

  lemma NothingConducted(k: Kernel, inventory: Inventory)
    ensures Conducted(k, |k.log|, inventory.Keys, inventory)
  {
  }

  /** Checks and group signals concern no single process. */
  lemma ChecksOnly(before: seq<Entry>, log: seq<Entry>, start: nat, a: Actors, known: set<Key>, inventory: Inventory)
    requires Conduct(before, start, a, known) && AllSourced(before, start, a, known, inventory.Keys) && Extends(log, before)
    requires forall i :: |before| <= i < |log| ==> !log[i].Halted? && !log[i].Shot?
    ensures Conduct(log, start, a, known) && AllSourced(log, start, a, known, inventory.Keys)
  {
    hide Conduct, AllSourced;
    ConductStays(before, log, start, a, known, inventory);
    AllSourcedStay(before, log, start, a, known, inventory.Keys);
  }

  /** A frozen family that no death disturbs is stopped or dead now, and takes nobody in. */
  lemma FrozenNow(snap: World, w: World, last: Inventory, a: Actors)
    requires Final(snap, last, a) && Later(snap, w, a) && Held(snap.table, (a.owner, a.start))
    requires Undisturbed(snap, w, a.owner)
    ensures forall p <- Family(w.table, a.owner) :: p in w.table && w.table[p].status != Running && p in Family(snap.table, a.owner)
  {
    hide InFamily, Descends;
    forall p <- Family(w.table, a.owner)
      ensures p in w.table && w.table[p].status != Running && p in Family(snap.table, a.owner)
    {
      assert p in Family(snap.table, a.owner) && p !in w.loose;
    }
  }
}
