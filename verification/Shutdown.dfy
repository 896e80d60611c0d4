/**
 Shutting down the measured process tree, from examples/tui_perf_sampler.rs: the normal path,
 the emergency path for a startup failure, and exactly what a successful result promises.
 */
module Shutdown {
  import opened Text
  import opened ProcessWorld
  import opened SystemCalls
  import opened FinalInventory

  /** The exact kill reaches a stopped process that is still what was recorded. */
  predicate Killable(t: Table, id: Identity) {
    id.pid in t && t[id.pid].status == Stopped && Matches(id, t[id.pid])
  }

  /**
   The recorded identity does not describe the stopped process, and it is outside the owner's
   group: neither the group kill nor the exact kill reaches it.
   */
  predicate Escapes(t: Table, id: Identity, owner: Pid) {
    id.pid in t && t[id.pid].status == Stopped && t[id.pid].group != owner && !Matches(id, t[id.pid])
  }

  // ---------------------------------------------------------------- following one identity

  predicate StoppedIn(snap: World, k: Key) {
    k.0 in snap.table && snap.table[k.0].status == Stopped
  }

  /**
   Unless a death has disturbed it, `k` is alive exactly when the snapshot shows it stopped and
   it has not been hit, and then it is still what the snapshot shows.
   */
  predicate Follows(w: World, snap: World, k: Key, hit: bool) {
    k.0 !in w.loose ==>
      && (Alive(w.table, k) <==> StoppedIn(snap, k) && !hit)
      && (Alive(w.table, k) ==> SameBut(snap.table[k.0], w.table[k.0]))
  }

  ghost predicate AllFollow(w: World, snap: World, last: Inventory, hit: set<Key>) {
    forall k <- last :: k in w.born && Follows(w, snap, k, k in hit)
  }

  lemma FollowsLater(w: World, v: World, snap: World, last: Inventory, hit: set<Key>, a: Actors)
    requires AllFollow(w, snap, last, hit) && Later(w, v, a)
    ensures AllFollow(v, snap, last, hit)
  {
    hide Frozen, Family, Undisturbed;
    forall k <- last ensures k in v.born && Follows(v, snap, k, k in hit) {
      assert k in w.born && Follows(w, snap, k, k in hit);
      if Alive(w.table, k) {
        assert k.0 !in v.loose ==> w.table[k.0].status == Stopped;
      } else {
        assert Dead(w.table, k);
        assert Dead(v.table, k);
      }
    }
  }

  /** A kill hits whoever holds one of the PIDs and nobody else. */
  lemma FollowsKill(w: World, pids: set<Pid>, kin: Adoption, snap: World, last: Inventory, hit: set<Key>, hit': set<Key>)
    requires AllFollow(w, snap, last, hit)
    requires forall k <- last :: k in hit' <==> k in hit || (Alive(w.table, k) && k.0 in pids)
    ensures AllFollow(Killed(w, pids, kin), snap, last, hit')
  {
    hide Loosened;
    var v := Killed(w, pids, kin);
    forall k <- last ensures Follows(v, snap, k, k in hit') {
      assert Follows(w, snap, k, k in hit);
    }
  }

  lemma FollowsReap(w: World, p: Pid, snap: World, last: Inventory, hit: set<Key>)
    requires AllFollow(w, snap, last, hit) && p in w.table && w.table[p].status == Zombie
    ensures AllFollow(w.(table := w.table - {p}), snap, last, hit)
  {
    var v := w.(table := w.table - {p});
    forall k <- last ensures Follows(v, snap, k, k in hit) {
      assert Follows(w, snap, k, k in hit);
    }
  }

  lemma FinalFollows(snap: World, last: Inventory, a: Actors)
    requires Final(snap, last, a) && last.Keys <= snap.born
    ensures AllFollow(snap, snap, last, {})
  {
  }

  /** Nobody comes back from the dead. */
  ghost predicate StaysDead(w: World, v: World) {
    w.born <= v.born && w.loose <= v.loose && forall k <- w.born :: Dead(w.table, k) ==> Dead(v.table, k)
  }

  lemma StaysDeadTransitive(u: World, v: World, w: World)
    requires StaysDead(u, v) && StaysDead(v, w)
    ensures StaysDead(u, w)
  {
    forall k <- u.born | Dead(u.table, k) ensures Dead(w.table, k) {
      assert Dead(v.table, k) && k in v.born;
    }
  }

  lemma LaterStaysDead(w: World, v: World, a: Actors)
    requires Later(w, v, a)
    ensures StaysDead(w, v)
  {
  }

  /** A kill adds everyone it reaches to the dead. */
  lemma KillStaysDead(w: World, pids: set<Pid>, kin: Adoption)
    ensures StaysDead(w, Killed(w, pids, kin)) && forall k: Key :: k.0 in pids ==> Dead(Killed(w, pids, kin).table, k)
  {
    hide Loosened;
  }

  // ---------------------------------------------------------------- hard kill

  /** What is known while shutting down: nothing, or everything about each recorded identity. */
  ghost predicate Known(frozen: bool, w: World, snap: World, last: Inventory, hit: set<Key>) {
    frozen ==> AllFollow(w, snap, last, hit)
  }

  /** The identities hit by an exact kill of `id`, as far as no death has disturbed them. */
  ghost predicate HitExactly(w: World, snap: World, last: Inventory, id: Identity, hit: set<Key>, hit': set<Key>) {
    forall key <- last :: key.0 !in w.loose ==>
      (key in hit' <==> key in hit || (key == (id.pid, id.start) && Killable(snap.table, id)))
  }

  /**
   `hard_kill_frozen_descendant`: leaves alone whatever no longer matches. Of a frozen inventory
   it kills exactly the identity it was given, provided that still matches; and if the record is
   true for as long as nobody rewrites itself, success means that this one is dead.
   */
  method HardKill(k: Kernel, id: Identity, ghost frozen: bool, ghost snap: World, last: Inventory, ghost hit: set<Key>)
    returns (ok: bool, ghost hit': set<Key>)
    requires k.Valid() && Recordable(last, k.world, k.a)
    requires (id.pid, id.start) in last && last[(id.pid, id.start)] == id
    requires Known(frozen, k.world, snap, last, hit) && (frozen ==> Recorded(last, k.truths))
    requires Lawful(k.log, k.a)
    modifies k`world, k`script, k`log
    ensures k.Valid() && Recordable(last, k.world, k.a) && Known(frozen, k.world, snap, last, hit')
    ensures Lawful(k.log, k.a) && Within(k.log, old(k.log), map[(id.pid, id.start) := id])
    ensures frozen && ok ==> HitExactly(k.world, snap, last, id, hit, hit')
    ensures StaysDead(old(k.world), k.world)
    ensures frozen && ok && id.pid !in k.mayRewrite ==> Dead(k.world.table, (id.pid, id.start))
    ensures InCalm(old(k.script), k.script, 3) && (Calm(old(k.script)) && |old(k.script)| >= 3 ==> ok)
  {
    hide WorldOk, Later, Quelled, Truthful, AllFollow, StaysDead, Dead, HitExactly, Loosened, Recorded, Killed;
    hide Lawful, Within, Shown, Calm, Matches;
    hit' := hit;
    ghost var key := (id.pid, id.start);
    ghost var start, log, aim := k.world, k.log, map[(id.pid, id.start) := id];
    var t := k.TakeSnapshot();
    WithinNote(log, Snapshot(t), aim);
    Passes(start, k.world, frozen, snap, last, hit, k.a);
    if id.pid !in t || !Matches(id, t[id.pid]) {
      LeavesAlone(k.world, id, frozen, snap, last, hit, k.truths, k.mayRewrite);
      return true, hit;
    }
    ghost var seen, shown := k.world, k.log;
    assert Shown(k.log, id) by { ShownNow(k.log, t, id); }
    var sent, killed, kin := k.KillProcess(id);
    WithinNote(shown, Shot(id), aim);
    WithinOn(log, shown, k.log, aim);
    Passes(seen, killed, frozen, snap, last, hit, k.a);
    StaysDeadTransitive(start, seen, killed);
    if !sent {
      return false, hit;
    }
    hit' := hit + set key <- last | Alive(killed.table, key) && key.0 == id.pid;
    KillHits(seen, killed, kin, id, frozen, snap, last, hit, hit', k.a);
    StaysDeadTransitive(start, killed, k.world);
    ghost var dead, script := k.world, k.script;
    LaterItself(dead, k.a);
    LaterStaysDead(dead, dead, k.a);
    KilledUnlike(killed, {id.pid}, kin, id);
    while k.script != []
      invariant InCalm(old(k.script), k.script, 2)
      invariant Calm(old(k.script)) ==> k.script == script && k.world == dead
      invariant k.Valid() && Recordable(last, k.world, k.a) && Known(frozen, k.world, snap, last, hit')
      invariant StaysDead(start, k.world) && StaysDead(dead, k.world)
      invariant Lawful(k.log, k.a) && Within(k.log, log, aim)
      decreases |k.script|
    {
      ghost var before := k.world;
      k.Breathe();
      Passes(before, k.world, frozen, snap, last, hit', k.a);
      StaysDeadTransitive(start, before, k.world);
      StaysDeadTransitive(dead, before, k.world);
      if id.pid !in k.world.table || !Matches(id, k.world.table[id.pid]) {
        HitsStay(dead, k.world, frozen, snap, last, id, hit, hit');
        return true, hit';
      }
    }
    return false, hit';
  }

  /** If nobody else acts, nobody else will, and at most `cost` turns are over. */
  predicate InCalm(was: seq<seq<Event>>, now: seq<seq<Event>>, cost: nat) {
    Calm(was) ==> Calm(now) && |was| <= |now| + cost
  }

  /** The dead do not look like the recorded. */
  lemma KilledUnlike(w: World, pids: set<Pid>, kin: Adoption, id: Identity)
    requires id.pid in pids && id.pid in w.table
    ensures var t := Killed(w, pids, kin).table; id.pid in t && !Matches(id, t[id.pid]) && t[id.pid].status == Zombie
  {
    hide Loosened;
  }

  lemma ShownNow(log: seq<Entry>, t: Table, id: Identity)
    requires LastSnapshot(log) == Some(t) && id.pid in t && Matches(id, t[id.pid])
    ensures Shown(log, id)
  {
  }

  lemma Passes(w: World, v: World, frozen: bool, snap: World, last: Inventory, hit: set<Key>, a: Actors)
    requires Later(w, v, a) && Recordable(last, w, a) && Known(frozen, w, snap, last, hit)
    ensures Recordable(last, v, a) && Known(frozen, v, snap, last, hit) && StaysDead(w, v)
  {
    RecordableLater(last, w, v, a);
    LaterStaysDead(w, v, a);
    hide Later;
    if frozen {
      FollowsLater(w, v, snap, last, hit, a);
    }
  }

  /** Nothing that is said of the undisturbed is lost when more are disturbed. */
  lemma HitsStay(w: World, v: World, frozen: bool, snap: World, last: Inventory, id: Identity, hit: set<Key>, hit': set<Key>)
    requires StaysDead(w, v) && (id.pid, id.start) in w.born
    requires frozen ==> HitExactly(w, snap, last, id, hit, hit')
    requires Dead(w.table, (id.pid, id.start))
    ensures frozen ==> HitExactly(v, snap, last, id, hit, hit')
    ensures Dead(v.table, (id.pid, id.start))
  {
  }

  lemma RecordableSame(last: Inventory, w: World, v: World, a: Actors)
    requires Recordable(last, w, a) && w.born == v.born
    ensures Recordable(last, v, a)
  {
  }

  /**
   An identity the table does not match was not killable in the snapshot, or is already hit, and
   it is dead if its record must be true.
   */
  lemma LeavesAlone(w: World, id: Identity, frozen: bool, snap: World, last: Inventory, hit: set<Key>,
                    truths: map<Key, Image>, mayRewrite: set<Pid>)
    requires Known(frozen, w, snap, last, hit) && (id.pid, id.start) in last && last[(id.pid, id.start)] == id
    requires Truthful(w, truths, mayRewrite) && (frozen ==> Recorded(last, truths))
    requires id.pid !in w.table || !Matches(id, w.table[id.pid])
    ensures frozen ==> HitExactly(w, snap, last, id, hit, hit)
    ensures frozen && id.pid !in mayRewrite ==> Dead(w.table, (id.pid, id.start))
  {
    var key := (id.pid, id.start);
    if frozen {
      assert Follows(w, snap, key, key in hit);
      assert key in truths && truths[key] == Image(id.exe, id.command);
    }
  }

  /** An identity the table matches is alive and is the only one the kill hits. */
  lemma KillHits(seen: World, killed: World, kin: Adoption, id: Identity, frozen: bool, snap: World, last: Inventory,
                 hit: set<Key>, hit': set<Key>, a: Actors)
    requires Known(frozen, seen, snap, last, hit) && Known(frozen, killed, snap, last, hit)
    requires StaysDead(seen, killed) && Recordable(last, killed, a)
    requires (id.pid, id.start) in last && Keyed(last) && last[(id.pid, id.start)] == id
    requires id.pid in seen.table && Matches(id, seen.table[id.pid])
    requires hit' == hit + set key <- last | Alive(killed.table, key) && key.0 == id.pid
    ensures var v := Killed(killed, {id.pid}, kin);
      && Recordable(last, v, a) && Known(frozen, v, snap, last, hit')
      && (frozen ==> HitExactly(v, snap, last, id, hit, hit'))
      && StaysDead(killed, v) && Dead(v.table, (id.pid, id.start)) && (id.pid, id.start) in v.born
  {
    hide Loosened;
    var v := Killed(killed, {id.pid}, kin);
    KillStaysDead(killed, {id.pid}, kin);
    RecordableSame(last, killed, v, a);
    if frozen {
      FollowsKill(killed, {id.pid}, kin, snap, last, hit, hit');
      HitsOne(seen, killed, kin, id, snap, last, hit, hit');
    }
  }

  lemma HitsOne(seen: World, killed: World, kin: Adoption, id: Identity, snap: World, last: Inventory, hit: set<Key>, hit': set<Key>)
    requires AllFollow(seen, snap, last, hit) && AllFollow(killed, snap, last, hit) && seen.loose <= killed.loose
    requires (id.pid, id.start) in last && Keyed(last)
    requires id.pid in seen.table && Matches(id, seen.table[id.pid])
    requires hit' == hit + set key <- last | Alive(killed.table, key) && key.0 == id.pid
    ensures HitExactly(Killed(killed, {id.pid}, kin), snap, last, id, hit, hit')
  {
    hide Loosened;
    var key := (id.pid, id.start);
    assert Follows(seen, snap, key, key in hit) && Follows(killed, snap, key, key in hit);
    forall other <- last | other.0 !in killed.loose
      ensures other in hit' <==> other in hit || (other == key && Killable(snap.table, id))
    {
      assert Follows(killed, snap, other, other in hit);
    }
  }

  // ---------------------------------------------------------------- the normal path

  datatype ShutdownError =
    | NotFrozen
    | NoMpvIdentity
    | NotPublished
    | GroupNotKilled
    | GroupRefused
    | OwnerNotWaited
    | OwnerNotQueried
    | DescendantSurvived(id: Identity)

  /**
   What success means: the owner is reaped, and of those in the inventory that no death has
   disturbed exactly the escaped are alive.
   */
  ghost predicate CleanedUp(k: Kernel, snap: World, last: Inventory)
    reads k
  {
    && k.reaped
    && Final(snap, last, k.a)
    && forall key <- last :: key.0 !in k.world.loose ==>
         (Alive(k.world.table, key) <==> Escapes(snap.table, last[key], k.a.owner))
  }

  /** Of the inventory, every identity is dead whose PID is not rewritten. */
  predicate Gone(t: Table, last: Inventory, mayRewrite: set<Pid>) {
    forall key <- last :: key.0 !in mayRewrite ==> Dead(t, key)
  }

  ghost predicate GroupHit(w: World, snap: World, last: Inventory, owner: Pid, hit: set<Key>) {
    forall key <- last :: key.0 !in w.loose ==>
      (key in hit <==> StoppedIn(snap, key) && snap.table[key.0].group == owner)
  }

  /** Kill the owner's group, if its identity can be confirmed once more. */
  method KillConfirmedGroup(k: Kernel, owner: LiveIdentity, ghost stop: nat, ghost snap: World, last: Inventory)
    returns (errors: seq<ShutdownError>, ghost hit: set<Key>)
    requires k.Valid() && owner.pid == k.a.owner && owner.start == k.a.start
    requires Lawful(k.log, k.a) && Recordable(last, k.world, k.a) && AllFollow(k.world, snap, last, {})
    requires StoppedAt(k.log, stop, k.a)
    modifies k`world, k`script, k`log
    ensures k.Valid() && Lawful(k.log, k.a) && Recordable(last, k.world, k.a)
    ensures AllFollow(k.world, snap, last, hit) && Within(k.log, old(k.log), map[])
    ensures errors == [] ==> GroupHit(k.world, snap, last, k.a.owner, hit)
    ensures Calm(old(k.script)) && IsThere(old(k.world.table), owner, k.a) ==>
      errors == [] && InCalm(old(k.script), k.script, 2) && OwnerDead(k.world.table, k.a)
  {
    hide WorldOk, Later, Quelled, Truthful, Lawful, JustChecked, AllFollow, StaysDead, GroupHit, Killed, StoppedAt, Calm;
    hit := {};
    OwnerBelongs(k.world.table, owner, k.a);
    ghost var before, log := k.world, k.log;
    var group := ExactOwnerGroup(k, owner);
    StoppedStays(log, k.log, stop, k.a);
    ghost var checked := k.log;
    assert Within(checked, log, map[]);
    Passes(before, k.world, true, snap, last, {}, k.a);
    if group.None? {
      return [GroupRefused], hit;
    }
    before := k.world;
    var sent, killed, kin := k.KillOwnerGroup(group.value, stop);
    WithinNote(checked, Sent(group.value, Kill, killed.table), map[]);
    WithinOn(log, checked, k.log, map[]);
    Passes(before, killed, true, snap, last, {}, k.a);
    if !sent {
      return [GroupNotKilled], hit;
    }
    ghost var members := Members(killed.table, k.a.owner);
    hit := set key <- last | Alive(killed.table, key) && key.0 in members;
    GroupKillHits(killed, kin, snap, last, hit, k.a);
    OwnerDies(killed, kin, k.a);
    return [], hit;
  }

  predicate OwnerDead(t: Table, a: Actors) {
    a.owner in t && t[a.owner].status == Zombie
  }

  lemma OwnerBelongs(t: Table, owner: LiveIdentity, a: Actors)
    requires owner.pid == a.owner
    ensures IsThere(t, owner, a) ==> a.owner in Members(t, a.owner)
  {
  }

  lemma OwnerDies(w: World, kin: Adoption, a: Actors)
    ensures a.owner in Members(w.table, a.owner) ==> OwnerDead(Killed(w, Members(w.table, a.owner), kin).table, a)
  {
    hide Loosened;
  }

  lemma GroupKillHits(killed: World, kin: Adoption, snap: World, last: Inventory, hit: set<Key>, a: Actors)
    requires AllFollow(killed, snap, last, {}) && Recordable(last, killed, a)
    requires hit == set key <- last | Alive(killed.table, key) && key.0 in Members(killed.table, a.owner)
    ensures var v := Killed(killed, Members(killed.table, a.owner), kin);
      AllFollow(v, snap, last, hit) && Recordable(last, v, a) && GroupHit(v, snap, last, a.owner, hit)
  {
    hide Loosened;
    var members := Members(killed.table, a.owner);
    FollowsKill(killed, members, kin, snap, last, {}, hit);
    RecordableSame(last, killed, Killed(killed, members, kin), a);
    forall key <- last | key.0 !in killed.loose
      ensures key in hit <==> StoppedIn(snap, key) && snap.table[key.0].group == a.owner
    {
      assert Follows(killed, snap, key, false);
    }
  }

  /** Collect the owner's exit status, killing it first if it still runs. */
  method ReapOwner(k: Kernel, ghost frozen: bool, ghost snap: World, last: Inventory, ghost hit: set<Key>)
    returns (errors: seq<ShutdownError>)
    requires k.Valid() && Recordable(last, k.world, k.a) && Known(frozen, k.world, snap, last, hit)
    requires Lawful(k.log, k.a)
    modifies k`world, k`script, k`faults, k`reaped, k`log
    ensures k.Valid() && Recordable(last, k.world, k.a) && Known(frozen, k.world, snap, last, hit)
    ensures Lawful(k.log, k.a) && Within(k.log, old(k.log), map[])
    ensures old(k.world.loose) <= k.world.loose
    ensures errors == [] ==> k.reaped
    ensures Calm(old(k.script)) && old(k.faults) == [] && OwnerDead(old(k.world.table), k.a) ==>
      errors == [] && InCalm(old(k.script), k.script, 1)
  {
    hide Later, Quelled, Truthful, StaysDead, AllFollow, WorldOk, Killed, Lawful, Within, Calm;
    ghost var before, log := k.world, k.log;
    WithinNote(log, Checked(None, k.world.table), map[]);
    var status, seen := k.TryWait();
    AfterWait(before, seen, k.world, k.a, frozen, snap, last, hit);
    match status {
      case Exited => return [];
      case QueryFailed => return [OwnerNotQueried];
      case StillRunning =>
        before := k.world;
        OwnerIsOrdinary(k.world, k.a);
        var killed, kin := k.KillOwner();
        WithinNote(log, OwnerShot(killed.table), map[]);
        Passes(before, killed, frozen, snap, last, hit, k.a);
        assert before.loose <= killed.loose by { LooseLater(before, killed); }
        OwnerKilled(killed, kin, frozen, snap, last, hit, k.a);
        before := k.world;
        status, seen := k.TryWait();
        AfterWait(before, seen, k.world, k.a, frozen, snap, last, hit);
        return if status == Exited then [] else [OwnerNotWaited];
    }
  }

  lemma LooseLater(w: World, v: World)
    requires StaysDead(w, v)
    ensures w.loose <= v.loose
  {
  }

  lemma OwnerKilled(killed: World, kin: Adoption, frozen: bool, snap: World, last: Inventory, hit: set<Key>, a: Actors)
    requires Recordable(last, killed, a) && Known(frozen, killed, snap, last, hit)
    ensures var v := Killed(killed, {a.owner}, kin);
      Recordable(last, v, a) && Known(frozen, v, snap, last, hit) && killed.loose <= v.loose
  {
    hide Loosened, AllFollow;
    if frozen {
      FollowsKill(killed, {a.owner}, kin, snap, last, hit, hit);
    }
    RecordableSame(last, killed, Killed(killed, {a.owner}, kin), a);
  }

  lemma OwnerIsOrdinary(w: World, a: Actors)
    requires WorldOk(w, a)
    ensures a.owner != INIT && a.owner != a.sampler
  {
    assert Up(w.table, INIT, 0) == Some(INIT);
    assert Up(w.table, a.sampler, 0) == Some(a.sampler);
  }

  lemma AfterWait(w: World, seen: World, v: World, a: Actors, frozen: bool, snap: World, last: Inventory, hit: set<Key>)
    requires Recordable(last, w, a) && Known(frozen, w, snap, last, hit) && Later(w, seen, a)
    requires v == seen ||
      (v == seen.(table := seen.table - {a.owner}) && a.owner in seen.table && seen.table[a.owner].status == Zombie)
    ensures Recordable(last, v, a) && Known(frozen, v, snap, last, hit) && w.loose <= v.loose
  {
    Passes(w, seen, frozen, snap, last, hit, a);
    hide Later;
    if v != seen {
      if frozen {
        FollowsReap(seen, a.owner, snap, last, hit);
      }
      RecordableSame(last, seen, v, a);
    }
  }

  /**
   The kills so far, beyond `hit`, of those no death has disturbed; and everybody dealt with is
   dead whose PID is not rewritten.
   */
  ghost predicate Struck(w: World, snap: World, last: Inventory, done: set<Key>, hit: set<Key>, struck: set<Key>, mayRewrite: set<Pid>) {
    && (forall key <- last :: key.0 !in w.loose ==>
          (key in struck <==> key in hit || (key in done && Killable(snap.table, last[key]))))
    && forall key <- done :: key.0 !in mayRewrite ==> Dead(w.table, key)
  }

  /** Hard-kill every recorded descendant, in any order. */
  method KillRecorded(k: Kernel, last: Inventory, ghost frozen: bool, ghost snap: World, ghost hit: set<Key>)
    returns (errors: seq<ShutdownError>)
    requires k.Valid() && Recordable(last, k.world, k.a) && Known(frozen, k.world, snap, last, hit)
    requires frozen ==> Recorded(last, k.truths)
    requires Lawful(k.log, k.a)
    modifies k`world, k`script, k`log
    ensures k.Valid() && old(k.world.loose) <= k.world.loose
    ensures Lawful(k.log, k.a) && Within(k.log, old(k.log), last)
    ensures frozen && errors == [] ==> forall key <- last :: key.0 !in k.world.loose ==>
      (Alive(k.world.table, key) <==> StoppedIn(snap, key) && key !in hit && !Killable(snap.table, last[key]))
    ensures frozen && errors == [] ==> Gone(k.world.table, last, k.mayRewrite)
    ensures Enough(old(k.script), |last.Keys|) ==> errors == []
  {
    hide WorldOk, Later, Quelled, Truthful, AllFollow, StaysDead, Recorded, HitExactly, Struck, Known, Recordable;
    hide Lawful, Within, Calm, InCalm, Enough;
    hide k.Valid;
    ghost var left, enough := |last.Keys|, Enough(k.script, |last.Keys|);
    WithinNote(k.log, Snapshot(k.world.table), last);
    errors := [];
    ghost var struck, start, done: set<Key> := hit, k.world, {};
    var todo := last.Keys;
    NothingStruck(start, snap, last, hit, k.mayRewrite);
    while todo != {}
      invariant todo <= last.Keys && done == last.Keys - todo && |todo| == left
      invariant StaysDead(start, k.world) && (enough ==> Enough(k.script, left) && errors == [])
      invariant Lawful(k.log, k.a) && Within(k.log, old(k.log), last)
      invariant k.Valid() && Recordable(last, k.world, k.a) && Known(frozen, k.world, snap, last, struck)
      invariant frozen && errors == [] ==> Struck(k.world, snap, last, done, hit, struck, k.mayRewrite)
    {
      var key :| key in todo;
      RecordedAs(last, k.world, k.a, key);
      ghost var before, was, log, script := k.world, struck, k.log, k.script;
      var ok;
      ok, struck := HardKill(k, last[key], frozen, snap, last, struck);
      ThreeLess(script, k.script, left);
      WithinMore(log, k.log, map[key := last[key]], last);
      WithinOn(old(k.log), log, k.log, last);
      StaysDeadTransitive(start, before, k.world);
      if frozen && errors == [] && ok {
        OneMoreStruck(before, k.world, snap, last, done, key, hit, was, struck, k.mayRewrite, k.a);
      }
      todo, left, done := todo - {key}, left - 1, done + {key};
      if !ok {
        errors := errors + [DescendantSurvived(last[key])];
      }
    }
    LooseLater(start, k.world);
    if frozen && errors == [] {
      AliveUnlessStruck(k.world, snap, last, hit, struck, k.mayRewrite);
    }
  }

  lemma RecordedAs(last: Inventory, w: World, a: Actors, key: Key)
    requires Recordable(last, w, a) && key in last
    ensures key == (last[key].pid, last[key].start)
  {
  }

  /** Nobody else acts, and there are turns for so many kills. */
  predicate Enough(script: seq<seq<Event>>, kills: nat) {
    Calm(script) && |script| >= 3 * kills
  }

  lemma ThreeLess(script: seq<seq<Event>>, rest: seq<seq<Event>>, left: nat)
    requires InCalm(script, rest, 3) && left > 0
    ensures Enough(script, left) ==> Calm(script) && |script| >= 3 && Enough(rest, left - 1)
  {
    hide Calm;
  }

  lemma WithinMore(before: seq<Entry>, log: seq<Entry>, some: Inventory, last: Inventory)
    requires Within(log, before, some) && forall key <- some :: key in last && last[key] == some[key]
    ensures Within(log, before, last)
  {
  }

  lemma NothingStruck(w: World, snap: World, last: Inventory, hit: set<Key>, mayRewrite: set<Pid>)
    ensures StaysDead(w, w) && Struck(w, snap, last, {}, hit, hit, mayRewrite)
  {
  }

  lemma OneMoreStruck(w: World, v: World, snap: World, last: Inventory, done: set<Key>, key: Key,
                      hit: set<Key>, was: set<Key>, struck: set<Key>, mayRewrite: set<Pid>, a: Actors)
    requires key in last && done <= last.Keys && Recordable(last, w, a) && StaysDead(w, v)
    requires Struck(w, snap, last, done, hit, was, mayRewrite) && HitExactly(v, snap, last, last[key], was, struck)
    requires key.0 !in mayRewrite ==> Dead(v.table, key)
    ensures Struck(v, snap, last, done + {key}, hit, struck, mayRewrite)
  {
    hide Killable;
    forall other <- done | other.0 !in mayRewrite ensures Dead(v.table, other) {
      assert other in w.born;
    }
  }

  lemma AliveUnlessStruck(w: World, snap: World, last: Inventory, hit: set<Key>, struck: set<Key>, mayRewrite: set<Pid>)
    requires Known(true, w, snap, last, struck) && Struck(w, snap, last, last.Keys, hit, struck, mayRewrite)
    ensures Gone(w.table, last, mayRewrite)
    ensures forall key <- last :: key.0 !in w.loose ==>
      (Alive(w.table, key) <==> StoppedIn(snap, key) && key !in hit && !Killable(snap.table, last[key]))
  {
    forall key <- last | key.0 !in w.loose
      ensures Alive(w.table, key) <==> StoppedIn(snap, key) && key !in hit && !Killable(snap.table, last[key])
    {
      assert Follows(w, snap, key, key in struck);
    }
  }

  /** Nothing is known yet of what anybody runs. */
  ghost method Forget(k: Kernel)
    requires k.Valid()
    modifies k`mayRewrite, k`truths
    ensures k.Valid() && k.mayRewrite == AllRewrites(k.script) && k.truths == map[]
  {
    k.mayRewrite, k.truths := AllRewrites(k.script), map[];
  }

  /** The owner and its family are there to be seen, nobody else acts, nothing fails, and there is time. */
  ghost predicate Peaceful(script: seq<seq<Event>>, t: Table, faults: seq<bool>, owner: LiveIdentity, recorded: Inventory, a: Actors) {
    faults == [] && Ready(script, t, owner, recorded, 3 * TurnsFor(recorded, t) + 3, a)
  }

  /**
   `shutdown_measured_tree_with_group_signal`. Every group signal of the run is lawful, and a
   result without errors means the owner is reaped and every descendant in the final inventory
   is gone, unless its PID is rewritten while the shutdown runs. Of those that no death
   disturbs, exactly the escaped identities are still alive. If nobody else acts and nothing
   fails, there is no error.
   */
  method ShutdownTree(k: Kernel, owner: LiveIdentity, recorded: Inventory, mpvMissing: bool)
    returns (errors: seq<ShutdownError>, last: Inventory, ghost snap: World)
    requires k.Valid() && owner.pid == k.a.owner && owner.start == k.a.start
    requires Recordable(recorded, k.world, k.a) && Lawful(k.log, k.a)
    modifies k
    ensures k.Valid() && Lawful(k.log, k.a)
    ensures Extends(k.log, old(k.log)) && Conducted(k, |old(k.log)|, recorded.Keys, last)
    ensures errors == [] ==> CleanedUp(k, snap, last) && Gone(k.world.table, last, AllRewrites(old(k.script)))
    ensures Peaceful(old(k.script), old(k.world.table), old(k.faults), owner, recorded, k.a) && !mpvMissing ==> errors == []
  {
    hide WorldOk, Quelled, Truthful, Lawful, Recorded, Gone, Later, Final, CleanedUp, Recordable, Conduct, AllSourced, Within;
    hide Ready, Done, TurnsFor, Extends;
    Forget(k);
    ghost var turns := TurnsFor(recorded, k.world.table);
    var frozen;
    ghost var stop;
    frozen, last, snap, stop := Freeze(k, owner, recorded, 3 * turns + 3);
    errors := if frozen then [] else [NotFrozen];
    if mpvMissing {
      errors := errors + [NoMpvIdentity];
    }
    var unpublished := k.Fails();
    if unpublished {
      errors := errors + [NotPublished];
    }
    ghost var log := k.log;
    var killErrors := KillAndReap(k, owner, frozen, last, snap, stop, turns);
    errors := errors + killErrors;
    ConductStays(log, k.log, |old(k.log)|, k.a, recorded.Keys, last);
    WithinExtends(log, k.log, last);
    AllSourcedStay(log, k.log, |old(k.log)|, k.a, recorded.Keys, last.Keys);
    ExtendsOn(old(k.log), log, k.log);
  }

  /** The second half: kill the group and reap the owner, then hard-kill whoever is left. */
  method KillAndReap(k: Kernel, owner: LiveIdentity, frozen: bool, last: Inventory, ghost snap: World, ghost stop: nat, ghost turns: nat)
    returns (errors: seq<ShutdownError>)
    requires k.Valid() && owner.pid == k.a.owner && owner.start == k.a.start
    requires Recordable(last, k.world, k.a) && Lawful(k.log, k.a)
    requires frozen ==>
      && Final(snap, last, k.a) && Later(snap, k.world, k.a) && last.Keys <= snap.born
      && Recorded(last, k.truths) && StoppedAt(k.log, stop, k.a)
    modifies k`world, k`script, k`log, k`faults, k`reaped
    ensures k.Valid() && Lawful(k.log, k.a) && Within(k.log, old(k.log), last)
    ensures frozen && errors == [] ==> CleanedUp(k, snap, last) && Gone(k.world.table, last, k.mayRewrite)
    ensures frozen && old(k.faults) == [] && old(Done(k, owner, last, turns, 3 * turns + 3)) ==> errors == []
  {
    hide WorldOk, Quelled, Truthful, Lawful, AllFollow, Recorded, GroupHit, Gone, Later, Final, CleanedUp, Recordable;
    hide Within, StoppedAt, Calm, IsThere, OwnerDead;
    errors := [];
    ghost var hit, start := {}, k.log;
    WithinNote(start, Snapshot(k.world.table), map[]);
    if frozen {
      FinalFollows(snap, last, k.a);
      FollowsLater(snap, k.world, snap, last, {}, k.a);
      errors, hit := KillConfirmedGroup(k, owner, stop, snap, last);
    }
    ghost var killed, log := k.world, k.log;
    var reapErrors := ReapOwner(k, frozen, snap, last, hit);
    WithinOn(start, log, k.log, map[]);
    log := k.log;
    var left := KillRecorded(k, last, frozen, snap, hit);
    WithinMore(start, log, map[], last);
    WithinOn(start, log, k.log, last);
    errors := errors + reapErrors + left;
    if frozen && errors == [] {
      SurvivorsEscaped(k, killed, snap, last, hit);
    }
  }

  lemma SurvivorsEscaped(k: Kernel, killed: World, snap: World, last: Inventory, hit: set<Key>)
    requires k.reaped && Final(snap, last, k.a) && killed.loose <= k.world.loose
    requires GroupHit(killed, snap, last, k.a.owner, hit)
    requires forall key <- last :: key.0 !in k.world.loose ==>
      (Alive(k.world.table, key) <==> StoppedIn(snap, key) && key !in hit && !Killable(snap.table, last[key]))
    ensures CleanedUp(k, snap, last)
  {
  }

  // ---------------------------------------------------------------- the emergency path

  datatype PartialIdentity = PartialIdentity(pid: Pid, start: nat, group: Option<Pid>)

  /** The child is there as it was spawned, it and its family can be read, and it is who the partial identity says. */
  ghost predicate Spawned(t: Table, partial: Option<PartialIdentity>, a: Actors) {
    && a.owner in t && t[a.owner].start == a.start && t[a.owner].group == a.owner && t[a.owner].exe.Some?
    && a.owner != a.samplerGroup && Readable(t, a)
    && (partial.Some? ==> partial.value == PartialIdentity(a.owner, a.start, Some(a.owner)))
  }

  /** `validate_owned_child_before_group_signal`: still our child, leading its own group. */
  method ValidateChild(k: Kernel, partial: Option<PartialIdentity>) returns (observed: Option<PartialIdentity>)
    requires k.Valid() && Lawful(k.log, k.a)
    modifies k`world, k`script, k`faults, k`reaped, k`log
    ensures k.Valid() && Lawful(k.log, k.a)
    ensures Extends(k.log, old(k.log)) && forall i :: |old(k.log)| <= i < |k.log| ==> k.log[i].Checked?
    ensures observed.Some? ==>
      !k.reaped && JustChecked(k.log, k.a) && observed.value == PartialIdentity(k.a.owner, k.a.start, Some(k.a.owner))
    ensures Calm(old(k.script)) && old(k.faults) == [] && Spawned(old(k.world.table), partial, k.a) ==>
      observed.Some? && k.world == old(k.world) && k.faults == [] && InCalm(old(k.script), k.script, 2)
  {
    hide WorldOk, Later, Quelled, Truthful, Lawful, JustChecked, Calm, Readable;
    SpawnedLives(k, partial);
    var status, seen := k.TryWait();
    if status != StillRunning {
      return None;
    }
    k.Breathe();
    var t := k.world.table;
    if k.a.owner !in t {
      return None;
    }
    var current := PartialIdentity(k.a.owner, t[k.a.owner].start, Some(t[k.a.owner].group));
    if current.group != Some(k.a.owner) || (partial.Some? && partial.value != current) {
      return None;
    }
    assert t[k.a.owner].start == k.a.start;
    k.Confirm(None);
    return Some(current);
  }

  lemma SpawnedLives(k: Kernel, partial: Option<PartialIdentity>)
    requires k.Valid()
    ensures Spawned(k.world.table, partial, k.a) ==> !k.reaped && k.world.table[k.a.owner].status != Zombie
  {
  }

  /** `capture_stopped_owner_identity`: wait for the stopped owner's executable to be readable. */
  method CaptureOwner(k: Kernel, observed: PartialIdentity) returns (owner: Option<LiveIdentity>)
    requires k.Valid() && Lawful(k.log, k.a)
    requires observed == PartialIdentity(k.a.owner, k.a.start, Some(k.a.owner))
    modifies k`world, k`script, k`faults, k`reaped
    ensures k.Valid()
    ensures owner.Some? ==>
      && k.a.owner in k.world.table
      && owner.value == LiveIdentity(k.a.owner, k.a.start, Some(k.a.owner), owner.value.exe)
      && ExactlyIs(owner.value, k.world.table[k.a.owner])
    ensures Calm(old(k.script)) && old(k.script) != [] && Spawned(old(k.world.table), None, k.a) ==>
      owner.Some? && k.world == old(k.world) && k.faults == old(k.faults) && InCalm(old(k.script), k.script, 1)
  {
    hide WorldOk, Later, Quelled, Truthful, Calm, Readable;
    while k.script != []
      invariant k.Valid()
      invariant Calm(old(k.script)) && Spawned(old(k.world.table), None, k.a) ==>
        k.script == old(k.script) && k.world == old(k.world) && k.faults == old(k.faults)
      decreases |k.script|
    {
      ghost var length := |k.script|;
      k.Breathe();
      assert |k.script| < length;
      var t := k.world.table;
      if k.a.owner in t && t[k.a.owner].exe.Some? {
        var p := t[k.a.owner];
        if observed != PartialIdentity(k.a.owner, p.start, Some(p.group)) {
          return None;
        }
        return Some(LiveIdentity(k.a.owner, p.start, Some(p.group), p.exe.value));
      }
      if k.script == [] {
        return None;
      }
      var status, seen := k.TryWait();
      if status != StillRunning {
        return None;
      }
    }
    return None;
  }

  /** The child is there, nobody else acts, nothing fails, and there is time. */
  ghost predicate Safe(script: seq<seq<Event>>, t: Table, faults: seq<bool>, partial: Option<PartialIdentity>, a: Actors) {
    Calm(script) && faults == [] && Spawned(t, partial, a) && |script| > 6 * TurnsFor(map[], t) + 10
  }

  /**
   `emergency_shutdown_spawned_tree`: the same promises when startup failed half-way and
   nothing but a partial identity, or nothing at all, is known about the child. A child that is
   there as it was spawned is shut down if nobody else acts and nothing fails.
   */
  method EmergencyShutdown(k: Kernel, partial: Option<PartialIdentity>)
    returns (ok: bool, last: Inventory, ghost snap: World)
    requires k.Valid() && Lawful(k.log, k.a)
    modifies k
    ensures k.Valid() && Lawful(k.log, k.a)
    ensures Extends(k.log, old(k.log)) && Conducted(k, |old(k.log)|, {}, last)
    ensures ok ==> CleanedUp(k, snap, last) && Gone(k.world.table, last, AllRewrites(old(k.script)))
    ensures Safe(old(k.script), old(k.world.table), old(k.faults), partial, k.a) ==> ok
  {
    hide WorldOk, Later, Quelled, Truthful, Lawful, JustChecked, CleanedUp, Conduct, AllSourced, Spawned, Readable, IsThere, Calm;
    Forget(k);
    last, snap := map[], k.world;
    NothingConducted(k, last);
    assert last.Keys == {};
    var owner := StopSpawned(k, partial);
    ghost var log := k.log;
    ChecksOnly(old(k.log), log, |old(k.log)|, k.a, {}, last);
    if owner.None? {
      return false, last, snap;
    }
    var errors;
    errors, last, snap := ShutdownTree(k, owner.value, map[], false);
    ExtendsOn(old(k.log), log, k.log);
    ConductEarlier(log, k.log, |old(k.log)|, k.a, last);
    return errors == [], last, snap;
  }

  /** What concerns no single process goes before. */
  lemma ConductEarlier(before: seq<Entry>, log: seq<Entry>, start: nat, a: Actors, last: Inventory)
    requires start <= |before| && Extends(log, before) && Conduct(before, start, a, {})
    requires Conduct(log, |before|, a, {}) && AllSourced(log, |before|, a, {}, last.Keys)
    ensures Conduct(log, start, a, {}) && AllSourced(log, start, a, {}, last.Keys)
  {
    hide ShowsBelow;
    forall key, upto: nat | SourcedBy(log, |before|, upto, a, {}, key) ensures SourcedBy(log, start, upto, a, {}, key) {
      var j :| |before| <= j < upto && j < |log| && log[j].Snapshot? && ShowsBelow(log[j].table, a, key);
    }
    forall i | start <= i < |before| && (log[i].Halted? || log[i].Shot?)
      ensures SourcedBy(log, start, i, a, {}, (log[i].id.pid, log[i].id.start))
    {
      assert log[i] == log[..|before|][i];
      SourcedStays(before, log, start, i, i, a, {}, (log[i].id.pid, log[i].id.start));
    }
  }

  /** Stop the group of the spawned child, if it is still ours, and learn who the child is. */
  method StopSpawned(k: Kernel, partial: Option<PartialIdentity>) returns (owner: Option<LiveIdentity>)
    requires k.Valid() && Lawful(k.log, k.a)
    modifies k`world, k`script, k`log, k`faults, k`reaped, k`quelled
    ensures k.Valid() && Lawful(k.log, k.a)
    ensures Extends(k.log, old(k.log)) && forall i :: |old(k.log)| <= i < |k.log| ==> !k.log[i].Halted? && !k.log[i].Shot?
    ensures owner.Some? ==> owner.value.pid == k.a.owner && owner.value.start == k.a.start
    ensures Calm(old(k.script)) && |old(k.script)| > 5 && old(k.faults) == [] && Spawned(old(k.world.table), partial, k.a) ==>
      && owner.Some? && k.faults == [] && InCalm(old(k.script), k.script, 5)
      && k.world.table.Keys == old(k.world.table.Keys) && IsThere(k.world.table, owner.value, k.a) && Readable(k.world.table, k.a)
  {
    hide Later, Quelled, Truthful, Lawful, JustChecked, Calm, Readable, AllStopped, StopAll, Members, Spawned, IsThere;
    hide Kernel.Valid, ExactlyIs;
    SpawnedStops(k, partial);
    var observed := ValidateChild(k, partial);
    if observed.None? {
      return None;
    }
    var sent := k.StopOwnerGroup(observed.value.group.value);
    if !sent {
      return None;
    }
    var stopped := WaitForGroupStop(k, observed.value.group.value);
    if !stopped {
      return None;
    }
    owner := CaptureOwner(k, observed.value);
    if owner.Some? {
      CapturedIsThere(k.world.table, owner.value, k.a);
    }
  }

  lemma CapturedIsThere(t: Table, owner: LiveIdentity, a: Actors)
    requires a.owner in t && owner == LiveIdentity(a.owner, a.start, Some(a.owner), owner.exe) && ExactlyIs(owner, t[a.owner])
    ensures Spawned(t, None, a) ==> IsThere(t, owner, a) && Readable(t, a)
  {
  }

  /** Stopping the group of a healthy child leaves it healthy, and its group stopped. */
  lemma SpawnedStops(k: Kernel, partial: Option<PartialIdentity>)
    requires k.Valid()
    ensures Spawned(k.world.table, partial, k.a) ==>
      var t := k.world.table;
      var u := StopAll(t, Members(t, k.a.owner));
        && k.a.owner != k.a.samplerGroup && Members(t, k.a.owner) != {} && AllStopped(u, k.a.owner)
        && Spawned(u, None, k.a) && u.Keys == t.Keys
  {
    var w, a := k.world, k.a;
    if Spawned(w.table, partial, a) {
      var owner := LiveIdentity(a.owner, a.start, Some(a.owner), w.table[a.owner].exe.value);
      ReadyStops(w, owner, a);
      SlowedReadable(w.table, StopAll(w.table, Members(w.table, a.owner)), a);
      hide Readable;
    }
  }

  // ---------------------------------------------------------------- what success does and does not mean

  /**
   Of the inventory that no death has disturbed, an identity is gone exactly if the process still
   matched it when it was stopped, or was in the owner's group.
   */
  lemma MatchedMeansGone(k: Kernel, snap: World, last: Inventory, key: Key)
    requires CleanedUp(k, snap, last) && key in last && key.0 !in k.world.loose
    ensures Dead(k.world.table, key) <==>
      (StoppedIn(snap, key) ==> Matches(last[key], snap.table[key.0]) || snap.table[key.0].group == k.a.owner)
  {
    assert Alive(k.world.table, key) <==> Escapes(snap.table, last[key], k.a.owner);
  }

  /** The PIDs that rewrite themselves are those of the Rewrite events in the batches. */
  lemma {:induction false} RewritesAreEvents(script: seq<seq<Event>>, p: Pid)
    ensures p in AllRewrites(script) <==>
      exists i, j :: 0 <= i < |script| && 0 <= j < |script[i]| && script[i][j].Rewrite? && script[i][j].pid == p
  {
    if script == [] {
    } else {
      RewritesAreEvents(script[1..], p);
      if p in AllRewrites(script[1..]) {
        var i, j :| 0 <= i < |script[1..]| && 0 <= j < |script[1..][i]| && script[1..][i][j].Rewrite? && script[1..][i][j].pid == p;
        assert script[i + 1] == script[1..][i];
      }
      if i, j :| 0 <= i < |script| && 0 <= j < |script[i]| && script[i][j].Rewrite? && script[i][j].pid == p {
        assert i > 0 ==> script[1..][i - 1] == script[i];
      }
    }
  }

  /** If nobody rewrites itself while the shutdown runs, success leaves no descendant alive. */
  lemma QuietMeansGone(t: Table, last: Inventory, script: seq<seq<Event>>)
    requires Gone(t, last, AllRewrites(script))
    requires forall i, j :: 0 <= i < |script| && 0 <= j < |script[i]| ==> !script[i][j].Rewrite?
    ensures forall key <- last :: Dead(t, key)
  {
    forall key <- last ensures Dead(t, key) {
      RewritesAreEvents(script, key.0);
    }
  }

  const OWNER: Pid := 10
  const CHILD: Pid := 11

  /** Init, the sampler, a stopped owner and its child, which leads a group of its own in `session`. */
  function Scene(exe: string, command: string, status: Status, session: Pid): World {
    World(
      map[
        INIT := Process(0, None, 1, 1, false, Running, Some("init"), "init"),
        2 := Process(1, Some(INIT), 2, 2, false, Running, Some("sampler"), "sampler"),
        OWNER := Process(5, Some(2), OWNER, 2, false, Stopped, Some("ytt"), "ytt"),
        CHILD := Process(6, Some(OWNER), CHILD, session, false, status, Some(exe), command)
      ],
      7, {(INIT, 0), (2, 1), (OWNER, 5), (CHILD, 6)}, {})
  }

  const SCENE_ACTORS := Actors(OWNER, 5, 2, 2)

  lemma SceneFamily(exe: string, command: string, status: Status, session: Pid)
    ensures var t := Scene(exe, command, status, session).table;
      Family(t, OWNER) == {OWNER, CHILD} && Candidates(t, SCENE_ACTORS) == {CHILD}
  {
    var t := Scene(exe, command, status, session).table;
    assert Up(t, OWNER, 0) == Some(OWNER);
    assert Up(t, CHILD, 1) == Some(OWNER);
    forall n: nat ensures Up(t, INIT, n) != Some(OWNER) && Up(t, 2, n) != Some(OWNER) {
      if n > 0 {
        assert Up(t, INIT, n) == None;
        assert Up(t, 2, n) == Up(t, INIT, n - 1);
      }
    }
  }

  lemma SceneIsWorld(exe: string, command: string, status: Status, session: Pid)
    requires status != Zombie
    ensures WorldOk(Scene(exe, command, status, session), SCENE_ACTORS)
  {
    var w := Scene(exe, command, status, session);
    SceneFamily(exe, command, status, session);
    assert INIT !in Family(w.table, OWNER) && 2 !in Family(w.table, OWNER);
    assert !InFamily(w.table, OWNER, INIT) && !InFamily(w.table, OWNER, 2);
    hide InFamily, Descends, Family;
  }

  /** With nothing or only the child cached, discovery finds exactly the child. */
  lemma SceneDiscovers(exe: string, command: string, status: Status, session: Pid, cache: Cache, known: string)
    requires (cache == map[] && known == exe) || cache == map[(CHILD, 6) := known]
    ensures var t := Scene(exe, command, status, session).table;
      Discovered(t, cache, {CHILD}, map[(CHILD, 6) := Identity(CHILD, 6, known, command)], map[(CHILD, 6) := known])
  {
    assert KeysOf(Scene(exe, command, status, session).table, {CHILD}) == {(CHILD, 6)};
  }

  lemma SceneIsFinal(exe: string, command: string, session: Pid, known: string)
    ensures Final(Scene(exe, command, Stopped, session), map[(CHILD, 6) := Identity(CHILD, 6, known, command)], SCENE_ACTORS)
  {
    var t := Scene(exe, command, Stopped, session).table;
    SceneFamily(exe, command, Stopped, session);
    forall p <- t | InFamily(t, OWNER, p) ensures t[p].status != Running {
      assert p in Family(t, OWNER);
    }
  }

  /**
   A descendant in a session of its own that executes another program between the snapshot that
   first records it and its SIGSTOP escapes: the cache keeps the old executable, so every later
   round finds the same identity, which no longer matches. The inventory is final, the owner's
   death does not disturb the process, and neither kill reaches it.
   */
  lemma ExecBeforeStopEscapes()
    ensures var a := SCENE_ACTORS;
      var w := Scene("sh", "sh -c mpv", Running, CHILD);
      var v := Apply(w, Rewrite(CHILD, Some("mpv"), "mpv"), a);
      var u := v.(table := StopAll(v.table, {CHILD}));
      var key := (CHILD, 6);
      var first := map[key := Identity(CHILD, 6, "sh", "sh -c mpv")];
      var second := map[key := Identity(CHILD, 6, "sh", "mpv")];
      && WorldOk(w, a) && Candidates(w.table, a) == Candidates(u.table, a) == {CHILD}
      && Discovered(w.table, map[], {CHILD}, first, map[key := "sh"])
      && Matches(first[key], w.table[CHILD])
      && CHILD in u.table && Discovered(u.table, map[key := "sh"], {CHILD}, second, map[key := "sh"])
      && Merge(u.table, first, second) == second
      && Final(u, second, a)
      && Escapes(u.table, second[key], OWNER)
      && CHILD !in Killed(u, {OWNER}, map[]).loose
  {
    var w := Scene("sh", "sh -c mpv", Running, CHILD);
    var v := Apply(w, Rewrite(CHILD, Some("mpv"), "mpv"), SCENE_ACTORS);
    SceneIsWorld("sh", "sh -c mpv", Running, CHILD);
    SceneFamily("sh", "sh -c mpv", Running, CHILD);
    SceneFamily("mpv", "mpv", Stopped, CHILD);
    SceneDiscovers("sh", "sh -c mpv", Running, CHILD, map[], "sh");
    SceneDiscovers("mpv", "mpv", Stopped, CHILD, map[(CHILD, 6) := "sh"], "sh");
    SceneIsFinal("mpv", "mpv", CHILD, "sh");
    assert "sh" != "mpv" by { assert |"sh"| != |"mpv"|; }
    SceneMoves();
    SceneSettles();
    hide Descends, InFamily, Candidates, WorldOk, Final, Discovered, Family, Loosened;
  }

  lemma SceneMoves()
    ensures var v := Apply(Scene("sh", "sh -c mpv", Running, CHILD), Rewrite(CHILD, Some("mpv"), "mpv"), SCENE_ACTORS);
      && v == Scene("mpv", "mpv", Running, CHILD)
      && v.(table := StopAll(v.table, {CHILD})) == Scene("mpv", "mpv", Stopped, CHILD)
  {
    hide Descends, InFamily, Loosened;
  }

  lemma SceneSettles()
    ensures Loosened(Scene("mpv", "mpv", Stopped, CHILD).table, {OWNER}) == {}
  {
    var t := Scene("mpv", "mpv", Stopped, CHILD).table;
    assert !Unlinks(t, CHILD, {OWNER});
  }

  /**
   A descendant of the owner's session escapes even though it matched its record when it was
   stopped: the owner's death orphans its group, the kernel continues it, and it executes
   another program before its exact kill.
   */
  lemma WokenEscapes()
    ensures var a := SCENE_ACTORS;
      var w := Scene("mpv", "mpv", Stopped, 2);
      var id := Identity(CHILD, 6, "mpv", "mpv");
      var v := Killed(w, {OWNER}, map[]);
      var u := Apply(Apply(v, Continue(CHILD), a), Rewrite(CHILD, Some("sh"), "sh"), a);
      && WorldOk(w, a) && Final(w, map[(CHILD, 6) := id], a) && Killable(w.table, id)
      && CHILD in v.loose && CHILD in u.table
      && Alive(u.table, (CHILD, 6)) && !Matches(id, u.table[CHILD])
  {
    var w := Scene("mpv", "mpv", Stopped, 2);
    SceneIsWorld("mpv", "mpv", Stopped, 2);
    SceneIsFinal("mpv", "mpv", 2, "mpv");
    assert Unlinks(w.table, CHILD, {OWNER});
    assert CHILD in Loosened(w.table, {OWNER});
    assert "sh" != "mpv" by { assert |"sh"| != |"mpv"|; }
    hide Descends, InFamily, WorldOk, Final, Loosened;
  }
}
