/**
 The system calls the sampler makes, over a world that other processes change in between.
 Every call first lets time pass: it plays the next batch of `script`, which stands for
 whatever the environment does. `faults` decides which calls fail. A run of the sampler
 against all scripts and faults is a run against every possible environment.
 */
module SystemCalls {
  import opened Text
  import opened ProcessWorld

  datatype GroupSignal = Stop | Kill

  /** What is recorded about a descendant, to recognise it later. */
  datatype Identity = Identity(pid: Pid, start: nat, exe: string, command: string)

  /** `exact_descendant_matches`. */
  predicate Matches(id: Identity, p: Process) {
    p.start == id.start && p.command == id.command && p.exe == Some(id.exe)
  }

  /**
   What the sampler did, and the process table at that moment: it checked the owner's identity,
   by its program if that is known, it sent a signal to a process group, it took a snapshot, it
   stopped or killed one process for being the one recorded, or it killed the owner.
   */
  datatype Entry =
    | Checked(exe: Option<string>, table: Table)
    | Sent(group: Pid, signal: GroupSignal, table: Table)
    | Snapshot(table: Table)
    | Halted(id: Identity)
    | Shot(id: Identity)
    | OwnerShot(table: Table)

  datatype WaitStatus = Exited | StillRunning | QueryFailed

  /** SIGSTOP to every member of `pids` that is not dead. */
  function StopAll(t: Table, pids: set<Pid>): (u: Table)
    ensures u.Keys == t.Keys
  {
    map q <- t :: q := if q in pids && t[q].status == Running then t[q].(status := Stopped) else t[q]
  }

  /** Nobody else does anything any more. */
  predicate Calm(script: seq<seq<Event>>) {
    forall i :: 0 <= i < |script| ==> script[i] == []
  }

  /** The same processes, some of them stopped by now. */
  predicate Slowed(t: Table, u: Table) {
    t.Keys == u.Keys && forall p <- t :: u[p] == t[p] || (t[p].status == Running && u[p] == t[p].(status := Stopped))
  }

  /** If nobody else did anything, the processes are the same, and at most `cost` turns of the script are over. */
  predicate Calmly(was: seq<seq<Event>>, t: Table, now: seq<seq<Event>>, u: Table, cost: nat) {
    Calm(was) ==> Calm(now) && |was| <= |now| + cost && Slowed(t, u)
  }

  lemma CalmlyOn(first: seq<seq<Event>>, t: Table, second: seq<seq<Event>>, u: Table, third: seq<seq<Event>>, v: Table, some: nat, more: nat)
    requires Calmly(first, t, second, u, some) && Calmly(second, u, third, v, more)
    ensures Calmly(first, t, third, v, some + more)
  {
    hide Calm;
  }

  lemma CalmlyNow(was: seq<seq<Event>>, t: Table, now: seq<seq<Event>>, u: Table, cost: nat)
    requires Calmly(was, t, now, u, cost) && Calm(was)
    ensures Calm(now) && |was| <= |now| + cost && t.Keys == u.Keys && Slowed(t, u)
  {
  }

  lemma CalmlyStopped(was: seq<seq<Event>>, t: Table, now: seq<seq<Event>>, u: Table, pids: set<Pid>)
    requires Calm(was) ==> Calm(now) && |was| <= |now| + 1 && t == u
    ensures Calmly(was, t, now, StopAll(u, pids), 1) && Calmly(was, t, now, u, 1)
  {
    hide Calm;
  }

  lemma CalmlyMore(was: seq<seq<Event>>, t: Table, now: seq<seq<Event>>, u: Table, cost: nat, more: nat)
    requires Calmly(was, t, now, u, cost) && cost <= more
    ensures Calmly(was, t, now, u, more)
  {
    hide Calm, Slowed;
  }

  lemma CalmlyYet(script: seq<seq<Event>>, t: Table)
    ensures Calmly(script, t, script, t, 0)
  {
  }

  /** How many generations above a process the ancestor is that adopts its children. */
  type Adoption = map<Pid, nat>

  /** Who adopts the children of `p` when `dying` die: a living ancestor, as `kin` has it, or init. */
  function Adopter(t: Table, p: Pid, dying: set<Pid>, kin: Adoption): Pid {
    if p in kin && Up(t, p, kin[p]).Some? && LivesOn(t, Up(t, p, kin[p]).value, dying) then Up(t, p, kin[p]).value else INIT
  }

  predicate LivesOn(t: Table, p: Pid, dying: set<Pid>) {
    p in t && t[p].status != Zombie && p !in dying
  }

  /** SIGKILL to every member of `pids`; their children are adopted. */
  function KillAll(t: Table, pids: set<Pid>, kin: Adoption): (u: Table)
    ensures u.Keys == t.Keys
  {
    map q <- t :: q :=
      var orphan := t[q].parent.Some? && t[q].parent.value in pids;
      var parent := if orphan then Some(Adopter(t, t[q].parent.value, pids, kin)) else t[q].parent;
      if q in pids then t[q].(parent := parent, status := Zombie, exe := None) else t[q].(parent := parent)
  }

  function Members(t: Table, group: Pid): set<Pid> {
    set q | q in t && t[q].group == group
  }

  /** The table shows the spawned owner leading its own group, and running `exe` if that is known. */
  predicate Confirmed(t: Table, exe: Option<string>, a: Actors) {
    a.owner in t && t[a.owner].start == a.start && t[a.owner].group == a.owner && (exe.Some? ==> t[a.owner].exe == exe)
  }

  /** The log ends with a check that found the owner exactly as it was. */
  predicate JustChecked(log: seq<Entry>, a: Actors) {
    log != [] && log[|log| - 1].Checked? && Confirmed(log[|log| - 1].table, log[|log| - 1].exe, a)
  }

  function LastSnapshot(log: seq<Entry>): Option<Table> {
    if log == [] then None
    else if log[|log| - 1].Snapshot? then Some(log[|log| - 1].table)
    else LastSnapshot(log[..|log| - 1])
  }

  /** The latest snapshot shows a process that is exactly the one recorded. */
  predicate Shown(log: seq<Entry>, id: Identity) {
    && LastSnapshot(log).Some? && id.pid in LastSnapshot(log).value
    && var p := LastSnapshot(log).value[id.pid];
      p.exe.Some? && id == Identity(id.pid, p.start, p.exe.value, p.command)
  }

  lemma SnapshotStays(log: seq<Entry>, e: Entry)
    ensures LastSnapshot(log + [e]) == if e.Snapshot? then Some(e.table) else LastSnapshot(log)
  {
    assert (log + [e])[..|log|] == log;
  }

  predicate LawfulAt(log: seq<Entry>, i: nat, a: Actors)
    requires i < |log|
  {
    match log[i]
    case Sent(group, signal, table) =>
      && group == a.owner != a.samplerGroup && Held(table, (a.owner, a.start))
      && JustChecked(log[..i], a)
      && (signal == Kill ==> exists j :: 0 <= j < i && log[j].Sent? && log[j].signal == Stop && log[j].group == group)
    case Halted(id) => Shown(log[..i], id)
    case Shot(id) => Shown(log[..i], id)
    case OwnerShot(table) => Held(table, (a.owner, a.start))
    case _ => true
  }

  /**
   Every group signal in a run went to the owner's own group, while the owner was a child of the
   sampler that nobody had reaped, right after an exact check of the owner's identity, and every
   SIGKILL came after a SIGSTOP of the same group. Every signal to one process went to a PID under
   which the latest snapshot showed exactly the recorded identity, or to the unreaped owner.
   */
  predicate Lawful(log: seq<Entry>, a: Actors) {
    forall i :: 0 <= i < |log| ==> LawfulAt(log, i, a)
  }

  /** A log goes on lawfully with an entry that is lawful where it stands. */
  lemma LawfulGrows(log: seq<Entry>, e: Entry, a: Actors)
    requires Lawful(log, a) && LawfulAt(log + [e], |log|, a)
    ensures Lawful(log + [e], a)
  {
    var more := log + [e];
    forall i | 0 <= i < |log| ensures LawfulAt(more, i, a) {
      assert LawfulAt(log, i, a);
      assert more[..i] == log[..i];
      if log[i].Sent? && log[i].signal == Kill {
        var j :| 0 <= j < i && log[j].Sent? && log[j].signal == Stop && log[j].group == log[i].group;
        assert more[j] == log[j];
      }
    }
  }

  /** After a check the group may be stopped, and killed if it was stopped before. */
  lemma LawfulSignal(log: seq<Entry>, e: Entry, stop: nat, a: Actors)
    requires Lawful(log, a) && JustChecked(log, a) && e.Sent?
    requires e.group == a.owner != a.samplerGroup && Held(e.table, (a.owner, a.start))
    requires e.signal == Kill ==> StoppedAt(log, stop, a)
    ensures Lawful(log + [e], a)
  {
    var more := log + [e];
    assert more[..|log|] == log;
    if e.signal == Kill {
      assert more[stop] == log[stop];
    }
    LawfulGrows(log, e, a);
  }

  /** Something that is neither a signal nor breaks one. */
  lemma LawfulNote(log: seq<Entry>, e: Entry, a: Actors)
    requires Lawful(log, a)
    requires match e
      case Halted(id) => Shown(log, id)
      case Shot(id) => Shown(log, id)
      case OwnerShot(table) => Held(table, (a.owner, a.start))
      case Sent(_, _, _) => false
      case _ => true
    ensures Lawful(log + [e], a)
  {
    assert (log + [e])[..|log|] == log;
    LawfulGrows(log, e, a);
  }

  predicate Extends(log: seq<Entry>, before: seq<Entry>) {
    |before| <= |log| && log[..|before|] == before
  }

  lemma ExtendsOn(first: seq<Entry>, second: seq<Entry>, third: seq<Entry>)
    requires Extends(second, first) && Extends(third, second)
    ensures Extends(third, first)
  {
    assert third[..|first|] == third[..|second|][..|first|];
  }

  lemma StoppedStays(before: seq<Entry>, log: seq<Entry>, stop: nat, a: Actors)
    requires StoppedAt(before, stop, a) && Extends(log, before)
    ensures StoppedAt(log, stop, a)
  {
    assert log[stop] == log[..|before|][stop];
  }

  predicate StoppedAt(log: seq<Entry>, stop: nat, a: Actors) {
    stop < |log| && log[stop].Sent? && log[stop].signal == Stop && log[stop].group == a.owner
  }

  lemma BornLater(w: World, v: World, a: Actors)
    requires Later(w, v, a)
    ensures w.born <= v.born
  {
  }

  lemma StopKeeps(w: World, pids: set<Pid>, a: Actors, keys: set<Key>, truths: map<Key, Image>, mayRewrite: set<Pid>)
    requires WorldOk(w, a) && Quelled(w, keys) && Truthful(w, truths, mayRewrite)
    requires forall p <- pids :: p != INIT && p != a.sampler
    ensures var v := w.(table := StopAll(w.table, pids));
      WorldOk(v, a) && Quelled(v, keys) && Truthful(v, truths, mayRewrite) && Later(w, v, a)
    ensures forall key :: Held(StopAll(w.table, pids), key) <==> Held(w.table, key)
  {
    assert forall key :: Held(StopAll(w.table, pids), key) <==> Held(w.table, key);
    StopKeepsTruthful(w, pids, truths, mayRewrite);
    hide WorldOk, Quelled, Truthful, Later, StopAll;
    StopKeepsWorld(w, pids, a);
    StopKeepsQuelled(w, pids, keys);
    StopIsLater(w, pids, a);
  }

  lemma StopKeepsTruthful(w: World, pids: set<Pid>, truths: map<Key, Image>, mayRewrite: set<Pid>)
    requires Truthful(w, truths, mayRewrite)
    ensures Truthful(w.(table := StopAll(w.table, pids)), truths, mayRewrite)
  {
    var u := StopAll(w.table, pids);
    forall k <- truths ensures k in w.born && (k.0 !in mayRewrite && Alive(u, k) ==> Shows(u[k.0], truths[k])) {
      assert k in w.born;
    }
  }

  lemma StopKeepsWorld(w: World, pids: set<Pid>, a: Actors)
    requires WorldOk(w, a) && forall p <- pids :: p != INIT && p != a.sampler
    ensures WorldOk(w.(table := StopAll(w.table, pids)), a)
  {
    var u := StopAll(w.table, pids);
    SameLinksSameFamily(w.table, u, a.owner);
    hide InFamily;
    forall r | r in u ensures LinkedAt(u, r) {
      assert LinkedAt(w.table, r);
    }
  }

  lemma StopKeepsQuelled(w: World, pids: set<Pid>, keys: set<Key>)
    requires Quelled(w, keys)
    ensures Quelled(w.(table := StopAll(w.table, pids)), keys)
  {
    var u := StopAll(w.table, pids);
    forall k <- keys ensures k in w.born && (Held(u, k) && k.0 !in w.loose ==> u[k.0].status != Running) {
      assert k in w.born;
    }
  }

  lemma StopIsLater(w: World, pids: set<Pid>, a: Actors)
    ensures Later(w, w.(table := StopAll(w.table, pids)), a)
  {
    SameLinksSameFamily(w.table, StopAll(w.table, pids), a.owner);
    hide InFamily;
  }

  /** A stopped process is quelled for good. */
  lemma StopQuells(w: World, pids: set<Pid>, keys: set<Key>, key: Key)
    requires Quelled(w, keys) && key in w.born && (Held(w.table, key) ==> key.0 in pids)
    ensures Quelled(w.(table := StopAll(w.table, pids)), keys + {key})
  {
    var u := StopAll(w.table, pids);
    forall k <- keys + {key} ensures k in w.born && (Held(u, k) && k.0 !in w.loose ==> u[k.0].status != Running) {
      if k in keys {
        assert k in w.born;
      }
    }
  }

  /** Neither init nor the sampler is in the owner's group, and the owner is. */
  lemma OwnerGroupMembers(w: World, a: Actors)
    requires WorldOk(w, a)
    ensures var members := Members(w.table, a.owner);
      && INIT !in members && a.sampler !in members && (a.owner, a.start) in w.born
      && (Held(w.table, (a.owner, a.start)) ==> a.owner in members)
  {
  }

  /** A SIGSTOP to the owner's group stops every member, and the owner for good. */
  lemma StopGroupKeeps(w: World, a: Actors, keys: set<Key>, truths: map<Key, Image>, mayRewrite: set<Pid>)
    requires WorldOk(w, a) && Quelled(w, keys) && Truthful(w, truths, mayRewrite)
    ensures var u := StopAll(w.table, Members(w.table, a.owner)); var v := w.(table := u);
      && WorldOk(v, a) && Quelled(v, keys + {(a.owner, a.start)}) && Truthful(v, truths, mayRewrite) && Later(w, v, a)
      && (forall p <- Members(u, a.owner) :: p in u && u[p].status != Running)
      && (Held(u, (a.owner, a.start)) <==> Held(w.table, (a.owner, a.start)))
  {
    var members := Members(w.table, a.owner);
    OwnerGroupMembers(w, a);
    assert forall p <- Members(StopAll(w.table, members), a.owner) :: p in w.table && StopAll(w.table, members)[p].status != Running;
    hide WorldOk, Later, Quelled, Truthful, StopAll, Members;
    StopKeeps(w, members, a, keys, truths, mayRewrite);
    StopQuells(w, members, keys, (a.owner, a.start));
  }

  /** Descent depends on parent links only. */
  lemma SameLinksSameFamily(t: Table, u: Table, owner: Pid)
    requires t.Keys == u.Keys && forall q <- t :: t[q].parent == u[q].parent && t[q].group == u[q].group
    ensures forall p :: InFamily(t, owner, p) <==> InFamily(u, owner, p)
  {
    forall p, n: nat ensures Up(t, p, n) == Up(u, p, n) {
      SameUp(t, u, p, n);
    }
    forall p ensures InFamily(t, owner, p) <==> InFamily(u, owner, p) {
      if Descends(t, owner, p) {
        var n: nat :| Up(t, p, n) == Some(owner);
        assert Up(u, p, n) == Some(owner);
      }
      if Descends(u, owner, p) {
        var n: nat :| Up(u, p, n) == Some(owner);
        assert Up(t, p, n) == Some(owner);
      }
    }
  }

  lemma {:induction false} SameUp(t: Table, u: Table, p: Pid, n: nat)
    requires t.Keys == u.Keys && forall q <- t :: t[q].parent == u[q].parent
    ensures Up(t, p, n) == Up(u, p, n)
    decreases n
  {
    if n == 0 || p !in t || t[p].parent.None? {
    } else {
      SameUp(t, u, t[p].parent.value, n - 1);
    }
  }

  /** The world after a SIGKILL to `pids`: the kernel has signalled whom their deaths concern. */
  function Killed(w: World, pids: set<Pid>, kin: Adoption): World {
    w.(table := KillAll(w.table, pids, kin), loose := w.loose + Loosened(w.table, pids))
  }

  /** After a kill, links lead where they led before, or higher, or to init: nobody joins the family. */
  lemma KillKeeps(w: World, pids: set<Pid>, kin: Adoption, a: Actors, keys: set<Key>, truths: map<Key, Image>, mayRewrite: set<Pid>)
    requires WorldOk(w, a) && Quelled(w, keys) && Truthful(w, truths, mayRewrite)
    requires INIT !in pids && a.sampler !in pids
    ensures var v := Killed(w, pids, kin);
      && WorldOk(v, a) && Quelled(v, keys) && Truthful(v, truths, mayRewrite)
      && Family(v.table, a.owner) <= Family(w.table, a.owner)
  {
    hide Loosened;
    KillKeepsFamily(w, pids, kin, a);
    KillKeepsKeys(w, pids, kin, keys, truths, mayRewrite);
    KillKeepsLinks(w.table, pids, kin);
    hide InFamily, Descends, Quelled, Truthful, Linked, Hollow;
  }

  lemma KillKeepsLinks(t: Table, pids: set<Pid>, kin: Adoption)
    requires Linked(t) && Hollow(t) && Runs(t, INIT) && INIT !in pids
    ensures Linked(KillAll(t, pids, kin)) && Hollow(KillAll(t, pids, kin))
  {
    var u := KillAll(t, pids, kin);
    forall r | r in u ensures LinkedAt(u, r) {
      assert LinkedAt(t, r);
    }
  }

  lemma KillKeepsFamily(w: World, pids: set<Pid>, kin: Adoption, a: Actors)
    requires WorldOk(w, a)
    ensures forall p :: InFamily(KillAll(w.table, pids, kin), a.owner, p) ==> InFamily(w.table, a.owner, p)
  {
    var t := w.table;
    var u := KillAll(t, pids, kin);
    forall q | q in t && t[q].parent.Some? && t[q].parent.value in pids && Descends(t, a.owner, u[q].parent.value)
      ensures Descends(t, a.owner, t[q].parent.value)
    {
      AdopterIsAncestor(t, t[q].parent.value, pids, kin, a.owner);
    }
    forall p | p in t && Descends(u, a.owner, p) ensures Descends(t, a.owner, p) {
      var n: nat :| Up(u, p, n) == Some(a.owner);
      DescentOnlyFromDescent(t, u, a.owner, p, n);
    }
  }

  /** Whom the adopter descends from, the dead parent descended from, init aside. */
  lemma AdopterIsAncestor(t: Table, p: Pid, dying: set<Pid>, kin: Adoption, owner: Pid)
    requires Descends(t, owner, Adopter(t, p, dying, kin)) && !Descends(t, owner, INIT)
    ensures Descends(t, owner, p)
  {
    var adopter := Adopter(t, p, dying, kin);
    assert Up(t, p, kin[p]) == Some(adopter);
    DescendsTransitive(t, owner, adopter, p);
  }

  lemma KillKeepsKeys(w: World, pids: set<Pid>, kin: Adoption, keys: set<Key>, truths: map<Key, Image>, mayRewrite: set<Pid>)
    requires Quelled(w, keys) && Truthful(w, truths, mayRewrite)
    ensures Quelled(Killed(w, pids, kin), keys) && Truthful(Killed(w, pids, kin), truths, mayRewrite)
  {
    hide Loosened;
    var v := Killed(w, pids, kin);
    forall k <- keys ensures k in w.born && (Held(v.table, k) && k.0 !in v.loose ==> v.table[k.0].status != Running) {
      assert k in w.born;
    }
    forall k <- truths ensures k in w.born && (k.0 !in mayRewrite && Alive(v.table, k) ==> Shows(v.table[k.0], truths[k])) {
      assert k in w.born;
    }
  }

  /** Reaping a zombie removes it; nothing points at it. */
  lemma ReapKeeps(w: World, p: Pid, a: Actors, keys: set<Key>, truths: map<Key, Image>, mayRewrite: set<Pid>)
    requires WorldOk(w, a) && Quelled(w, keys) && Truthful(w, truths, mayRewrite)
    requires p in w.table && w.table[p].status == Zombie
    ensures var v := w.(table := w.table - {p});
      WorldOk(v, a) && Quelled(v, keys) && Truthful(v, truths, mayRewrite)
  {
    var t := w.table;
    var u := t - {p};
    forall q | q in u && Descends(u, a.owner, q) ensures Descends(t, a.owner, q) {
      var n: nat :| Up(u, q, n) == Some(a.owner);
      DescentOnlyFromDescent(t, u, a.owner, q, n);
    }
    assert !InFamily(u, a.owner, INIT) && !InFamily(u, a.owner, a.sampler);
    LinkedReap(t, p);
    assert Hollow(u) by {
      hide InFamily, Descends, Linked;
    }
    hide InFamily, Descends, Linked, Hollow;
    forall k <- keys ensures Held(u, k) && k.0 !in w.loose ==> u[k.0].status != Running {
      assert k in w.born;
    }
    forall k <- truths ensures k in w.born && (k.0 !in mayRewrite && Alive(u, k) ==> Shows(u[k.0], truths[k])) {
      assert k in w.born;
    }
  }

  /** The PIDs that rewrite themselves in any of these batches. */
  function AllRewrites(script: seq<seq<Event>>): set<Pid> {
    if script == [] then {} else Rewrites(script[0]) + AllRewrites(script[1..])
  }

  class Kernel {
    const a: Actors
    var world: World
    var script: seq<seq<Event>>
    var faults: seq<bool>
    /** Whether the sampler has collected the owner's exit status. */
    var reaped: bool
    /** Every check, snapshot and signal so far. */
    var log: seq<Entry>
    /** Identities known to be stopped or dead for good. */
    ghost var quelled: set<Key>
    /** What is known to run under an identity for as long as it lives, `mayRewrite` aside. */
    ghost var truths: map<Key, Image>
    ghost var mayRewrite: set<Pid>

    ghost predicate Valid()
      reads this
    {
      && WorldOk(world, a)
      && Quelled(world, quelled)
      && Truthful(world, truths, mayRewrite)
      && AllRewrites(script) <= mayRewrite
      && (reaped <==> !Held(world.table, (a.owner, a.start)))
    }

    constructor (actors: Actors, start: World, events: seq<seq<Event>>, failures: seq<bool>)
      requires WorldOk(start, actors) && Held(start.table, (actors.owner, actors.start))
      ensures Valid() && a == actors && world == start && script == events && faults == failures
      ensures !reaped && log == [] && quelled == {} && truths == map[] && mayRewrite == AllRewrites(events)
    {
      a, world, script, faults := actors, start, events, failures;
      reaped, log, quelled := false, [], {};
      truths, mayRewrite := map[], AllRewrites(events);
    }

    /** Time passes. */
    method Breathe()
      requires Valid()
      modifies this`world, this`script
      ensures Valid() && Later(old(world), world, a)
      ensures |script| == if old(script) == [] then 0 else |old(script)| - 1
      ensures Calm(old(script)) ==> Calm(script) && world == old(world)
    {
      var events := if script == [] then [] else script[0];
      assert Rewrites(events) <= mayRewrite;
      RunKeeps(world, events, a, quelled, truths, mayRewrite);
      world := Run(world, events, a);
      script := if script == [] then [] else script[1..];
    }

    method Fails() returns (b: bool)
      requires Valid()
      modifies this`faults
      ensures Valid() && (old(faults) == [] ==> !b && faults == [])
    {
      b := faults != [] && faults[0];
      faults := if faults == [] then [] else faults[1..];
    }

    /** A snapshot of the process table, as it is. */
    method TakeSnapshot() returns (t: Table)
      requires Valid() && Lawful(log, a)
      modifies this`world, this`script, this`log
      ensures Valid() && Later(old(world), world, a) && t == world.table
      ensures Lawful(log, a) && log == old(log) + [Snapshot(t)] && LastSnapshot(log) == Some(t)
      ensures |script| == if old(script) == [] then 0 else |old(script)| - 1
      ensures Calm(old(script)) ==> Calm(script) && world == old(world)
    {
      hide Calm, WorldOk, Later, Quelled, Truthful, Lawful;
      Breathe();
      t := world.table;
      LawfulNote(log, Snapshot(t), a);
      SnapshotStays(log, Snapshot(t));
      log := log + [Snapshot(t)];
    }

    /** SIGSTOP to the process the latest snapshot shows to be `id`; fails only if nobody has that PID. */
    method StopProcess(id: Identity) returns (sent: bool)
      requires Valid() && (id.pid, id.start) in world.born && id.pid != INIT && id.pid != a.sampler
      requires Lawful(log, a) && Shown(log, id)
      modifies this`world, this`script, this`quelled, this`log
      ensures Valid() && Later(old(world), world, a) && Lawful(log, a)
      ensures log == (if sent then old(log) + [Halted(id)] else old(log)) && LastSnapshot(log) == LastSnapshot(old(log))
      ensures sent ==> quelled == old(quelled) + {(id.pid, id.start)}
      ensures !sent ==> quelled == old(quelled)
      ensures |script| <= |old(script)|
      ensures Calmly(old(script), old(world.table), script, world.table, 1)
      ensures Calm(old(script)) ==> (sent <==> id.pid in old(world.table))
    {
      hide WorldOk, Later, Quelled, Truthful, StopAll, Lawful, Shown, LastSnapshot, Calm, Calmly;
      ghost var start0 := world;
      Breathe();
      CalmlyStopped(old(script), old(world.table), script, world.table, {id.pid});
      BornLater(start0, world, a);
      if id.pid !in world.table {
        return false;
      }
      ghost var before := world;
      StopKeeps(world, {id.pid}, a, quelled, truths, mayRewrite);
      StopQuells(world, {id.pid}, quelled, (id.pid, id.start));
      world := world.(table := StopAll(world.table, {id.pid}));
      LaterTransitive(old(world), before, world, a);
      quelled := quelled + {(id.pid, id.start)};
      LawfulNote(log, Halted(id), a);
      SnapshotStays(log, Halted(id));
      log := log + [Halted(id)];
      return true;
    }

    /** An exact check of the owner has succeeded on the table as it is. */
    method Confirm(exe: Option<string>)
      requires Valid() && Lawful(log, a) && Confirmed(world.table, exe, a)
      modifies this`log
      ensures Valid() && Lawful(log, a) && JustChecked(log, a) && log == old(log) + [Checked(exe, world.table)]
    {
      LawfulGrows(log, Checked(exe, world.table), a);
      log := log + [Checked(exe, world.table)];
    }

    /** SIGSTOP to the owner's group; fails if the group is the sampler's or empty. */
    method StopOwnerGroup(group: Pid) returns (sent: bool)
      requires Valid() && group == a.owner && !reaped && Lawful(log, a) && JustChecked(log, a)
      modifies this`world, this`script, this`quelled, this`log
      ensures Valid() && Later(old(world), world, a) && Lawful(log, a)
      ensures sent ==> quelled == old(quelled) + {(a.owner, a.start)}
      ensures sent ==> forall p <- Members(world.table, group) :: p in world.table && world.table[p].status != Running
      ensures sent ==> |log| == |old(log)| + 1 && StoppedAt(log, |old(log)|, a)
      ensures Extends(log, old(log)) && forall i :: |old(log)| <= i < |log| ==> log[i].Sent?
      ensures !sent ==> quelled == old(quelled) && log == old(log)
      ensures |script| <= |old(script)|
      ensures Calm(old(script)) && group != a.samplerGroup && Members(old(world.table), group) != {} ==>
        && sent && Calm(script) && |old(script)| <= |script| + 1
        && world == old(world).(table := StopAll(old(world.table), Members(old(world.table), group)))
    {
      hide WorldOk, Later, Quelled, Truthful, Lawful, JustChecked, StopAll, Members, Calm;
      LaterItself(world, a);
      if group == a.samplerGroup {
        return false;
      }
      Breathe();
      var members := Members(world.table, group);
      if members == {} {
        return false;
      }
      ghost var before := world;
      var entry := Sent(group, Stop, world.table);
      LawfulSignal(log, entry, 0, a);
      log := log + [entry];
      StopGroupKeeps(world, a, quelled, truths, mayRewrite);
      world := world.(table := StopAll(world.table, members));
      LaterTransitive(old(world), before, world, a);
      quelled := quelled + {(a.owner, a.start)};
      return true;
    }

    /** SIGKILL to the owner's group. */
    method KillOwnerGroup(group: Pid, ghost stop: nat) returns (sent: bool, ghost killed: World, ghost kin: Adoption)
      requires Valid() && group == a.owner && !reaped && Lawful(log, a) && JustChecked(log, a) && StoppedAt(log, stop, a)
      modifies this`world, this`script, this`log
      ensures Valid() && Lawful(log, a) && Later(old(world), killed, a)
      ensures world == if sent then Killed(killed, Members(killed.table, group), kin) else killed
      ensures log == if sent then old(log) + [Sent(group, Kill, killed.table)] else old(log)
      ensures sent ==> group != a.samplerGroup && Members(killed.table, group) != {}
      ensures Calm(old(script)) && group != a.samplerGroup && Members(old(world.table), group) != {} ==>
        sent && Calm(script) && |old(script)| <= |script| + 1 && killed == old(world)
    {
      hide Lawful, JustChecked, Loosened, Calm;
      killed, kin := world, map[];
      LaterItself(world, a);
      if group == a.samplerGroup {
        return false, killed, kin;
      }
      Breathe();
      killed := world;
      var members := Members(world.table, group);
      if members == {} {
        return false, killed, kin;
      }
      var adoption: Adoption := *;
      kin := adoption;
      var entry := Sent(group, Kill, world.table);
      LawfulSignal(log, entry, stop, a);
      log := log + [entry];
      KillKeeps(world, members, adoption, a, quelled, truths, mayRewrite);
      world := Killed(world, members, adoption);
      return true, killed, kin;
    }

    /** SIGKILL to the process the latest snapshot shows to be `id`; fails only if nobody has that PID. */
    method KillProcess(id: Identity) returns (sent: bool, ghost killed: World, ghost kin: Adoption)
      requires Valid() && id.pid != INIT && id.pid != a.sampler
      requires Lawful(log, a) && Shown(log, id)
      modifies this`world, this`script, this`log
      ensures Valid() && Later(old(world), killed, a) && Lawful(log, a)
      ensures sent <==> id.pid in killed.table
      ensures world == if sent then Killed(killed, {id.pid}, kin) else killed
      ensures log == if sent then old(log) + [Shot(id)] else old(log)
      ensures Calm(old(script)) ==> Calm(script) && |old(script)| <= |script| + 1 && killed == old(world)
    {
      hide Loosened, Lawful, Shown, Calm;
      LawfulNote(log, Shot(id), a);
      Breathe();
      var adoption: Adoption := *;
      killed, kin := world, adoption;
      if id.pid !in world.table {
        return false, killed, kin;
      }
      KillKeeps(world, {id.pid}, adoption, a, quelled, truths, mayRewrite);
      world := Killed(world, {id.pid}, adoption);
      log := log + [Shot(id)];
      return true, killed, kin;
    }

    /** `Child::kill` of the owner, which has not been reaped. */
    method KillOwner() returns (ghost killed: World, ghost kin: Adoption)
      requires Valid() && !reaped && a.owner != INIT && a.owner != a.sampler && Lawful(log, a)
      modifies this`world, this`script, this`log
      ensures Valid() && Later(old(world), killed, a) && Lawful(log, a)
      ensures a.owner in killed.table && world == Killed(killed, {a.owner}, kin)
      ensures log == old(log) + [OwnerShot(killed.table)]
    {
      hide Loosened, Lawful;
      Breathe();
      var adoption: Adoption := *;
      killed, kin := world, adoption;
      LawfulNote(log, OwnerShot(world.table), a);
      log := log + [OwnerShot(world.table)];
      KillKeeps(world, {a.owner}, adoption, a, quelled, truths, mayRewrite);
      world := Killed(world, {a.owner}, adoption);
    }

    /** `Child::try_wait`. */
    method TryWait() returns (status: WaitStatus, ghost seen: World)
      requires Valid()
      modifies this`world, this`script, this`faults, this`reaped
      ensures Valid() && Later(old(world), seen, a)
      ensures status == Exited <==> reaped
      ensures |script| <= |old(script)|
      ensures status == StillRunning ==> a.owner in seen.table && seen.table[a.owner].status != Zombie
      ensures world == if reaped && !old(reaped) then seen.(table := seen.table - {a.owner}) else seen
      ensures reaped && !old(reaped) ==> a.owner in seen.table && seen.table[a.owner].status == Zombie
      ensures Calm(old(script)) ==> Calm(script) && |old(script)| <= |script| + 1 && seen == old(world)
      ensures old(faults) == [] ==> faults == [] && (!reaped ==> status == StillRunning)
    {
      hide Calm;
      Breathe();
      seen := world;
      if reaped {
        return Exited, seen;
      }
      var failed := Fails();
      if failed {
        return QueryFailed, seen;
      }
      if world.table[a.owner].status != Zombie {
        return StillRunning, seen;
      }
      ReapKeeps(world, a.owner, a, quelled, truths, mayRewrite);
      world := world.(table := world.table - {a.owner});
      reaped := true;
      return Exited, seen;
    }
  }
}
