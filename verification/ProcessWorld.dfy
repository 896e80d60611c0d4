/**
 The operating system as the perf sampler sees it: a process table that other processes keep
 changing. `Apply` is one step of that environment. Its guards are the facts about POSIX
 processes the sampler relies on: only a running process acts, orphans go to init or to an
 ancestor, a process is reaped only by its parent (the owner only by the sampler), a PID is not
 reused while it names a group, and no (PID, start second) pair is used twice. Outsiders do not
 join the owner's process group and the owner does not leave it. A stopped process is continued
 or killed only by what the kernel does when processes die: it hangs up and continues process
 groups that this orphans, and sends the parent-death signals that were asked for.
 */
module ProcessWorld {
  import opened Text

  type Pid = nat

  /** What the sampler takes for a process's identity: PID and start time in seconds. */
  type Key = (Pid, nat)

  const INIT: Pid := 1

  datatype Status = Running | Stopped | Zombie

  /** `tied` processes get a signal when their parent dies. */
  datatype Process = Process(
    start: nat, parent: Option<Pid>, group: Pid, session: Pid, tied: bool, status: Status,
    exe: Option<string>, command: string)

  type Table = map<Pid, Process>

  /** `born` is every identity ever handed out, `loose` every PID a death has sent signals to. */
  datatype World = World(table: Table, clock: nat, born: set<Key>, loose: set<Pid>)

  /** The sampler and its process group, and the process it spawned, `owner`, with its start time. */
  datatype Actors = Actors(owner: Pid, start: nat, sampler: Pid, samplerGroup: Pid)

  function KeyOf(t: Table, p: Pid): Key
    requires p in t
  {
    (p, t[p].start)
  }

  predicate Held(t: Table, k: Key) {
    k.0 in t && t[k.0].start == k.1
  }

  // ---------------------------------------------------------------- descent

  /** The `n`-th ancestor of `p` along parent links. */
  function Up(t: Table, p: Pid, n: nat): Option<Pid>
    decreases n
  {
    if n == 0 then Some(p)
    else if p !in t || t[p].parent.None? then None
    else Up(t, t[p].parent.value, n - 1)
  }

  ghost predicate Descends(t: Table, root: Pid, p: Pid) {
    exists n: nat :: Up(t, p, n) == Some(root)
  }

  /** The owner's family: everything below it, and everything in its process group. */
  ghost predicate InFamily(t: Table, owner: Pid, p: Pid) {
    p in t && (Descends(t, owner, p) || t[p].group == owner)
  }

  ghost function Family(t: Table, owner: Pid): set<Pid> {
    set p | p in t && InFamily(t, owner, p)
  }

  lemma {:induction false} UpAdds(t: Table, p: Pid, m: nat, n: nat)
    requires Up(t, p, m).Some?
    ensures Up(t, p, m + n) == Up(t, Up(t, p, m).value, n)
    decreases m
  {
    if m == 0 {
    } else {
      UpAdds(t, t[p].parent.value, m - 1, n);
    }
  }

  lemma DescendsTransitive(t: Table, a: Pid, b: Pid, c: Pid)
    requires Descends(t, a, b) && Descends(t, b, c)
    ensures Descends(t, a, c)
  {
    var m: nat :| Up(t, c, m) == Some(b);
    var n: nat :| Up(t, b, n) == Some(a);
    UpAdds(t, c, m, n);
  }

  lemma ChildDescends(t: Table, root: Pid, p: Pid)
    requires p in t && t[p].parent.Some? && Descends(t, root, t[p].parent.value)
    ensures Descends(t, root, p)
  {
    var n: nat :| Up(t, t[p].parent.value, n) == Some(root);
    assert Up(t, p, n + 1) == Some(root);
  }

  // ---------------------------------------------------------------- the environment

  /** `Rewrite`: a process executes another program, or writes over the arguments it shows. */
  datatype Event =
    | Tick
    | Fork(parent: Pid, child: Pid)
    | Rewrite(pid: Pid, exe: Option<string>, command: string)
    | Exit(pid: Pid, adopter: Pid, generations: nat)
    | Reap(pid: Pid)
    | Regroup(pid: Pid, group: Pid, generations: nat)
    | NewSession(pid: Pid)
    | Tie(pid: Pid)
    | Suspend(pid: Pid)
    | Continue(pid: Pid)

  predicate Runs(t: Table, p: Pid) {
    p in t && t[p].status == Running
  }

  /** A stopped process with a signal on its way that may end it or let it go on. */
  predicate Disturbed(w: World, p: Pid) {
    p in w.table && w.table[p].status == Stopped && p in w.loose
  }

  /** `q` connects its group to the rest of its session, and no longer does when `dying` are dead. */
  predicate Unlinks(t: Table, q: Pid, dying: set<Pid>)
    requires q in t
  {
    && t[q].parent.Some? && t[q].parent.value in t && (q in dying || t[q].parent.value in dying)
    && t[t[q].parent.value].session == t[q].session && t[t[q].parent.value].group != t[q].group
  }

  /**
   The stopped processes the kernel signals when `dying` die: those whose group this may orphan
   (SIGHUP and then SIGCONT, by the consequences of process termination under `_Exit` in
   POSIX.1-2017), and those who asked for a signal at their parent's death.
   */
  function Loosened(t: Table, dying: set<Pid>): set<Pid> {
    set r | r in t && r !in dying && t[r].status == Stopped
      && ((t[r].tied && t[r].parent.Some? && t[r].parent.value in dying)
          || exists q <- t :: t[q].group == t[r].group && Unlinks(t, q, dying))
  }

  /** The dead keep their entry until reaped; their children go to `adopter`. */
  function Die(t: Table, p: Pid, adopter: Pid): (r: Table)
    requires p in t
    ensures r.Keys == t.Keys
  {
    map q <- t :: q :=
      var parent := if t[q].parent == Some(p) then Some(adopter) else t[q].parent;
      if q == p then t[q].(parent := parent, status := Zombie, exe := None) else t[q].(parent := parent)
  }

  predicate Allowed(w: World, e: Event, a: Actors) {
    var t := w.table;
    match e
    case Tick => true
    case Fork(parent, child) =>
      && Runs(t, parent) && child !in t && (child, w.clock) !in w.born
      && forall p <- t :: t[p].group != child
    case Rewrite(pid, _, _) => Runs(t, pid)
    case Exit(pid, adopter, generations) =>
      && (Runs(t, pid) || Disturbed(w, pid)) && pid != INIT && pid != a.sampler
      && adopter in t && adopter != pid && t[adopter].status != Zombie
      && (adopter == INIT || Up(t, pid, generations) == Some(adopter))
    case Reap(pid) =>
      && pid in t && t[pid].status == Zombie && !(pid == a.owner && t[pid].start == a.start)
      && t[pid].parent.Some? && Runs(t, t[pid].parent.value)
    case Regroup(pid, group, generations) =>
      && Runs(t, pid) && pid != a.sampler && !(pid == a.owner && t[pid].start == a.start)
      && (group == a.owner ==> t[pid].group == a.owner || Up(t, pid, generations) == Some(a.owner))
    case NewSession(pid) =>
      Runs(t, pid) && pid != a.sampler && !(pid == a.owner && t[pid].start == a.start) && t[pid].group != pid
    case Tie(pid) => Runs(t, pid)
    case Suspend(pid) => Runs(t, pid) && pid != INIT && pid != a.sampler
    case Continue(pid) => Disturbed(w, pid)
  }

  /** One step of the environment; a step that is not allowed does nothing. */
  function Apply(w: World, e: Event, a: Actors): World {
    if !Allowed(w, e, a) then w
    else
      var t := w.table;
      match e
      case Tick => w.(clock := w.clock + 1)
      case Fork(parent, child) =>
        var p := t[parent].(start := w.clock, parent := Some(parent), tied := false);
        w.(table := t[child := p], born := w.born + {(child, w.clock)})
      case Rewrite(pid, exe, command) => w.(table := t[pid := t[pid].(exe := exe, command := command)])
      case Exit(pid, adopter, _) => w.(table := Die(t, pid, adopter), loose := w.loose + Loosened(t, {pid}))
      case Reap(pid) => w.(table := t - {pid})
      case Regroup(pid, group, _) => w.(table := t[pid := t[pid].(group := group)])
      case NewSession(pid) => w.(table := t[pid := t[pid].(group := pid, session := pid)])
      case Tie(pid) => w.(table := t[pid := t[pid].(tied := true)])
      case Suspend(pid) => w.(table := t[pid := t[pid].(status := Stopped)])
      case Continue(pid) => w.(table := t[pid := t[pid].(status := Running)])
  }

  function Run(w: World, events: seq<Event>, a: Actors): World
    decreases |events|
  {
    if events == [] then w else Run(Apply(w, events[0], a), events[1..], a)
  }

  // ---------------------------------------------------------------- what every world keeps

  ghost predicate WorldOk(w: World, a: Actors) {
    var t := w.table;
    && Runs(t, INIT) && t[INIT].parent.None? && !InFamily(t, a.owner, INIT)
    && Runs(t, a.sampler) && !InFamily(t, a.owner, a.sampler) && t[a.sampler].group == a.samplerGroup
    && (a.owner, a.start) in w.born
    && (Held(t, (a.owner, a.start)) ==> t[a.owner].group == a.owner)
    && (forall p <- t :: KeyOf(t, p) in w.born)
    && Linked(t) && Hollow(t)
  }

  /** The dead show no executable. */
  predicate Hollow(t: Table) {
    forall p <- t :: t[p].status == Zombie ==> t[p].exe.None?
  }

  /** Whoever holds one of these identities, now or later, is stopped or dead, unless a death disturbs it. */
  ghost predicate Quelled(w: World, keys: set<Key>) {
    forall k <- keys :: k in w.born && (Held(w.table, k) && k.0 !in w.loose ==> w.table[k.0].status != Running)
  }

  /** The whole family is stopped or dead, but for those a death has disturbed. */
  ghost predicate Frozen(w: World, owner: Pid) {
    forall p <- w.table :: InFamily(w.table, owner, p) && p !in w.loose ==> w.table[p].status != Running
  }

  /** Nobody of `w`'s family is disturbed by a death before `v`. */
  ghost predicate Undisturbed(w: World, v: World, owner: Pid) {
    Family(w.table, owner) !! v.loose
  }

  /** The same process as far as the sampler can tell, its parent aside. */
  predicate SameBut(p: Process, q: Process) {
    p.start == q.start && p.group == q.group && p.status == q.status && p.exe == q.exe && p.command == q.command
  }

  /** Every stopped process is still there, unchanged, unless a death has disturbed it. */
  ghost predicate Settled(w: World, v: World) {
    forall p <- w.table :: w.table[p].status == Stopped && p !in v.loose ==> p in v.table && SameBut(w.table[p], v.table[p])
  }

  predicate Alive(t: Table, k: Key) {
    Held(t, k) && t[k.0].status != Zombie
  }

  /** The program and command line a process was last seen with. */
  datatype Image = Image(exe: string, command: string)

  predicate Shows(p: Process, i: Image) {
    p.exe == Some(i.exe) && p.command == i.command
  }

  /** Whoever is alive under one of these identities still runs its image, if only `mayRewrite` change theirs. */
  ghost predicate Truthful(w: World, truths: map<Key, Image>, mayRewrite: set<Pid>) {
    forall k <- truths :: k in w.born && (k.0 !in mayRewrite && Alive(w.table, k) ==> Shows(w.table[k.0], truths[k]))
  }

  /** The PIDs that rewrite themselves in these events. */
  function Rewrites(events: seq<Event>): set<Pid> {
    set i | 0 <= i < |events| && events[i].Rewrite? :: events[i].pid
  }

  // ---------------------------------------------------------------- joining the family

  /** A changed link is harmless when it leads only to ancestors of the old one. */
  lemma {:induction false} DescentOnlyFromDescent(t: Table, u: Table, owner: Pid, p: Pid, n: nat)
    requires Up(u, p, n) == Some(owner)
    requires forall q <- u :: q in t && u[q].parent != t[q].parent ==>
      && u[q].parent.Some? && t[q].parent.Some?
      && (Descends(t, owner, u[q].parent.value) ==> Descends(t, owner, t[q].parent.value))
    requires forall q <- u :: q !in t ==> u[q].parent.Some? && !Descends(t, owner, u[q].parent.value) && q != owner
    ensures Descends(t, owner, p)
    decreases n
  {
    if n == 0 {
      assert Up(t, p, 0) == Some(owner);
    } else {
      var q := u[p].parent.value;
      DescentOnlyFromDescent(t, u, owner, q, n - 1);
      assert p in t;
      ChildDescends(t, owner, p);
    }
  }

  /** Nobody joins the family except by being forked inside it. */
  lemma Entrants(w: World, e: Event, a: Actors, p: Pid)
    requires WorldOk(w, a) && InFamily(Apply(w, e, a).table, a.owner, p)
    ensures InFamily(w.table, a.owner, p)
         || (e.Fork? && e.child == p && (p == a.owner || InFamily(w.table, a.owner, e.parent)))
  {
    hide Loosened;
    var t, u := w.table, Apply(w, e, a).table;
    assert Up(t, a.owner, 0) == Some(a.owner);
    if Allowed(w, e, a) && Descends(u, a.owner, p) {
      var n: nat :| Up(u, p, n) == Some(a.owner);
      match e
      case Fork(parent, child) =>
        ForkEntrants(t, u, a.owner, e, p, n);
      case Exit(pid, adopter, generations) =>
        ExitEntrants(t, u, a, pid, adopter, p, n);
      case Reap(pid) =>
        DescentOnlyFromDescent(t, u, a.owner, p, n);
      case _ =>
        DescentOnlyFromDescent(t, u, a.owner, p, n);
    }
  }

  lemma {:induction false} ForkEntrants(t: Table, u: Table, owner: Pid, e: Event, p: Pid, n: nat)
    requires e.Fork? && e.parent in t && e.child !in t
    requires e.child in u && u.Keys == t.Keys + {e.child} && u[e.child].parent == Some(e.parent)
    requires forall q <- t :: u[q] == t[q]
    requires Linked(t)
    requires p in u && Up(u, p, n) == Some(owner)
    ensures p in t ==> Descends(t, owner, p)
    ensures p == e.child ==> owner == e.child || Descends(t, owner, e.parent)
    decreases n
  {
    if n == 0 {
      assert p in t ==> Up(t, p, 0) == Some(owner);
    } else {
      assert p in t ==> LinkedAt(t, p);
      ForkEntrants(t, u, owner, e, u[p].parent.value, n - 1);
      if p in t {
        ChildDescends(t, owner, p);
      }
    }
  }

  lemma ExitEntrants(t: Table, u: Table, a: Actors, pid: Pid, adopter: Pid, p: Pid, n: nat)
    requires pid in t && u == Die(t, pid, adopter) && Up(u, p, n) == Some(a.owner)
    requires INIT in t && t[INIT].parent.None? && !Descends(t, a.owner, INIT)
    requires adopter == INIT || Descends(t, adopter, pid)
    ensures Descends(t, a.owner, p)
  {
    if Descends(t, a.owner, adopter) {
      assert adopter != INIT;
      DescendsTransitive(t, a.owner, adopter, pid);
    }
    DescentOnlyFromDescent(t, u, a.owner, p, n);
  }

  // ---------------------------------------------------------------- what a step keeps

  lemma ApplyKeepsWorld(w: World, e: Event, a: Actors)
    requires WorldOk(w, a)
    ensures WorldOk(Apply(w, e, a), a)
  {
    ApplyKeepsOutside(w, e, a);
    hide InFamily, Descends, Loosened;
    ApplyKeepsLinks(w, e, a);
    ApplyKeepsHollow(w, e, a);
    hide Hollow;
  }

  lemma ApplyKeepsHollow(w: World, e: Event, a: Actors)
    requires Hollow(w.table)
    ensures Hollow(Apply(w, e, a).table)
  {
    hide InFamily, Descends, Loosened;
  }

  /** Neither init nor the sampler joins the family. */
  lemma ApplyKeepsOutside(w: World, e: Event, a: Actors)
    requires WorldOk(w, a)
    ensures !InFamily(Apply(w, e, a).table, a.owner, INIT) && !InFamily(Apply(w, e, a).table, a.owner, a.sampler)
  {
    if InFamily(Apply(w, e, a).table, a.owner, INIT) {
      Entrants(w, e, a, INIT);
    }
    if InFamily(Apply(w, e, a).table, a.owner, a.sampler) {
      Entrants(w, e, a, a.sampler);
    }
    hide InFamily, Descends, Loosened;
  }

  /** Parents are there, and not dead. */
  predicate LinkedAt(t: Table, p: Pid)
    requires p in t
  {
    t[p].parent.Some? ==> t[p].parent.value in t && t[t[p].parent.value].status != Zombie
  }

  ghost predicate Linked(t: Table) {
    forall p {:trigger LinkedAt(t, p)} :: p in t ==> LinkedAt(t, p)
  }

  lemma ApplyKeepsLinks(w: World, e: Event, a: Actors)
    requires Linked(w.table) && Runs(w.table, INIT)
    ensures Linked(Apply(w, e, a).table)
  {
    hide Linked, Die, Loosened;
    if Allowed(w, e, a) {
      var t, u := w.table, Apply(w, e, a).table;
      match e
      case Tick =>
      case Fork(_, child) => LinkedSet(t, child, u[child]);
      case Rewrite(pid, _, _) => LinkedSet(t, pid, u[pid]);
      case Exit(pid, adopter, _) => LinkedDie(t, pid, adopter);
      case Reap(pid) => LinkedReap(t, pid);
      case Regroup(pid, _, _) => LinkedSet(t, pid, u[pid]);
      case NewSession(pid) => LinkedSet(t, pid, u[pid]);
      case Tie(pid) => LinkedSet(t, pid, u[pid]);
      case Suspend(pid) => LinkedSet(t, pid, u[pid]);
      case Continue(pid) => LinkedSet(t, pid, u[pid]);
    }
  }

  /** A new process under a living parent, or a living one that keeps its parent. */
  lemma LinkedSet(t: Table, p: Pid, q: Process)
    requires Linked(t) && q.status != Zombie
    requires if p in t then q.parent == t[p].parent else q.parent.Some? && q.parent.value in t && t[q.parent.value].status != Zombie
    ensures Linked(t[p := q])
  {
    var u := t[p := q];
    forall r | r in u ensures LinkedAt(u, r) {
      assert r in t ==> LinkedAt(t, r);
    }
  }

  lemma LinkedDie(t: Table, p: Pid, adopter: Pid)
    requires Linked(t) && p in t && adopter in t && adopter != p && t[adopter].status != Zombie
    ensures Linked(Die(t, p, adopter))
  {
    var u := Die(t, p, adopter);
    forall r | r in u ensures LinkedAt(u, r) {
      assert LinkedAt(t, r);
    }
  }

  lemma LinkedReap(t: Table, p: Pid)
    requires Linked(t) && p in t && t[p].status == Zombie
    ensures Linked(t - {p})
  {
    var u := t - {p};
    forall r | r in u ensures LinkedAt(u, r) {
      assert LinkedAt(t, r);
    }
  }

  lemma ApplyKeepsQuelled(w: World, e: Event, a: Actors, keys: set<Key>)
    requires WorldOk(w, a) && Quelled(w, keys)
    ensures Quelled(Apply(w, e, a), keys)
  {
    hide InFamily, Descends, Loosened;
    var v := Apply(w, e, a);
    forall k <- keys
      ensures k in v.born && (Held(v.table, k) && k.0 !in v.loose ==> v.table[k.0].status != Running)
    {
      assert k in w.born;
    }
  }

  /** Only an Rewrite changes what a living process runs. */
  lemma ApplyKeepsTruthful(w: World, e: Event, a: Actors, truths: map<Key, Image>, mayRewrite: set<Pid>)
    requires WorldOk(w, a) && Truthful(w, truths, mayRewrite) && (e.Rewrite? ==> e.pid in mayRewrite)
    ensures Truthful(Apply(w, e, a), truths, mayRewrite)
  {
    hide InFamily, Descends, Loosened;
    var v := Apply(w, e, a);
    forall k <- truths
      ensures k in v.born && (k.0 !in mayRewrite && Alive(v.table, k) ==> Shows(v.table[k.0], truths[k]))
    {
      assert k in w.born;
    }
  }

  /** A frozen family that nothing disturbs stays frozen and takes nobody in. */
  lemma ApplyKeepsFrozen(w: World, e: Event, a: Actors)
    requires WorldOk(w, a) && Frozen(w, a.owner) && a.owner in w.table
    requires Undisturbed(w, Apply(w, e, a), a.owner)
    ensures var v := Apply(w, e, a);
      Frozen(v, a.owner) && Family(v.table, a.owner) <= Family(w.table, a.owner)
  {
    var v := Apply(w, e, a);
    forall p | p in v.table && InFamily(v.table, a.owner, p)
      ensures InFamily(w.table, a.owner, p) && v.table[p].status != Running
    {
      assert p in Family(w.table, a.owner) ==> p !in v.loose;
      Entrants(w, e, a, p);
      if e.Fork? && e.parent in w.table && InFamily(w.table, a.owner, e.parent) {
        assert e.parent in Family(w.table, a.owner);
      }
      assert InFamily(w.table, a.owner, p);
      assert w.table[p].status != Running;
    }
  }

  /** No live process has this identity. */
  predicate Dead(t: Table, k: Key) {
    Held(t, k) ==> t[k.0].status == Zombie
  }

  /** What holds between a world and a later one when only the environment has acted. */
  ghost predicate Later(w: World, v: World, a: Actors) {
    && Settled(w, v)
    && w.born <= v.born && w.loose <= v.loose
    && (forall k <- w.born :: Dead(w.table, k) ==> Dead(v.table, k))
    && (Held(w.table, (a.owner, a.start)) <==> Held(v.table, (a.owner, a.start)))
    && (Held(w.table, (a.owner, a.start)) && Frozen(w, a.owner) && Undisturbed(w, v, a.owner) ==>
          Frozen(v, a.owner) && Family(v.table, a.owner) <= Family(w.table, a.owner))
  }

  lemma LaterTransitive(u: World, v: World, w: World, a: Actors)
    requires Later(u, v, a) && Later(v, w, a)
    ensures Later(u, w, a)
  {
    hide Frozen, Family, Held;
    forall k <- u.born | Dead(u.table, k) ensures Dead(w.table, k) {
      assert Dead(v.table, k) && k in v.born;
    }
  }

  lemma ApplyIsLater(w: World, e: Event, a: Actors)
    requires WorldOk(w, a)
    ensures Later(w, Apply(w, e, a), a)
  {
    var v := Apply(w, e, a);
    hide Loosened;
    if Held(w.table, (a.owner, a.start)) && Frozen(w, a.owner) && Undisturbed(w, v, a.owner) {
      ApplyKeepsFrozen(w, e, a);
    }
    ApplySettles(w, e, a);
    ApplyKeepsDead(w, e, a);
    hide Allowed, InFamily, Descends, Frozen, Family, Undisturbed, Settled, Dead;
  }

  lemma ApplySettles(w: World, e: Event, a: Actors)
    requires WorldOk(w, a)
    ensures Settled(w, Apply(w, e, a)) && w.born <= Apply(w, e, a).born && w.loose <= Apply(w, e, a).loose
  {
    hide InFamily, Descends, Loosened;
  }

  lemma ApplyKeepsDead(w: World, e: Event, a: Actors)
    requires WorldOk(w, a)
    ensures forall k <- w.born :: Dead(w.table, k) ==> Dead(Apply(w, e, a).table, k)
  {
    hide InFamily, Descends, Loosened;
  }

  /** What one step keeps, every run of the environment keeps. */
  lemma {:induction false} RunKeeps(w: World, events: seq<Event>, a: Actors, keys: set<Key>, truths: map<Key, Image>, mayRewrite: set<Pid>)
    requires WorldOk(w, a) && Quelled(w, keys) && Truthful(w, truths, mayRewrite) && Rewrites(events) <= mayRewrite
    ensures var v := Run(w, events, a); WorldOk(v, a) && Quelled(v, keys) && Truthful(v, truths, mayRewrite) && Later(w, v, a)
    decreases |events|
  {
    if events == [] {
      LaterItself(w, a);
    } else {
      ExecsSplit(events);
      hide WorldOk, Later, Quelled, Truthful, Rewrites;
      var v := Apply(w, events[0], a);
      ApplyKeepsWorld(w, events[0], a);
      ApplyKeepsQuelled(w, events[0], a, keys);
      ApplyKeepsTruthful(w, events[0], a, truths, mayRewrite);
      ApplyIsLater(w, events[0], a);
      RunKeeps(v, events[1..], a, keys, truths, mayRewrite);
      LaterTransitive(w, v, Run(v, events[1..], a), a);
    }
  }

  lemma ExecsSplit(events: seq<Event>)
    requires events != []
    ensures Rewrites(events[1..]) <= Rewrites(events) && (events[0].Rewrite? ==> events[0].pid in Rewrites(events))
  {
    forall p <- Rewrites(events[1..]) ensures p in Rewrites(events) {
      var i :| 0 <= i < |events[1..]| && events[1..][i].Rewrite? && events[1..][i].pid == p;
      assert events[i + 1] == events[1..][i];
    }
  }

  lemma LaterItself(w: World, a: Actors)
    ensures Later(w, w, a)
  {
  }

  /**
   Once the owner's whole family is stopped or dead, no run of the environment, whatever it
   forks, kills, reparents or reuses outside, puts a process into it or wakes one up, as long as
   the sampler has not reaped the owner and no death disturbs a member.
   */
  lemma FrozenForever(w: World, events: seq<Event>, a: Actors)
    requires WorldOk(w, a) && Frozen(w, a.owner) && Held(w.table, (a.owner, a.start))
    requires Undisturbed(w, Run(w, events, a), a.owner)
    ensures var v := Run(w, events, a);
      && Family(v.table, a.owner) <= Family(w.table, a.owner) && Held(v.table, (a.owner, a.start))
      && forall p <- Family(v.table, a.owner) :: p in v.table && v.table[p].status != Running
  {
    var v := Run(w, events, a);
    RunKeeps(w, events, a, {}, map[], Rewrites(events));
    hide InFamily, Descends, WorldOk;
    forall p <- Family(v.table, a.owner) ensures p in v.table && v.table[p].status != Running {
      assert p in Family(w.table, a.owner) && p !in v.loose;
    }
  }
}
