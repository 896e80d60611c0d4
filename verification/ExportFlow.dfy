/**
 Personal data export of src/data_cli.rs: through the running owner, or from disk under the
 writer lease. Between any two of the exporter's operations the rest of the system moves as it
 likes: owners start, stop, write and serve requests, and older owners ignore the lease.
 */
module ExportFlow {
  import opened Text

  type Owner = nat

  datatype Holder = Free | Ours | Theirs(o: Owner)

  /** `retained`: the request carries its identity to a server that executes it only once. */
  datatype Request = Request(owner: Owner, id: nat, retained: bool)

  datatype Export = ByOwner(request: Request) | FromDisk(snapshot: seq<nat>)

  /** A primary of an older version: it listens on an endpoint while it runs, and takes no lease. */
  datatype Older = Older(o: Owner, endpoint: nat)

  /** `stores` are the contents of the files an export reads, `inbox` what reached a server unserved. */
  datatype World = World(holder: Holder, older: set<Older>, stores: seq<nat>, inbox: seq<Request>, exports: seq<Export>)

  datatype Step =
    | Acquire(o: Owner)
    | Yield(o: Owner)
    | StartOlder(p: Older)
    | StopOlder(p: Older)
    | Write(o: Owner, store: nat, content: nat)
    | WriteOlder(p: Older, store: nat, content: nat)
    | Serve(k: nat)
    | Drop(k: nat)

  function Without<T>(s: seq<T>, k: nat): seq<T>
    requires k < |s|
  {
    s[..k] + s[k + 1..]
  }

  function Applied(w: World, step: Step): World {
    match step
    case Acquire(o) => if w.holder == Free then w.(holder := Theirs(o)) else w
    case Yield(o) => if w.holder == Theirs(o) then w.(holder := Free) else w
    case StartOlder(p) => w.(older := w.older + {p})
    case StopOlder(p) => w.(older := w.older - {p})
    case Write(o, i, c) => if w.holder == Theirs(o) && i < |w.stores| then w.(stores := w.stores[i := c]) else w
    case WriteOlder(p, i, c) => if p in w.older && i < |w.stores| then w.(stores := w.stores[i := c]) else w
    case Serve(k) => if k < |w.inbox| then Served(w, k) else w
    case Drop(k) => if k < |w.inbox| then w.(inbox := Without(w.inbox, k)) else w
  }

  function Served(w: World, k: nat): World
    requires k < |w.inbox|
  {
    var r := w.inbox[k];
    var again := r.retained && ByOwner(r) in w.exports;
    w.(inbox := Without(w.inbox, k), exports := if again then w.exports else w.exports + [ByOwner(r)])
  }

  lemma ServedNow(w: World)
    requires |w.inbox| == 1
    ensures ByOwner(w.inbox[0]) in Served(w, 0).exports
  {
  }

  function AppliedAll(w: World, steps: seq<Step>): World
    decreases |steps|
  {
    if steps == [] then w else AppliedAll(Applied(w, steps[0]), steps[1..])
  }

  /** An older primary that is running writes one of the stores. */
  predicate Touching(w: World, step: Step) {
    step.WriteOlder? && step.p in w.older && step.store < |w.stores|
  }

  // ---------------------------------------------------------------- at most one export

  /** Our command is one request, perhaps sent twice to a server that executes it once. */
  predicate OneRequest(inbox: seq<Request>) {
    && (forall i, j :: 0 <= i < |inbox| && 0 <= j < |inbox| ==> inbox[i] == inbox[j])
    && (|inbox| > 1 ==> inbox[0].retained)
  }

  /** At most one export after the first `base`, now and whatever is still undelivered. */
  predicate AtMostOne(w: World, base: nat) {
    && OneRequest(w.inbox)
    && base <= |w.exports| <= base + 1
    && (|w.exports| == base + 1 ==>
          forall r <- w.inbox :: r.retained && w.exports[base] == ByOwner(r))
    && (|w.exports| == base ==> forall r <- w.inbox :: ByOwner(r) !in w.exports)
  }

  /** The request may go out: once, or again to a server that retains it. */
  predicate MaySend(w: World, base: nat, r: Request) {
    AtMostOne(w.(inbox := w.inbox + [r]), base)
  }

  lemma AtMostOneKept(w: World, base: nat, step: Step)
    requires AtMostOne(w, base)
    ensures AtMostOne(Applied(w, step), base)
  {
    var v := Applied(w, step);
    if (step.Serve? || step.Drop?) && step.k < |w.inbox| {
      assert forall i :: 0 <= i < |v.inbox| ==> v.inbox[i] == w.inbox[if i < step.k then i else i + 1];
      var r := w.inbox[step.k];
      assert r in w.inbox;
      if |v.inbox| > 0 {
        assert |w.inbox| > 1 && r.retained;
      }
    }
  }

  lemma AppliedShape(w: World, step: Step)
    ensures var v := Applied(w, step);
      && |v.stores| == |w.stores|
      && |w.exports| <= |v.exports| && v.exports[..|w.exports|] == w.exports
      && (w.inbox == [] ==> v.inbox == [] && v.exports == w.exports)
      && (v.holder == Ours <==> w.holder == Ours)
      && v.older <= (if step.StartOlder? then w.older + {step.p} else w.older)
      && (w.holder == Ours && !Touching(v, step) ==> v.stores == w.stores)
  {
  }

  lemma MaySendKept(w: World, base: nat, r: Request, step: Step)
    requires MaySend(w, base, r)
    ensures MaySend(Applied(w, step), base, r)
  {
    var v := w.(inbox := w.inbox + [r]);
    AtMostOneKept(v, base, step);
    OneMoreWaits(w, r, step);
    hide Applied, AtMostOne;
    if step == Serve(|w.inbox|) || step == Drop(|w.inbox|) {
      assert Applied(w, step) == w;
    } else {
      assert Applied(v, step) == Applied(w, step).(inbox := Applied(w, step).inbox + [r]);
    }
  }

  /** A request at the end of the inbox does not concern the moves before it. */
  lemma OneMoreWaits(w: World, r: Request, step: Step)
    ensures var v, u := Applied(w, step), Applied(w.(inbox := w.inbox + [r]), step);
      if step == Serve(|w.inbox|) || step == Drop(|w.inbox|) then v == w else u == v.(inbox := v.inbox + [r])
  {
    if (step.Serve? || step.Drop?) && step.k < |w.inbox| {
      var more := w.inbox + [r];
      assert Without(more, step.k) == Without(w.inbox, step.k) + [r];
      assert more[step.k] == w.inbox[step.k];
    }
  }

  lemma MaySendAgain(w: World, base: nat, r: Request)
    requires MaySend(w, base, r) && r.retained
    ensures MaySend(w.(inbox := w.inbox + [r]), base, r)
  {
    var v := w.(inbox := w.inbox + [r]);
    assert v.inbox[|w.inbox|] == r;
  }

  /** However the rest of the system goes on, there is never a second export. */
  lemma {:induction false} AtMostOneForever(w: World, base: nat, steps: seq<Step>)
    requires AtMostOne(w, base)
    ensures base <= |AppliedAll(w, steps).exports| <= base + 1
    decreases |steps|
  {
    if steps == [] {
    } else {
      AtMostOneKept(w, base, steps[0]);
      AtMostOneForever(Applied(w, steps[0]), base, steps[1..]);
    }
  }

  ghost predicate NeverAgain(w: World, base: nat) {
    forall future: seq<Step> :: base <= |AppliedAll(w, future).exports| <= base + 1
  }

  lemma NeverASecond(w: World, base: nat)
    requires AtMostOne(w, base)
    ensures NeverAgain(w, base)
  {
    forall future: seq<Step> ensures base <= |AppliedAll(w, future).exports| <= base + 1 {
      AtMostOneForever(w, base, future);
    }
  }

  // ---------------------------------------------------------------- the stores

  /** Under our lease, owners that respect it leave the stores alone, whatever they do. */
  lemma {:induction false} StoresKeptUnderLease(w: World, steps: seq<Step>)
    requires w.holder == Ours && w.older == {} && forall i :: 0 <= i < |steps| ==> !steps[i].StartOlder?
    ensures AppliedAll(w, steps).stores == w.stores && AppliedAll(w, steps).holder == Ours
    decreases |steps|
  {
    if steps == [] {
    } else {
      hide Applied;
      AppliedShape(w, steps[0]);
      StoresKeptUnderLease(Applied(w, steps[0]), steps[1..]);
    }
  }

  /** An older primary that starts between two reads makes them a state the stores never had. */
  lemma OlderPrimaryTears(p: Older)
    ensures var w0 := World(Ours, {}, [0, 0], [], []);
      var w1 := Applied(w0, StartOlder(p));
      var w2 := Applied(w1, WriteOlder(p, 0, 1));
      var w3 := Applied(w2, WriteOlder(p, 1, 1));
      && w1.holder == w2.holder == w3.holder == Ours && |w3.stores| == 2
      && var torn := [w0.stores[0], w3.stores[1]];
        torn != w0.stores && torn != w1.stores && torn != w2.stores && torn != w3.stores
  {
    var w1 := Applied(World(Ours, {}, [0, 0], [], []), StartOlder(p));
    var w2 := Applied(w1, WriteOlder(p, 0, 1));
    assert w2.stores == [1, 0];
    assert Applied(w2, WriteOlder(p, 1, 1)).stores == [1, 1];
    assert [0, 1][0] != [1, 0][0] && [0, 1][0] != [1, 1][0] && [0, 1][1] != [0, 0][1];
  }

  // ---------------------------------------------------------------- the trace

  datatype Event =
    | Moved(step: Step)
    | Locked
    | Probing
    | Cleared(since: nat)
    | Sent(request: Request)
    | Read(store: nat)
    | Wrote(snapshot: seq<nat>)

  /** An event and the world right after it. */
  datatype Moment = Moment(event: Event, world: World)

  /** What the event does to the world: nothing happens that is not in the trace. */
  predicate Follows(w: World, m: Moment) {
    match m.event
    case Moved(step) => m.world == Applied(w, step)
    case Locked => w.holder == Free && m.world == w.(holder := Ours)
    case Sent(request) => m.world == w.(inbox := w.inbox + [request])
    case Wrote(snapshot) => m.world == w.(exports := w.exports + [FromDisk(snapshot)])
    case _ => m.world == w
  }

  lemma MoveFollows(w: World, step: Step)
    ensures Follows(w, Moment(Moved(step), Applied(w, step)))
  {
  }

  function WorldBefore(start: World, trace: seq<Moment>, k: nat): World
    requires k <= |trace|
  {
    if k == 0 then start else trace[k - 1].world
  }

  predicate Chained(start: World, trace: seq<Moment>, now: World) {
    && now == WorldBefore(start, trace, |trace|)
    && forall k :: 0 <= k < |trace| ==> Follows(WorldBefore(start, trace, k), trace[k])
  }

  lemma ChainedOn(start: World, trace: seq<Moment>, now: World, m: Moment)
    requires Chained(start, trace, now) && Follows(now, m)
    ensures Chained(start, trace + [m], m.world)
  {
    var more := trace + [m];
    hide Follows;
    forall k | 0 <= k < |more| ensures Follows(WorldBefore(start, more, k), more[k]) {
      assert k < |trace| ==> Follows(WorldBefore(start, trace, k), trace[k]);
    }
  }

  predicate OursFrom(trace: seq<Moment>, start: nat) {
    forall k :: start <= k < |trace| ==> trace[k].world.holder == Ours
  }

  /** No older primary starts from `start` on. */
  predicate QuietFrom(trace: seq<Moment>, start: nat) {
    forall k :: start <= k < |trace| ==> !(trace[k].event.Moved? && trace[k].event.step.StartOlder?)
  }

  predicate Touches(m: Moment) {
    m.event.Moved? && Touching(m.world, m.event.step)
  }

  predicate UntouchedFrom(trace: seq<Moment>, start: nat) {
    forall k :: start <= k < |trace| ==> !Touches(trace[k])
  }

  predicate NeverSent(trace: seq<Moment>) {
    forall k :: 0 <= k < |trace| ==> !trace[k].event.Sent?
  }

  predicate NeverWrote(trace: seq<Moment>) {
    forall k :: 0 <= k < |trace| ==> !trace[k].event.Wrote?
  }

  /** A check that began at `trace[j].event.since`, under the lease, found every primary endpoint dead by `j`. */
  predicate ClearedAt(trace: seq<Moment>, j: nat) {
    j < |trace| && trace[j].event.Cleared? && trace[j].event.since < j && trace[trace[j].event.since].event == Probing
  }

  /** Every read of a store happened under our lease, held without a break since before such a check. */
  predicate ReadsGuarded(trace: seq<Moment>) {
    forall i :: 0 <= i < |trace| && trace[i].event.Read? ==> GuardedAt(trace, i)
  }

  predicate GuardedAt(trace: seq<Moment>, i: nat)
    requires i < |trace|
  {
    exists j :: 0 <= j < i && ClearedAt(trace, j) && OursFrom(trace[..i + 1], trace[j].event.since)
  }

  predicate Extends(trace: seq<Moment>, before: seq<Moment>) {
    |before| <= |trace| && trace[..|before|] == before
  }

  lemma GuardedStays(before: seq<Moment>, trace: seq<Moment>)
    requires ReadsGuarded(before) && Extends(trace, before)
    requires forall i :: |before| <= i < |trace| && trace[i].event.Read? ==> GuardedAt(trace, i)
    ensures ReadsGuarded(trace)
  {
    forall i | 0 <= i < |trace| && trace[i].event.Read? ensures GuardedAt(trace, i) {
      if i < |before| {
        assert before[i] == trace[i];
        var j :| 0 <= j < i && ClearedAt(before, j) && OursFrom(before[..i + 1], before[j].event.since);
        assert before[..i + 1] == trace[..i + 1];
        assert forall k :: 0 <= k < |before| ==> before[k] == trace[k];
        assert ClearedAt(trace, j);
      }
    }
  }

  lemma LongerStill(first: seq<Moment>, second: seq<Moment>, third: seq<Moment>)
    requires Extends(second, first) && Extends(third, second)
    ensures Extends(third, first)
    ensures OursFrom(second, |first|) && OursFrom(third, |second|) ==> OursFrom(third, |first|)
  {
    assert forall k :: 0 <= k < |second| ==> third[k] == second[k];
  }

  lemma MovedOn(before: seq<Moment>, m: Moment, start: nat)
    requires start <= |before|
    ensures UntouchedFrom(before + [m], start) <==> UntouchedFrom(before, start) && !Touches(m)
    ensures QuietFrom(before + [m], start) <==>
      QuietFrom(before, start) && !(m.event.Moved? && m.event.step.StartOlder?)
  {
    var trace := before + [m];
    assert trace[|before|] == m && forall k :: 0 <= k < |before| ==> trace[k] == before[k];
  }

  predicate Begins(stores: seq<nat>, snapshot: seq<nat>) {
    |snapshot| <= |stores| && snapshot == stores[..|snapshot|]
  }

  lemma BeginsOn(stores: seq<nat>, snapshot: seq<nat>)
    requires |snapshot| < |stores|
    ensures Begins(stores, snapshot) ==> Begins(stores, snapshot + [stores[|snapshot|]])
  {
  }

  lemma GatheredStays(before: seq<Moment>, trace: seq<Moment>, j: nat, looks: seq<nat>, snapshot: seq<nat>)
    requires Gathered(before, j, looks, snapshot) && Extends(trace, before)
    ensures Gathered(trace, j, looks, snapshot)
  {
    forall i | 0 <= i < |looks| ensures ReadAt(trace, j, looks[i], i, snapshot[i]) {
      assert ReadAt(before, j, looks[i], i, snapshot[i]);
      assert trace[looks[i]] == trace[..|before|][looks[i]];
    }
  }

  lemma LastRead(before: seq<Moment>, j: nat, store: nat, w: World)
    requires j < |before| && store < |w.stores|
    ensures ReadAt(before + [Moment(Read(store), w)], j, |before|, store, w.stores[store])
  {
  }

  lemma GatheredOn(before: seq<Moment>, trace: seq<Moment>, j: nat, looks: seq<nat>, snapshot: seq<nat>, content: nat)
    requires Gathered(before, j, looks, snapshot) && Extends(trace, before) && |before| < |trace|
    requires ReadAt(trace, j, |trace| - 1, |looks|, content)
    ensures Gathered(trace, j, looks + [|trace| - 1], snapshot + [content])
  {
    GatheredStays(before, trace, j, looks, snapshot);
    forall i | 0 <= i < |looks| ensures looks[i] < |trace| - 1 {
      assert ReadAt(before, j, looks[i], i, snapshot[i]);
    }
    hide ReadAt;
  }

  lemma NothingSaid(before: seq<Moment>, trace: seq<Moment>)
    requires Extends(trace, before)
    ensures (forall i :: |before| <= i < |trace| ==> !trace[i].event.Sent?) && NeverSent(before) ==> NeverSent(trace)
    ensures (forall i :: |before| <= i < |trace| ==> !trace[i].event.Wrote?) && NeverWrote(before) ==> NeverWrote(trace)
  {
    assert forall k :: 0 <= k < |before| ==> trace[k] == before[k];
  }

  // ---------------------------------------------------------------- the snapshot

  predicate TouchesStore(m: Moment, i: nat) {
    Touches(m) && m.event.step.store == i
  }

  /** `snapshot[i]` is what store `i` held when it was read, at the moment `looks[i]`; the stores were read in order. */
  predicate Gathered(trace: seq<Moment>, j: nat, looks: seq<nat>, snapshot: seq<nat>) {
    && |looks| == |snapshot|
    && (forall i :: 0 <= i < |looks| ==> ReadAt(trace, j, looks[i], i, snapshot[i]))
    && (forall i, k :: 0 <= i < k < |looks| ==> looks[i] < looks[k])
  }

  predicate ReadAt(trace: seq<Moment>, j: nat, at: nat, store: nat, content: nat) {
    && j < at < |trace| && trace[at].event == Read(store)
    && store < |trace[at].world.stores| && trace[at].world.stores[store] == content
  }

  /** No older primary writes store `i` after the moment `a`, up to the moment `b`. */
  predicate LeftAlone(trace: seq<Moment>, i: nat, a: nat, b: nat) {
    forall k :: a < k <= b && k < |trace| ==> !TouchesStore(trace[k], i)
  }

  /** Between its read and the moment `k`, no store is written. */
  predicate Cut(trace: seq<Moment>, looks: seq<nat>, k: nat) {
    forall i :: 0 <= i < |looks| ==> LeftAlone(trace, i, looks[i], k) && LeftAlone(trace, i, k, looks[i])
  }

  /** Older primaries never write a content that the store has held since `j`. */
  predicate FreshWrites(trace: seq<Moment>, j: nat) {
    forall k, m :: j <= k < m < |trace| && Touches(trace[m]) ==> Brings(trace[k].world, trace[m].event.step)
  }

  predicate Brings(w: World, step: Step)
    requires step.WriteOlder?
  {
    step.store < |w.stores| ==> w.stores[step.store] != step.content
  }

  /** Under our lease a store changes when an older primary writes it, and then as written. */
  lemma OneStep(w: World, m: Moment, i: nat)
    requires Follows(w, m) && w.holder == Ours
    ensures |m.world.stores| == |w.stores|
    ensures i < |w.stores| && !TouchesStore(m, i) ==> m.world.stores[i] == w.stores[i]
    ensures TouchesStore(m, i) ==> i < |w.stores| && m.world.stores[i] == m.event.step.content
  {
    if m.event.Moved? {
      StepShape(w, m.event.step);
      hide Applied;
    }
  }

  lemma StepShape(w: World, step: Step)
    requires w.holder == Ours
    ensures var v := Applied(w, step);
      && Touching(v, step) == Touching(w, step)
      && v.stores == if Touching(w, step) then w.stores[step.store := step.content] else w.stores
  {
  }

  lemma OneMoment(start: World, trace: seq<Moment>, now: World, i: nat, k: nat)
    requires Chained(start, trace, now) && 0 < k < |trace| && trace[k - 1].world.holder == Ours
    ensures var was, m := trace[k - 1].world, trace[k];
      && |m.world.stores| == |was.stores|
      && (i < |was.stores| && !TouchesStore(m, i) ==> m.world.stores[i] == was.stores[i])
      && (TouchesStore(m, i) ==> i < |was.stores| && m.world.stores[i] == m.event.step.content)
  {
    assert Follows(WorldBefore(start, trace, k), trace[k]);
    hide Follows, TouchesStore;
    OneStep(trace[k - 1].world, trace[k], i);
  }

  lemma {:induction false} SameLength(start: World, trace: seq<Moment>, now: World, a: nat, b: nat)
    requires Chained(start, trace, now) && a <= b < |trace| && OursFrom(trace, a)
    ensures |trace[b].world.stores| == |trace[a].world.stores|
    decreases b
  {
    hide Chained, OursFrom;
    if a == b {
    } else {
      SameLength(start, trace, now, a, b - 1);
      OursAt(trace, a, b - 1);
      OneMoment(start, trace, now, 0, b);
    }
  }

  lemma OursAt(trace: seq<Moment>, j: nat, k: nat)
    requires OursFrom(trace, j) && j <= k < |trace|
    ensures trace[k].world.holder == Ours && OursFrom(trace, k)
  {
  }

  lemma AloneHere(trace: seq<Moment>, i: nat, a: nat)
    ensures LeftAlone(trace, i, a, a)
  {
  }

  lemma AloneNext(trace: seq<Moment>, i: nat, a: nat, b: nat)
    requires a < b < |trace|
    ensures LeftAlone(trace, i, a, b) <==> LeftAlone(trace, i, a, b - 1) && !TouchesStore(trace[b], i)
  {
    hide TouchesStore;
  }

  lemma WrittenFresh(trace: seq<Moment>, j: nat, i: nat, a: nat, b: nat)
    requires FreshWrites(trace, j) && j <= a < b < |trace| && TouchesStore(trace[b], i) && i < |trace[a].world.stores|
    ensures trace[a].world.stores[i] != trace[b].event.step.content
  {
    assert Brings(trace[a].world, trace[b].event.step);
  }

  /** A store that is left alone keeps its content; one that is written fresh never has it again. */
  lemma {:induction false} KeptExactly(start: World, trace: seq<Moment>, now: World, j: nat, i: nat, a: nat, b: nat)
    requires Chained(start, trace, now) && j <= a <= b < |trace| && OursFrom(trace, j)
    requires i < |trace[a].world.stores|
    ensures i < |trace[b].world.stores|
    ensures LeftAlone(trace, i, a, b) ==> trace[b].world.stores[i] == trace[a].world.stores[i]
    ensures FreshWrites(trace, j) && trace[b].world.stores[i] == trace[a].world.stores[i] ==> LeftAlone(trace, i, a, b)
    decreases b
  {
    hide Chained, OursFrom, FreshWrites, LeftAlone, TouchesStore;
    OursAt(trace, j, a);
    SameLength(start, trace, now, a, b);
    if a == b {
      AloneHere(trace, i, a);
    } else {
      OursAt(trace, j, b - 1);
      SameLength(start, trace, now, a, b - 1);
      KeptExactly(start, trace, now, j, i, a, b - 1);
      OneMoment(start, trace, now, i, b);
      AloneNext(trace, i, a, b);
      if TouchesStore(trace[b], i) && FreshWrites(trace, j) {
        WrittenFresh(trace, j, i, a, b);
      }
    }
  }

  /**
   What was read is the state of the stores at the moment `k` if none is written between its read
   and that moment; and, provided that writes bring new contents, only then.
   */
  lemma SnapshotIsState(start: World, trace: seq<Moment>, now: World, j: nat, looks: seq<nat>, snapshot: seq<nat>, k: nat)
    requires Chained(start, trace, now) && j <= k < |trace| && OursFrom(trace, j)
    requires Gathered(trace, j, looks, snapshot) && |snapshot| == |trace[j].world.stores|
    ensures Cut(trace, looks, k) ==> trace[k].world.stores == snapshot
    ensures FreshWrites(trace, j) && trace[k].world.stores == snapshot ==> Cut(trace, looks, k)
  {
    SameLength(start, trace, now, j, k);
    hide Chained, OursFrom, FreshWrites, LeftAlone;
    forall i | 0 <= i < |snapshot|
      ensures LeftAlone(trace, i, looks[i], k) && LeftAlone(trace, i, k, looks[i]) ==> trace[k].world.stores[i] == snapshot[i]
      ensures FreshWrites(trace, j) && trace[k].world.stores[i] == snapshot[i] ==>
        LeftAlone(trace, i, looks[i], k) && LeftAlone(trace, i, k, looks[i])
    {
      assert ReadAt(trace, j, looks[i], i, snapshot[i]);
      BothWays(start, trace, now, j, i, looks[i], k);
    }
  }

  lemma BothWays(start: World, trace: seq<Moment>, now: World, j: nat, i: nat, a: nat, b: nat)
    requires Chained(start, trace, now) && j <= a < |trace| && j <= b < |trace| && OursFrom(trace, j)
    requires i < |trace[a].world.stores| && i < |trace[b].world.stores|
    ensures var same := trace[b].world.stores[i] == trace[a].world.stores[i];
      var alone := LeftAlone(trace, i, a, b) && LeftAlone(trace, i, b, a);
      (alone ==> same) && (FreshWrites(trace, j) && same ==> alone)
  {
    if a <= b {
      KeptExactly(start, trace, now, j, i, a, b);
    } else {
      KeptExactly(start, trace, now, j, i, b, a);
    }
  }

  // ---------------------------------------------------------------- the exporter

  datatype ClientError =
    | ConnectFailed
    | MalformedEndpoint
    | EncodeFailed
    | WriteFailed
    | FlushFailed
    | NoResponse
    | MalformedResponse
    | UnsupportedProtocol
    | ConfirmationLost

  datatype Reason = NoReason | Timeout | OutcomeLost | Rejected

  datatype Attempt = Failed(error: ClientError) | Reply(ok: bool, replay: bool, reason: Reason)

  datatype Lease = Granted | Busy | Unverified

  datatype Instance = Instance(owner: Owner, version: nat, retains: bool)

  datatype Lookup = Found(instance: Instance) | Absent | LookupFailed

  datatype Failure = Transport(error: ClientError) | Message

  const PROTOCOL_VERSION: nat := 8
  const PROTOCOL_VERSION_V7: nat := 7

  /** Replies a server can give: it confirms only what it did, and replays only what it retained. */
  predicate Honest(w: World, request: Request, attempt: Attempt) {
    attempt.Reply? && attempt.ok ==> ByOwner(request) in w.exports
  }

  predicate Ambiguous(attempt: Attempt) {
    match attempt
    case Reply(_, _, reason) => reason.Timeout? || reason.OutcomeLost?
    case Failed(error) => error.NoResponse? || error.MalformedResponse? || error.WriteFailed? || error.FlushFailed?
  }

  predicate RetainedReplay(attempt: Attempt) {
    attempt.Reply? && attempt.replay && !attempt.reason.Timeout? && !attempt.reason.OutcomeLost?
  }

  predicate PermitsStaleDescriptorRecovery(failure: Failure) {
    failure == Transport(ConnectFailed)
  }

  /** An answer that tells the outcome, and that it is success. */
  predicate Confirms(attempt: Attempt) {
    attempt.Reply? && attempt.ok && !attempt.reason.Timeout? && !attempt.reason.OutcomeLost?
  }

  /** What can keep an export from succeeding. */
  datatype Obstacle =
    | DescriptorUnusable
    | EndpointAlive
    | LeaseUnavailable
    | OwnerTooOld
    | Unconfirmed(attempt: Attempt)
    | PathUnverifiable
    | StoreUnreadable
    | ExportUnwritten

  /** Only an older primary can touch the stores, and none does that was not running and does not start. */
  predicate Undisturbed(trace: seq<Moment>, start: nat, was: World, now: World) {
    && (UntouchedFrom(trace, start) ==> now.stores == was.stores)
    && (QuietFrom(trace, start) ==> now.older <= was.older && (was.older == {} ==> UntouchedFrom(trace, start)))
  }

  lemma StepUndisturbed(was: World, w: World, step: Step, trace: seq<Moment>, start: nat)
    requires w.holder == Ours && start <= |trace| && Undisturbed(trace, start, was, w)
    ensures var v := Applied(w, step); Undisturbed(trace + [Moment(Moved(step), v)], start, was, v)
  {
    AppliedShape(w, step);
    MovedOn(trace, Moment(Moved(step), Applied(w, step)), start);
  }

  class Exporter {
    const endpoints: seq<nat>
    const id: nat
    /** In a smooth run nothing fails, and nobody else does anything but serve a request that has arrived. */
    const smooth: bool
    /** What is advertised in a smooth run, and whether that owner can be reached. */
    const advertised: Option<Instance>
    const reachable: bool
    ghost const base: nat
    ghost const start: World
    var world: World
    var writable: bool
    ghost var trace: seq<Moment>
    /** Every attempt to send a request, and every obstacle met. */
    ghost var attempts: seq<Attempt>
    ghost var obstacles: seq<Obstacle>

    ghost predicate Valid()
      reads `world, `writable, `trace
    {
      && AtMostOne(world, base)
      && (forall i :: 0 <= i < base && world.exports[i].ByOwner? ==> world.exports[i].request.id != id)
      && (writable <==> world.holder == Ours)
      && (forall p <- world.older :: p.endpoint in endpoints)
      && ReadsGuarded(trace)
      && (NeverSent(trace) || NeverWrote(trace))
      && Chained(start, trace, world)
    }

    /** Nothing of ours has been sent or written yet. */
    ghost predicate Fresh()
      reads `world, `writable, `trace
    {
      Valid() && world.inbox == [] && |world.exports| == base && NeverSent(trace) && NeverWrote(trace)
    }

    /** A check of the endpoints has come out clear at `j`, and the lease has been ours ever since it began. */
    ghost predicate ClearSince(j: nat)
      reads `world, `writable, `trace
    {
      && ClearedAt(trace, j) && writable
      && OursFrom(trace, trace[j].event.since)
      && (UntouchedFrom(trace, j) ==> world.stores == trace[j].world.stores)
      && (QuietFrom(trace, trace[j].event.since) ==> world.older == {} && UntouchedFrom(trace, j))
    }

    /** Any number of moves of the rest of the system. */
    method Environment()
      requires Valid()
      modifies this`world, this`trace
      ensures Valid() && writable == old(writable) && |world.stores| == |old(world.stores)|
      ensures Extends(trace, old(trace)) && forall k :: |old(trace)| <= k < |trace| ==> trace[k].event.Moved?
      ensures (old(Fresh()) ==> Fresh()) && (NeverWrote(old(trace)) ==> NeverWrote(trace))
      ensures writable ==> OursFrom(trace, |old(trace)|) && Undisturbed(trace, |old(trace)|, old(world), world)
      ensures forall r :: MaySend(old(world), base, r) ==> MaySend(world, base, r)
      ensures smooth && old(world.inbox) == [] ==> world == old(world) && trace == old(trace)
      ensures smooth && |old(world.inbox)| == 1 ==> world == Served(old(world), 0)
    {
      if smooth {
        if world.inbox != [] {
          ServeNext();
        }
        return;
      }
      var moves: nat := *;
      while moves > 0
        invariant Valid() && writable == old(writable) && |world.stores| == |old(world.stores)|
        invariant Extends(trace, old(trace)) && forall k :: |old(trace)| <= k < |trace| ==> trace[k].event.Moved?
        invariant (old(Fresh()) ==> Fresh()) && (NeverWrote(old(trace)) ==> NeverWrote(trace))
        invariant writable ==> OursFrom(trace, |old(trace)|) && Undisturbed(trace, |old(trace)|, old(world), world)
        invariant forall r :: MaySend(old(world), base, r) ==> MaySend(world, base, r)
      {
        moves := moves - 1;
        var step: Step := *;
        if step.StartOlder? && step.p.endpoint !in endpoints {
          continue;
        }
        hide Applied, MaySend, Undisturbed, QuietFrom, UntouchedFrom;
        ghost var was, before := world, trace;
        forall r | MaySend(old(world), base, r) ensures MaySend(Applied(world, step), base, r) {
          MaySendKept(world, base, r, step);
        }
        Move(step);
        if writable {
          StepUndisturbed(old(world), was, step, before, |old(trace)|);
        }
      }
    }

    /** The server serves the first request that waits. */
    method ServeNext()
      requires Valid() && world.inbox != []
      modifies this`world, this`trace
      ensures Valid() && world == Served(old(world), 0) && |world.stores| == |old(world.stores)|
      ensures Extends(trace, old(trace)) && forall k :: |old(trace)| <= k < |trace| ==> trace[k].event.Moved?
      ensures NeverWrote(old(trace)) ==> NeverWrote(trace)
      ensures writable ==> OursFrom(trace, |old(trace)|) && Undisturbed(trace, |old(trace)|, old(world), world)
      ensures forall r :: MaySend(old(world), base, r) ==> MaySend(world, base, r)
    {
      hide MaySend, Undisturbed, QuietFrom, UntouchedFrom;
      forall r | MaySend(world, base, r) ensures MaySend(Applied(world, Serve(0)), base, r) {
        MaySendKept(world, base, r, Serve(0));
      }
      NothingYet(world, trace);
      Move(Serve(0));
      if writable {
        StepUndisturbed(old(world), old(world), Serve(0), old(trace), |old(trace)|);
      }
    }

    lemma NothingYet(w: World, before: seq<Moment>)
      ensures Undisturbed(before, |before|, w, w)
    {
    }

    /** One move of the rest of the system. */
    method Move(step: Step)
      requires Valid() && (step.StartOlder? ==> step.p.endpoint in endpoints)
      modifies this`world, this`trace
      ensures Valid() && writable == old(writable) && |world.stores| == |old(world.stores)|
      ensures world == Applied(old(world), step) && trace == old(trace) + [Moment(Moved(step), world)]
      ensures (old(Fresh()) ==> Fresh()) && (NeverWrote(old(trace)) ==> NeverWrote(trace))
    {
      hide Applied, Follows, Chained, NeverSent, NeverWrote, ReadsGuarded;
      AppliedShape(world, step);
      AtMostOneKept(world, base, step);
      ghost var before := trace;
      world := Applied(world, step);
      trace := trace + [Moment(Moved(step), world)];
      GuardedStays(before, trace);
      NothingSaid(before, trace);
      MoveFollows(old(world), step);
      ChainedOn(start, before, old(world), trace[|before|]);
    }

    ghost predicate Logged(was: seq<Moment>)
      reads `world, `writable, `trace
    {
      Extends(trace, was) && (writable ==> OursFrom(trace, |was|))
    }

    /** A step of a check. */
    ghost method Log(event: Event)
      requires Valid() && (event.Probing? || event.Cleared?)
      modifies this`trace
      ensures Valid() && trace == old(trace) + [Moment(event, world)] && (old(Fresh()) ==> Fresh())
    {
      var before := trace;
      trace := trace + [Moment(event, world)];
      GuardedStays(before, trace);
      NothingSaid(before, trace);
      ChainedOn(start, before, world, trace[|before|]);
    }

    /** Probes the canonical endpoints one after the other; only a dead endpoint refuses. */
    method PrimaryEndpointsAbsent() returns (absent: bool)
      requires Valid()
      modifies this`world, this`trace, this`obstacles
      ensures obstacles == old(obstacles) + if absent then [] else [EndpointAlive]
      ensures Valid() && writable == old(writable) && Logged(old(trace)) && |world.stores| == |old(world.stores)|
      ensures old(Fresh()) ==> Fresh()
      ensures absent ==> |trace| > 0 && ClearedAt(trace, |trace| - 1) && trace[|trace| - 1].event.since >= |old(trace)|
      ensures absent && writable ==> ClearSince(|trace| - 1)
      ensures smooth && old(world.older) == {} && old(world.inbox) == [] ==> absent && world == old(world)
    {
      hide Fresh, AtMostOne, ReadsGuarded, NeverSent, NeverWrote, MaySend, Chained;
      ghost var before := trace;
      Log(Probing);
      ghost var since := |before|;
      var i := 0;
      while i < |endpoints|
        invariant 0 <= i <= |endpoints|
        invariant Valid() && writable == old(writable) && Logged(before) && |world.stores| == |old(world.stores)|
        invariant old(Fresh()) ==> Fresh()
        invariant |trace| > since && trace[since].event == Probing
        invariant obstacles == old(obstacles) && (smooth && old(world.older) == {} && old(world.inbox) == [] ==> world == old(world))
        invariant writable && QuietFrom(trace, since) ==> forall p <- world.older :: p.endpoint !in endpoints[..i]
      {
        ghost var was := trace;
        Environment();
        assert forall k :: 0 <= k < |was| ==> trace[k] == was[k];
        var refused: bool :| smooth ==> refused;
        if !refused || exists p <- world.older :: p.endpoint == endpoints[i] {
          obstacles := obstacles + [EndpointAlive];
          return false;
        }
        i := i + 1;
      }
      ghost var probed := trace;
      Log(Cleared(since));
      MovedOn(probed, trace[|probed|], since);
      assert forall k :: 0 <= k < |probed| ==> trace[k] == probed[k];
      absent := true;
      assert obstacles + [] == obstacles;
    }

    /** Reads the advertised descriptor, whatever it says; with none, the endpoints must be dead. */
    method InstanceWithCapability() returns (r: Lookup)
      requires Valid()
      modifies this`world, this`trace, this`obstacles
      ensures if r.LookupFailed? then old(obstacles) < obstacles else obstacles == old(obstacles)
      ensures Valid() && writable == old(writable) && Logged(old(trace)) && |world.stores| == |old(world.stores)|
      ensures old(Fresh()) ==> Fresh()
      ensures r.Absent? ==> |trace| > 0 && ClearedAt(trace, |trace| - 1)
      ensures r.Absent? && writable ==> ClearSince(|trace| - 1)
      ensures smooth && old(world.older) == {} && old(world.inbox) == [] ==>
        world == old(world) && r == if advertised.Some? then Found(advertised.value) else Absent
    {
      hide Valid, Fresh, AtMostOne, ReadsGuarded, NeverSent, NeverWrote, MaySend, Chained, Undisturbed;
      Environment();
      ghost var was := trace;
      var descriptor: Option<Instance> :| smooth ==> descriptor == advertised;
      var readable: bool :| smooth ==> readable;
      var capable: bool :| smooth ==> capable;
      if !readable || (descriptor.Some? && !capable) {
        obstacles := obstacles + [DescriptorUnusable];
        return LookupFailed;
      }
      match descriptor
      case Some(instance) => r := Found(instance);
      case None =>
        var absent := PrimaryEndpointsAbsent();
        assert forall k :: 0 <= k < |was| ==> trace[k] == was[k];
        r := if absent then Absent else LookupFailed;
    }

    lemma LeaseIs()
      requires Valid()
      ensures writable <==> world.holder == Ours
    {
      hide AtMostOne, ReadsGuarded, Chained;
    }

    /** The free lease becomes ours. */
    method TakeLease()
      requires Valid() && world.holder == Free
      modifies this`world, this`writable, this`trace
      ensures Valid() && writable && world == old(world).(holder := Ours)
      ensures Extends(trace, old(trace)) && (old(Fresh()) ==> Fresh())
    {
      hide MaySend, Follows, Chained, ReadsGuarded, NeverSent, NeverWrote;
      ghost var was, free := trace, world;
      world := world.(holder := Ours);
      writable := true;
      trace := trace + [Moment(Locked, world)];
      GuardedStays(was, trace);
      NothingSaid(was, trace);
      LockFollows(free);
      ChainedOn(start, was, free, trace[|was|]);
    }

    lemma LockFollows(w: World)
      requires w.holder == Free
      ensures Follows(w, Moment(Locked, w.(holder := Ours)))
    {
    }

    /** A lease already held is granted again; a free one may still not be had. */
    method InitializePersistenceWriter() returns (lease: Lease)
      requires Valid()
      modifies this`world, this`writable, this`trace, this`obstacles
      ensures obstacles == old(obstacles) + if lease == Granted then [] else [LeaseUnavailable]
      ensures Valid() && (lease == Granted <==> writable) && (old(writable) ==> writable)
      ensures Extends(trace, old(trace)) && (old(Fresh()) ==> Fresh()) && |world.stores| == |old(world.stores)|
      ensures smooth && old(world.inbox) == [] && !old(world.holder).Theirs? ==> lease == Granted && world == old(world).(holder := Ours)
    {
      hide Valid, Fresh, MaySend, OursFrom, Undisturbed, NeverWrote;
      LeaseIs();
      assert obstacles + [] == obstacles;
      if writable {
        return Granted;
      }
      Environment();
      LeaseIs();
      var available: bool :| smooth ==> available;
      var verified: bool :| smooth ==> verified;
      if !verified {
        obstacles := obstacles + [LeaseUnavailable];
        return Unverified;
      }
      if world.holder != Free || !available {
        obstacles := obstacles + [LeaseUnavailable];
        return Busy;
      }
      TakeLease();
      lease := Granted;
    }

    /** One attempt: what failed before the payload was written was never delivered. */
    method TryOnce(request: Request) returns (attempt: Attempt)
      requires Valid() && MaySend(world, base, request) && NeverWrote(trace)
      modifies this`world, this`trace
      ensures Valid() && writable == old(writable) && Logged(old(trace)) && |world.stores| == |old(world.stores)|
      ensures NeverWrote(trace)
      ensures Honest(world, request, attempt)
      ensures !Ambiguous(attempt) && attempt.Failed? && old(Fresh()) ==> Fresh()
      ensures Ambiguous(attempt) || attempt.Reply? || attempt.error in {ConnectFailed, MalformedEndpoint, EncodeFailed}
      ensures request.retained ==> MaySend(world, base, request)
      ensures smooth && old(world.inbox) == [] ==>
        if reachable then attempt == Reply(true, false, NoReason) else attempt == Failed(ConnectFailed) && world == old(world)
    {
      hide Valid, Fresh, MaySend, AtMostOne, ReadsGuarded, NeverWrote, Undisturbed;
      var named: bool :| smooth ==> named;
      if !named {
        return Failed(MalformedEndpoint);
      }
      Environment();
      var connected: bool :| smooth ==> connected == reachable;
      if !connected {
        return Failed(ConnectFailed);
      }
      var encoded: bool :| smooth ==> encoded;
      if !encoded {
        return Failed(EncodeFailed);
      }
      var delivered: bool :| smooth ==> delivered;
      if delivered {
        Deliver(request);
      }
      var written: bool :| smooth ==> written;
      if !written {
        var flushed: bool := *;
        return Failed(if flushed then WriteFailed else FlushFailed);
      }
      ghost var sent := world;
      Environment();
      if smooth && |sent.inbox| == 1 {
        ServedNow(sent);
      }
      assert Honest(world, request, Failed(NoResponse));
      assert ByOwner(request) in world.exports ==> Honest(world, request, Reply(true, false, NoReason));
      attempt :| Honest(world, request, attempt) && (attempt == Failed(NoResponse) || attempt == Failed(MalformedResponse) || attempt.Reply?)
        && (smooth && ByOwner(request) in world.exports ==> attempt == Reply(true, false, NoReason));
    }

    method SendAttempt(request: Request) returns (attempt: Attempt)
      requires Valid() && MaySend(world, base, request) && NeverWrote(trace)
      modifies this`world, this`trace, this`attempts, this`obstacles
      ensures attempts == old(attempts) + [attempt]
      ensures obstacles == old(obstacles) + if Confirms(attempt) then [] else [Unconfirmed(attempt)]
      ensures Valid() && writable == old(writable) && Logged(old(trace)) && |world.stores| == |old(world.stores)|
      ensures NeverWrote(trace)
      ensures Honest(world, request, attempt)
      ensures !Ambiguous(attempt) && attempt.Failed? && old(Fresh()) ==> Fresh()
      ensures Ambiguous(attempt) || attempt.Reply? || attempt.error in {ConnectFailed, MalformedEndpoint, EncodeFailed}
      ensures request.retained ==> MaySend(world, base, request)
      ensures smooth && old(world.inbox) == [] ==>
        if reachable then attempt == Reply(true, false, NoReason) else attempt == Failed(ConnectFailed) && world == old(world)
    {
      hide Valid, Fresh, MaySend, AtMostOne, ReadsGuarded, NeverWrote, Logged;
      attempt := TryOnce(request);
      attempts := attempts + [attempt];
      obstacles := obstacles + if Confirms(attempt) then [] else [Unconfirmed(attempt)];
    }

    /** The complete request reaches the server, which may serve it at any later time, or never. */
    method Deliver(request: Request)
      requires Valid() && MaySend(world, base, request) && NeverWrote(trace)
      modifies this`world, this`trace
      ensures Valid() && writable == old(writable) && Logged(old(trace)) && world.stores == old(world.stores)
      ensures NeverWrote(trace) && world == old(world).(inbox := old(world.inbox) + [request])
      ensures request.retained ==> MaySend(world, base, request)
    {
      if request.retained {
        MaySendAgain(world, base, request);
      }
      ghost var was, silent := trace, world;
      world := world.(inbox := world.inbox + [request]);
      trace := trace + [Moment(Sent(request), world)];
      GuardedStays(was, trace);
      NothingSaid(was, trace);
      ChainedOn(start, was, silent, trace[|was|]);
    }

    /** The payload may have arrived, and the reply does not tell the outcome. */
    predicate Unclear(attempt: Attempt) {
      if attempt.Reply? then attempt.reason in {Timeout, OutcomeLost}
      else attempt.error in {WriteFailed, FlushFailed, NoResponse, MalformedResponse}
    }

    /** Which attempts are made, and which of them is the result. */
    ghost predicate Tried(was: seq<Attempt>, version: nat, retained: bool, attempt: Attempt)
      reads `attempts
    {
      if version < 7 then attempts == was && attempt == Failed(UnsupportedProtocol)
      else
        && was < attempts && |attempts| <= |was| + 2
        && var first, last := attempts[|was|], attempts[|attempts| - 1];
          if !Unclear(first) then |attempts| == |was| + 1 && attempt == first
          else if !retained then |attempts| == |was| + 1 && attempt == Failed(ConfirmationLost)
          else
            && |attempts| == |was| + 2
            && attempt == if last.Reply? && last.replay && !Unclear(last) then last else Failed(ConfirmationLost)
    }

    /**
     An ambiguous attempt is repeated once, with the same identity, if the server retains it; only
     a replay of the retained outcome then counts. A connection that failed was thus the first.
     */
    method SendTo(instance: Instance) returns (attempt: Attempt, request: Request)
      requires Fresh()
      modifies this`world, this`trace, this`attempts, this`obstacles
      ensures Tried(old(attempts), instance.version, request.retained, attempt)
      ensures old(obstacles) <= obstacles && (!Confirms(attempt) ==> old(obstacles) < obstacles)
      ensures Valid() && writable == old(writable) && Logged(old(trace)) && |world.stores| == |old(world.stores)|
      ensures Honest(world, request, attempt) && request.owner == instance.owner && request.id == id
      ensures attempt == Failed(ConnectFailed) ==> Fresh()
      ensures smooth && instance.version >= 7 ==>
        if reachable then attempt == Reply(true, false, NoReason) else attempt == Failed(ConnectFailed) && world == old(world)
    {
      hide ReadsGuarded, Chained;
      request := Request(instance.owner, id, instance.retains && instance.version >= PROTOCOL_VERSION);
      if instance.version < PROTOCOL_VERSION_V7 {
        obstacles := obstacles + [OwnerTooOld];
        return Failed(UnsupportedProtocol), request;
      }
      var first := SendAttempt(request);
      attempt := first;
      if Ambiguous(first) {
        if !request.retained {
          return Failed(ConfirmationLost), request;
        }
        var second := SendAttempt(request);
        if !RetainedReplay(second) {
          return Failed(ConfirmationLost), request;
        }
        attempt := second;
      }
    }

    /** The first attempt did not even reach a server. */
    ghost predicate FirstFails(was: seq<Attempt>)
      reads `attempts
    {
      was < attempts && attempts[|was|] == Failed(ConnectFailed)
    }

    /** What the owner confirms is the one export made; an unconfirmed one may still be made later. */
    method ExportThroughOwner(instance: Instance, utf8: bool) returns (r: Result<Export, Failure>)
      requires Fresh()
      modifies this`world, this`trace, this`attempts, this`obstacles
      ensures r.Err? ==> !utf8 || old(obstacles) < obstacles
      ensures utf8 && FirstFails(old(attempts)) <==> r.Err? && PermitsStaleDescriptorRecovery(r.error)
      ensures Valid() && writable == old(writable) && Logged(old(trace)) && |world.stores| == |old(world.stores)|
      ensures r.Ok? ==> r.value.ByOwner? && |world.exports| == base + 1 && world.exports[base] == r.value
      ensures r.Err? && PermitsStaleDescriptorRecovery(r.error) ==> Fresh()
      ensures smooth && utf8 && instance.version >= 7 ==>
        if reachable then r.Ok? else r == Err(Transport(ConnectFailed)) && world == old(world)
    {
      hide ReadsGuarded, Chained, MaySend;
      if !utf8 {
        return Err(Message);
      }
      var attempt, request := SendTo(instance);
      var verifiable: bool :| smooth ==> verifiable;
      match attempt
      case Failed(error) => r := Err(Transport(error));
      case Reply(ok, _, _) =>
        if ok && !verifiable {
          obstacles := obstacles + [PathUnverifiable];
        }
        r := if ok && verifiable then Ok(ByOwner(request)) else Err(Message);
    }

    method EnvironmentWhileClear(ghost j: nat)
      requires Fresh() && ClearSince(j)
      modifies this`world, this`trace
      ensures Fresh() && ClearSince(j) && Logged(old(trace)) && |world.stores| == |old(world.stores)|
      ensures trace[j] == old(trace[j])
      ensures UntouchedFrom(trace, j) ==> UntouchedFrom(old(trace), j) && world.stores == old(world.stores)
    {
      ghost var was, start := trace, trace[j].event.since;
      Environment();
      assert forall k :: 0 <= k < |was| ==> trace[k] == was[k];
      assert QuietFrom(trace, start) ==> QuietFrom(was, start) && QuietFrom(trace, |was|);
      assert UntouchedFrom(trace, j) <==> UntouchedFrom(was, j) && UntouchedFrom(trace, |was|);
    }

    /** A read of a store, guarded by the check at `j`. */
    ghost method LogRead(store: nat, j: nat)
      requires Fresh() && ClearSince(j)
      modifies this`trace
      ensures Fresh() && ClearSince(j) && Logged(old(trace)) && trace[j] == old(trace[j])
      ensures UntouchedFrom(trace, j) <==> UntouchedFrom(old(trace), j)
      ensures trace == old(trace) + [Moment(Read(store), world)]
    {
      hide AtMostOne, MaySend, Chained;
      ghost var was, start := trace, trace[j].event.since;
      trace := trace + [Moment(Read(store), world)];
      assert forall k :: 0 <= k < |was| ==> trace[k] == was[k];
      assert trace[..|was| + 1] == trace;
      assert GuardedAt(trace, |was|) by {
        assert ClearedAt(trace, j) && OursFrom(trace, start);
      }
      GuardedStays(was, trace);
      NothingSaid(was, trace);
      ChainedOn(this.start, was, world, trace[|was|]);
      MovedOn(was, trace[|was|], start);
      MovedOn(was, trace[|was|], j);
    }

    /** The stores read so far, under the check at `j`. */
    ghost predicate Reading(snapshot: seq<nat>, j: nat, looks: seq<nat>)
      reads `world, `writable, `trace
    {
      && Fresh() && ClearSince(j) && Gathered(trace, j, looks, snapshot)
      && j < |trace| && |looks| == |snapshot| <= |world.stores| && (UntouchedFrom(trace, j) ==> Begins(world.stores, snapshot))
    }

    method ReadStore(snapshot: seq<nat>, ghost j: nat, ghost looks: seq<nat>) returns (r: Option<nat>, ghost at: nat)
      requires Reading(snapshot, j, looks) && |snapshot| < |world.stores|
      modifies this`world, this`trace, this`obstacles
      ensures obstacles == old(obstacles) + if r.Some? then [] else [StoreUnreadable]
      ensures Fresh() && Logged(old(trace)) && |world.stores| == |old(world.stores)| && writable
      ensures r.Some? ==> Reading(snapshot + [r.value], j, looks + [at])
      ensures smooth ==> r.Some?
    {
      hide Extends, OursFrom, Gathered, UntouchedFrom, QuietFrom, Chained;
      EnvironmentWhileReading(snapshot, j, looks);
      var readable: bool :| smooth ==> readable;
      if !readable {
        obstacles := obstacles + [StoreUnreadable];
        return None, 0;
      }
      ghost var before := trace;
      r := Some(world.stores[|snapshot|]);
      at := Look(snapshot, r.value, j, looks);
      LongerStill(old(trace), before, trace);
    }

    method EnvironmentWhileReading(snapshot: seq<nat>, ghost j: nat, ghost looks: seq<nat>)
      requires Reading(snapshot, j, looks)
      modifies this`world, this`trace
      ensures Reading(snapshot, j, looks) && Logged(old(trace)) && |world.stores| == |old(world.stores)|
    {
      hide Valid, Fresh, ClearSince, Gathered, OursFrom, UntouchedFrom;
      EnvironmentWhileClear(j);
      GatheredStays(old(trace), trace, j, looks, snapshot);
    }

    /** The next store's content joins what has been read. */
    ghost method Look(snapshot: seq<nat>, content: nat, j: nat, looks: seq<nat>) returns (at: nat)
      requires |snapshot| < |world.stores| && content == world.stores[|snapshot|]
      requires Reading(snapshot, j, looks)
      modifies this`trace
      ensures Reading(snapshot + [content], j, looks + [at]) && Logged(old(trace))
    {
      var before, n := trace, |snapshot|;
      hide Begins, Valid, Fresh, ClearSince, Gathered, OursFrom, UntouchedFrom, QuietFrom, Extends, ReadAt;
      BeginsOn(world.stores, snapshot);
      LogRead(n, j);
      LastRead(before, j, n, world);
      GatheredOn(before, trace, j, looks, snapshot, content);
      at := |before|;
    }

    /** Reads every store in turn. */
    method ReadStores(ghost j: nat) returns (r: Option<seq<nat>>, ghost looks: seq<nat>)
      requires Fresh() && ClearSince(j)
      modifies this`world, this`trace, this`obstacles
      ensures obstacles == old(obstacles) + if r.Some? then [] else [StoreUnreadable]
      ensures Fresh() && Logged(old(trace)) && writable
      ensures r.Some? ==> Reading(r.value, j, looks) && |r.value| == |world.stores|
      ensures smooth ==> r.Some?
    {
      var snapshot: seq<nat> := [];
      looks := [];
      assert Reading(snapshot, j, looks);
      hide Valid, Fresh, ClearSince, Reading, Extends, OursFrom;
      while |snapshot| < |world.stores|
        invariant Fresh() && Reading(snapshot, j, looks) && Logged(old(trace)) && |snapshot| <= |world.stores| && writable
        invariant obstacles == old(obstacles)
        decreases |world.stores| - |snapshot|
      {
        ghost var at, before := 0, trace;
        var store;
        store, at := ReadStore(snapshot, j, looks);
        LongerStill(old(trace), before, trace);
        if store.None? {
          return None, looks;
        }
        snapshot, looks := snapshot + [store.value], looks + [at];
      }
      r := Some(snapshot);
    }

    /** Reads the stores and writes the export. */
    method ExportFromDisk() returns (r: Result<Export, Failure>)
      requires Fresh() && exists j: nat :: ClearSince(j)
      modifies this`world, this`trace, this`obstacles
      ensures if r.Ok? then obstacles == old(obstacles) else old(obstacles) < obstacles && r.error == Message
      ensures Valid() && Logged(old(trace))
      ensures r.Ok? ==> r.value.FromDisk? && world.inbox == [] && |world.exports| == base + 1 && world.exports[base] == r.value
      ensures r.Ok? ==> Coherent(r.value.snapshot) && NeverSent(trace)
      ensures r.Err? ==> Fresh()
      ensures smooth ==> r.Ok?
    {
      ghost var j: nat :| ClearSince(j);
      var snapshot;
      ghost var looks;
      snapshot, looks := ReadStores(j);
      hide ClearSince, Coherent, Reading, NeverSent, NeverWrote, AtMostOne, ReadsGuarded, Extends, OursFrom, Chained;
      ghost var read := trace;
      var written: bool :| smooth ==> written;
      if snapshot.None? {
        return Err(Message);
      }
      if !written {
        obstacles := obstacles + [ExportUnwritten];
        return Err(Message);
      }
      r := Ok(FromDisk(snapshot.value));
      WriteExport(snapshot.value, j, looks);
      LongerStill(old(trace), read, trace);
    }

    method WriteExport(snapshot: seq<nat>, ghost j: nat, ghost looks: seq<nat>)
      requires Reading(snapshot, j, looks) && |snapshot| == |world.stores|
      modifies this`world, this`trace
      ensures Valid() && Logged(old(trace)) && writable && Coherent(snapshot) && world.inbox == [] && NeverSent(trace)
      ensures |world.exports| == base + 1 && world.exports[base] == FromDisk(snapshot)
    {
      hide Chained, ReadsGuarded, Gathered, MaySend;
      ghost var was, unwritten, since := trace, world, trace[j].event.since;
      world := world.(exports := world.exports + [FromDisk(snapshot)]);
      trace := trace + [Moment(Wrote(snapshot), world)];
      GuardedStays(was, trace);
      NothingSaid(was, trace);
      ChainedOn(start, was, unwritten, trace[|was|]);
      MovedOn(was, trace[|was|], since);
      MovedOn(was, trace[|was|], j);
      GatheredStays(was, trace, j, looks, snapshot);
      assert forall k :: 0 <= k < |was| ==> trace[k] == was[k];
      SameLength(start, trace, world, j, |was|);
      assert CoherentAt(snapshot, j, looks);
    }

    /**
     The snapshot is what was read of each store after a clear check at `j`; it is what the stores
     held at that check, unless an older primary has written to them since; and none can have that
     did not start after the check began.
     */
    ghost predicate CoherentAt(snapshot: seq<nat>, j: nat, looks: seq<nat>)
      reads `world, `writable, `trace
    {
      && ClearedAt(trace, j) && OursFrom(trace, trace[j].event.since)
      && Gathered(trace, j, looks, snapshot) && |snapshot| == |trace[j].world.stores|
      && (UntouchedFrom(trace, j) ==> snapshot == trace[j].world.stores)
      && (QuietFrom(trace, trace[j].event.since) ==> UntouchedFrom(trace, j))
    }

    ghost predicate Coherent(snapshot: seq<nat>)
      reads `world, `writable, `trace
    {
      exists j: nat, looks :: CoherentAt(snapshot, j, looks)
    }

    /** The owner first; only a connection that failed, with nothing delivered, leads to the disk. */
    method ExportThroughOwnerOrRecoverStale(instance: Instance, utf8: bool) returns (r: Result<Export, Failure>)
      requires Fresh()
      modifies this
      ensures Settled(r) && (r.Err? ==> !utf8 || old(obstacles) < obstacles)
      ensures r.Err? ==> !PermitsStaleDescriptorRecovery(r.error)
      ensures smooth && utf8 && instance.version >= 7 && (reachable || (old(world.older) == {} && !old(world.holder).Theirs?)) ==> r.Ok?
      ensures r.Err? && utf8 && FirstFails(old(attempts)) ==> |obstacles| > |old(obstacles)| + 1
    {
      r := ExportThroughOwner(instance, utf8);
      if r.Err? && PermitsStaleDescriptorRecovery(r.error) {
        r := ExportOfflineAfterStaleDescriptor();
      }
    }

    /** What a finished run of the exporter guarantees. */
    ghost predicate Settled(r: Result<Export, Failure>)
      reads `world, `writable, `trace
    {
      && Valid()
      && (r.Ok? ==> |world.exports| == base + 1 && world.exports[base] == r.value)
      && (r.Ok? && r.value.FromDisk? ==> world.inbox == [] && NeverSent(trace) && Coherent(r.value.snapshot))
    }

    method ExportOfflineAfterStaleDescriptor() returns (r: Result<Export, Failure>)
      requires Fresh()
      modifies this`world, this`writable, this`trace, this`obstacles
      ensures if r.Ok? then obstacles == old(obstacles) else old(obstacles) < obstacles && r.error == Message
      ensures Settled(r)
      ensures smooth && old(world.older) == {} && !old(world.holder).Theirs? ==> r.Ok?
    {
      var lease := InitializePersistenceWriter();
      if lease != Granted {
        return Err(Message);
      }
      var absent := PrimaryEndpointsAbsent();
      if !absent {
        return Err(Message);
      }
      r := ExportFromDisk();
    }

    method ExportOfflineWithGuard(utf8: bool) returns (r: Result<Export, Failure>)
      requires Fresh()
      modifies this
      ensures Settled(r) && (r.Err? ==> !utf8 || old(obstacles) < obstacles)
      ensures smooth && old(world.older) == {} && !old(world.holder).Theirs? && advertised.None? ==> r.Ok?
    {
      var lease := InitializePersistenceWriter();
      if lease == Busy {
        var owner := InstanceWithCapability();
        if !owner.Found? {
          return Err(Message);
        }
        r := ExportThroughOwner(owner.instance, utf8);
        return;
      }
      if lease == Unverified {
        return Err(Message);
      }
      var owner := InstanceWithCapability();
      match owner
      case Found(instance) => r := ExportThroughOwnerOrRecoverStale(instance, utf8);
      case Absent => r := ExportFromDisk();
      case LookupFailed => r := Err(Message);
    }

    /** A smooth run with an owner that answers, or with the stores free to be read. */
    ghost predicate Open(utf8: bool)
      reads `world
    {
      && smooth && world.older == {}
      && (advertised.Some? ==> utf8 && advertised.value.version >= 7)
      && ((advertised.Some? && reachable) || !world.holder.Theirs?)
    }

    /**
     Whatever the rest of the system does: stores are read only under the lease after a clear check,
     a disk export is one coherent snapshot and rules out a delivered command, a reported export is
     the one made, and there is at most one now and for ever after.
     */
    method RunExport(utf8: bool) returns (r: Result<Export, Failure>)
      requires Fresh()
      modifies this
      ensures Settled(r) && ReadsGuarded(trace)
      ensures r.Err? ==> !utf8 || old(obstacles) < obstacles
      ensures old(Open(utf8)) ==> r.Ok?
      ensures NeverAgain(world, base)
    {
      hide NeverAgain;
      var instance := InstanceWithCapability();
      match instance {
        case LookupFailed => r := Err(Message);
        case Found(owner) => r := ExportThroughOwnerOrRecoverStale(owner, utf8);
        case Absent => r := ExportOfflineWithGuard(utf8);
      }
      NeverASecond(world, base);
    }
  }
}
