/**
 The counting allocator of examples/tui_render_perf.rs as a transition system: any number of
 threads, one atomic operation a step, in any interleaving, and compare-and-swap that may fail
 for no reason. The counters are 64-bit words and wrap.
 */
module AllocCounters {

  const WORD: nat := 0x1_0000_0000_0000_0000

  type Thread = nat

  type BlockId = nat

  datatype Holder = Nobody | By(t: Thread)

  /** `size` is what the system handed out; `counted` is the block's share of LIVE. */
  datatype Block = Block(size: nat, counted: nat, holder: Holder)

  /** Where a thread stands between two atomic operations. */
  datatype Phase =
    | Idle
    | AddAllocated(b: BlockId, n: nat)
    | AddLive(b: BlockId, n: nat)
    | LoadPeak(b: BlockId, live: nat)
    | RaisePeak(b: BlockId, live: nat, seen: nat)
    | AddDeallocated(b: BlockId, n: nat, free: bool)
    | SubLive(b: BlockId, n: nat, free: bool)
    | Release(b: BlockId)
    | StorePeak(value: nat)

  /**
   Since the last reset: the value stored, the live values published since, and those that an
   update in flight at the reset was still going to write.
   */
  datatype Window = Window(base: nat, published: set<nat>, carried: set<nat>)

  /** The four counters, and the unbounded totals of what was counted so far. */
  datatype State = State(
    allocatedBytes: nat, deallocatedBytes: nat, live: nat, peak: nat,
    totalAllocated: nat, totalDeallocated: nat,
    threads: map<Thread, Phase>, blocks: map<BlockId, Block>, window: Window)

  const START := State(0, 0, 0, 0, 0, 0, map[], map[], Window(0, {}, {}))

  function PhaseOf(s: State, t: Thread): Phase {
    if t in s.threads then s.threads[t] else Idle
  }

  // ---------------------------------------------------------------- sums

  ghost function Sum(m: map<nat, int>): int {
    if m == map[] then 0 else var k :| k in m; m[k] + Sum(m - {k})
  }

  lemma {:induction false} SumTakes(m: map<nat, int>, k: nat)
    requires k in m
    ensures Sum(m) == m[k] + Sum(m - {k})
  {
    var j :| j in m && Sum(m) == m[j] + Sum(m - {j});
    if j == k {
    } else {
      SumTakes(m - {j}, k);
      SumTakes(m - {k}, j);
      assert (m - {j}) - {k} == (m - {k}) - {j};
    }
  }

  lemma SumSets(m: map<nat, int>, k: nat, v: int)
    ensures Sum(m[k := v]) == Sum(m) - (if k in m then m[k] else 0) + v
  {
    hide Sum;
    SumTakes(m[k := v], k);
    if k in m {
      SumTakes(m, k);
      assert m[k := v] - {k} == m - {k};
    } else {
      assert m[k := v] - {k} == m;
    }
  }

  lemma {:induction false} SumLeq(m: map<nat, int>, n: map<nat, int>)
    requires m.Keys == n.Keys && forall k <- m :: m[k] <= n[k]
    ensures Sum(m) <= Sum(n)
  {
    if m == map[] {
      assert n == map[];
    } else {
      var k :| k in m;
      SumTakes(m, k);
      SumTakes(n, k);
      SumLeq(m - {k}, n - {k});
    }
  }

  lemma {:induction false} SumZero(m: map<nat, int>)
    requires forall k <- m :: m[k] == 0
    ensures Sum(m) == 0
  {
    if m == map[] {
    } else {
      var k :| k in m;
      SumTakes(m, k);
      SumZero(m - {k});
    }
  }

  /** A summand is at most the sum of things that are not negative. */
  lemma SumBounds(m: map<nat, int>, k: nat)
    requires k in m && forall j <- m :: m[j] >= 0
    ensures 0 <= m[k] <= Sum(m)
  {
    hide Sum;
    SumTakes(m, k);
    SumLeq(map j <- m - {k} :: 0, m - {k});
    SumZero(map j <- m - {k} :: 0);
  }

  function Counts(blocks: map<BlockId, Block>): map<nat, int> {
    map b <- blocks :: blocks[b].counted
  }

  function Sizes(blocks: map<BlockId, Block>): map<nat, int> {
    map b <- blocks :: blocks[b].size
  }

  /** What a block can weigh at any time: its size, or what is still counted for it. */
  function Footprints(blocks: map<BlockId, Block>): map<nat, int> {
    map b <- blocks :: if blocks[b].size > blocks[b].counted then blocks[b].size else blocks[b].counted
  }

  /** How far a thread's next LIVE operation lags behind ALLOCATED minus DEALLOCATED. */
  function Owes(p: Phase): int {
    match p
    case AddLive(_, n) => n
    case SubLive(_, n, _) => -(n as int)
    case _ => 0
  }

  function Debts(threads: map<Thread, Phase>): map<nat, int> {
    map t <- threads :: Owes(threads[t])
  }

  // ---------------------------------------------------------------- steps

  datatype Action =
    | Alloc(t: Thread, b: BlockId, size: nat)
    | Realloc(t: Thread, b: BlockId, size: nat)
    | Dealloc(t: Thread, b: BlockId)
    | Reset(t: Thread)
    | Continue(t: Thread, spurious: bool)

  /** The thread enters `p`, `b` becoming `block`. */
  function Move(s: State, t: Thread, p: Phase, b: BlockId, block: Block): State {
    s.(threads := s.threads[t := p], blocks := s.blocks[b := block])
  }

  function Finish(s: State, t: Thread, b: BlockId): State
    requires b in s.blocks
  {
    Move(s, t, Idle, b, s.blocks[b].(holder := Nobody))
  }

  predicate Updating(p: Phase) {
    p.LoadPeak? || p.RaisePeak?
  }

  /** An update that still means to write its value: it has not seen a peak that high. */
  predicate Eager(p: Phase) {
    p.LoadPeak? || (p.RaisePeak? && p.live > p.seen)
  }

  /**
   One step. The system never hands out more than fits in an address space, and a block is in
   the hands of one thread at a time: these are the allocator contract's own conditions.
   */
  ghost function Next(s: State, action: Action): State {
    match action
    case Alloc(t, b, size) =>
      if PhaseOf(s, t) == Idle && b !in s.blocks && Sum(Footprints(s.blocks)) + size < WORD
      then Move(s, t, AddAllocated(b, size), b, Block(size, 0, By(t))) else s
    case Realloc(t, b, size) =>
      if PhaseOf(s, t) == Idle && b in s.blocks && s.blocks[b].holder == Nobody
        && Sum(Footprints(s.blocks[b := s.blocks[b].(size := size)])) < WORD
      then
        var was := s.blocks[b].size;
        var p := if size >= was then AddAllocated(b, size - was) else AddDeallocated(b, was - size, false);
        Move(s, t, p, b, s.blocks[b].(size := size, holder := By(t)))
      else s
    case Dealloc(t, b) =>
      if PhaseOf(s, t) == Idle && b in s.blocks && s.blocks[b].holder == Nobody
      then Move(s, t, AddDeallocated(b, s.blocks[b].size, true), b, s.blocks[b].(holder := By(t))) else s
    case Reset(t) =>
      if PhaseOf(s, t) == Idle then s.(threads := s.threads[t := StorePeak(s.live)]) else s
    case Continue(t, spurious) => Advance(s, t, spurious)
  }

  function Advance(s: State, t: Thread, spurious: bool): State {
    match PhaseOf(s, t)
    case Idle => s
    case AddAllocated(b, n) =>
      s.(allocatedBytes := (s.allocatedBytes + n) % WORD, totalAllocated := s.totalAllocated + n, threads := s.threads[t := AddLive(b, n)])
    case AddLive(b, n) =>
      if b !in s.blocks then s
      else
        var live := (s.live + n) % WORD;
        Move(s, t, LoadPeak(b, live), b, s.blocks[b].(counted := s.blocks[b].counted + n))
          .(live := live, window := s.window.(published := s.window.published + {live}))
    case LoadPeak(b, live) => s.(threads := s.threads[t := RaisePeak(b, live, s.peak)])
    case RaisePeak(b, live, seen) =>
      if b !in s.blocks then s
      else if live <= seen then Finish(s, t, b)
      else if s.peak == seen && !spurious then Finish(s, t, b).(peak := live)
      else s.(threads := s.threads[t := RaisePeak(b, live, s.peak)])
    case AddDeallocated(b, n, free) =>
      s.(deallocatedBytes := (s.deallocatedBytes + n) % WORD, totalDeallocated := s.totalDeallocated + n,
         threads := s.threads[t := SubLive(b, n, free)])
    case SubLive(b, n, free) =>
      if b !in s.blocks || s.blocks[b].counted < n then s
      else
        var block := s.blocks[b].(counted := s.blocks[b].counted - n, holder := if free then By(t) else Nobody);
        Move(s, t, if free then Release(b) else Idle, b, block).(live := (s.live - n) % WORD)
    case Release(b) => s.(threads := s.threads[t := Idle], blocks := s.blocks - {b})
    case StorePeak(value) =>
      s.(peak := value, threads := s.threads[t := Idle],
         window := Window(value, {}, set u | u in s.threads && Eager(s.threads[u]) :: s.threads[u].live))
  }

  ghost function Run(s: State, actions: seq<Action>): State {
    if actions == [] then s else Next(Run(s, actions[..|actions| - 1]), actions[|actions| - 1])
  }

  // ---------------------------------------------------------------- invariant

  /** The thread has no block in its hands. */
  predicate Resting(p: Phase) {
    p.Idle? || p.StorePeak?
  }

  /** What a thread's phase says about the block in its hands. */
  predicate Agrees(p: Phase, block: Block) {
    match p
    case AddAllocated(_, n) => block.counted + n == block.size
    case AddLive(_, n) => block.counted + n == block.size
    case LoadPeak(_, _) => block.counted == block.size
    case RaisePeak(_, _, _) => block.counted == block.size
    case AddDeallocated(_, n, free) => block.counted == (if free then n else block.size + n) && (free ==> n == block.size)
    case SubLive(_, n, free) => block.counted == (if free then n else block.size + n) && (free ==> n == block.size)
    case Release(_) => block.counted == 0
    case _ => true
  }

  predicate InHand(t: Thread, p: Phase, s: State) {
    Resting(p) || (p.b in s.blocks && s.blocks[p.b].holder == By(t) && Agrees(p, s.blocks[p.b]))
  }

  predicate HeldRight(b: BlockId, s: State)
    requires b in s.blocks
  {
    match s.blocks[b].holder
    case Nobody => s.blocks[b].counted == s.blocks[b].size
    case By(t) => t in s.threads && !Resting(s.threads[t]) && s.threads[t].b == b
  }

  predicate BlocksOk(s: State) {
    && (forall t <- s.threads :: InHand(t, s.threads[t], s))
    && (forall b <- s.blocks :: HeldRight(b, s))
  }

  ghost predicate CountersOk(s: State) {
    && s.live == Sum(Counts(s.blocks))
    && Sum(Footprints(s.blocks)) < WORD
    && s.totalAllocated - s.totalDeallocated == s.live + Sum(Debts(s.threads))
    && Wraps(s.totalAllocated, s.allocatedBytes)
    && Wraps(s.totalDeallocated, s.deallocatedBytes)
  }

  predicate Wraps(total: nat, counter: nat) {
    counter == total % WORD
  }

  predicate PeakOk(s: State) {
    var w := s.window;
    && w.base <= s.peak
    && s.peak in {w.base} + w.published + w.carried
    && (forall v <- w.published + w.carried :: v <= s.peak || InFlight(s, v))
    && (forall t <- s.threads :: Eager(s.threads[t]) ==> s.threads[t].live in w.published + w.carried)
  }

  predicate InFlight(s: State, v: nat) {
    exists t <- s.threads :: Eager(s.threads[t]) && s.threads[t].live == v
  }

  ghost predicate Inv(s: State) {
    BlocksOk(s) && CountersOk(s) && PeakOk(s)
  }

  // ---------------------------------------------------------------- every step keeps it

  lemma UpdateCounts(blocks: map<BlockId, Block>, b: BlockId, block: Block)
    ensures Counts(blocks[b := block]) == Counts(blocks)[b := block.counted]
    ensures Sizes(blocks[b := block]) == Sizes(blocks)[b := block.size]
  {
  }

  /** A block whose footprint does not grow keeps the sum of footprints in range. */
  lemma FootprintsShrink(blocks: map<BlockId, Block>, b: BlockId, block: Block)
    requires b in blocks && block.size <= Footprints(blocks)[b] && block.counted <= Footprints(blocks)[b]
    ensures Sum(Footprints(blocks[b := block])) <= Sum(Footprints(blocks))
  {
    hide Sum;
    SumLeq(Footprints(blocks[b := block]), Footprints(blocks));
  }

  lemma FootprintsAdd(blocks: map<BlockId, Block>, b: BlockId, size: nat, t: Thread)
    requires b !in blocks
    ensures Sum(Footprints(blocks[b := Block(size, 0, By(t))])) == Sum(Footprints(blocks)) + size
    ensures Sum(Counts(blocks[b := Block(size, 0, By(t))])) == Sum(Counts(blocks))
  {
    hide Sum;
    var block := Block(size, 0, By(t));
    assert Footprints(blocks[b := block]) == Footprints(blocks)[b := size];
    SumSets(Footprints(blocks), b, size);
    UpdateCounts(blocks, b, block);
    SumSets(Counts(blocks), b, 0);
  }

  lemma CountsFit(blocks: map<BlockId, Block>)
    ensures Sum(Counts(blocks)) <= Sum(Footprints(blocks))
  {
    hide Sum;
    SumLeq(Counts(blocks), Footprints(blocks));
  }

  lemma UpdateDebts(threads: map<Thread, Phase>, t: Thread, p: Phase)
    ensures Sum(Debts(threads[t := p])) ==
      Sum(Debts(threads)) - (if t in threads then Owes(threads[t]) else 0) + Owes(p)
  {
    hide Sum;
    assert Debts(threads[t := p]) == Debts(threads)[t := Owes(p)];
    SumSets(Debts(threads), t, Owes(p));
  }

  /** A thread that moves on with the block it alone holds, or takes up a free one. */
  lemma MoveKeepsBlocks(s: State, t: Thread, p: Phase, b: BlockId, block: Block)
    requires BlocksOk(s)
    requires if PhaseOf(s, t) == Idle then b !in s.blocks || s.blocks[b].holder == Nobody
             else !Resting(PhaseOf(s, t)) && PhaseOf(s, t).b == b
    requires if p == Idle then block.holder == Nobody && block.counted == block.size
             else !Resting(p) && p.b == b && block.holder == By(t) && Agrees(p, block)
    ensures BlocksOk(Move(s, t, p, b, block))
  {
    var u := Move(s, t, p, b, block);
    forall r <- u.threads ensures InHand(r, u.threads[r], u) {
      if r != t {
        assert InHand(r, s.threads[r], s);
      }
    }
    forall c <- u.blocks ensures HeldRight(c, u) {
      if c != b {
        assert HeldRight(c, s);
      }
    }
  }

  /** Steps that change neither the peak nor who is updating it. */
  lemma PeakUntouched(s: State, u: State, t: Thread)
    requires PeakOk(s) && u.peak == s.peak && u.window == s.window
    requires t in u.threads && u.threads == s.threads[t := u.threads[t]]
    requires !Updating(PhaseOf(s, t)) && !Updating(u.threads[t])
    ensures PeakOk(u)
  {
    forall v <- u.window.published + u.window.carried ensures v <= u.peak || InFlight(u, v) {
      if v > s.peak {
        var r :| r in s.threads && Eager(s.threads[r]) && s.threads[r].live == v;
        assert r in u.threads && u.threads[r] == s.threads[r];
      }
    }
  }

  lemma CountersMove(s: State, t: Thread, p: Phase, b: BlockId, block: Block)
    requires CountersOk(s) && b in s.blocks && block.counted == s.blocks[b].counted
    requires Owes(p) == Owes(PhaseOf(s, t)) && Sum(Footprints(s.blocks[b := block])) < WORD
    ensures CountersOk(Move(s, t, p, b, block))
  {
    hide Sum, Wraps;
    UpdateDebts(s.threads, t, p);
    assert Counts(s.blocks[b := block]) == Counts(s.blocks);
  }

  lemma AllocKeeps(s: State, t: Thread, b: BlockId, size: nat)
    requires Inv(s) && PhaseOf(s, t) == Idle && b !in s.blocks && Sum(Footprints(s.blocks)) + size < WORD
    ensures Inv(Next(s, Alloc(t, b, size)))
  {
    hide Sum;
    var p, block := AddAllocated(b, size), Block(size, 0, By(t));
    var u := Move(s, t, p, b, block);
    assert BlocksOk(u) by { hide PeakOk, CountersOk; MoveKeepsBlocks(s, t, p, b, block); }
    assert PeakOk(u) by { hide BlocksOk, CountersOk; PeakUntouched(s, u, t); }
    hide BlocksOk, PeakOk;
    FootprintsAdd(s.blocks, b, size, t);
    UpdateDebts(s.threads, t, p);
  }

  /** A free block comes into a thread's hands. */
  lemma TakeKeeps(s: State, t: Thread, p: Phase, b: BlockId, block: Block)
    requires Inv(s) && PhaseOf(s, t) == Idle && b in s.blocks && s.blocks[b].holder == Nobody
    requires Sum(Footprints(s.blocks[b := block])) < WORD
    requires !Resting(p) && !Updating(p) && Owes(p) == 0 && p.b == b && block.holder == By(t)
    requires block.counted == s.blocks[b].counted
    requires block.counted == s.blocks[b].size ==> Agrees(p, block)
    ensures Inv(Move(s, t, p, b, block))
  {
    var u := Move(s, t, p, b, block);
    FreeIsCounted(s, b);
    assert BlocksOk(u) by { hide PeakOk, CountersOk; MoveKeepsBlocks(s, t, p, b, block); }
    assert PeakOk(u) by { hide BlocksOk, CountersOk; PeakUntouched(s, u, t); }
    hide BlocksOk, PeakOk;
    CountersMove(s, t, p, b, block);
  }

  lemma StartKeeps(s: State, action: Action)
    requires Inv(s) && !action.Continue?
    ensures Inv(Next(s, action))
  {
    hide Inv, BlocksOk, PeakOk, CountersOk;
    var u := Next(s, action);
    if u != s {
      match action
      case Alloc(t, b, size) => AllocKeeps(s, t, b, size);
      case Realloc(t, b, size) => ReallocKeeps(s, t, b, size);
      case Dealloc(t, b) => DeallocKeeps(s, t, b);
      case Reset(t) => RestingKeeps(s, t, StorePeak(s.live));
    }
  }

  lemma ReallocKeeps(s: State, t: Thread, b: BlockId, size: nat)
    requires Inv(s) && PhaseOf(s, t) == Idle && b in s.blocks && s.blocks[b].holder == Nobody
    requires Sum(Footprints(s.blocks[b := s.blocks[b].(size := size)])) < WORD
    ensures Inv(Next(s, Realloc(t, b, size)))
  {
    hide Inv, BlocksOk, PeakOk, CountersOk;
    var block := s.blocks[b].(size := size, holder := By(t));
    assert Footprints(s.blocks[b := block]) == Footprints(s.blocks[b := s.blocks[b].(size := size)]);
    var was := s.blocks[b].size;
    var p := if size >= was then AddAllocated(b, size - was) else AddDeallocated(b, was - size, false);
    TakeKeeps(s, t, p, b, block);
  }

  lemma DeallocKeeps(s: State, t: Thread, b: BlockId)
    requires Inv(s) && PhaseOf(s, t) == Idle && b in s.blocks && s.blocks[b].holder == Nobody
    ensures Inv(Next(s, Dealloc(t, b)))
  {
    hide BlocksOk, PeakOk;
    var block := s.blocks[b].(holder := By(t));
    assert Footprints(s.blocks[b := block]) == Footprints(s.blocks);
    TakeKeeps(s, t, AddDeallocated(b, block.size, true), b, block);
  }

  lemma RestingKeeps(s: State, t: Thread, p: Phase)
    requires Inv(s) && Resting(PhaseOf(s, t)) && Resting(p)
    ensures Inv(s.(threads := s.threads[t := p]))
  {
    hide Sum, Wraps;
    hide BlocksOk, PeakOk;
    var u := s.(threads := s.threads[t := p]);
    RestingKeepsBlocks(s, t, p);
    PeakUntouched(s, u, t);
    UpdateDebts(s.threads, t, p);
  }

  lemma FreeIsCounted(s: State, b: BlockId)
    requires BlocksOk(s) && b in s.blocks && s.blocks[b].holder == Nobody
    ensures s.blocks[b].counted == s.blocks[b].size
  {
    assert HeldRight(b, s);
  }

  lemma RestingKeepsBlocks(s: State, t: Thread, p: Phase)
    requires BlocksOk(s) && Resting(PhaseOf(s, t)) && Resting(p)
    ensures BlocksOk(s.(threads := s.threads[t := p]))
  {
    var u := s.(threads := s.threads[t := p]);
    forall c <- u.blocks ensures HeldRight(c, u) {
      assert HeldRight(c, s);
    }
    forall r <- u.threads ensures InHand(r, u.threads[r], u) {
      if r != t {
        assert InHand(r, s.threads[r], s);
      }
    }
  }

  // ---------------------------------------------------------------- atomic operations

  /** What the invariant says about the block in a thread's hands. */
  lemma InHandNow(s: State, t: Thread)
    requires BlocksOk(s) && !Resting(PhaseOf(s, t))
    ensures var p := PhaseOf(s, t);
      t in s.threads && p.b in s.blocks && s.blocks[p.b].holder == By(t) && Agrees(p, s.blocks[p.b])
  {
    assert InHand(t, s.threads[t], s);
  }

  /** A LIVE operation moves the counter by exactly what the block's share changes, without wrapping. */
  lemma LiveMoves(s: State, t: Thread, p: Phase, b: BlockId, block: Block, delta: int)
    requires CountersOk(s) && b in s.blocks && block.counted == s.blocks[b].counted + delta
    requires block.size == s.blocks[b].size && block.counted <= Footprints(s.blocks)[b]
    requires Owes(p) == 0 && t in s.threads && Owes(s.threads[t]) == delta
    ensures 0 <= s.live + delta < WORD && (s.live + delta) % WORD == s.live + delta
    ensures CountersOk(Move(s, t, p, b, block).(live := s.live + delta))
  {
    hide Sum, Wraps;
    var u := Move(s, t, p, b, block);
    UpdateDebts(s.threads, t, p);
    UpdateCounts(s.blocks, b, block);
    SumSets(Counts(s.blocks), b, block.counted);
    FootprintsShrink(s.blocks, b, block);
    CountsFit(u.blocks);
    SumBounds(Counts(u.blocks), b);
  }

  /** A newly published value is above the peak only while its update is in flight. */
  lemma PublishKeepsPeak(s: State, u: State, t: Thread, live: nat)
    requires PeakOk(s) && u.peak == s.peak && !Updating(PhaseOf(s, t))
    requires u.window == s.window.(published := s.window.published + {live})
    requires t in u.threads && u.threads == s.threads[t := u.threads[t]]
    requires u.threads[t].LoadPeak? && u.threads[t].live == live
    ensures PeakOk(u)
  {
    forall v <- u.window.published + u.window.carried ensures v <= u.peak || InFlight(u, v) {
      if v != live && v > s.peak {
        assert v in s.window.published + s.window.carried;
        assert InFlight(s, v);
        var r :| r in s.threads && Eager(s.threads[r]) && s.threads[r].live == v;
        assert r in u.threads && u.threads[r] == s.threads[r];
      }
    }
  }

  function Published(s: State, t: Thread, b: BlockId, n: nat): State
    requires b in s.blocks
  {
    Move(s, t, LoadPeak(b, s.live + n), b, s.blocks[b].(counted := s.blocks[b].counted + n))
      .(live := s.live + n, window := s.window.(published := s.window.published + {s.live + n}))
  }

  lemma AddLiveKeeps(s: State, t: Thread, b: BlockId, n: nat)
    requires Inv(s) && PhaseOf(s, t) == AddLive(b, n)
    ensures Inv(Advance(s, t, false)) && Advance(s, t, false).live == s.live + n
  {
    hide BlocksOk, CountersOk, PeakOk, Advance, Sum;
    InHandNow(s, t);
    var block := s.blocks[b].(counted := s.blocks[b].counted + n);
    var p := LoadPeak(b, s.live + n);
    LiveMoves(s, t, p, b, block, n);
    assert Advance(s, t, false) == Published(s, t, b, n) by { AddLiveStep(s, t, b, n); }
    PublishedInv(s, t, b, n);
  }

  lemma AddLiveStep(s: State, t: Thread, b: BlockId, n: nat)
    requires PhaseOf(s, t) == AddLive(b, n) && b in s.blocks && (s.live + n) % WORD == s.live + n
    ensures Advance(s, t, false) == Published(s, t, b, n)
  {
  }

  lemma PublishedInv(s: State, t: Thread, b: BlockId, n: nat)
    requires BlocksOk(s) && PeakOk(s) && PhaseOf(s, t) == AddLive(b, n) && b in s.blocks
    requires var block := s.blocks[b].(counted := s.blocks[b].counted + n);
      && block.holder == By(t) && block.counted == block.size
      && CountersOk(Move(s, t, LoadPeak(b, s.live + n), b, block).(live := s.live + n))
    ensures Inv(Published(s, t, b, n))
  {
    hide BlocksOk, CountersOk, PeakOk;
    var block := s.blocks[b].(counted := s.blocks[b].counted + n);
    var p := LoadPeak(b, s.live + n);
    var moved, u := Move(s, t, p, b, block), Published(s, t, b, n);
    MoveKeepsBlocks(s, t, p, b, block);
    SameBlocks(moved, u);
    PublishKeepsPeak(s, u, t, u.live);
    SameCounters(moved.(live := s.live + n), u);
  }

  lemma SameBlocks(s: State, u: State)
    requires BlocksOk(s) && u.threads == s.threads && u.blocks == s.blocks
    ensures BlocksOk(u)
  {
    forall r <- u.threads ensures InHand(r, u.threads[r], u) {
      assert InHand(r, s.threads[r], s);
    }
    forall c <- u.blocks ensures HeldRight(c, u) {
      assert HeldRight(c, s);
    }
  }

  lemma SameCounters(s: State, u: State)
    requires CountersOk(s) && u.threads == s.threads && u.blocks == s.blocks && u.live == s.live
    requires u.allocatedBytes == s.allocatedBytes && u.totalAllocated == s.totalAllocated
    requires u.deallocatedBytes == s.deallocatedBytes && u.totalDeallocated == s.totalDeallocated
    ensures CountersOk(u)
  {
  }

  function Subtracted(s: State, t: Thread, b: BlockId, n: nat, free: bool): State
    requires b in s.blocks && n <= s.blocks[b].counted && n <= s.live
  {
    var block := s.blocks[b].(counted := s.blocks[b].counted - n, holder := if free then By(t) else Nobody);
    Move(s, t, if free then Release(b) else Idle, b, block).(live := s.live - n)
  }

  lemma SubLiveStep(s: State, t: Thread, b: BlockId, n: nat, free: bool)
    requires PhaseOf(s, t) == SubLive(b, n, free) && b in s.blocks && n <= s.blocks[b].counted && n <= s.live
    requires (s.live - n) % WORD == s.live - n
    ensures Advance(s, t, false) == Subtracted(s, t, b, n, free)
  {
  }

  lemma SubLiveKeeps(s: State, t: Thread, b: BlockId, n: nat, free: bool)
    requires Inv(s) && PhaseOf(s, t) == SubLive(b, n, free)
    ensures Inv(Advance(s, t, false)) && n <= s.live && Advance(s, t, false).live == s.live - n
  {
    hide BlocksOk, CountersOk, PeakOk, Advance, Sum;
    InHandNow(s, t);
    var block := s.blocks[b].(counted := s.blocks[b].counted - n, holder := if free then By(t) else Nobody);
    var p := if free then Release(b) else Idle;
    LiveMoves(s, t, p, b, block, -(n as int));
    SubLiveStep(s, t, b, n, free);
    MoveKeepsBlocks(s, t, p, b, block);
    var u := Subtracted(s, t, b, n, free);
    SameBlocks(Move(s, t, p, b, block), u);
    PeakUntouched(s, u, t);
  }

  /** ALLOCATED and DEALLOCATED run ahead of LIVE by what the thread now owes. */
  lemma TotalsKeep(s: State, t: Thread)
    requires Inv(s) && (PhaseOf(s, t).AddAllocated? || PhaseOf(s, t).AddDeallocated?)
    ensures Inv(Advance(s, t, false))
  {
    hide BlocksOk, CountersOk, PeakOk;
    var u := Advance(s, t, false);
    var b, p := PhaseOf(s, t).b, u.threads[t];
    InHandNow(s, t);
    assert u.blocks == s.blocks && u.threads == s.threads[t := p] && u.live == s.live;
    assert u.peak == s.peak && u.window == s.window && !Updating(p) && p.b == b && Agrees(p, s.blocks[b]);
    TotalsCount(s, t);
    hide Advance;
    MoveKeepsBlocks(s, t, p, b, s.blocks[b]);
    assert s.blocks[b := s.blocks[b]] == s.blocks;
    SameBlocks(Move(s, t, p, b, s.blocks[b]), u);
    PeakUntouched(s, u, t);
  }

  lemma TotalsCount(s: State, t: Thread)
    requires CountersOk(s) && t in s.threads && (s.threads[t].AddAllocated? || s.threads[t].AddDeallocated?)
    ensures CountersOk(Advance(s, t, false))
  {
    hide Sum;
    var u := Advance(s, t, false);
    UpdateDebts(s.threads, t, u.threads[t]);
    if s.threads[t].AddAllocated? {
      AddWraps(s.totalAllocated, s.threads[t].n);
    } else {
      AddWraps(s.totalDeallocated, s.threads[t].n);
    }
  }

  lemma AddWraps(total: nat, n: nat)
    ensures (total % WORD + n) % WORD == (total + n) % WORD
  {
    var k := total / WORD;
    assert total + n == (total % WORD + n) + k * WORD;
  }

  lemma ReleaseKeeps(s: State, t: Thread, b: BlockId)
    requires Inv(s) && PhaseOf(s, t) == Release(b)
    ensures Inv(Advance(s, t, false))
  {
    hide Sum, Wraps;
    var u := s.(threads := s.threads[t := Idle], blocks := s.blocks - {b});
    assert Advance(s, t, false) == u;
    hide Advance;
    InHandNow(s, t);
    assert BlocksOk(u) by {
      hide CountersOk, PeakOk;
      forall r <- u.threads ensures InHand(r, u.threads[r], u) {
        assert InHand(r, s.threads[r], s);
      }
      forall c <- u.blocks ensures HeldRight(c, u) {
        assert HeldRight(c, s);
      }
    }
    assert CountersOk(u) by {
      hide BlocksOk, PeakOk;
      UpdateDebts(s.threads, t, Idle);
      assert Counts(u.blocks) == Counts(s.blocks) - {b};
      SumTakes(Counts(s.blocks), b);
      assert Footprints(u.blocks) == Footprints(s.blocks) - {b};
      SumTakes(Footprints(s.blocks), b);
    }
    hide BlocksOk, CountersOk, PeakOk;
    PeakUntouched(s, u, t);
  }

  /** A thread in the update loop, moving on within it or leaving it. */
  lemma UpdateKeeps(s: State, t: Thread, spurious: bool)
    requires Inv(s) && Updating(PhaseOf(s, t))
    ensures Inv(Advance(s, t, spurious)) && Advance(s, t, spurious).peak >= s.peak
  {
    hide BlocksOk, CountersOk, PeakOk;
    var u := Advance(s, t, spurious);
    InHandNow(s, t);
    var b, p := PhaseOf(s, t).b, u.threads[t];
    var block := if p == Idle then s.blocks[b].(holder := Nobody) else s.blocks[b];
    assert s.blocks[b := s.blocks[b]] == s.blocks;
    assert u == Move(s, t, p, b, block).(peak := u.peak, window := u.window);
    UpdateKeepsPeak(s, u, t);
    assert p == Idle || (p.RaisePeak? && p.b == b);
    hide Advance;
    CountersMoveOn(s, t, p, b, block);
    SameCounters(Move(s, t, p, b, block), u);
    MoveKeepsBlocks(s, t, p, b, block);
    SameBlocks(Move(s, t, p, b, block), u);
  }

  lemma CountersMoveOn(s: State, t: Thread, p: Phase, b: BlockId, block: Block)
    requires CountersOk(s) && t in s.threads && b in s.blocks && Owes(p) == Owes(s.threads[t])
    requires block.counted == s.blocks[b].counted && block.size == s.blocks[b].size
    ensures CountersOk(Move(s, t, p, b, block))
  {
    assert Footprints(s.blocks[b := block]) == Footprints(s.blocks);
    CountersMove(s, t, p, b, block);
  }

  lemma UpdateKeepsPeak(s: State, u: State, t: Thread)
    requires PeakOk(s) && t in s.threads && Updating(s.threads[t]) && u.window == s.window
    requires t in u.threads && u.threads == s.threads[t := u.threads[t]]
    requires var p, q := s.threads[t], u.threads[t];
      if q == Idle then p.RaisePeak? && u.peak == (if Eager(p) then p.live else s.peak) && (Eager(p) ==> p.seen == s.peak)
      else q.RaisePeak? && q.live == p.live && q.seen == s.peak == u.peak && Eager(p)
    ensures PeakOk(u) && u.peak >= s.peak
  {
    forall v <- u.window.published + u.window.carried ensures v <= u.peak || InFlight(u, v) {
      if v > u.peak {
        var r :| r in s.threads && Eager(s.threads[r]) && s.threads[r].live == v;
        assert r in u.threads;
      }
    }
  }

  lemma ResetKeeps(s: State, t: Thread, value: nat)
    requires Inv(s) && PhaseOf(s, t) == StorePeak(value)
    ensures Inv(Advance(s, t, false))
  {
    var u := Advance(s, t, false);
    assert BlocksOk(u) by {
      hide CountersOk, PeakOk;
      RestingKeepsBlocks(s, t, Idle);
      SameBlocks(s.(threads := s.threads[t := Idle]), u);
    }
    assert CountersOk(u) by {
      hide BlocksOk, PeakOk;
      UpdateDebts(s.threads, t, Idle);
    }
  }

  /** Every step keeps the invariant. */
  lemma NextKeeps(s: State, action: Action)
    requires Inv(s)
    ensures Inv(Next(s, action))
  {
    if !action.Continue? {
      StartKeeps(s, action);
    } else {
      hide Inv;
      var t := action.t;
      match PhaseOf(s, t)
      case Idle =>
      case AddAllocated(_, _) => TotalsKeep(s, t);
      case AddLive(b, n) => AddLiveKeeps(s, t, b, n);
      case LoadPeak(_, _) => UpdateKeeps(s, t, action.spurious);
      case RaisePeak(_, _, _) => UpdateKeeps(s, t, action.spurious);
      case AddDeallocated(_, _, _) => TotalsKeep(s, t);
      case SubLive(b, n, free) => SubLiveKeeps(s, t, b, n, free);
      case Release(b) => ReleaseKeeps(s, t, b);
      case StorePeak(value) => ResetKeeps(s, t, value);
    }
  }

  /** Every state reached by any threads in any interleaving satisfies the invariant. */
  lemma {:induction false} RunHolds(actions: seq<Action>)
    ensures Inv(Run(START, actions))
    decreases |actions|
  {
    if actions == [] {
      assert Counts(START.blocks) == map[] && Footprints(START.blocks) == map[] && Debts(START.threads) == map[];
    } else {
      RunHolds(actions[..|actions| - 1]);
      NextKeeps(Run(START, actions[..|actions| - 1]), actions[|actions| - 1]);
    }
  }

  // ---------------------------------------------------------------- theorems

  /** LIVE never underflows: a thread about to subtract finds at least that much in it. */
  lemma LiveNeverUnderflows(actions: seq<Action>, t: Thread)
    ensures var s := Run(START, actions);
      PhaseOf(s, t).SubLive? ==>
        PhaseOf(s, t).n <= s.live && Next(s, Continue(t, false)).live == s.live - PhaseOf(s, t).n
  {
    hide Inv, Run, Advance;
    var s := Run(START, actions);
    RunHolds(actions);
    if PhaseOf(s, t).SubLive? {
      SubLiveKeeps(s, t, PhaseOf(s, t).b, PhaseOf(s, t).n, PhaseOf(s, t).free);
    }
  }

  predicate Quiescent(s: State) {
    forall t <- s.threads :: s.threads[t] == Idle
  }

  /** With no operation in flight the counters agree with each other and with the heap. */
  lemma QuiescentCounters(actions: seq<Action>)
    ensures var s := Run(START, actions);
      Quiescent(s) ==>
        && s.live == Sum(Sizes(s.blocks))
        && s.totalAllocated - s.totalDeallocated == s.live
        && (s.allocatedBytes - s.deallocatedBytes) % WORD == s.live
  {
    hide Run;
    var s := Run(START, actions);
    RunHolds(actions);
    if Quiescent(s) {
      QuiescentSums(s);
      hide Inv, Sum;
      WrappedDifference(s.totalAllocated, s.totalDeallocated);
    }
  }

  lemma QuiescentSums(s: State)
    requires Inv(s) && Quiescent(s)
    ensures s.live == Sum(Sizes(s.blocks)) < WORD && s.totalAllocated - s.totalDeallocated == s.live
    ensures Wraps(s.totalAllocated, s.allocatedBytes) && Wraps(s.totalDeallocated, s.deallocatedBytes)
  {
    hide Sum, Wraps, PeakOk;
    assert Counts(s.blocks) == Sizes(s.blocks) by {
      assert forall b <- s.blocks :: HeldRight(b, s);
    }
    hide BlocksOk;
    SumZero(Debts(s.threads));
    CountsFit(s.blocks);
  }

  lemma WrappedDifference(a: nat, d: nat)
    requires 0 <= a - d < WORD
    ensures (a % WORD - d % WORD) % WORD == a - d
  {
    var x, y := a / WORD, d / WORD;
    assert a == x * WORD + a % WORD && d == y * WORD + d % WORD;
    assert a % WORD - d % WORD == (a - d) - (x - y) * WORD;
  }

  /** Only a reset ever lowers the peak. */
  lemma PeakOnlyGrows(actions: seq<Action>, action: Action)
    ensures var s := Run(START, actions);
      var resets := action.Continue? && PhaseOf(s, action.t).StorePeak?;
      if resets then Next(s, action).peak == PhaseOf(s, action.t).value else Next(s, action).peak >= s.peak
  {
    var s := Run(START, actions);
    RunHolds(actions);
    if action.Continue? && Updating(PhaseOf(s, action.t)) {
      UpdateKeeps(s, action.t, action.spurious);
    }
  }

  predicate IsMax(m: nat, s: set<nat>) {
    m in s && forall v <- s :: v <= m
  }

  /**
   With no update in flight the peak is the maximum of the reset value, of every live value
   published since, and of what the updates in flight at the reset were going to write.
   */
  lemma PeakIsMaximum(actions: seq<Action>)
    ensures var s := Run(START, actions); var w := s.window;
      (forall t <- s.threads :: !Updating(s.threads[t])) ==> IsMax(s.peak, {w.base} + w.published + w.carried)
  {
    var s := Run(START, actions);
    RunHolds(actions);
    if forall t <- s.threads :: !Updating(s.threads[t]) {
      hide Run, BlocksOk, CountersOk;
      MaximumNow(s);
    }
  }

  lemma MaximumNow(s: State)
    requires PeakOk(s) && forall t <- s.threads :: !Updating(s.threads[t])
    ensures IsMax(s.peak, {s.window.base} + s.window.published + s.window.carried)
  {
    forall v <- {s.window.base} + s.window.published + s.window.carried ensures v <= s.peak {
      if v != s.window.base {
        assert v in s.window.published + s.window.carried;
        assert !InFlight(s, v);
      }
    }
  }

  /** The peak speaks for its own window exactly when nothing carried over tops it. */
  lemma PeakIsWindowMaximum(actions: seq<Action>)
    ensures var s := Run(START, actions); var w := s.window;
      (forall t <- s.threads :: !Updating(s.threads[t])) ==>
        (IsMax(s.peak, {w.base} + w.published) <==>
         forall v <- w.carried :: exists x <- {w.base} + w.published :: v <= x)
  {
    PeakIsMaximum(actions);
    var s := Run(START, actions);
    if s.peak in s.window.carried {
      assert forall x <- {s.window.base} + s.window.published :: s.peak <= x ==> s.peak in {s.window.base} + s.window.published || x > s.peak;
    }
  }

  // ---------------------------------------------------------------- the peak and LIVE itself

  /** LIVE after the first `k` actions. */
  ghost function LiveAt(actions: seq<Action>, k: nat): nat
    requires k <= |actions|
  {
    Run(START, actions[..k]).live
  }

  ghost predicate Still(s: State) {
    forall t <- s.threads :: !Updating(s.threads[t])
  }

  /** The action stores the value that a reset has read. */
  ghost predicate Stores(s: State, action: Action) {
    action.Continue? && PhaseOf(s, action.t).StorePeak?
  }

  /**
   Thread `t` reads LIVE at action `r` and stores it at action `k`. In between it does nothing else,
   LIVE stays where it is, and no update is in flight when the value is stored.
   */
  ghost predicate QuietReset(actions: seq<Action>, t: Thread, r: nat, k: nat) {
    && r < k < |actions| && actions[r] == Reset(t) && PhaseOf(Run(START, actions[..r]), t) == Idle
    && actions[k].Continue? && actions[k].t == t && (forall j :: r < j < k ==> actions[j].t != t)
    && (forall j :: r <= j <= k ==> LiveAt(actions, j) == LiveAt(actions, r))
    && Still(Run(START, actions[..k]))
  }

  /** Nobody stores a reset value from action `k` up to action `n`. */
  ghost predicate NoReset(actions: seq<Action>, k: nat, n: nat)
    requires n <= |actions|
  {
    forall j :: k <= j < n ==> !Stores(Run(START, actions[..j]), actions[j])
  }

  lemma RunNext(actions: seq<Action>, k: nat)
    requires k < |actions|
    ensures Run(START, actions[..k + 1]) == Next(Run(START, actions[..k]), actions[k])
  {
    assert actions[..k + 1][..k] == actions[..k] && actions[..k + 1][k] == actions[k];
  }

  /** A reset in progress waits with the value it read. */
  lemma {:induction false} ResetWaits(actions: seq<Action>, t: Thread, r: nat, k: nat)
    requires r < k <= |actions| && actions[r] == Reset(t) && PhaseOf(Run(START, actions[..r]), t) == Idle
    requires forall j :: r < j < k ==> actions[j].t != t
    ensures PhaseOf(Run(START, actions[..k]), t) == StorePeak(LiveAt(actions, r))
    decreases k
  {
    hide Run;
    RunNext(actions, k - 1);
    if k == r + 1 {
    } else {
      ResetWaits(actions, t, r, k - 1);
      OthersWait(Run(START, actions[..k - 1]), actions[k - 1], t);
    }
  }

  /** A thread stands where it is while others move. */
  lemma OthersWait(s: State, action: Action, t: Thread)
    requires action.t != t
    ensures PhaseOf(Next(s, action), t) == PhaseOf(s, t)
  {
    hide Sum;
  }

  /** Every value was LIVE at some moment from `k` to `n`. */
  ghost predicate WereLive(actions: seq<Action>, k: nat, n: nat, values: set<nat>)
    requires n <= |actions|
  {
    forall v <- values :: exists j :: k <= j <= n && LiveAt(actions, j) == v
  }

  /** At every moment from `k` to `n` LIVE was no higher than one of the values. */
  ghost predicate CoverLive(actions: seq<Action>, k: nat, n: nat, values: set<nat>)
    requires n <= |actions|
  {
    forall j :: k <= j <= n ==> exists v <- values :: LiveAt(actions, j) <= v
  }

  /** What LIVE has been since the reset, as far as the window has seen it. */
  ghost predicate Seen(actions: seq<Action>, k: nat, n: nat)
    requires k <= n <= |actions|
  {
    var w := Run(START, actions[..n]).window;
    w.carried == {} && WereLive(actions, k, n, {w.base} + w.published) && CoverLive(actions, k, n, {w.base} + w.published)
  }

  lemma SeenAtReset(actions: seq<Action>, t: Thread, r: nat, k: nat)
    requires QuietReset(actions, t, r, k)
    ensures Seen(actions, k + 1, k + 1) && LiveAt(actions, k + 1) == LiveAt(actions, r)
  {
    hide Run;
    var s, u := Run(START, actions[..k]), Run(START, actions[..k + 1]);
    ResetWaits(actions, t, r, k);
    RunNext(actions, k);
    assert LiveAt(actions, k) == LiveAt(actions, r);
    assert u == Advance(s, t, actions[k].spurious) && u.live == s.live && u.window.base == s.live;
    assert forall x <- s.threads :: !Eager(s.threads[x]);
    assert u.window.carried == {} && u.window.published == {};
    assert LiveAt(actions, k + 1) == u.live && u.live in {u.window.base} + u.window.published;
  }

  lemma SeenNext(actions: seq<Action>, k: nat, n: nat)
    requires k <= n < |actions| && Seen(actions, k, n) && !Stores(Run(START, actions[..n]), actions[n])
    ensures Seen(actions, k, n + 1)
  {
    RunHolds(actions[..n]);
    RunNext(actions, n);
    hide Run, Next, Inv, Stores, LiveAt;
    var s, u := Run(START, actions[..n]), Run(START, actions[..n + 1]);
    LiveSteps(s, actions[n]);
    LiveAtIs(actions, n);
    LiveAtIs(actions, n + 1);
    var was, now := {s.window.base} + s.window.published, {u.window.base} + u.window.published;
    assert was <= now <= was + {u.live};
    WereLiveNext(actions, k, n, was, now);
    CoverLiveNext(actions, k, n, was, now);
  }

  lemma LiveAtIs(actions: seq<Action>, k: nat)
    requires k <= |actions|
    ensures LiveAt(actions, k) == Run(START, actions[..k]).live
  {
  }

  lemma WereLiveNext(actions: seq<Action>, k: nat, n: nat, was: set<nat>, now: set<nat>)
    requires k <= n < |actions| && WereLive(actions, k, n, was) && now <= was + {LiveAt(actions, n + 1)}
    ensures WereLive(actions, k, n + 1, now)
  {
    hide LiveAt;
    forall v <- now ensures exists j :: k <= j <= n + 1 && LiveAt(actions, j) == v {
      if v in was {
        var j :| k <= j <= n && LiveAt(actions, j) == v;
      }
    }
  }

  lemma CoverLiveNext(actions: seq<Action>, k: nat, n: nat, was: set<nat>, now: set<nat>)
    requires k <= n < |actions| && CoverLive(actions, k, n, was) && was <= now
    requires LiveAt(actions, n + 1) <= LiveAt(actions, n) || LiveAt(actions, n + 1) in now
    ensures CoverLive(actions, k, n + 1, now)
  {
    hide LiveAt;
    forall j | k <= j <= n + 1 ensures exists v <- now :: LiveAt(actions, j) <= v {
      var i := if j <= n then j else n;
      var v :| v in was && LiveAt(actions, i) <= v;
      assert v in now;
    }
  }

  /** LIVE rises only to values it publishes. */
  lemma LiveSteps(s: State, action: Action)
    requires Inv(s) && !Stores(s, action)
    ensures var u := Next(s, action);
      && u.window.base == s.window.base && u.window.carried == s.window.carried && s.window.published <= u.window.published
      && u.window.published <= s.window.published + {u.live}
      && (u.live > s.live ==> u.live in u.window.published)
  {
    hide Inv, Sum;
    if action.Continue? && PhaseOf(s, action.t).SubLive? {
      SubLiveKeeps(s, action.t, PhaseOf(s, action.t).b, PhaseOf(s, action.t).n, PhaseOf(s, action.t).free);
    }
  }

  lemma {:induction false} SeenUpTo(actions: seq<Action>, t: Thread, r: nat, k: nat, n: nat)
    requires QuietReset(actions, t, r, k) && k < n <= |actions| && NoReset(actions, k + 1, n)
    ensures Seen(actions, k + 1, n)
    decreases n
  {
    hide Seen, Run, QuietReset, LiveAt, Stores;
    if n == k + 1 {
      SeenAtReset(actions, t, r, k);
    } else {
      SeenUpTo(actions, t, r, k, n - 1);
      SeenNext(actions, k + 1, n - 1);
    }
  }

  /** The largest LIVE of the states after `k`, up to the `n`-th. */
  ghost predicate LargestLive(actions: seq<Action>, k: nat, n: nat, peak: nat)
    requires n <= |actions|
  {
    && (exists j :: k < j <= n && LiveAt(actions, j) == peak)
    && (forall j :: k < j <= n ==> LiveAt(actions, j) <= peak)
  }

  /**
   After a reset with nothing in flight, during which LIVE did not move, the peak is the largest
   LIVE since, whenever no update is in flight.
   */
  lemma PeakIsLargestLive(actions: seq<Action>, t: Thread, r: nat, k: nat)
    requires QuietReset(actions, t, r, k) && NoReset(actions, k + 1, |actions|)
    requires Still(Run(START, actions))
    ensures LargestLive(actions, k, |actions|, Run(START, actions).peak)
  {
    var n := |actions|;
    hide Run, Next, LiveAt, QuietReset, NoReset, Stores, WereLive, CoverLive, IsMax, LargestLive;
    QuietOrder(actions, t, r, k);
    assert actions[..n] == actions;
    SeenUpTo(actions, t, r, k, n);
    PeakIsMaximum(actions);
    var w := Run(START, actions).window;
    assert {w.base} + w.published + w.carried == {w.base} + w.published;
    MaxIsLargest(actions, k, n, {w.base} + w.published, Run(START, actions).peak);
  }

  lemma QuietOrder(actions: seq<Action>, t: Thread, r: nat, k: nat)
    requires QuietReset(actions, t, r, k)
    ensures r < k < |actions|
  {
  }

  lemma MaxIsLargest(actions: seq<Action>, k: nat, n: nat, values: set<nat>, peak: nat)
    requires n <= |actions| && WereLive(actions, k + 1, n, values) && CoverLive(actions, k + 1, n, values) && IsMax(peak, values)
    ensures LargestLive(actions, k, n, peak)
  {
    hide LiveAt;
    assert peak in values;
    forall j | k < j <= n ensures LiveAt(actions, j) <= peak {
      var v :| v in values && LiveAt(actions, j) <= v;
    }
  }

  /** A reset that stores an old value while an update is in flight leaves a peak nothing in the window published. */
  lemma CarriedPeak(t: Thread, resetter: Thread, b: BlockId)
    requires t != resetter
    ensures var s := Run(START, CarriedRun(t, resetter, b));
      s.threads == map[resetter := Idle, t := Idle] && s.peak == 5 && s.window == Window(0, {}, {5})
  {
    var run := CarriedRun(t, resetter, b);
    CarriedPrefix(t, resetter, b);
    CarriedReset(t, resetter, b);
    CarriedRaise(t, resetter, b);
    hide Run, Next;
    RunUnfolds(START, run[..4], run[4]);
    assert run[..4] + [run[4]] == run[..5];
    RunUnfolds(START, run[..5], run[5]);
    assert run[..5] + [run[5]] == run[..6];
    RunUnfolds(START, run[..6], run[6]);
    assert run[..6] + [run[6]] == run;
  }

  /** The update by `t` is in flight, and the reset has read a LIVE of 0. */
  function InFlightState(t: Thread, resetter: Thread, b: BlockId): State {
    State(5, 0, 5, 0, 5, 0, map[resetter := StorePeak(0), t := LoadPeak(b, 5)], map[b := Block(5, 5, By(t))], Window(0, {5}, {}))
  }

  function ResetState(t: Thread, resetter: Thread, b: BlockId): State {
    InFlightState(t, resetter, b).(threads := map[resetter := Idle, t := LoadPeak(b, 5)], window := Window(0, {}, {5}))
  }

  lemma CarriedReset(t: Thread, resetter: Thread, b: BlockId)
    requires t != resetter
    ensures Next(InFlightState(t, resetter, b), Continue(resetter, false)) == ResetState(t, resetter, b)
  {
    var s, u := InFlightState(t, resetter, b), ResetState(t, resetter, b);
    assert s.threads[resetter := Idle] == u.threads;
    assert (set r | r in s.threads && Eager(s.threads[r]) :: s.threads[r].live) == {5} by {
      assert Eager(s.threads[t]) && s.threads[t].live == 5;
    }
  }

  lemma CarriedRaise(t: Thread, resetter: Thread, b: BlockId)
    requires t != resetter
    ensures var s := Next(Next(ResetState(t, resetter, b), Continue(t, false)), Continue(t, false));
      s.threads == map[resetter := Idle, t := Idle] && s.peak == 5 && s.window == Window(0, {}, {5})
  {
    var s := Next(ResetState(t, resetter, b), Continue(t, false));
    assert PhaseOf(s, t) == RaisePeak(b, 5, 0);
  }

  function CarriedRun(t: Thread, resetter: Thread, b: BlockId): (run: seq<Action>) {
    [Reset(resetter), Alloc(t, b, 5), Continue(t, false), Continue(t, false),
     Continue(resetter, false), Continue(t, false), Continue(t, false)]
  }

  lemma CarriedPrefix(t: Thread, resetter: Thread, b: BlockId)
    requires t != resetter
    ensures Run(START, CarriedRun(t, resetter, b)[..4]) == InFlightState(t, resetter, b)
  {
    var run := CarriedRun(t, resetter, b);
    assert Run(START, run[..0]) == START;
    hide Run;
    RunUnfolds(START, run[..0], run[0]);
    assert run[..0] + [run[0]] == run[..1];
    RunUnfolds(START, run[..1], run[1]);
    assert run[..1] + [run[1]] == run[..2];
    assert Footprints(map[]) == map[];
    var s2 := Next(Run(START, run[..1]), run[1]);
    assert s2.threads == map[resetter := StorePeak(0), t := AddAllocated(b, 5)];
    RunUnfolds(START, run[..2], run[2]);
    assert run[..2] + [run[2]] == run[..3];
    RunUnfolds(START, run[..3], run[3]);
    assert run[..3] + [run[3]] == run[..4];
  }

  lemma RunUnfolds(s: State, actions: seq<Action>, action: Action)
    ensures Run(s, actions + [action]) == Next(Run(s, actions), action)
  {
    assert (actions + [action])[..|actions|] == actions;
  }
}
