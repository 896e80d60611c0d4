/**
 The measured CPU mean of examples/tui_perf_sampler.rs: instants are nanoseconds since the start,
 percentages are exact, and each sample's value holds for the interval since the sample before.
 */
module CpuWindow {
  import opened Text

  type Instant = nat

  datatype RoleSample = RoleSample(cpu: real, rss: nat)

  /** What one round observed; the whole tree's sample is there in every round. */
  datatype Sample = Sample(elapsed: Instant, roles: map<string, RoleSample>, tree: RoleSample)

  function Of(s: Sample, role: string): Option<RoleSample> {
    if role == "tree" then Some(s.tree) else if role in s.roles then Some(s.roles[role]) else None
  }

  function Cpu(s: Sample, role: string): real {
    match Of(s, role)
    case None => 0.0
    case Some(r) => r.cpu
  }

  function Max(a: nat, b: nat): nat {
    if a < b then b else a
  }

  function Min(a: nat, b: nat): nat {
    if a < b then a else b
  }

  /** Length of the part of [`previous`, `observed`] inside the window. */
  function CpuIntervalOverlap(previous: Option<Instant>, observed: Instant, windowStart: Instant, windowEnd: Instant): (overlap: nat)
    ensures observed < windowStart ==> overlap == 0
    ensures overlap > 0 ==> overlap <= windowEnd - windowStart
  {
    match previous
    case None => 0
    case Some(p) =>
      var start, end := Max(p, windowStart), Min(observed, windowEnd);
      if end < start then 0 else end - start
  }

  // ---------------------------------------------------------------- meaning

  predicate TimeOrdered(samples: seq<Sample>) {
    forall i, j :: 0 <= i < j < |samples| ==> samples[i].elapsed <= samples[j].elapsed
  }

  /** The role's CPU value at the instant `t`: that of the sample ending the interval around it. */
  function At(samples: seq<Sample>, role: string, t: Instant): real {
    var n := |samples| - 1;
    if n < 1 then 0.0
    else if samples[n - 1].elapsed <= t < samples[n].elapsed then Cpu(samples[n], role)
    else At(samples[..n], role, t)
  }

  /** The sum of the values at the instants from `start` up to `end`. */
  function Area(samples: seq<Sample>, role: string, start: Instant, end: Instant): real {
    if end <= start then 0.0 else Area(samples, role, start, end - 1) + At(samples, role, end - 1)
  }

  lemma {:induction false} NothingAfterLast(samples: seq<Sample>, role: string, t: Instant)
    requires TimeOrdered(samples) && (samples != [] ==> samples[|samples| - 1].elapsed <= t)
    ensures At(samples, role, t) == 0.0
    decreases |samples|
  {
    var n := |samples| - 1;
    if n < 1 {
    } else {
      assert samples[n - 1].elapsed <= samples[n].elapsed;
      NothingAfterLast(samples[..n], role, t);
    }
  }

  lemma AtNext(samples: seq<Sample>, s: Sample, role: string, t: Instant)
    requires TimeOrdered(samples) && samples != [] && samples[|samples| - 1].elapsed <= s.elapsed
    ensures At(samples + [s], role, t) ==
      At(samples, role, t) + if samples[|samples| - 1].elapsed <= t < s.elapsed then Cpu(s, role) else 0.0
  {
    assert (samples + [s])[..|samples|] == samples;
    if samples[|samples| - 1].elapsed <= t {
      NothingAfterLast(samples, role, t);
    }
  }

  lemma OverlapNext(last: Instant, observed: Instant, start: Instant, end: Instant)
    requires start < end && last <= observed
    ensures CpuIntervalOverlap(Some(last), observed, start, end) ==
      CpuIntervalOverlap(Some(last), observed, start, end - 1) + if last <= end - 1 < observed then 1 else 0
  {
  }

  /** One more sample adds its value over the part of its interval inside the window. */
  lemma {:induction false} AreaNext(samples: seq<Sample>, s: Sample, role: string, start: Instant, end: Instant)
    requires TimeOrdered(samples) && samples != [] && samples[|samples| - 1].elapsed <= s.elapsed
    ensures Area(samples + [s], role, start, end) == Area(samples, role, start, end) +
      Times(Cpu(s, role), CpuIntervalOverlap(Some(samples[|samples| - 1].elapsed), s.elapsed, start, end))
    decreases end
  {
    var last := samples[|samples| - 1].elapsed;
    hide At, Cpu, TimeOrdered, Times;
    Distribute(Cpu(s, role), 0);
    if end <= start {
    } else {
      AreaNext(samples, s, role, start, end - 1);
      AtNext(samples, s, role, end - 1);
      OverlapNext(last, s.elapsed, start, end);
      hide CpuIntervalOverlap;
      Distribute(Cpu(s, role), CpuIntervalOverlap(Some(last), s.elapsed, start, end - 1));
    }
  }

  function Times(c: real, n: nat): real {
    c * n as real
  }

  lemma NoCpu(n: nat)
    ensures Times(0.0, n) == 0.0
  {
  }

  lemma Distribute(c: real, n: nat)
    ensures Times(c, n + 1) == Times(c, n) + c && Times(c, 0) == 0.0
  {
  }

  lemma {:induction false} AreaOfOne(s: Sample, role: string, start: Instant, end: Instant)
    ensures Area([], role, start, end) == Area([s], role, start, end) == 0.0
    decreases end
  {
    if end <= start {
    } else {
      AreaOfOne(s, role, start, end - 1);
    }
  }

  /** No sample taken inside or after the window is above `top`. */
  predicate Below(samples: seq<Sample>, role: string, start: Instant, top: real) {
    forall i :: 0 <= i < |samples| && samples[i].elapsed >= start ==> Cpu(samples[i], role) <= top
  }

  lemma {:induction false} AtBounded(samples: seq<Sample>, role: string, start: Instant, t: Instant, top: real)
    requires top >= 0.0 && Below(samples, role, start, top) && start <= t
    ensures At(samples, role, t) <= top
    decreases |samples|
  {
    var n := |samples| - 1;
    if n < 1 {
    } else {
      AtBounded(samples[..n], role, start, t, top);
    }
  }

  lemma {:induction false} AreaBounded(samples: seq<Sample>, role: string, start: Instant, end: Instant, top: real)
    requires top >= 0.0 && Below(samples, role, start, top) && start <= end
    ensures Area(samples, role, start, end) <= Times(top, end - start)
    decreases end
  {
    hide Times;
    Distribute(top, 0);
    if end <= start {
    } else {
      AreaBounded(samples, role, start, end - 1, top);
      AtBounded(samples, role, start, end - 1, top);
      Distribute(top, end - 1 - start);
    }
  }

  /** The mean over the window never exceeds the largest sample counted, whatever happened in warm-up. */
  lemma MeanBelowLargest(samples: seq<Sample>, role: string, warmup: Instant, duration: nat, top: real)
    requires duration > 0 && top >= 0.0 && Below(samples, role, warmup, top)
    ensures Area(samples, role, warmup, warmup + duration) / duration as real <= top
  {
    AreaBounded(samples, role, warmup, warmup + duration, top);
    Divide(Area(samples, role, warmup, warmup + duration), top, duration as real);
  }

  lemma Divide(a: real, b: real, d: real)
    requires d > 0.0 && a <= b * d
    ensures a / d <= b
  {
    assert (a / d) * d == a;
  }

  /** What one role's aggregate has after these samples. */
  predicate Tallied(samples: seq<Sample>, role: string, start: Instant, end: Instant, weighted: real, overlaps: nat) {
    && weighted == Area(samples, role, start, end)
    && (role == "tree" ==> overlaps == Covered(samples, start, end))
  }

  /** The part of the window between the first and the last sample. */
  function Covered(samples: seq<Sample>, start: Instant, end: Instant): nat {
    if samples == [] then 0 else CpuIntervalOverlap(Some(samples[0].elapsed), samples[|samples| - 1].elapsed, start, end)
  }

  function Previous(samples: seq<Sample>): Option<Instant> {
    if samples == [] then None else Some(samples[|samples| - 1].elapsed)
  }

  /** A sample that is skipped, in warm-up or without the role, contributes nothing. */
  lemma TalliedNext(samples: seq<Sample>, s: Sample, role: string, start: Instant, end: Instant, weighted: real, overlaps: nat)
    requires Tallied(samples, role, start, end, weighted, overlaps) && TimeOrdered(samples + [s])
    ensures var overlap := CpuIntervalOverlap(Previous(samples), s.elapsed, start, end);
      if s.elapsed >= start && Of(s, role).Some?
      then Tallied(samples + [s], role, start, end, weighted + Times(Cpu(s, role), overlap), overlaps + overlap)
      else Tallied(samples + [s], role, start, end, weighted, overlaps)
  {
    hide Area, Covered, CpuIntervalOverlap;
    AreaNextOrFirst(samples, s, role, start, end);
    CoveredNext(samples, s, start, end);
  }

  lemma AreaNextOrFirst(samples: seq<Sample>, s: Sample, role: string, start: Instant, end: Instant)
    requires TimeOrdered(samples + [s])
    ensures Area(samples + [s], role, start, end) ==
      Area(samples, role, start, end) + Times(Cpu(s, role), CpuIntervalOverlap(Previous(samples), s.elapsed, start, end))
    ensures s.elapsed < start || Of(s, role).None? ==> Area(samples + [s], role, start, end) == Area(samples, role, start, end)
  {
    hide Area, Times;
    Distribute(Cpu(s, role), 0);
    NoCpu(CpuIntervalOverlap(Previous(samples), s.elapsed, start, end));
    if samples == [] {
      AreaOfOne(s, role, start, end);
      assert samples + [s] == [s];
    } else {
      OrderedPrefix(samples, s);
      AreaNext(samples, s, role, start, end);
    }
  }

  lemma OrderedPrefix(samples: seq<Sample>, s: Sample)
    requires TimeOrdered(samples + [s])
    ensures TimeOrdered(samples) && forall i :: 0 <= i < |samples| ==> samples[i].elapsed <= s.elapsed
  {
    var all := samples + [s];
    forall i | 0 <= i < |samples| ensures samples[i].elapsed <= s.elapsed {
      assert all[i].elapsed <= all[|samples|].elapsed;
    }
    forall i, j | 0 <= i < j < |samples| ensures samples[i].elapsed <= samples[j].elapsed {
      assert all[i].elapsed <= all[j].elapsed;
    }
  }

  /** Consecutive overlaps add up. */
  lemma CoveredNext(samples: seq<Sample>, s: Sample, start: Instant, end: Instant)
    requires TimeOrdered(samples + [s])
    ensures Covered(samples + [s], start, end) ==
      Covered(samples, start, end) + CpuIntervalOverlap(Previous(samples), s.elapsed, start, end)
    ensures s.elapsed < start ==> Covered(samples + [s], start, end) == Covered(samples, start, end)
  {
    OrderedPrefix(samples, s);
    hide TimeOrdered;
    if samples != [] {
      assert (samples + [s])[0] == samples[0];
      assert samples[0].elapsed <= samples[|samples| - 1].elapsed by { FirstLast(samples); }
      Telescopes(samples[0].elapsed, samples[|samples| - 1].elapsed, s.elapsed, start, end);
    }
  }

  lemma FirstLast(samples: seq<Sample>)
    requires TimeOrdered(samples) && samples != []
    ensures samples[0].elapsed <= samples[|samples| - 1].elapsed
  {
  }

  lemma Telescopes(a: Instant, b: Instant, c: Instant, start: Instant, end: Instant)
    requires a <= b <= c
    ensures CpuIntervalOverlap(Some(a), c, start, end) ==
      CpuIntervalOverlap(Some(a), b, start, end) + CpuIntervalOverlap(Some(b), c, start, end)
  {
  }

  /** The samples after warm-up that have the role. */
  function Counted(samples: seq<Sample>, role: string, start: Instant): set<nat> {
    set i | 0 <= i < |samples| && samples[i].elapsed >= start && Of(samples[i], role).Some?
  }

  function RssSum(samples: seq<Sample>, role: string, start: Instant): nat {
    if samples == [] then 0
    else
      var n := |samples| - 1;
      RssSum(samples[..n], role, start) + if n in Counted(samples, role, start) then Of(samples[n], role).value.rss else 0
  }

  /** How many samples were pushed, and the sum and the largest of their resident sizes. */
  predicate Gauged(samples: seq<Sample>, role: string, start: Instant, count: nat, sum: nat, peak: nat) {
    count == |Counted(samples, role, start)| && sum == RssSum(samples, role, start) && Largest(samples, role, start, peak)
  }

  /** The largest resident size among the counted samples; 0 without any. */
  predicate Largest(samples: seq<Sample>, role: string, start: Instant, peak: nat) {
    && (forall i <- Counted(samples, role, start) :: Of(samples[i], role).value.rss <= peak)
    && (peak > 0 ==> exists i <- Counted(samples, role, start) :: Of(samples[i], role).value.rss == peak)
  }

  lemma CountedNext(samples: seq<Sample>, s: Sample, role: string, start: Instant)
    ensures Counted(samples + [s], role, start) ==
      Counted(samples, role, start) + if s.elapsed >= start && Of(s, role).Some? then {|samples|} else {}
  {
    assert forall i :: 0 <= i < |samples| ==> (samples + [s])[i] == samples[i];
  }

  lemma GaugedNext(samples: seq<Sample>, s: Sample, role: string, start: Instant, count: nat, sum: nat, peak: nat)
    requires Gauged(samples, role, start, count, sum, peak)
    ensures if s.elapsed >= start && Of(s, role).Some?
      then Gauged(samples + [s], role, start, count + 1, sum + Of(s, role).value.rss, Max(peak, Of(s, role).value.rss))
      else Gauged(samples + [s], role, start, count, sum, peak)
  {
    CountedNext(samples, s, role, start);
    RssSumNext(samples, s, role, start);
    PeakNext(samples, s, role, start, peak);
    hide Counted, Of, RssSum, Largest;
  }

  lemma RssSumNext(samples: seq<Sample>, s: Sample, role: string, start: Instant)
    ensures RssSum(samples + [s], role, start) ==
      RssSum(samples, role, start) + if s.elapsed >= start && Of(s, role).Some? then Of(s, role).value.rss else 0
  {
    assert (samples + [s])[..|samples|] == samples;
    CountedNext(samples, s, role, start);
    hide Of;
  }

  lemma PeakNext(samples: seq<Sample>, s: Sample, role: string, start: Instant, peak: nat)
    requires Largest(samples, role, start, peak)
    ensures Largest(samples + [s], role, start, if s.elapsed >= start && Of(s, role).Some? then Max(peak, Of(s, role).value.rss) else peak)
  {
    var more, counted := samples + [s], Counted(samples, role, start);
    CountedNext(samples, s, role, start);
    assert forall i <- counted :: i < |samples| && more[i] == samples[i];
    hide Counted, Of;
    if peak > 0 {
      var i :| i in counted && Of(samples[i], role).value.rss == peak;
      assert i in Counted(more, role, start) && more[i] == samples[i];
    }
  }

  // ---------------------------------------------------------------- sampling

  class Aggregate {
    var samples: nat
    var weighted: real
    var rssSum: nat
    var rssPeak: nat
    ghost var overlaps: nat

    constructor ()
      ensures samples == 0 && weighted == 0.0 && rssSum == 0 && rssPeak == 0 && overlaps == 0
    {
      samples, weighted, rssSum, rssPeak, overlaps := 0, 0.0, 0, 0, 0;
    }

    method Push(value: RoleSample, overlap: nat)
      modifies this
      ensures samples == old(samples) + 1 && weighted == old(weighted) + Times(value.cpu, overlap)
      ensures rssSum == old(rssSum) + value.rss && rssPeak == Max(old(rssPeak), value.rss)
      ensures overlaps == old(overlaps) + overlap
    {
      samples := samples + 1;
      weighted := weighted + Times(value.cpu, overlap);
      rssSum := rssSum + value.rss;
      rssPeak := Max(rssPeak, value.rss);
      overlaps := overlaps + overlap;
    }

    /** The fields are those of these samples. */
    ghost predicate Sums(taken: seq<Sample>, role: string, start: Instant, end: Instant)
      reads this
    {
      Tallied(taken, role, start, end, weighted, overlaps) && Gauged(taken, role, start, samples, rssSum, rssPeak)
    }

    /** The role's part in one more round. */
    method Observe(round: Sample, role: string, previous: Option<Instant>, warmup: Instant, deadline: Instant, ghost taken: seq<Sample>)
      requires Sums(taken, role, warmup, deadline) && previous == Previous(taken) && TimeOrdered(taken + [round])
      modifies this
      ensures Sums(taken + [round], role, warmup, deadline)
    {
      TalliedNext(taken, round, role, warmup, deadline, weighted, overlaps);
      GaugedNext(taken, round, role, warmup, samples, rssSum, rssPeak);
      hide Tallied, Gauged, Of, CpuIntervalOverlap, Times, Max, TimeOrdered;
      var overlap := CpuIntervalOverlap(previous, round.elapsed, warmup, deadline);
      if round.elapsed >= warmup {
        var sample := Of(round, role);
        if sample.Some? {
          Push(sample.value, overlap);
        }
      }
    }

    function MeanCpuPercent(window: nat): real
      requires window > 0
      reads this
    {
      weighted / window as real
    }
  }

  /**
   The rounds up to the first one at or after the deadline, as one role sees them. The mean is the
   average of the role's value over the instants of the window, and for the tree the overlaps add
   up to the part of the window between the first and the last sample.
   */
  method Measure(rounds: seq<Sample>, role: string, warmup: Instant, duration: nat) returns (aggregate: Aggregate, used: nat)
    requires TimeOrdered(rounds) && duration > 0
    ensures fresh(aggregate) && used <= |rounds|
    ensures used < |rounds| ==> used > 0 && rounds[used - 1].elapsed >= warmup + duration
    ensures forall i :: 0 <= i < used - 1 ==> rounds[i].elapsed < warmup + duration
    ensures aggregate.MeanCpuPercent(duration) == Area(rounds[..used], role, warmup, warmup + duration) / duration as real
    ensures role == "tree" ==> aggregate.overlaps == Covered(rounds[..used], warmup, warmup + duration)
    ensures Gauged(rounds[..used], role, warmup, aggregate.samples, aggregate.rssSum, aggregate.rssPeak)
  {
    aggregate := new Aggregate();
    var deadline := warmup + duration;
    var previous: Option<Instant> := None;
    used := 0;
    NothingSummed(aggregate, role, warmup, deadline);
    assert rounds[..0] == [];
    hide Area, Covered, Gauged, Previous, TimeOrdered;
    hide aggregate.Sums;
    while used < |rounds|
      invariant used <= |rounds| && fresh(aggregate) && previous == Previous(rounds[..used])
      invariant forall i :: 0 <= i < used ==> rounds[i].elapsed < deadline
      invariant aggregate.Sums(rounds[..used], role, warmup, deadline)
    {
      var round := rounds[used];
      NextRound(rounds, used);
      aggregate.Observe(round, role, previous, warmup, deadline, rounds[..used]);
      used := used + 1;
      previous := Some(round.elapsed);
      if round.elapsed >= deadline {
        break;
      }
    }
    SummedMean(rounds[..used], role, warmup, duration, aggregate);
  }

  lemma NextRound(rounds: seq<Sample>, n: nat)
    requires n < |rounds| && TimeOrdered(rounds)
    ensures rounds[..n + 1] == rounds[..n] + [rounds[n]] && TimeOrdered(rounds[..n + 1])
    ensures Previous(rounds[..n + 1]) == Some(rounds[n].elapsed)
  {
  }

  lemma SummedMean(taken: seq<Sample>, role: string, warmup: Instant, duration: nat, a: Aggregate)
    requires a.Sums(taken, role, warmup, warmup + duration) && duration > 0
    ensures a.MeanCpuPercent(duration) == Area(taken, role, warmup, warmup + duration) / duration as real
    ensures role == "tree" ==> a.overlaps == Covered(taken, warmup, warmup + duration)
    ensures Gauged(taken, role, warmup, a.samples, a.rssSum, a.rssPeak)
  {
  }

  lemma NothingSummed(a: Aggregate, role: string, start: Instant, end: Instant)
    requires a.weighted == 0.0 && a.overlaps == a.samples == a.rssSum == a.rssPeak == 0
    ensures a.Sums([], role, start, end)
  {
    NothingTallied(role, start, end);
    NothingGauged(role, start);
  }

  lemma NothingGauged(role: string, start: Instant)
    ensures Gauged([], role, start, 0, 0, 0)
  {
    assert Counted([], role, start) == {};
  }

  lemma NothingTallied(role: string, start: Instant, end: Instant)
    ensures Tallied([], role, start, end, 0.0, 0)
  {
    AreaOfOne(Sample(0, map[], RoleSample(0.0, 0)), role, start, end);
  }
}
