/** Buffering time of `Telemetry` in examples/tui_perf_control.rs, in integer nanoseconds. */
module Buffering {
  import opened Text

  type Instant = nat

  /** What the recorder looks at in an event: `paused-for-cache`, `time-pos`, or neither. */
  datatype Value = PausedForCache(paused: bool) | TimePos(position: real) | Other

  datatype Event = Event(at: Instant, value: Value)

  // ---------------------------------------------------------------- meaning

  /** Whether the latest paused-for-cache value at the instant `t` is true. */
  predicate Stalled(events: seq<Event>, t: Instant) {
    if events == [] then false
    else
      var e := events[|events| - 1];
      if e.at <= t && e.value.PausedForCache? then e.value.paused else Stalled(events[..|events| - 1], t)
  }

  /** How many of the instants before `end` are stalled. */
  function StallTime(events: seq<Event>, end: Instant): nat {
    if end == 0 then 0 else StallTime(events, end - 1) + if Stalled(events, end - 1) then 1 else 0
  }

  /** How often before `cutoff` the value goes from false, or none, to true. */
  function RisingEdges(events: seq<Event>, cutoff: Instant): nat {
    if events == [] then 0
    else
      var before, e := events[..|events| - 1], events[|events| - 1];
      RisingEdges(before, cutoff) + if e.value == PausedForCache(true) && e.at < cutoff && !Stalled(before, e.at) then 1 else 0
  }

  /** The positions reported up to and including the cutoff. */
  function PositionsUpTo(events: seq<Event>, cutoff: Instant): seq<(Instant, real)> {
    if events == [] then []
    else
      var e := events[|events| - 1];
      PositionsUpTo(events[..|events| - 1], cutoff) + if e.value.TimePos? && e.at <= cutoff then [(e.at, e.value.position)] else []
  }

  predicate TimeOrdered(events: seq<Event>) {
    forall i, j :: 0 <= i < j < |events| ==> events[i].at <= events[j].at
  }

  function Latest(events: seq<Event>): Instant {
    if events == [] then 0 else events[|events| - 1].at
  }

  /** An event says nothing about the instants before it. */
  lemma {:induction false} StallTimeLocal(events: seq<Event>, e: Event, end: Instant)
    requires end <= e.at
    ensures StallTime(events + [e], end) == StallTime(events, end)
    decreases end
  {
    if end == 0 {
    } else {
      StallTimeLocal(events, e, end - 1);
      assert (events + [e])[..|events|] == events;
    }
  }

  /** After the last event nothing changes any more. */
  lemma {:induction false} StalledStays(events: seq<Event>, t: Instant, u: Instant)
    requires TimeOrdered(events) && Latest(events) <= t && Latest(events) <= u
    ensures Stalled(events, t) == Stalled(events, u)
  {
    if events == [] {
    } else {
      var before := events[..|events| - 1];
      if before != [] {
        assert before[|before| - 1].at <= events[|events| - 1].at;
      }
      StalledStays(before, t, u);
    }
  }

  lemma {:induction false} StallTimeAfter(events: seq<Event>, start: Instant, end: Instant)
    requires TimeOrdered(events) && Latest(events) <= start <= end
    ensures StallTime(events, end) == StallTime(events, start) + if Stalled(events, start) then end - start else 0
    decreases end
  {
    if end <= start {
    } else {
      StallTimeAfter(events, start, end - 1);
      StalledStays(events, start, end - 1);
    }
  }

  /** What has been added up, and what an open interval will add, is the stalled time so far. */
  predicate Sums(history: seq<Event>, cutoff: Instant, since: Option<Instant>, events: nat, total: nat) {
    var last := Latest(history);
    && TimeOrdered(history)
    && events == RisingEdges(history, cutoff)
    && (if last >= cutoff then since == None && total == StallTime(history, cutoff)
        else
          && (since.Some? <==> Stalled(history, last))
          && (since.Some? ==> since.value <= last)
          && total + (if since.Some? then last - since.value else 0) == StallTime(history, last))
  }

  lemma OrderedBefore(history: seq<Event>, e: Event)
    requires TimeOrdered(history + [e])
    ensures TimeOrdered(history) && Latest(history) <= e.at
  {
    var more := history + [e];
    assert forall i :: 0 <= i < |history| ==> more[i] == history[i];
    assert more[|history|] == e;
  }

  /** What one more event does to the stalled time up to it, and to the value after it. */
  lemma OneMoreEvent(history: seq<Event>, e: Event, cutoff: Instant, t: Instant)
    requires TimeOrdered(history) && Latest(history) <= t <= e.at
    ensures var more, last := history + [e], Latest(history);
      && TimeOrdered(more) && Latest(more) == e.at
      && StallTime(more, t) == StallTime(history, last) + (if Stalled(history, last) then t - last else 0)
      && Stalled(more, e.at) == (if e.value.PausedForCache? then e.value.paused else Stalled(history, last))
      && RisingEdges(more, cutoff) ==
           RisingEdges(history, cutoff) + if e.value == PausedForCache(true) && e.at < cutoff && !Stalled(history, last) then 1 else 0
  {
    var more, last := history + [e], Latest(history);
    assert more[..|history|] == history;
    StalledStays(history, last, e.at);
    StallTimeLocal(history, e, t);
    StallTimeAfter(history, last, t);
  }

  /** `total` is made up of at most `n` intervals, none longer than `longest`. */
  predicate Within(total: nat, n: int, longest: nat) {
    total <= n * longest
  }

  lemma OneMoreInterval(total: nat, n: nat, longest: nat, interval: nat)
    requires Within(total, n, longest) && interval <= longest
    ensures Within(total + interval, n + 1, longest)
  {
  }

  // ---------------------------------------------------------------- recorder

  class Telemetry {
    const cutoff: Instant
    var since: Option<Instant>
    var events: nat
    var total: nat
    var cutoffFirst: Option<(Instant, real)>
    var cutoffLast: Option<(Instant, real)>
    ghost var history: seq<Event>

    /** Two producers may record out of order; then only the bound on what was added up is promised. */
    ghost predicate Valid()
      reads this
    {
      && Bounded()
      && (TimeOrdered(history) ==> Sums(history, cutoff, since, events, total))
    }

    /** Every interval was opened by a counted edge before the cutoff, and none is longer than that. */
    ghost predicate Bounded()
      reads this
    {
      && (since.Some? ==> since.value < cutoff && 0 < events)
      && Within(total, if since.Some? then events - 1 else events, cutoff)
    }

    ghost predicate PositionsValid()
      reads this
    {
      var positions := PositionsUpTo(history, cutoff);
      if positions == [] then cutoffFirst == None && cutoffLast == None
      else cutoffFirst == Some(positions[0]) && cutoffLast == Some(positions[|positions| - 1])
    }

    constructor (cutoff: Instant)
      ensures Valid() && PositionsValid() && history == [] && this.cutoff == cutoff
    {
      this.cutoff := cutoff;
      since, events, total := None, 0, 0;
      cutoffFirst, cutoffLast := None, None;
      history := [];
    }

    method Record(e: Event)
      requires Valid() && PositionsValid()
      modifies this
      ensures Valid() && PositionsValid() && history == old(history) + [e]
    {
      hide Within, StallTime, RisingEdges, Stalled;
      if e.value.TimePos? {
        RecordTimePos(e.at, e.value.position);
      }
      RecordBuffering(e.at, e.value);
      history := history + [e];
      assert history[..|old(history)|] == old(history);
    }

    method RecordTimePos(observed: Instant, position: real)
      modifies this`cutoffFirst, this`cutoffLast
      ensures observed > cutoff ==> cutoffFirst == old(cutoffFirst) && cutoffLast == old(cutoffLast)
      ensures observed <= cutoff ==> cutoffLast == Some((observed, position))
      ensures observed <= cutoff ==> cutoffFirst == if old(cutoffFirst).Some? then old(cutoffFirst) else cutoffLast
    {
      if observed <= cutoff {
        if cutoffFirst.None? {
          cutoffFirst := Some((observed, position));
        }
        cutoffLast := Some((observed, position));
      }
    }

    method RecordBuffering(observed: Instant, value: Value)
      requires Valid()
      modifies this`since, this`events, this`total
      ensures Bounded()
      ensures var more := history + [Event(observed, value)]; TimeOrdered(more) ==> Sums(more, cutoff, since, events, total)
    {
      ghost var last, e := Latest(history), Event(observed, value);
      ghost var ordered := TimeOrdered(history + [e]);
      if ordered {
        OrderedBefore(history, e);
        OneMoreEvent(history, e, cutoff, if observed < cutoff then observed else if last < cutoff then cutoff else last);
        if last >= cutoff {
          StallTimeLocal(history, e, cutoff);
        }
      }
      hide Stalled, StallTime, RisingEdges, TimeOrdered, Within;
      if observed >= cutoff {
        CloseWithin(cutoff);
        FinishBuffering(cutoff);
      } else if value.PausedForCache? {
        if value.paused && since.None? {
          since := Some(observed);
          events := events + 1;
        } else if !value.paused && since.Some? {
          CloseWithin(observed);
          total := total + Since(observed, since.value);
          since := None;
        }
      }
    }

    /** Closing an open interval no later than the cutoff keeps the bound. */
    lemma CloseWithin(end: Instant)
      requires Bounded() && end <= cutoff
      ensures Within(total + (if since.Some? then Since(end, since.value) else 0), events, cutoff)
    {
      if since.Some? {
        OneMoreInterval(total, events - 1, cutoff, Since(end, since.value));
      }
    }

    /** `saturating_duration_since`. */
    static function Since(end: Instant, start: Instant): nat {
      if end < start then 0 else end - start
    }

    method FinishBuffering(end: Instant)
      modifies this`since, this`total
      ensures since == None
      ensures total == old(total) + if old(since).Some? then Since(end, old(since).value) else 0
    {
      if since.Some? {
        total := total + Since(end, since.value);
        since := None;
      }
    }

    /** The total is the stalled time before the cutoff, or before `now` if that is earlier. */
    method Finish(now: Instant)
      requires Valid()
      modifies this`since, this`total
      ensures TimeOrdered(history) && Latest(history) <= now ==>
        total == StallTime(history, if now < cutoff then now else cutoff) && events == RisingEdges(history, cutoff)
      ensures since == None && Within(total, events, cutoff)
    {
      if TimeOrdered(history) && Latest(history) <= now {
        StallTimeAfter(history, Latest(history), if now < cutoff then now else if Latest(history) < cutoff then cutoff else Latest(history));
      }
      hide Stalled, StallTime, RisingEdges, TimeOrdered, Within;
      CloseWithin(if now < cutoff then now else cutoff);
      FinishBuffering(if now < cutoff then now else cutoff);
    }
  }
}
