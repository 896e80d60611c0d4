/**
 The latest-only artwork actor of src/artwork.rs. Senders overwrite the watch slot at any time;
 the actor lets them run wherever it awaits.
 */
module Artwork {
  import opened Text

  datatype Quality = Standard | High | Original

  datatype Source = Remote(id: string, quality: Quality) | OpenSubsonic(cover: string, quality: Quality) | Local(path: string)

  datatype Request = Fetch(videoId: string, source: Source)

  /** `image` is whatever fetching and decoding came to. */
  datatype Outcome = Outcome(videoId: string, quality: Option<Quality>, image: Option<nat>)

  /** What the n-th fetch of the run comes to. */
  type Fetched = (nat, Source) -> Option<nat>

  /** The n-th result is the outcome of `r`; remote artwork needs a client. */
  predicate Answers(r: Request, o: Outcome, n: nat, fetched: Fetched, hasClient: bool) {
    && o.videoId == r.videoId
    && (o.quality.None? <==> r.source.Local?) && (o.quality.Some? ==> o.quality.value == r.source.quality)
    && (r.source.Remote? && !hasClient ==> o.image == None)
    && (!r.source.Remote? || hasClient ==> o.image == fetched(n, r.source))
  }

  /** A moment at which the actor has nothing to do: how much was sent, and what was processed last. */
  datatype Idle = Idle(sent: nat, last: Option<nat>)

  class Watch {
    var value: Option<Request>
    var version: nat
    var seen: nat
    var dropped: bool
    var queue: seq<Request>
    ghost var sent: seq<Request>
    ghost var borrowed: nat
    ghost var overwritten: set<nat>
    ghost const all: seq<Request>

    /** The slot holds the last request sent; a request is overwritten if it was replaced before it was borrowed. */
    ghost predicate Valid()
      reads this
    {
      && version == |sent| && borrowed <= seen <= version && all == sent + queue
      && value == (if version == 0 then None else Some(sent[version - 1]))
      && (dropped ==> queue == [])
      && (forall k <- overwritten :: k + 1 < version)
      && (forall k :: borrowed <= k && k + 1 < version ==> k in overwritten)
    }

    constructor (requests: seq<Request>)
      ensures Valid() && version == 0 && borrowed == 0 && overwritten == {} && all == requests && !dropped
    {
      value, version, seen, dropped, queue := None, 0, 0, false, requests;
      sent, borrowed, overwritten, all := [], 0, {}, requests;
    }

    /** `fetch` of the next request, replacing whatever the slot holds. */
    method Fetch()
      requires Valid() && queue != []
      modifies this
      ensures Valid() && version == old(version) + 1 && seen == old(seen) && borrowed == old(borrowed) && dropped == old(dropped)
      ensures overwritten == old(overwritten) + if borrowed < old(version) then {old(version) - 1} else {}
    {
      if borrowed < version {
        overwritten := overwritten + {version - 1};
      }
      value := Some(queue[0]);
      version := version + 1;
      sent := sent + [queue[0]];
      queue := queue[1..];
    }

    /** Any number of requests, and at the end the senders going away. */
    method Senders()
      requires Valid()
      modifies this
      ensures Valid() && seen == old(seen) && borrowed == old(borrowed) && version >= old(version)
      ensures Grown(old(overwritten))
    {
      var more: nat := *;
      while more > 0 && queue != []
        invariant Valid() && seen == old(seen) && borrowed == old(borrowed) && version >= old(version)
        invariant Grown(old(overwritten))
        decreases more
      {
        more := more - 1;
        Fetch();
      }
      var gone: bool := *;
      if gone && queue == [] {
        dropped := true;
      }
    }

    /** Only requests not borrowed yet were added. */
    ghost predicate Grown(was: set<nat>)
      reads this
    {
      was <= overwritten && forall k :: k in overwritten ==> k in was || borrowed <= k
    }

    /** Succeeds while a value is unseen, even without senders; otherwise waits for a value or their end. */
    method Changed() returns (ok: bool, ghost waits: seq<nat>)
      requires Valid()
      modifies this
      ensures Valid() && borrowed == old(borrowed) && Grown(old(overwritten))
      ensures ok ==> old(seen) < seen
      ensures !ok ==> dropped && seen == version == old(seen)
      ensures forall v <- waits :: v == old(seen)
    {
      Senders();
      waits := [];
      while seen == version && !dropped
        invariant Valid() && seen == old(seen) && borrowed == old(borrowed) && Grown(old(overwritten))
        invariant forall v <- waits :: v == old(seen)
        decreases |queue|, !dropped
      {
        waits := waits + [version];
        if queue == [] {
          dropped := true;
        } else {
          Fetch();
          Senders();
        }
      }
      ok := seen < version;
      seen := version;
    }

    method BorrowAndUpdate() returns (r: Option<Request>)
      requires Valid()
      modifies this
      ensures Valid() && r == value && seen == borrowed == version == old(version)
      ensures overwritten == old(overwritten)
    {
      r := value;
      seen := version;
      borrowed := version;
    }
  }

  predicate Caught(idle: seq<Idle>) {
    forall i :: 0 <= i < |idle| && idle[i].sent > 0 ==> idle[i].last == Some(idle[i].sent - 1)
  }

  function Last(picked: seq<nat>): Option<nat> {
    if picked == [] then None else Some(picked[|picked| - 1])
  }

  function Waited(waits: seq<nat>, last: Option<nat>): (idle: seq<Idle>)
    ensures |idle| == |waits| && forall i :: 0 <= i < |waits| ==> idle[i] == Idle(waits[i], last)
  {
    if waits == [] then [] else [Idle(waits[0], last)] + Waited(waits[1..], last)
  }

  lemma CaughtGrows(idle: seq<Idle>, waits: seq<nat>, last: Option<nat>, version: nat)
    requires Caught(idle) && (version > 0 ==> last == Some(version - 1)) && forall v <- waits :: v == version
    ensures Caught(idle + Waited(waits, last))
  {
    var more := Waited(waits, last);
    forall i | 0 <= i < |more| ensures more[i].sent == version {
      assert waits[i] in waits;
    }
  }

  /** Of the requests borrowed so far, each was processed, in order, unless it was overwritten. */
  predicate Served(all: seq<Request>, borrowed: nat, overwritten: set<nat>, results: seq<Outcome>, picked: seq<nat>,
                   fetched: Fetched, hasClient: bool) {
    && |results| == |picked| && Increasing(picked) && borrowed <= |all|
    && (forall i :: 0 <= i < |picked| ==> picked[i] < borrowed && Answers(all[picked[i]], results[i], i, fetched, hasClient))
    && (forall k :: 0 <= k < borrowed ==> (k in picked <==> k !in overwritten))
    && Last(picked) == if borrowed == 0 then None else Some(borrowed - 1)
  }

  lemma ServedNext(all: seq<Request>, borrowed: nat, was: set<nat>, version: nat, now: set<nat>,
                   results: seq<Outcome>, picked: seq<nat>, o: Outcome, fetched: Fetched, hasClient: bool)
    requires Served(all, borrowed, was, results, picked, fetched, hasClient) && borrowed < version <= |all|
    requires was <= now && forall k :: k in now ==> k in was || borrowed <= k
    requires forall k :: borrowed <= k < version ==> (k in now <==> k + 1 < version)
    requires Answers(all[version - 1], o, |results|, fetched, hasClient)
    ensures Served(all, version, now, results + [o], picked + [version - 1], fetched, hasClient)
  {
    var more := picked + [version - 1];
    assert forall j <- picked :: j < borrowed;
    forall k | 0 <= k < version ensures k in more <==> k !in now {
      assert k in more <==> k in picked || k == version - 1;
    }
  }

  lemma ServedStays(all: seq<Request>, borrowed: nat, was: set<nat>, now: set<nat>,
                    results: seq<Outcome>, picked: seq<nat>, fetched: Fetched, hasClient: bool)
    requires Served(all, borrowed, was, results, picked, fetched, hasClient)
    requires was <= now && forall k :: k in now ==> k in was || borrowed <= k
    ensures Served(all, borrowed, now, results, picked, fetched, hasClient)
  {
  }

  /**
   Processes requests in the order sent, each once unless it was replaced before the actor took it.
   Whenever the actor waits, and when it ends, its last result is for the last request sent.
   */
  method RunActor(watch: Watch, fetched: Fetched, hasClient: bool) returns (results: seq<Outcome>, ghost picked: seq<nat>, ghost idle: seq<Idle>)
    requires watch.Valid() && watch.version == watch.seen == watch.borrowed == 0 && watch.overwritten == {}
    modifies watch
    ensures |results| == |picked| && Increasing(picked) && Caught(idle)
    ensures forall i :: 0 <= i < |picked| ==> picked[i] < |watch.all| && Answers(watch.all[picked[i]], results[i], i, fetched, hasClient)
    ensures forall k :: 0 <= k < |watch.all| ==> (k in picked <==> k !in watch.overwritten)
    ensures Last(picked) == if watch.all == [] then None else Some(|watch.all| - 1)
  {
    results, picked, idle := [], [], [];
    assert Caught(idle);
    hide Caught;
    while true
      invariant watch.Valid() && watch.seen == watch.borrowed && Caught(idle)
      invariant Served(watch.all, watch.borrowed, watch.overwritten, results, picked, fetched, hasClient)
      decreases |watch.all| - watch.seen
    {
      ghost var from, was := watch.borrowed, watch.overwritten;
      var ok, waits := watch.Changed();
      CaughtGrows(idle, waits, Last(picked), from);
      idle := idle + Waited(waits, Last(picked));
      if !ok {
        ServedStays(watch.all, from, was, watch.overwritten, results, picked, fetched, hasClient);
        return;
      }
      watch.Senders();
      ghost var now := watch.overwritten;
      var next := watch.BorrowAndUpdate();
      ghost var version := watch.version;
      watch.Senders();
      match next {
        case None =>
        case Some(request) =>
          var image := if request.source.Remote? && !hasClient then None else fetched(|results|, request.source);
          var o := Outcome(request.videoId, if request.source.Local? then None else Some(request.source.quality), image);
          ServedNext(watch.all, from, was, version, now, results, picked, o, fetched, hasClient);
          results := results + [o];
          picked := picked + [version - 1];
          ServedStays(watch.all, version, now, watch.overwritten, results, picked, fetched, hasClient);
      }
    }
  }
}
