/**
 The newline-framed IPC client of scripts/probe-mpv-032.py. The peer sends any bytes in any
 chunks, timeouts fall anywhere, and the stream may end or fail.
 */
module IpcClient {
  import opened Text

  type Byte = b: int | 0 <= b < 256

  type Bytes = seq<Byte>

  const NEWLINE: Byte := 10
  const MAX_LINE: nat := 1024 * 1024
  const CHUNK: nat := 64 * 1024

  /** What a line decodes to; an item keeps its `request_id` inside. */
  datatype Decoded = Invalid | NonObject | Object(item: nat)

  datatype Received = Line(line: Bytes) | Closed | TimedOut | TooLong | Failed

  datatype Outcome = Waiting | Reply(item: nat) | LineTooLong | BadJson | NotAnObject

  /** What goes wrong outside the client. */
  datatype Fault = WriteRefused | ReadBroken | StreamEnded | ProcessExited

  datatype Error = SendFailed | Timeout | Exited | StreamClosed | ReadFailed | Refused(outcome: Outcome)

  // ---------------------------------------------------------------- the byte stream's meaning

  predicate NoNewline(s: Bytes) {
    forall i :: 0 <= i < |s| ==> s[i] != NEWLINE
  }

  /** One newline, at the end. */
  predicate Whole(line: Bytes) {
    line != [] && line[|line| - 1] == NEWLINE && forall i :: 0 <= i < |line| - 1 ==> line[i] != NEWLINE
  }

  /** The position of the first newline, or the length. */
  function Newline(s: Bytes): (n: nat)
    ensures n <= |s| && (n < |s| ==> Whole(s[..n + 1])) && (n == |s| ==> NoNewline(s))
  {
    if s == [] || s[0] == NEWLINE then 0 else 1 + Newline(s[1..])
  }

  lemma NewlineAt(line: Bytes, rest: Bytes)
    requires Whole(line)
    ensures Newline(line + rest) == |line| - 1
    ensures (line + rest)[..|line|] == line && (line + rest)[|line|..] == rest
  {
    var s := line + rest;
    var n := Newline(s);
    assert s[|line| - 1] == NEWLINE;
    assert n < |s| ==> s[..n + 1][n] == NEWLINE && s[n] == NEWLINE;
  }

  /** The outcome of a request, the other items in order, and the bytes after the last line used. */
  datatype Service = Service(outcome: Outcome, events: seq<nat>, rest: Bytes)

  function Then(event: nat, s: Service): Service {
    s.(events := [event] + s.events)
  }

  /** What a stream of bytes answers to the request `id`, however it was cut. */
  function Serve(s: Bytes, decode: Bytes -> Decoded, answers: (nat, nat) -> bool, id: nat): Service
    decreases |s|
  {
    var n := Newline(s);
    if n == |s| then Service(if |s| > MAX_LINE then LineTooLong else Waiting, [], s)
    else
      var line, rest := s[..n + 1], s[n + 1..];
      if |line| > MAX_LINE then Service(LineTooLong, [], rest)
      else
        match decode(line)
        case Invalid => Service(BadJson, [], rest)
        case NonObject => Service(NotAnObject, [], rest)
        case Object(item) =>
          if answers(item, id) then Service(Reply(item), [], rest) else Then(item, Serve(rest, decode, answers, id))
  }

  /** Once the bytes decide the outcome, more bytes change neither it nor the events before it. */
  lemma {:induction false} ServeIsStable(s: Bytes, more: Bytes, decode: Bytes -> Decoded, answers: (nat, nat) -> bool, id: nat)
    requires Serve(s, decode, answers, id).outcome != Waiting
    ensures Serve(s + more, decode, answers, id).outcome == Serve(s, decode, answers, id).outcome
    ensures Serve(s + more, decode, answers, id).events == Serve(s, decode, answers, id).events
    decreases |s|
  {
    hide Serve, Whole, NoNewline;
    var n := Newline(s);
    if n == |s| {
      ServePart(s, more, decode, answers, id);
    } else {
      var line, rest := s[..n + 1], s[n + 1..];
      assert s == line + rest && s + more == line + (rest + more);
      ServeLine(line, rest, decode, answers, id);
      ServeLine(line, rest + more, decode, answers, id);
      if |line| <= MAX_LINE && decode(line).Object? && !answers(decode(line).item, id) {
        ServeIsStable(rest, more, decode, answers, id);
      }
    }
  }

  /** Part of a line decides nothing, unless it is too long already. */
  lemma ServePart(s: Bytes, more: Bytes, decode: Bytes -> Decoded, answers: (nat, nat) -> bool, id: nat)
    requires NoNewline(s) && Newline(s) == |s| && Serve(s, decode, answers, id).outcome != Waiting
    ensures Serve(s + more, decode, answers, id).outcome == Serve(s, decode, answers, id).outcome
    ensures Serve(s + more, decode, answers, id).events == Serve(s, decode, answers, id).events
  {
    assert Serve(s, decode, answers, id) == Service(LineTooLong, [], s);
    assert forall i :: 0 <= i < |s| ==> (s + more)[i] == s[i];
    hide Serve;
    ServeLong(s + more, |s|, decode, answers, id);
  }

  lemma ServeLong(t: Bytes, n: nat, decode: Bytes -> Decoded, answers: (nat, nat) -> bool, id: nat)
    requires MAX_LINE < n <= |t| && forall i :: 0 <= i < n ==> t[i] != NEWLINE
    ensures Serve(t, decode, answers, id).outcome == LineTooLong && Serve(t, decode, answers, id).events == []
  {
    var m := Newline(t);
    assert m < |t| ==> t[..m + 1][m] == t[m];
  }

  /** A request served from a stream that starts with a whole line. */
  lemma ServeLine(line: Bytes, rest: Bytes, decode: Bytes -> Decoded, answers: (nat, nat) -> bool, id: nat)
    requires Whole(line)
    ensures Serve(line + rest, decode, answers, id) ==
      if |line| > MAX_LINE then Service(LineTooLong, [], rest)
      else
        match decode(line)
        case Invalid => Service(BadJson, [], rest)
        case NonObject => Service(NotAnObject, [], rest)
        case Object(item) =>
          if answers(item, id) then Service(Reply(item), [], rest) else Then(item, Serve(rest, decode, answers, id))
  {
    NewlineAt(line, rest);
  }

  /** Two clients that read the same stream, however chunked and delayed, never disagree once decided. */
  lemma ChunkingDoesNotMatter(stream: Bytes, a: nat, b: nat, decode: Bytes -> Decoded, answers: (nat, nat) -> bool, id: nat)
    requires a <= |stream| && b <= |stream|
    requires Serve(stream[..a], decode, answers, id).outcome != Waiting
    requires Serve(stream[..b], decode, answers, id).outcome != Waiting
    ensures Serve(stream[..a], decode, answers, id).outcome == Serve(stream[..b], decode, answers, id).outcome
    ensures Serve(stream[..a], decode, answers, id).events == Serve(stream[..b], decode, answers, id).events
  {
    hide Serve;
    ServeIsStable(stream[..a], stream[a..], decode, answers, id);
    ServeIsStable(stream[..b], stream[b..], decode, answers, id);
    assert stream[..a] + stream[a..] == stream == stream[..b] + stream[b..];
  }

  // ---------------------------------------------------------------- transport

  function Joined(lines: seq<Bytes>): Bytes {
    if lines == [] then [] else Joined(lines[..|lines| - 1]) + lines[|lines| - 1]
  }

  class Transport {
    var pending: Bytes
    var closed: bool
    ghost var received: Bytes
    ghost var lines: seq<Bytes>
    ghost var wire: Bytes
    /** How often a line was waited for, and what went wrong outside. */
    ghost var waits: nat
    ghost var faults: seq<Fault>

    /** Nothing is lost or duplicated: the lines handed out and the buffer are what was received. */
    ghost predicate Valid()
      reads `received, `lines, `pending
    {
      received == Joined(lines) + pending && forall i :: 0 <= i < |lines| ==> Whole(lines[i])
    }

    constructor ()
      ensures Valid() && received == [] && lines == [] && wire == [] && !closed && waits == 0 && faults == []
    {
      pending, closed, received, lines, wire, waits, faults := [], false, [], [], [], 0, [];
    }

    /** The next line of the stream, once it is complete; every other result leaves the bytes buffered. */
    method ReceiveLine() returns (r: Received, ghost arrived: Bytes)
      requires Valid()
      modifies this`pending, this`received, this`lines, this`waits, this`faults
      ensures Valid() && received == old(received) + arrived
      ensures waits == old(waits) + 1
      ensures faults == old(faults) + if r.Closed? then [StreamEnded] else if r.Failed? then [ReadBroken] else []
      ensures old(pending) + arrived == (if r.Line? then r.line else []) + pending
      ensures r.Line? ==> lines == old(lines) + [r.line] && Whole(r.line)
      ensures !r.Line? ==> lines == old(lines)
      ensures r.TooLong? ==> |pending| > MAX_LINE && NoNewline(pending)
      ensures r.TimedOut? || r.Closed? || r.Failed? ==> |pending| <= MAX_LINE && NoNewline(pending)
    {
      hide Whole, NoNewline, Joined, Valid;
      arrived := [];
      waits := waits + 1;
      assert faults + [] == faults;
      while true
        invariant Valid() && lines == old(lines) && waits == old(waits) + 1 && faults == old(faults)
        invariant received == old(received) + arrived && pending == old(pending) + arrived
        invariant |pending| <= |old(pending)| || |pending| <= MAX_LINE + CHUNK
        decreases |old(pending)| + MAX_LINE + CHUNK - |pending|
      {
        var n := Newline(pending);
        if n < |pending| {
          var line := TakeLine(n);
          return Line(line), arrived;
        }
        if |pending| > MAX_LINE {
          return TooLong, arrived;
        }
        var late: bool := *;
        var broken: bool := *;
        var chunk: Bytes := *;
        if late {
          return TimedOut, arrived;
        }
        if broken {
          faults := faults + [ReadBroken];
          return Failed, arrived;
        }
        if chunk == [] || |chunk| > CHUNK {
          faults := faults + [StreamEnded];
          return Closed, arrived;
        }
        assert old(pending) + (arrived + chunk) == pending + chunk && old(received) + (arrived + chunk) == received + chunk;
        TakeChunk(chunk);
        arrived := arrived + chunk;
      }
    }

    method TakeChunk(chunk: Bytes)
      requires Valid()
      modifies this`pending, this`received
      ensures Valid() && pending == old(pending) + chunk && received == old(received) + chunk
    {
      assert Joined(lines) + (pending + chunk) == (Joined(lines) + pending) + chunk;
      pending := pending + chunk;
      received := received + chunk;
    }

    method TakeLine(n: nat) returns (line: Bytes)
      requires Valid() && n < |pending| && Whole(pending[..n + 1])
      modifies this`pending, this`lines
      ensures Valid() && Whole(line) && line + pending == old(pending) && lines == old(lines) + [line]
    {
      line := pending[..n + 1];
      pending := pending[n + 1..];
      lines := lines + [line];
      assert lines[..|lines| - 1] == old(lines);
      assert line + pending == old(pending);
      assert Joined(old(lines)) + (line + pending) == Joined(lines) + pending;
    }

    /** Writes in any number of pieces: everything in order, or a prefix and an error. */
    method SendLine(payload: Bytes) returns (ok: bool)
      requires Valid()
      modifies this`wire, this`faults
      ensures ok ==> wire == old(wire) + payload && faults == old(faults)
      ensures !ok ==> closed || faults == old(faults) + [WriteRefused]
      ensures !ok ==> exists k :: 0 <= k <= |payload| && wire == old(wire) + payload[..k]
    {
      assert wire == old(wire) + payload[..0];
      if closed {
        return false;
      }
      var offset: nat := 0;
      while offset < |payload|
        invariant 0 <= offset <= |payload| && wire == old(wire) + payload[..offset] && faults == old(faults)
      {
        var written: int := *;
        var broken: bool := *;
        if broken || written <= 0 || written > |payload| - offset {
          faults := faults + [WriteRefused];
          return false;
        }
        wire := wire + payload[offset..offset + written];
        assert payload[..offset] + payload[offset..offset + written] == payload[..offset + written];
        offset := offset + written;
      }
      assert offset == |payload| && payload[..offset] == payload;
      ok := true;
    }
  }

  // ---------------------------------------------------------------- client

  /** Whole lines that hold items other than the answer to `id`. */
  predicate Skipped(lines: seq<Bytes>, items: seq<nat>, decode: Bytes -> Decoded, answers: (nat, nat) -> bool, id: nat) {
    && |lines| == |items|
    && forall i :: 0 <= i < |lines| ==>
         Whole(lines[i]) && |lines[i]| <= MAX_LINE && decode(lines[i]) == Object(items[i]) && !answers(items[i], id)
  }

  function After(items: seq<nat>, s: Service): Service {
    s.(events := items + s.events)
  }

  /** Skipped lines only put their items before whatever the rest answers. */
  lemma {:induction false} SkippedServe(lines: seq<Bytes>, items: seq<nat>, rest: Bytes, decode: Bytes -> Decoded, answers: (nat, nat) -> bool, id: nat)
    requires Skipped(lines, items, decode, answers, id)
    ensures Serve(Joined(lines) + rest, decode, answers, id) == After(items, Serve(rest, decode, answers, id))
    decreases |lines|
  {
    if lines == [] {
      assert Joined(lines) + rest == rest && items + Serve(rest, decode, answers, id).events == Serve(rest, decode, answers, id).events;
    } else {
      var n := |lines| - 1;
      SkippedServe(lines[..n], items[..n], lines[n] + rest, decode, answers, id);
      ServeLine(lines[n], rest, decode, answers, id);
      hide Serve, Whole;
      JoinedSplit(lines, rest);
      AfterThen(items, Serve(rest, decode, answers, id));
    }
  }

  lemma JoinedSplit(lines: seq<Bytes>, rest: Bytes)
    requires lines != []
    ensures var n := |lines| - 1; Joined(lines) + rest == Joined(lines[..n]) + (lines[n] + rest)
  {
  }

  lemma AfterThen(items: seq<nat>, s: Service)
    requires items != []
    ensures var n := |items| - 1; After(items[..n], Then(items[n], s)) == After(items, s)
  {
    var n := |items| - 1;
    assert items[..n] + ([items[n]] + s.events) == items + s.events;
  }

  lemma SkipNone(decode: Bytes -> Decoded, answers: (nat, nat) -> bool, id: nat, rest: Bytes)
    ensures Skipped([], [], decode, answers, id) && Joined([]) + rest == rest
  {
  }

  lemma SkipOne(lines: seq<Bytes>, items: seq<nat>, line: Bytes, item: nat, decode: Bytes -> Decoded, answers: (nat, nat) -> bool, id: nat)
    requires Skipped(lines, items, decode, answers, id)
    requires Whole(line) && |line| <= MAX_LINE && decode(line) == Object(item) && !answers(item, id)
    ensures Skipped(lines + [line], items + [item], decode, answers, id) && Joined(lines + [line]) == Joined(lines) + line
  {
    assert (lines + [line])[..|lines|] == lines;
  }

  /** The line after the skipped ones settles the request, unless it is one more to skip. */
  lemma LineSettles(stream: Bytes, lines: seq<Bytes>, items: seq<nat>, line: Bytes, rest: Bytes,
                    decode: Bytes -> Decoded, answers: (nat, nat) -> bool, id: nat)
    requires Skipped(lines, items, decode, answers, id) && Whole(line) && stream == Joined(lines) + (line + rest)
    ensures var s := Serve(stream, decode, answers, id);
      if |line| > MAX_LINE then s == Service(LineTooLong, items, rest)
      else
        match decode(line)
        case Invalid => s == Service(BadJson, items, rest)
        case NonObject => s == Service(NotAnObject, items, rest)
        case Object(item) => answers(item, id) ==> s == Service(Reply(item), items, rest)
  {
    SkippedServe(lines, items, line + rest, decode, answers, id);
    ServeLine(line, rest, decode, answers, id);
    assert items + [] == items;
  }

  lemma LongSettles(stream: Bytes, lines: seq<Bytes>, items: seq<nat>, rest: Bytes, decode: Bytes -> Decoded, answers: (nat, nat) -> bool, id: nat)
    requires Skipped(lines, items, decode, answers, id) && stream == Joined(lines) + rest
    requires NoNewline(rest) && |rest| > MAX_LINE
    ensures var s := Serve(stream, decode, answers, id); s.outcome == LineTooLong && s.events == items
  {
    SkippedServe(lines, items, rest, decode, answers, id);
    assert items + [] == items;
    ServeLong(rest, |rest|, decode, answers, id);
  }

  // ---------------------------------------------------------------- a whole session

  /** What becomes of a line that is handed out while request `id` waits. */
  datatype Fate = Stored(item: nat) | Answers(item: nat) | Unusable

  function FateOf(line: Bytes, id: nat, decode: Bytes -> Decoded, answers: (nat, nat) -> bool): Fate {
    if |line| > MAX_LINE || !decode(line).Object? then Unusable
    else if answers(decode(line).item, id) then Answers(decode(line).item)
    else Stored(decode(line).item)
  }

  /** The items that are stored, of lines each handed out while the request of that index waits. */
  function StoredItems(lines: seq<Bytes>, ids: seq<nat>, decode: Bytes -> Decoded, answers: (nat, nat) -> bool): seq<nat>
    requires |ids| == |lines|
  {
    if lines == [] then []
    else
      var n := |lines| - 1;
      var fate := FateOf(lines[n], ids[n], decode, answers);
      StoredItems(lines[..n], ids[..n], decode, answers) + if fate.Stored? then [fate.item] else []
  }

  /** The requests that are answered, and their answers. */
  function AnswersTo(lines: seq<Bytes>, ids: seq<nat>, decode: Bytes -> Decoded, answers: (nat, nat) -> bool): seq<(nat, nat)>
    requires |ids| == |lines|
  {
    if lines == [] then []
    else
      var n := |lines| - 1;
      var fate := FateOf(lines[n], ids[n], decode, answers);
      AnswersTo(lines[..n], ids[..n], decode, answers) + if fate.Answers? then [(ids[n], fate.item)] else []
  }

  /** One entry a request at most, in the order of requests, none later than `last`. */
  predicate InOrder(replies: seq<(nat, nat)>, last: nat) {
    && (forall i :: 0 <= i < |replies| ==> replies[i].0 <= last)
    && (forall i, j :: 0 <= i < j < |replies| ==> replies[i].0 < replies[j].0)
  }

  /** Every line of a session has become an event, an answer, or the end of its request. */
  predicate Accounts(lines: seq<Bytes>, ids: seq<nat>, events: seq<nat>, replies: seq<(nat, nat)>,
                     decode: Bytes -> Decoded, answers: (nat, nat) -> bool) {
    && |ids| == |lines| && (forall i, j :: 0 <= i < j < |ids| ==> ids[i] <= ids[j])
    && events == StoredItems(lines, ids, decode, answers) && replies == AnswersTo(lines, ids, decode, answers)
  }

  lemma NextRequest(replies: seq<(nat, nat)>, last: nat)
    requires InOrder(replies, last)
    ensures InOrder(replies, last + 1) && forall i :: 0 <= i < |replies| ==> replies[i].0 < last + 1
  {
  }

  lemma OneMoreLine(lines: seq<Bytes>, ids: seq<nat>, events: seq<nat>, replies: seq<(nat, nat)>, line: Bytes, id: nat,
                    decode: Bytes -> Decoded, answers: (nat, nat) -> bool)
    requires Accounts(lines, ids, events, replies, decode, answers) && forall i :: 0 <= i < |ids| ==> ids[i] <= id
    ensures var fate := FateOf(line, id, decode, answers);
      Accounts(lines + [line], ids + [id], events + (if fate.Stored? then [fate.item] else []),
               replies + (if fate.Answers? then [(id, fate.item)] else []), decode, answers)
  {
    assert (lines + [line])[..|lines|] == lines && (ids + [id])[..|ids|] == ids;
    hide FateOf;
  }

  /** These errors are reported for what has just gone wrong. */
  predicate Blames(error: Error, before: seq<Fault>, faults: seq<Fault>) {
    match error
    case Exited => faults == before + [ProcessExited]
    case StreamClosed => faults == before + [StreamEnded]
    case ReadFailed => faults == before + [ReadBroken]
    case _ => true
  }

  class IpcClient {
    const transport: Transport
    const encode: (string, nat) -> Bytes
    const decode: Bytes -> Decoded
    const answers: (nat, nat) -> bool
    var events: seq<nat>
    var requestId: nat
    /** The lines handed out to this client, and the requests that waited for them. */
    ghost const earlier: seq<Bytes>
    ghost var heard: seq<Bytes>
    ghost var ids: seq<nat>
    /** What the requests so far have returned. */
    ghost var replies: seq<(nat, nat)>

    /**
     Over a whole session: every byte received is in a line handed out or still buffered, and every
     line is accounted for, as an event, as the answer of the request that waited, or as its failure.
     */
    ghost predicate Told()
      reads this, transport
    {
      && transport.Valid() && transport.lines == earlier + heard
      && Accounts(heard, ids, events, replies, decode, answers)
      && InOrder(replies, requestId) && forall i :: 0 <= i < |ids| ==> ids[i] <= requestId
    }

    constructor (transport: Transport, encode: (string, nat) -> Bytes, decode: Bytes -> Decoded, answers: (nat, nat) -> bool)
      requires transport.Valid()
      ensures Told() && events == [] && replies == [] && heard == [] && requestId == 0 && this.transport == transport
      ensures this.encode == encode && this.decode == decode && this.answers == answers
    {
      this.transport, this.encode, this.decode, this.answers := transport, encode, decode, answers;
      events, requestId := [], 0;
      earlier, heard, ids, replies := transport.lines, [], [], [];
    }

    /** The lines used so far were all skipped; every other byte is buffered. */
    ghost predicate Reading(stream: Bytes, skipped: seq<Bytes>, items: seq<nat>)
      reads this, transport
    {
      transport.Valid() && Skipped(skipped, items, decode, answers, requestId) && stream == Joined(skipped) + transport.pending
    }

    /**
     The answer, and the events before it, are those of the bytes buffered and received, however
     they arrived. A request that gives up has stored the items of whole lines and left every
     other byte buffered for the next one.
     */
    ghost predicate Settled(r: Result<nat, Error>, stream: Bytes, skipped: seq<Bytes>, items: seq<nat>)
      reads this, transport
    {
      var s := Serve(stream, decode, answers, requestId);
      match r
      case Ok(item) => s == Service(Reply(item), items, transport.pending)
      case Err(Refused(outcome)) => s.outcome == outcome && !outcome.Reply? && !outcome.Waiting? && s.events == items
      case Err(_) => Reading(stream, skipped, items)
    }

    /** The last line has been handed out, and everything before it is accounted for. */
    ghost predicate Hearing(line: Bytes)
      reads this, transport
    {
      && transport.Valid() && transport.lines == earlier + heard + [line]
      && Accounts(heard, ids, events, replies, decode, answers)
      && InOrder(replies, requestId) && forall i :: 0 <= i < |ids| ==> ids[i] <= requestId
    }

    /** The current request has no answer yet. */
    ghost predicate Unanswered()
      reads this
    {
      forall i :: 0 <= i < |replies| ==> replies[i].0 < requestId
    }

    ghost function Returned(done: Option<Result<nat, Error>>): seq<(nat, nat)>
      reads this
    {
      if done.Some? && done.value.Ok? then [(requestId, done.value.value)] else []
    }

    /** `polls` is how many waits the deadline leaves room for; only a request that has used them all times out. */
    method Request(command: string, polls: nat) returns (r: Result<nat, Error>, ghost arrived: Bytes, ghost skipped: seq<Bytes>, ghost items: seq<nat>)
      requires Told()
      modifies this`events, this`requestId, this`heard, this`ids, this`replies
      modifies transport`pending, transport`received, transport`lines, transport`wire, transport`waits, transport`faults
      ensures Told() && transport.received == old(transport.received) + arrived
      ensures replies == old(replies) + if r.Ok? then [(requestId, r.value)] else []
      ensures requestId == old(requestId) + 1 && events == old(events) + items
      ensures r.Ok? || r.error != SendFailed ==> transport.wire == old(transport.wire) + encode(command, requestId)
      ensures Settled(r, old(transport.pending) + arrived, skipped, items)
      ensures transport.waits <= old(transport.waits) + polls
      ensures r == Err(Timeout) ==> transport.waits == old(transport.waits) + polls
      ensures r == Err(SendFailed) ==> transport.closed || transport.faults == old(transport.faults) + [WriteRefused]
      ensures r.Err? ==> Blames(r.error, old(transport.faults), transport.faults)
    {
      hide Serve, Newline, Joined, Skipped, Whole, Accounts, InOrder;
      NextRequest(replies, requestId);
      requestId := requestId + 1;
      arrived, skipped, items := [], [], [];
      SkipNone(decode, answers, requestId, transport.pending);
      assert transport.pending + [] == transport.pending;
      var sent := transport.SendLine(encode(command, requestId));
      if !sent {
        return Err(SendFailed), arrived, skipped, items;
      }
      var left := polls;
      while left > 0
        invariant transport.waits + left == old(transport.waits) + polls && transport.faults == old(transport.faults)
        invariant transport.received == old(transport.received) + arrived
        invariant requestId == old(requestId) + 1 && events == old(events) + items
        invariant transport.wire == old(transport.wire) + encode(command, requestId)
        invariant Reading(old(transport.pending) + arrived, skipped, items)
        invariant Told() && replies == old(replies)
      {
        left := left - 1;
        var done;
        ghost var chunk, stream := [], old(transport.pending) + arrived;
        done, chunk, skipped, items := Poll(old(events), stream, skipped, items);
        assert old(transport.pending) + (arrived + chunk) == stream + chunk;
        arrived := arrived + chunk;
        if done.Some? {
          return done.value, arrived, skipped, items;
        }
      }
      r := Err(Timeout);
    }

    /** Waits once: for the process to exit, or for the next line. */
    method Poll(ghost before: seq<nat>, ghost stream: Bytes, ghost skipped: seq<Bytes>, ghost items: seq<nat>)
      returns (done: Option<Result<nat, Error>>, ghost chunk: Bytes, ghost skippedNow: seq<Bytes>, ghost itemsNow: seq<nat>)
      requires Reading(stream, skipped, items) && events == before + items
      requires Told() && Unanswered()
      modifies this`events, this`heard, this`ids, this`replies
      modifies transport`pending, transport`received, transport`lines, transport`waits, transport`faults
      ensures done.None? ==> transport.waits == old(transport.waits) + 1 && transport.faults == old(transport.faults)
      ensures transport.waits <= old(transport.waits) + 1
      ensures done.Some? ==> done.value != Err(Timeout)
      ensures done.Some? && done.value.Err? ==> Blames(done.value.error, old(transport.faults), transport.faults)
      ensures transport.Valid() && transport.received == old(transport.received) + chunk && events == before + itemsNow
      ensures Told() && replies == old(replies) + Returned(done)
      ensures done.None? ==> Reading(stream + chunk, skippedNow, itemsNow)
      ensures done.Some? ==> done.value != Err(SendFailed) && Settled(done.value, stream + chunk, skippedNow, itemsNow)
    {
      hide Serve, Newline, Joined, Skipped, Whole;
      skippedNow, itemsNow, chunk := skipped, items, [];
      assert stream + chunk == stream;
      var exited: bool := *;
      if exited {
        transport.faults := transport.faults + [ProcessExited];
        return Some(Err(Exited)), chunk, skippedNow, itemsNow;
      }
      ghost var buffered := transport.pending;
      var received, bytes := transport.ReceiveLine();
      assert (Joined(skipped) + buffered) + bytes == Joined(skipped) + (buffered + bytes);
      chunk := bytes;
      if received.Line? {
        done, skippedNow, itemsNow := Handle(received.line, before, stream + chunk, skipped, items);
      } else if received.TooLong? {
        LongSettles(stream + chunk, skipped, items, transport.pending, decode, answers, requestId);
        done := Some(Err(Refused(LineTooLong)));
      } else if !received.TimedOut? {
        done := Some(Err(if received.Closed? then StreamClosed else ReadFailed));
      } else {
        done := None;
      }
    }

    /** One whole line: the end of the request, or one more event. */
    method Handle(line: Bytes, ghost before: seq<nat>, ghost stream: Bytes, ghost skipped: seq<Bytes>, ghost items: seq<nat>)
      returns (done: Option<Result<nat, Error>>, ghost skippedNow: seq<Bytes>, ghost itemsNow: seq<nat>)
      requires transport.Valid() && Skipped(skipped, items, decode, answers, requestId) && Whole(line)
      requires stream == Joined(skipped) + (line + transport.pending) && events == before + items
      requires Hearing(line) && Unanswered()
      modifies this`events, this`heard, this`ids, this`replies
      ensures Told() && replies == old(replies) + Returned(done)
      ensures events == before + itemsNow
      ensures done.None? ==> Reading(stream, skippedNow, itemsNow)
      ensures done.Some? ==> (done.value.Err? ==> done.value.error.Refused?) && Settled(done.value, stream, skippedNow, itemsNow)
    {
      hide Serve, Newline, Joined, Skipped, Whole, Accounts;
      skippedNow, itemsNow := skipped, items;
      LineSettles(stream, skipped, items, line, transport.pending, decode, answers, requestId);
      OneMoreLine(heard, ids, events, replies, line, requestId, decode, answers);
      assert earlier + heard + [line] == earlier + (heard + [line]);
      assert replies + [] == replies && events + [] == events;
      heard, ids := heard + [line], ids + [requestId];
      if |line| > MAX_LINE {
        return Some(Err(Refused(LineTooLong))), skippedNow, itemsNow;
      }
      var decoded := decode(line);
      if !decoded.Object? {
        return Some(Err(Refused(if decoded.Invalid? then BadJson else NotAnObject))), skippedNow, itemsNow;
      }
      if answers(decoded.item, requestId) {
        replies := replies + [(requestId, decoded.item)];
        return Some(Ok(decoded.item)), skippedNow, itemsNow;
      }
      SkipOne(skipped, items, line, decoded.item, decode, answers, requestId);
      assert Joined(skipped) + (line + transport.pending) == (Joined(skipped) + line) + transport.pending;
      done, skippedNow, itemsNow := None, skipped + [line], items + [decoded.item];
      events := events + [decoded.item];
    }
  }
}
