// The in-memory stream buffers of background chats
// (src/activations/claudecode/storage.rs:735-880): one producer pushes events,
// clients poll them.
module Streams {
  import opened Prelude
  import opened ChatTypes

  datatype StreamStatus = Running | AwaitingPermission | Completed | Failed

  /** iter().skip(start).take(most). */
  function SkipTake<T>(s: seq<T>, start: nat, most: nat): (r: seq<T>)
    ensures |r| <= most && (start <= |s| ==> start + |r| <= |s| && r == s[start..start + |r|])
    ensures |r| < most && start <= |s| ==> start + |r| == |s|
  {
    if start >= |s| then [] else if start + most >= |s| then s[start..] else s[start..start + most]
  }

  datatype Buffered = Buffered(number: nat, event: ChatEvent)

  datatype Buffer = Buffer(
    session: int, status: StreamStatus, userPosition: Option<Position>,
    eventCount: nat, readPosition: nat, error: Option<Reason>, events: seq<Buffered>)
  {
    /** Events are numbered 0, 1, 2, ... in the order pushed. */
    ghost predicate Valid() {
      && eventCount == |events| && readPosition <= eventCount
      && forall i :: 0 <= i < |events| ==> events[i].number == i
    }

    function Push(e: ChatEvent): Buffer {
      this.(events := events + [Buffered(eventCount, e)], eventCount := eventCount + 1)
    }

    /** The events that a poll returns. */
    function Polled(from: Option<nat>, limit: Option<nat>): seq<Buffered> {
      var start := if from.Some? then from.value else readPosition;
      SkipTake(events, start, if limit.Some? then limit.value else 100)
    }

    /** Reading moves the position just past the last event returned. */
    function AfterPoll(from: Option<nat>, limit: Option<nat>): Buffer {
      var out := Polled(from, limit);
      if out == [] then this else this.(readPosition := out[|out| - 1].number + 1)
    }

    function WithStatus(s: StreamStatus, e: Option<Reason>): Buffer {
      this.(status := s, error := if e.Some? then e else error)
    }
  }

  function NewBuffer(session: int): Buffer {
    Buffer(session, Running, None, 0, 0, None, [])
  }

  class ActiveStreams {
    var streams: map<int, Buffer>
    var next: int

    ghost predicate Valid()
      reads this
    {
      forall id | id in streams :: id < next && streams[id].Valid()
    }

    constructor ()
      ensures Valid() && streams == map[]
    {
      streams, next := map[], 0;
    }

    method StreamCreate(session: int) returns (id: int)
      requires Valid()
      modifies this
      ensures Valid() && id !in old(streams) && streams == old(streams)[id := NewBuffer(session)]
    {
      id := next;
      next := next + 1;
      streams := streams[id := NewBuffer(session)];
    }

    method StreamSetUserPosition(id: int, position: Position) returns (ok: bool)
      requires Valid()
      modifies this`streams
      ensures Valid() && ok == (id in old(streams))
      ensures streams == if ok then old(streams)[id := old(streams)[id].(userPosition := Some(position))]
        else old(streams)
    {
      ok := id in streams;
      if ok {
        streams := streams[id := streams[id].(userPosition := Some(position))];
      }
    }

    method StreamPushEvent(id: int, event: ChatEvent) returns (r: Option<nat>)
      requires Valid()
      modifies this`streams
      ensures Valid() && r == (if id in old(streams) then Some(|old(streams)[id].events|) else None)
      ensures streams == if r.Some? then old(streams)[id := old(streams)[id].Push(event)] else old(streams)
    {
      if id !in streams {
        return None;
      }
      var buffer := streams[id];
      var number := buffer.eventCount;
      buffer := buffer.(events := buffer.events + [Buffered(number, event)]);
      buffer := buffer.(eventCount := buffer.eventCount + 1);
      streams := streams[id := buffer];
      r := Some(number);
    }

    method StreamSetStatus(id: int, status: StreamStatus, error: Option<Reason>) returns (ok: bool)
      requires Valid()
      modifies this`streams
      ensures Valid() && ok == (id in old(streams))
      ensures streams == if ok then old(streams)[id := old(streams)[id].WithStatus(status, error)] else old(streams)
    {
      ok := id in streams;
      if ok {
        var buffer := streams[id].(status := status);
        if error.Some? {
          buffer := buffer.(error := error);
        }
        streams := streams[id := buffer];
      }
    }

    /** iter().skip(start).take(limit), then the new reading position. */
    method StreamPoll(id: int, from: Option<nat>, limit: Option<nat>) returns (r: Option<(Buffer, seq<Buffered>)>)
      requires Valid()
      modifies this`streams
      ensures Valid() && r.Some? == (id in old(streams))
      ensures r.Some? ==> id in streams && r.value == (streams[id], old(streams)[id].Polled(from, limit))
      ensures streams == if r.Some? then old(streams)[id := old(streams)[id].AfterPoll(from, limit)] else old(streams)
    {
      if id !in streams {
        return None;
      }
      var buffer := streams[id];
      var start := if from.Some? then from.value else buffer.readPosition;
      var most := if limit.Some? then limit.value else 100;
      var out := SkipTake(buffer.events, start, most);
      if out != [] {
        buffer := buffer.(readPosition := out[|out| - 1].number + 1);
      }
      streams := streams[id := buffer];
      r := Some((buffer, out));
    }
  }

  // ---------------------------------------------------- pushes and polls mixed

  /** One step of a stream's life, as its producer and its readers interleave. */
  datatype StreamOp =
    | Pushes(event: ChatEvent)
    | Polls(from: Option<nat>, limit: Option<nat>)
    | Sets(status: StreamStatus, error: Option<Reason>)
    | Places(position: Position)

  function Apply(b: Buffer, op: StreamOp): Buffer {
    match op
    case Pushes(e) => b.Push(e)
    case Polls(f, l) => b.AfterPoll(f, l)
    case Sets(s, e) => b.WithStatus(s, e)
    case Places(p) => b.(userPosition := Some(p))
  }

  function Run(b: Buffer, ops: seq<StreamOp>): Buffer {
    if ops == [] then b else Apply(Run(b, ops[..|ops| - 1]), ops[|ops| - 1])
  }

  /** The events pushed, in order. */
  function PushedBy(ops: seq<StreamOp>): seq<ChatEvent> {
    if ops == [] then []
    else PushedBy(ops[..|ops| - 1]) + match ops[|ops| - 1] case Pushes(e) => [e] case _ => []
  }

  function EventsOf(buffered: seq<Buffered>): (r: seq<ChatEvent>)
    ensures |r| == |buffered|
  {
    seq(|buffered|, i requires 0 <= i < |buffered| => buffered[i].event)
  }

  /** Everything the polls have returned, poll after poll. */
  function DeliveredBy(b: Buffer, ops: seq<StreamOp>): seq<ChatEvent> {
    if ops == [] then []
    else
      var before, op := ops[..|ops| - 1], ops[|ops| - 1];
      DeliveredBy(b, before) + if op.Polls? then EventsOf(Run(b, before).Polled(op.from, op.limit)) else []
  }

  /** Readers ask for what comes next, not for a sequence number. */
  predicate DefaultPolls(ops: seq<StreamOp>) {
    forall i :: 0 <= i < |ops| ==> (ops[i].Polls? ==> ops[i].from.None?)
  }

  /** What a poll from inside the buffer returns, by positions. */
  lemma {:induction false} PolledSlice(b: Buffer, from: Option<nat>, limit: Option<nat>)
    requires b.Valid()
    ensures var start := if from.Some? then from.value else b.readPosition;
            var out := b.Polled(from, limit);
            && (start <= |b.events| ==> start + |out| <= |b.events| && out == b.events[start..start + |out|])
            && b.AfterPoll(from, limit).Valid()
            && b.AfterPoll(from, limit).readPosition == (if out == [] then b.readPosition else start + |out|)
  {
  }

  lemma {:induction false} BufferHoldsPushes(session: int, ops: seq<StreamOp>)
    ensures var b := Run(NewBuffer(session), ops); b.Valid() && EventsOf(b.events) == PushedBy(ops)
  {
    if ops != [] {
      var before, op := ops[..|ops| - 1], ops[|ops| - 1];
      BufferHoldsPushes(session, before);
      if op.Polls? {
        PolledSlice(Run(NewBuffer(session), before), op.from, op.limit);
      }
    }
  }

  /** Under every interleaving of pushes, status changes and default polls of any
      size, the polls together have returned the first events pushed: each once,
      in order, up to the reading position. */
  lemma {:induction false} DeliveredOnceInOrder(session: int, ops: seq<StreamOp>)
    requires DefaultPolls(ops)
    ensures var b := Run(NewBuffer(session), ops);
            && b.readPosition <= |PushedBy(ops)|
            && DeliveredBy(NewBuffer(session), ops) == PushedBy(ops)[..b.readPosition]
  {
    BufferHoldsPushes(session, ops);
    if ops != [] {
      var before, op := ops[..|ops| - 1], ops[|ops| - 1];
      var b := Run(NewBuffer(session), before);
      assert DefaultPolls(before);
      DeliveredOnceInOrder(session, before);
      BufferHoldsPushes(session, before);
      if op.Polls? {
        assert op == ops[|ops| - 1] && op.from.None?;
        PolledSlice(b, None, op.limit);
      }
    }
  }

  /** A poll reports more to come exactly when something pushed is undelivered. */
  lemma {:induction false} DrainedExactly(session: int, ops: seq<StreamOp>)
    requires DefaultPolls(ops)
    ensures var b := Run(NewBuffer(session), ops);
            DeliveredBy(NewBuffer(session), ops) == PushedBy(ops) <==> b.readPosition == b.eventCount
  {
    DeliveredOnceInOrder(session, ops);
    BufferHoldsPushes(session, ops);
  }
}
