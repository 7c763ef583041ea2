// What chats guarantee: how the two kinds of chat relate, what a poller of the
// background one sees, and what any sequence of chats leaves to be rendered.
module ChatLaws {
  import opened Prelude
  import opened Arbor
  import opened ArborPaths
  import opened BackgroundTurn
  import opened Chain
  import opened Chat
  import opened ChatStore
  import opened ChatTypes
  import opened Conversation
  import opened EventLog
  import opened Render
  import opened RenderLaws
  import opened Streams
  import opened Turns

  // -------------------------------------------- background refines the streamed

  /** The chat reaches its end without an error, but with nothing said by anyone. */
  predicate GuardCase(
      parse: JsonParser, db: ChatDb, config: Config, prompt: string, ephemeral: bool, raws: seq<RawEvent>) {
    && config.id in db.sessions && Opened(db, config, prompt, ephemeral).1.Ok?
    && var turn := OnAll(parse, |db.unknown|, Launched(config.session.claudeId), raws);
       turn.error.None? && Silent(turn)
  }

  /** From the same store the background chat pushes exactly what the streamed
      chat yields, unless the reply is silent. */
  lemma {:induction false} BackgroundShowsTheSame(
      codec: Codec, parse: JsonParser, db: ChatDb, config: Config, prompt: string, ephemeral: bool,
      raws: seq<RawEvent>)
    ensures PushedBy(RunInBackground(codec, parse, db, config, prompt, ephemeral, raws).ops)
         == Chatted(codec, parse, db, config, prompt, ephemeral, raws, false).events
        <==> !GuardCase(parse, db, config, prompt, ephemeral, raws)
  {
    BackgroundSummary(codec, parse, db, config, prompt, ephemeral, raws);
    if config.id in db.sessions && Opened(db, config, prompt, ephemeral).1.Ok? {
      var begun := Opened(db, config, prompt, ephemeral).0;
      var user := Opened(db, config, prompt, ephemeral).1.value;
      var turn := OnAll(parse, |db.unknown|, Launched(config.session.claudeId), raws);
      var relayed := Relayed(codec, begun, config, prompt, user, turn);
      var shown := [Start(config.id, Position(config.session.tree, user))] + turn.events;
      var streamed := Finished(codec, begun.arbor, relayed, config, prompt, ephemeral, user, turn, false).events;
      var pushed := Finished(codec, begun.arbor, relayed, config, prompt, ephemeral, user, turn, true).events;
      FinishedAlike(codec, begun.arbor, relayed, config, prompt, ephemeral, user, turn);
      assert (shown + streamed)[|shown|] == streamed[0] && (shown + pushed)[|shown|] == pushed[0];
    }
  }

  /** The process says it has finished, without an error, in an ephemeral chat and
      under a Claude session id that the session does not have yet. */
  predicate RenamedCase(
      parse: JsonParser, db: ChatDb, config: Config, prompt: string, ephemeral: bool, raws: seq<RawEvent>) {
    && ephemeral && config.id in db.sessions && Opened(db, config, prompt, ephemeral).1.Ok?
    && var turn := OnAll(parse, |db.unknown|, Launched(config.session.claudeId), raws);
       turn.error.None? && turn.claudeId.Some? && turn.claudeId != config.session.claudeId
  }

  /** The two leave the same store behind exactly when the reply is not silent (the
      background chat stores it all the same) and the chat is not an ephemeral one
      that was told a new Claude session id (the background chat forgets it); but for
      silent replies it is only the session row that differs. */
  lemma {:induction false} BackgroundStoresTheSame(
      codec: Codec, parse: JsonParser, db: ChatDb, config: Config, prompt: string, ephemeral: bool,
      raws: seq<RawEvent>)
    requires config.id in db.sessions ==> config.session == db.sessions[config.id]
    ensures var streamed := Chatted(codec, parse, db, config, prompt, ephemeral, raws, false).db;
            var pushed := RunInBackground(codec, parse, db, config, prompt, ephemeral, raws).db;
            var silent := GuardCase(parse, db, config, prompt, ephemeral, raws);
            && (streamed == pushed <==> !silent && !RenamedCase(parse, db, config, prompt, ephemeral, raws))
            && (!silent ==> streamed == pushed.(sessions := streamed.sessions))
  {
    BackgroundSummary(codec, parse, db, config, prompt, ephemeral, raws);
    if config.id in db.sessions && Opened(db, config, prompt, ephemeral).1.Ok? {
      var begun := Opened(db, config, prompt, ephemeral).0;
      var user := Opened(db, config, prompt, ephemeral).1.value;
      var turn := OnAll(parse, |db.unknown|, Launched(config.session.claudeId), raws);
      FinishedStores(
        codec, begun.arbor, Relayed(codec, begun, config, prompt, user, turn), config, prompt, ephemeral, user, turn);
    }
  }

  lemma {:induction false} FinishedStores(
      codec: Codec, base: Db, relayed: ChatDb, config: Config, prompt: string, ephemeral: bool, user: Id,
      turn: Relay)
    requires config.id in relayed.sessions && config.session == relayed.sessions[config.id]
    ensures var streamed := Finished(codec, base, relayed, config, prompt, ephemeral, user, turn, false).db;
            var pushed := Finished(codec, base, relayed, config, prompt, ephemeral, user, turn, true).db;
            var silent := turn.error.None? && Silent(turn);
            && (streamed == pushed <==>
                  !silent && !(ephemeral && turn.error.None? && turn.claudeId.Some?
                    && turn.claudeId != config.session.claudeId))
            && (!silent ==> streamed == pushed.(sessions := streamed.sessions))
  {
    var streamed := Finished(codec, base, relayed, config, prompt, ephemeral, user, turn, false).db;
    var pushed := Finished(codec, base, relayed, config, prompt, ephemeral, user, turn, true).db;
    if turn.error.None? && Silent(turn) {
      assert |pushed.messages| == |streamed.messages| + 1;
    } else if turn.error.None? && ephemeral {
      assert streamed.sessions[config.id].claudeId == if turn.claudeId.Some? then turn.claudeId
        else config.session.claudeId;
      assert pushed.sessions[config.id].claudeId == config.session.claudeId;
    } else {
      assert streamed.sessions == pushed.sessions;
    }
  }

  lemma {:induction false} FinishedAlike(
      codec: Codec, base: Db, relayed: ChatDb, config: Config, prompt: string, ephemeral: bool, user: Id,
      turn: Relay)
    requires config.id in relayed.sessions
    ensures var streamed := Finished(codec, base, relayed, config, prompt, ephemeral, user, turn, false);
            var pushed := Finished(codec, base, relayed, config, prompt, ephemeral, user, turn, true);
            && |streamed.events| == |pushed.events| == 1
            && (turn.error.None? && Silent(turn) ==> streamed.events[0] != pushed.events[0])
            && (!(turn.error.None? && Silent(turn)) ==> streamed.events == pushed.events)
  {
  }

  // ----------------------------------------------------- what a poller gets to see

  /** What the producer did, without what its readers did in between. */
  function Produced(ops: seq<StreamOp>): seq<StreamOp> {
    if ops == [] then []
    else Produced(ops[..|ops| - 1]) + if ops[|ops| - 1].Polls? then [] else [ops[|ops| - 1]]
  }

  /** Pushes and the status do not depend on the readers. */
  lemma {:induction false} ReadersChangeNothing(b: Buffer, ops: seq<StreamOp>)
    ensures PushedBy(Produced(ops)) == PushedBy(ops)
    ensures Streams.Run(b, Produced(ops)).status == Streams.Run(b, ops).status
  {
    if ops != [] {
      var front, op := ops[..|ops| - 1], ops[|ops| - 1];
      ReadersChangeNothing(b, front);
      if op.Polls? {
        assert Produced(ops) == Produced(front) && PushedBy(ops) == PushedBy(front);
      } else {
        OneMoreOp(Produced(front), op);
        assert (Produced(front) + [op])[..|Produced(front)|] == Produced(front);
      }
    }
  }

  lemma {:induction false} UnendedRuns(b: Buffer, ops: seq<StreamOp>)
    requires Unended(ops) && !Final(b.status)
    ensures !Final(Streams.Run(b, ops).status)
  {
    if ops != [] {
      UnendedRuns(b, ops[..|ops| - 1]);
    }
  }

  /** A client polls while the background chat runs, at any moments and for any
      numbers of events. At all times it has received a prefix of what the streamed
      chat would have yielded, each event once; it sees a final status exactly when
      the chat is over, and then that status says how it ended, and it has received
      everything exactly when the buffer is drained. */
  lemma {:induction false} PollerSeesTheStream(
      codec: Codec, parse: JsonParser, db: ChatDb, config: Config, prompt: string, ephemeral: bool,
      raws: seq<RawEvent>, ops: seq<StreamOp>)
    requires !GuardCase(parse, db, config, prompt, ephemeral, raws)
    requires DefaultPolls(ops)
    requires Produced(ops) <= RunInBackground(codec, parse, db, config, prompt, ephemeral, raws).ops
    ensures var chat := Chatted(codec, parse, db, config, prompt, ephemeral, raws, false);
            var b, seen := Streams.Run(NewBuffer(config.id), ops), DeliveredBy(NewBuffer(config.id), ops);
            var over := Produced(ops) == RunInBackground(codec, parse, db, config, prompt, ephemeral, raws).ops;
            && seen <= chat.events
            && (Final(b.status) <==> over)
            && (over ==> b.status == (if chat.completed then Completed else Failed)
                         && (seen == chat.events <==> b.readPosition == b.eventCount))
  {
    var all := RunInBackground(codec, parse, db, config, prompt, ephemeral, raws).ops;
    BackgroundShowsTheSame(codec, parse, db, config, prompt, ephemeral, raws);
    EndsLikeStreamed(codec, parse, db, config, prompt, ephemeral, raws);
    SeenOf(config.id, ops, all);
    ReadersChangeNothing(NewBuffer(config.id), ops);
    StatusSeen(NewBuffer(config.id), Produced(ops), all);
  }

  /** Default polls see a prefix of what the producer pushes in all. */
  lemma {:induction false} SeenOf(session: int, ops: seq<StreamOp>, all: seq<StreamOp>)
    requires DefaultPolls(ops) && Produced(ops) <= all
    ensures var b, seen := Streams.Run(NewBuffer(session), ops), DeliveredBy(NewBuffer(session), ops);
            && seen <= PushedBy(all)
            && (Produced(ops) == all ==> (seen == PushedBy(all) <==> b.readPosition == b.eventCount))
  {
    DeliveredOnceInOrder(session, ops);
    DrainedExactly(session, ops);
    ReadersChangeNothing(NewBuffer(session), ops);
    var rest := all[|Produced(ops)|..];
    assert all == Produced(ops) + rest;
    PushedAppend(Produced(ops), rest);
  }

  /** The background chat ends its stream once, at the very end, and as completed
      exactly when the streamed chat completes. */
  lemma {:induction false} EndsLikeStreamed(
      codec: Codec, parse: JsonParser, db: ChatDb, config: Config, prompt: string, ephemeral: bool,
      raws: seq<RawEvent>)
    requires !GuardCase(parse, db, config, prompt, ephemeral, raws)
    ensures var ops := RunInBackground(codec, parse, db, config, prompt, ephemeral, raws).ops;
            var completed := Chatted(codec, parse, db, config, prompt, ephemeral, raws, false).completed;
            && ops != [] && ops[|ops| - 1].Sets? && Unended(ops[..|ops| - 1])
            && ops[|ops| - 1].status == if completed then Completed else Failed
  {
    BackgroundSummary(codec, parse, db, config, prompt, ephemeral, raws);
    CompletedAlike(codec, parse, db, config, prompt, ephemeral, raws);
    FinalStatusLast(codec, parse, db, config, prompt, ephemeral, raws);
  }

  lemma {:induction false} CompletedAlike(
      codec: Codec, parse: JsonParser, db: ChatDb, config: Config, prompt: string, ephemeral: bool,
      raws: seq<RawEvent>)
    requires !GuardCase(parse, db, config, prompt, ephemeral, raws)
    ensures Chatted(codec, parse, db, config, prompt, ephemeral, raws, true).completed
         == Chatted(codec, parse, db, config, prompt, ephemeral, raws, false).completed
  {
  }

  lemma {:induction false} StatusSeen(b: Buffer, ops: seq<StreamOp>, all: seq<StreamOp>)
    requires !Final(b.status) && ops <= all
    requires all != [] && all[|all| - 1].Sets? && Final(all[|all| - 1].status) && Unended(all[..|all| - 1])
    ensures Final(Streams.Run(b, ops).status) <==> ops == all
    ensures ops == all ==> Streams.Run(b, ops).status == all[|all| - 1].status
  {
    if ops != all {
      assert forall op | op in ops :: op in all[..|all| - 1];
      UnendedRuns(b, ops);
    }
  }

  // ------------------------------------------------------------ three views agree

  /** A completed chat stores as the assistant's message exactly the text of the
      content it showed, which is the text of the content nodes in its log. */
  lemma {:induction false} StoredReplyAgrees(
      codec: Codec, parse: JsonParser, db: ChatDb, config: Config, prompt: string, ephemeral: bool,
      raws: seq<RawEvent>, background: bool)
    requires Chatted(codec, parse, db, config, prompt, ephemeral, raws, background).completed
    ensures var r := Chatted(codec, parse, db, config, prompt, ephemeral, raws, background);
            var turn := OnAll(parse, |db.unknown|, Launched(config.session.claudeId), raws);
            && |r.db.messages| == |db.messages| + 2
            && r.db.messages[|db.messages|] == StoredMessage(config.id, User, prompt, None, ephemeral)
            && r.db.messages[|db.messages| + 1] == StoredMessage(config.id, Assistant, JoinNodes(turn.nodes),
              turn.cost, ephemeral)
            && JoinShown(r.events) == JoinNodes(turn.nodes)
  {
    var r := Chatted(codec, parse, db, config, prompt, ephemeral, raws, background);
    var turn := OnAll(parse, |db.unknown|, Launched(config.session.claudeId), raws);
    ViewsAgree(parse, |db.unknown|, config.session.claudeId, raws);
    var user := Opened(db, config, prompt, ephemeral).1.value;
    var start := Start(config.id, Position(config.session.tree, user));
    var last := r.events[|r.events| - 1];
    assert r.events == [start] + turn.events + [last];
    JoinBetween(start, turn.events, last);
  }

  lemma {:induction false} JoinAfter(first: ChatEvent, events: seq<ChatEvent>)
    requires !first.Content?
    ensures JoinShown([first] + events) == JoinShown(events)
  {
    var all := [first] + events;
    if events == [] {
      assert all[..0] == [] && JoinShown([]) == "";
    } else {
      assert all[..|all| - 1] == [first] + events[..|events| - 1];
      JoinAfter(first, events[..|events| - 1]);
    }
  }

  lemma {:induction false} JoinBetween(first: ChatEvent, events: seq<ChatEvent>, last: ChatEvent)
    requires !first.Content? && !last.Content?
    ensures JoinShown([first] + events + [last]) == JoinShown(events)
  {
    var all := [first] + events + [last];
    assert all[..|all| - 1] == [first] + events;
    JoinAfter(first, events);
    assert JoinShown([first] + events) + "" == JoinShown([first] + events);
  }
}
