/**
 A bot's life as a sequence of calls: `addChannel` calls from the application
 and inbound messages from adapters, applied one after the other. The handler
 closure is fixed at construction but may keep state of its own, so the answer
 it gives may differ from one call to the next.
 */
module Sessions {
  import opened Wrappers
  import opened KituraBot

  datatype Op =
    | AddChannelOp(channelName: string, channel: ChannelId)
    | InboundOp(channelName: string, senderId: string, message: string)

  /** What one call returned to its caller: a registration, a thrown error, or a dispatched message. */
  datatype StepResult = Added | Rejected(error: KituraBotError) | Dispatched

  datatype Outcome = Outcome(bot: Bot, results: seq<StepResult>)

  /** The handler closure's behaviour at each call of a run: call `k` is answered by `conv(k)`. */
  type Conversation = nat -> Handler

  /** One call. A thrown error leaves the bot exactly as it was. */
  function Step(h: Handler, b: Bot, op: Op): (r: Outcome)
    ensures |r.results| == 1
    ensures r.results[0] == Added <==> op.AddChannelOp? && op.channelName !in b.channels
    ensures r.results[0] == Dispatched <==> op.InboundOp?
    ensures r.results[0].Rejected? ==> r.results[0].error == ChannelAlreadyExist && r.bot == b
  {
    match op
    case AddChannelOp(name, channel) =>
      (match AddChannel(b, name, channel)
       case Success(b') => Outcome(b', [Added])
       case Failure(e) => Outcome(b, [Rejected(e)]))
    case InboundOp(name, sender, message) =>
      Outcome(Dispatch(h, b, name, sender, message), [Dispatched])
  }

  /** The calls in `ops`, in order, the first of them being call `k`; one result per call. */
  function Run(conv: Conversation, k: nat, b: Bot, ops: seq<Op>): (r: Outcome)
    ensures |r.results| == |ops|
    ensures r.bot.router == b.router
    ensures |b.trace| <= |r.bot.trace| && r.bot.trace[..|b.trace|] == b.trace
    decreases |ops|
  {
    if ops == [] then Outcome(b, [])
    else
      var first := Step(conv(k), b, ops[0]);
      var rest := Run(conv, k + 1, first.bot, ops[1..]);
      Outcome(rest.bot, first.results + rest.results)
  }

  // ---------------------------------------------------------------------------
  // Reference definitions, independent of the bot's state

  /** The names whose `addChannel` call returned normally. */
  function Succeeded(ops: seq<Op>, results: seq<StepResult>): set<string>
    requires |ops| == |results|
    decreases |ops|
  {
    if ops == [] then {}
    else
      (if results[0] == Added && ops[0].AddChannelOp? then {ops[0].channelName} else {})
      + Succeeded(ops[1..], results[1..])
  }

  /** The adapter of the first `addChannel` call for `name` in `ops`, if any. */
  function FirstRegistration(ops: seq<Op>, name: string): Option<ChannelId>
    decreases |ops|
  {
    if ops == [] then None
    else if ops[0].AddChannelOp? && ops[0].channelName == name then Some(ops[0].channel)
    else FirstRegistration(ops[1..], name)
  }

  /** The handler calls the inbound messages in `ops` ask for, in order, with the answers `conv` gives from call `k` on. */
  function InboundCalls(conv: Conversation, k: nat, ops: seq<Op>): seq<Event>
    decreases |ops|
  {
    if ops == [] then []
    else
      var op := ops[0];
      (if op.InboundOp? then [HandlerCalled(op.channelName, op.senderId, op.message, conv(k)(op.channelName, op.senderId, op.message))] else [])
      + InboundCalls(conv, k + 1, ops[1..])
  }

  /** The configure calls the successful registrations in `ops` make, in order. */
  function ConfigureCalls(router: Router, ops: seq<Op>, results: seq<StepResult>): seq<Event>
    requires |ops| == |results|
    decreases |ops|
  {
    if ops == [] then []
    else
      (if results[0] == Added && ops[0].AddChannelOp? then [Configure(ops[0].channel, router, ops[0].channelName)] else [])
      + ConfigureCalls(router, ops[1..], results[1..])
  }

  // ---------------------------------------------------------------------------
  // Properties of whole runs

  /**
   Entries are never removed or overwritten; a name new to the bot ends up
   registered exactly when some call registers it, and bound to the adapter of
   the first such call.
   */
  lemma {:induction false} RunFirstRegistrationWins(conv: Conversation, k: nat, b: Bot, ops: seq<Op>, name: string)
    ensures var final := Run(conv, k, b, ops).bot.channels;
      if name in b.channels then name in final && final[name] == b.channels[name]
      else match FirstRegistration(ops, name)
        case None => name !in final
        case Some(c) => name in final && final[name] == c
    decreases |ops|
  {
    if ops != [] {
      var first := Step(conv(k), b, ops[0]);
      RunFirstRegistrationWins(conv, k + 1, first.bot, ops[1..], name);
    }
  }

  /** The registry's names after a run are the names before it plus the names whose registration succeeded. */
  lemma {:induction false} RunKeysAreSucceeded(conv: Conversation, k: nat, b: Bot, ops: seq<Op>)
    ensures var r := Run(conv, k, b, ops);
      r.bot.channels.Keys == b.channels.Keys + Succeeded(ops, r.results)
    decreases |ops|
  {
    if ops != [] {
      var first := Step(conv(k), b, ops[0]);
      var rest := Run(conv, k + 1, first.bot, ops[1..]);
      RunKeysAreSucceeded(conv, k + 1, first.bot, ops[1..]);
      var r := Run(conv, k, b, ops);
      assert r.results[0] == first.results[0];
      assert r.results[1..] == rest.results;
    }
  }

  /** A registration succeeds only for a name not yet registered, so no name succeeds twice. */
  lemma {:induction false} RunAddedOnce(conv: Conversation, k: nat, b: Bot, ops: seq<Op>)
    ensures var r := Run(conv, k, b, ops);
      && (forall i :: 0 <= i < |ops| && r.results[i] == Added ==> ops[i].AddChannelOp? && ops[i].channelName !in b.channels)
      && (forall i, j :: 0 <= i < j < |ops| && r.results[i] == Added && r.results[j] == Added ==>
            ops[i].channelName != ops[j].channelName)
    decreases |ops|
  {
    if ops != [] {
      var first := Step(conv(k), b, ops[0]);
      var rest := Run(conv, k + 1, first.bot, ops[1..]);
      RunAddedOnce(conv, k + 1, first.bot, ops[1..]);
      var r := Run(conv, k, b, ops);
      assert r.results[0] == first.results[0];
      forall i | 1 <= i < |ops| ensures r.results[i] == rest.results[i - 1] && ops[i] == ops[1..][i - 1] {
      }
      forall i | 0 <= i < |ops| && r.results[i] == Added
        ensures ops[i].AddChannelOp? && ops[i].channelName !in b.channels
      {
        if 0 < i {
          assert ops[i].channelName !in first.bot.channels;
        }
      }
      forall i, j | 0 <= i < j < |ops| && r.results[i] == Added && r.results[j] == Added
        ensures ops[i].channelName != ops[j].channelName
      {
        if i == 0 {
          assert ops[0].channelName in first.bot.channels;
          assert ops[j].channelName !in first.bot.channels;
        }
      }
    }
  }

  /** One call adds a handler call exactly when it is an inbound message. */
  lemma StepHandlerCalls(h: Handler, b: Bot, op: Op)
    ensures OfKind(Step(h, b, op).bot.trace, HandlerKind) == OfKind(b.trace, HandlerKind) +
      (if op.InboundOp? then [HandlerCalled(op.channelName, op.senderId, op.message, h(op.channelName, op.senderId, op.message))] else [])
  {
    match op
    case AddChannelOp(name, channel) =>
      if Step(h, b, op).results[0] == Added {
        OfKindAppend(b.trace, [Configure(channel, b.router, name)], HandlerKind);
        assert [Configure(channel, b.router, name)][..0] == [];
      }
    case InboundOp(name, sender, message) =>
      DispatchCalls(h, b, name, sender, message);
  }

  /** One call configures an adapter exactly when it is a successful registration. */
  lemma StepConfigures(h: Handler, b: Bot, op: Op)
    ensures var r := Step(h, b, op);
      OfKind(r.bot.trace, ConfigureKind) == OfKind(b.trace, ConfigureKind) +
        (if r.results[0] == Added && op.AddChannelOp? then [Configure(op.channel, b.router, op.channelName)] else [])
  {
  }

  /** Every inbound message reaches the handler exactly once, unchanged and in order; nothing else calls it. */
  lemma {:induction false} RunHandlerCallsInOrder(conv: Conversation, k: nat, b: Bot, ops: seq<Op>)
    ensures OfKind(Run(conv, k, b, ops).bot.trace, HandlerKind) == OfKind(b.trace, HandlerKind) + InboundCalls(conv, k, ops)
    decreases |ops|
  {
    if ops != [] {
      var first := Step(conv(k), b, ops[0]);
      assert Run(conv, k, b, ops).bot == Run(conv, k + 1, first.bot, ops[1..]).bot;
      RunHandlerCallsInOrder(conv, k + 1, first.bot, ops[1..]);
      StepHandlerCalls(conv(k), b, ops[0]);
    }
  }

  /** The adapters configured during a run are exactly those of the successful registrations, in order. */
  lemma {:induction false} RunConfiguresSucceeded(conv: Conversation, k: nat, b: Bot, ops: seq<Op>)
    ensures var r := Run(conv, k, b, ops);
      OfKind(r.bot.trace, ConfigureKind) == OfKind(b.trace, ConfigureKind) + ConfigureCalls(b.router, ops, r.results)
    decreases |ops|
  {
    if ops != [] {
      var first := Step(conv(k), b, ops[0]);
      var rest := Run(conv, k + 1, first.bot, ops[1..]);
      var r := Run(conv, k, b, ops);
      assert r == Outcome(rest.bot, first.results + rest.results);
      assert r.results[0] == first.results[0];
      assert r.results[1..] == rest.results;
      RunConfiguresSucceeded(conv, k + 1, first.bot, ops[1..]);
      StepConfigures(conv(k), b, ops[0]);
    }
  }

  /** Every run from a well-formed bot ends in a well-formed bot. */
  lemma {:induction false} RunPreservesWellFormed(conv: Conversation, k: nat, b: Bot, ops: seq<Op>)
    requires WellFormed(b)
    ensures WellFormed(Run(conv, k, b, ops).bot)
    decreases |ops|
  {
    if ops != [] {
      match ops[0] {
        case AddChannelOp(name, channel) =>
          AddChannelPreservesWellFormed(b, name, channel);
        case InboundOp(name, sender, message) =>
          DispatchPreservesWellFormed(conv(k), b, name, sender, message);
      }
      RunPreservesWellFormed(conv, k + 1, Step(conv(k), b, ops[0]).bot, ops[1..]);
    }
  }

  /** From construction, the registry holds exactly the names whose registration succeeded. */
  lemma StartedBotRegistry(conv: Conversation, router: Router, ops: seq<Op>)
    ensures var r := Run(conv, 0, Init(router), ops);
      && r.bot.channels.Keys == Succeeded(ops, r.results)
      && WellFormed(r.bot)
  {
    InitWellFormed(router);
    RunKeysAreSucceeded(conv, 0, Init(router), ops);
    RunPreservesWellFormed(conv, 0, Init(router), ops);
  }
}
