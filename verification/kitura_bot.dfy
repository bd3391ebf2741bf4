/**
 The dispatch core of the KituraBot framework: a registry from channel name to
 channel adapter, and the inbound callback every adapter invokes for each user
 message. Adapters and the application handler are outside the model; every call
 the core makes to them is recorded as an `Event` in the bot's trace.
 */
module KituraBot {
  import opened Wrappers

  /** Identity of one `KituraBotProtocol` adapter instance. */
  type ChannelId = nat

  /** The Kitura router, an opaque token that the core only passes on to `configure`. */
  datatype Router = Router(id: nat)

  datatype KituraBotError = ChannelAlreadyExist

  /**
   The application handler as it answers one call: (channel name, sender id,
   message) to an optional reply.
   */
  type Handler = (string, string, string) -> Option<string>

  /** A call the core makes to the outside world. A handler call records the reply it returned. */
  datatype Event =
    | Configure(adapter: ChannelId, router: Router, channelName: string)
    | HandlerCalled(channelName: string, senderId: string, message: string, reply: Option<string>)
    | SendTextMessage(adapter: ChannelId, recipientId: string, messageText: string)

  /** The bot's state: its router, its channel dictionary, and every call it has made so far. */
  datatype Bot = Bot(router: Router, channels: map<string, ChannelId>, trace: seq<Event>)

  /** A freshly initialised bot: no channels, no calls made. */
  function Init(router: Router): Bot
  {
    Bot(router, map[], [])
  }

  /**
   Registers `channel` under `channelName`. A name already in the dictionary is
   refused before the adapter is configured; otherwise the adapter is configured
   with the bot's router and the name, then stored under that name.
   */
  function AddChannel(b: Bot, channelName: string, channel: ChannelId): (r: Result<Bot, KituraBotError>)
    ensures r.Failure? <==> channelName in b.channels
    ensures r.Failure? ==> r.error == ChannelAlreadyExist
    ensures r.Success? ==>
      && r.value.router == b.router
      && r.value.channels.Keys == b.channels.Keys + {channelName}
      && r.value.channels[channelName] == channel
      && (forall n :: n in b.channels ==> r.value.channels[n] == b.channels[n])
      && r.value.trace == b.trace + [Configure(channel, b.router, channelName)]
  {
    if channelName in b.channels then
      Failure(ChannelAlreadyExist)
    else
      var configured := b.trace + [Configure(channel, b.router, channelName)];
      Success(Bot(b.router, b.channels[channelName := channel], configured))
  }

  /**
   The inbound callback: the handler is asked once; a reply, if there is one, is
   sent back through the adapter registered under the same channel name,
   addressed to the original sender. Nothing is sent for an unknown channel.
   */
  function Dispatch(h: Handler, b: Bot, channelName: string, senderId: string, message: string): (r: Bot)
    ensures r.router == b.router && r.channels == b.channels
    ensures |b.trace| < |r.trace| <= |b.trace| + 2
    ensures r.trace[..|b.trace| + 1] == b.trace + [HandlerCalled(channelName, senderId, message, h(channelName, senderId, message))]
    ensures |r.trace| == |b.trace| + 2 <==> h(channelName, senderId, message).Some? && channelName in b.channels
    ensures |r.trace| == |b.trace| + 2 ==>
      r.trace[|b.trace| + 1] == SendTextMessage(b.channels[channelName], senderId, h(channelName, senderId, message).value)
  {
    var called := b.trace + [HandlerCalled(channelName, senderId, message, h(channelName, senderId, message))];
    match h(channelName, senderId, message)
    case None => b.(trace := called)
    case Some(reply) =>
      if channelName in b.channels then
        b.(trace := called + [SendTextMessage(b.channels[channelName], senderId, reply)])
      else
        b.(trace := called)
  }

  // ---------------------------------------------------------------------------
  // Views of the trace

  datatype Kind = ConfigureKind | HandlerKind | SendKind

  function KindOf(e: Event): Kind
  {
    match e
    case Configure(_, _, _) => ConfigureKind
    case HandlerCalled(_, _, _, _) => HandlerKind
    case SendTextMessage(_, _, _) => SendKind
  }

  /** The events of kind `k` in `t`, in order. */
  function OfKind(t: seq<Event>, k: Kind): (r: seq<Event>)
    ensures |r| <= |t|
    ensures forall i :: 0 <= i < |r| ==> KindOf(r[i]) == k
  {
    if t == [] then []
    else OfKind(t[..|t| - 1], k) + (if KindOf(t[|t| - 1]) == k then [t[|t| - 1]] else [])
  }

  /** How many times an adapter was configured under `name` in `t`. */
  function ConfigureCount(t: seq<Event>, name: string): nat
  {
    if t == [] then 0
    else
      var e := t[|t| - 1];
      ConfigureCount(t[..|t| - 1], name) + (if e.Configure? && e.channelName == name then 1 else 0)
  }

  lemma {:induction false} OfKindAppend(a: seq<Event>, c: seq<Event>, k: Kind)
    ensures OfKind(a + c, k) == OfKind(a, k) + OfKind(c, k)
    decreases |c|
  {
    if c == [] {
      assert a + c == a;
    } else {
      var c' := c[..|c| - 1];
      assert (a + c)[..|a + c| - 1] == a + c';
      assert (a + c)[|a + c| - 1] == c[|c| - 1];
      OfKindAppend(a, c', k);
    }
  }

  lemma ConfigureCountSnoc(t: seq<Event>, e: Event, name: string)
    ensures ConfigureCount(t + [e], name) ==
      ConfigureCount(t, name) + (if e.Configure? && e.channelName == name then 1 else 0)
  {
  }

  // ---------------------------------------------------------------------------
  // The invariant every reachable bot keeps

  /** The event at `i`, if it configured an adapter, matches the registry entry and the bot's router. */
  ghost predicate ConfiguredAt(b: Bot, i: int)
    requires 0 <= i < |b.trace|
  {
    var e := b.trace[i];
    e.Configure? ==>
      && e.channelName in b.channels
      && b.channels[e.channelName] == e.adapter
      && e.router == b.router
  }

  /**
   The event at `i`, if it sent a message, is the reply the handler returned for
   the inbound message recorded just before it: sent through the adapter
   registered under that message's channel name, addressed to its sender.
   */
  ghost predicate ReplyAt(b: Bot, i: int)
    requires 0 <= i < |b.trace|
  {
    var e := b.trace[i];
    e.SendTextMessage? ==>
      && 0 < i
      && var c := b.trace[i - 1];
      && c.HandlerCalled?
      && c.channelName in b.channels
      && b.channels[c.channelName] == e.adapter
      && c.senderId == e.recipientId
      && c.reply == Some(e.messageText)
  }

  /**
   Each registered name was configured exactly once and no other name was ever
   configured; every configure call matches its registry entry; every message
   sent is a reply to the inbound message before it.
   */
  ghost predicate WellFormed(b: Bot)
  {
    && (forall n :: ConfigureCount(b.trace, n) == (if n in b.channels then 1 else 0))
    && (forall i :: 0 <= i < |b.trace| ==> ConfiguredAt(b, i))
    && (forall i :: 0 <= i < |b.trace| ==> ReplyAt(b, i))
  }

  lemma InitWellFormed(router: Router)
    ensures Init(router).router == router
    ensures Init(router).channels == map[] && Init(router).trace == []
    ensures WellFormed(Init(router))
  {
  }

  lemma AddChannelPreservesWellFormed(b: Bot, channelName: string, channel: ChannelId)
    requires WellFormed(b)
    ensures AddChannel(b, channelName, channel).Success? ==> WellFormed(AddChannel(b, channelName, channel).value)
  {
    var r := AddChannel(b, channelName, channel);
    if r.Success? {
      var b' := r.value;
      var e := Configure(channel, b.router, channelName);
      forall n ensures ConfigureCount(b'.trace, n) == (if n in b'.channels then 1 else 0) {
        ConfigureCountSnoc(b.trace, e, n);
      }
      forall i | 0 <= i < |b'.trace| ensures ConfiguredAt(b', i) && ReplyAt(b', i) {
        if i < |b.trace| {
          assert ConfiguredAt(b, i) && ReplyAt(b, i);
        }
      }
    }
  }

  lemma DispatchPreservesWellFormed(h: Handler, b: Bot, channelName: string, senderId: string, message: string)
    requires WellFormed(b)
    ensures WellFormed(Dispatch(h, b, channelName, senderId, message))
  {
    var b' := Dispatch(h, b, channelName, senderId, message);
    var called := HandlerCalled(channelName, senderId, message, h(channelName, senderId, message));
    forall n ensures ConfigureCount(b'.trace, n) == (if n in b'.channels then 1 else 0) {
      ConfigureCountSnoc(b.trace, called, n);
      if |b'.trace| == |b.trace| + 2 {
        ConfigureCountSnoc(b.trace + [called], b'.trace[|b.trace| + 1], n);
        assert b'.trace == b.trace + [called] + [b'.trace[|b.trace| + 1]];
      } else {
        assert b'.trace == b.trace + [called];
      }
    }
    forall i | 0 <= i < |b'.trace| ensures ConfiguredAt(b', i) && ReplyAt(b', i) {
      if i < |b.trace| {
        assert b'.trace[i] == b.trace[i];
        assert ConfiguredAt(b, i) && ReplyAt(b, i);
        if 0 < i {
          assert b'.trace[i - 1] == b.trace[i - 1];
        }
      }
    }
  }

  /** Each dispatch makes exactly one handler call and at most one send, and never configures. */
  lemma DispatchCalls(h: Handler, b: Bot, channelName: string, senderId: string, message: string)
    ensures var r := Dispatch(h, b, channelName, senderId, message);
      && OfKind(r.trace, HandlerKind) == OfKind(b.trace, HandlerKind) + [HandlerCalled(channelName, senderId, message, h(channelName, senderId, message))]
      && OfKind(r.trace, ConfigureKind) == OfKind(b.trace, ConfigureKind)
      && |OfKind(r.trace, SendKind)| == |OfKind(b.trace, SendKind)| +
           (if h(channelName, senderId, message).Some? && channelName in b.channels then 1 else 0)
  {
  }
}
