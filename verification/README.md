# KituraBot dispatch core in Dafny

A model of the dispatch core of KituraBot, a multi-channel chatbot framework for
Kitura. The `KituraBot` class keeps a dictionary from channel name to channel
adapter (`KituraBotProtocol`). It also hands every adapter one inbound callback.
For each user message, the callback asks the application handler for a reply. It
sends that reply back through the adapter registered under the same channel name,
addressed to the original sender.

The model is a functional state machine:

- `KituraBot.Bot` holds the router token, the channel dictionary
  (`map<string, ChannelId>`), and a trace of every outward call the core has made.
- The trace records three kinds of `Event`: `Configure` (an adapter's
  `configure`), `HandlerCalled` (a call of the application handler, with the
  reply it returned) and `SendTextMessage` (an adapter's `sendTextMessage`).
- `KituraBot.AddChannel` models `addChannel`. A thrown `KituraBotError` becomes
  `Failure(ChannelAlreadyExist)`.
- `KituraBot.Dispatch` models the private inbound callback.
- The application handler answering one call is a function parameter of type
  `(string, string, string) -> Option<string>`.
- `Sessions.Run` applies a sequence of `addChannel` calls and inbound messages,
  one after another. The closure stored at construction may keep conversation
  state, so a run takes a `Conversation`: the handler's behaviour at each call
  of the run, which may differ from call to call.
- `KituraBot.WellFormed` is the invariant every reachable bot keeps:
  - every registered name was configured exactly once, and no other name was
    configured;
  - every configure call matches its registry entry and the bot's router;
  - every message sent is the reply the handler returned for the inbound
    message recorded just before it, sent through that channel's adapter to
    that sender.

## Model

| member | source | states |
|---|---|---|
| KituraBot.InitWellFormed | Sources/KituraBot.swift:42-45 | `Init`, the constructor, keeps the router it is given; the new bot has no channels, has made no calls, and satisfies the invariant |
| KituraBot.AddChannel | Sources/KituraBot.swift:47-55 | fails with `channelAlreadyExist` exactly when the name is already registered; on success the registry is the old one plus the new name bound to the new adapter, every old entry is kept, and the only call made is one `configure` with the bot's router and that same name |
| KituraBot.Dispatch | Sources/KituraBot.swift:57-63 | the registry and router are untouched; the handler is called first, once, with the unchanged channel name, sender and message, and its answer is recorded; a second call happens exactly when the handler returned a reply and the channel name is registered, and it is `sendTextMessage` on that channel's adapter to the sender with the reply text |
| KituraBot.DispatchCalls | Sources/KituraBot.swift:57-61 | one inbound message adds exactly one handler call, no configure call, and one send if the handler replied and the channel is registered, none otherwise |
| KituraBot.AddChannelPreservesWellFormed | Sources/KituraBot.swift:47-55 | a successful registration keeps the invariant: the new name is configured exactly once, and earlier configures and replies still match the registry |
| KituraBot.DispatchPreservesWellFormed | Sources/KituraBot.swift:57-63 | an inbound message keeps the invariant, whatever handler answers it: a send it makes is the reply the handler returned for that message, through the adapter registered under its channel name, addressed to its sender |
| Sessions.StepHandlerCalls | Sources/KituraBot.swift:47-58 | one call adds a handler call exactly when it is an inbound message, with that message's unchanged arguments; `addChannel` never calls the handler |
| Sessions.StepConfigures | Sources/KituraBot.swift:47-57 | one call adds a `configure` call exactly when it is a successful registration, with the bot's router and the registered name; inbound messages never configure |
| Sessions.Step | Sources/KituraBot.swift:47-63 | an `addChannel` call succeeds exactly when the name is new; a refused call throws `channelAlreadyExist` and leaves the bot, including its trace, exactly as before, so no `configure` happens; an inbound message is always dispatched |
| Sessions.Run | Sources/KituraBot.swift:35-37 | a run gives one result per call, never changes the router, and only appends to the trace |
| Sessions.RunFirstRegistrationWins | Sources/KituraBot.swift:47-55 | no entry is ever removed or overwritten; a name that is new to the bot is registered after a run exactly when some call registers it, and it is bound to the adapter of the first such call |
| Sessions.RunKeysAreSucceeded | Sources/KituraBot.swift:47-55 | the names registered after a run are the names before it plus the names whose `addChannel` returned normally |
| Sessions.RunAddedOnce | Sources/KituraBot.swift:48-50 | a registration succeeds only for a name not registered before the run, and no name is registered successfully twice |
| Sessions.RunHandlerCallsInOrder | Sources/KituraBot.swift:57-58 | the handler calls made by a run are exactly the run's inbound messages, unchanged and in order, each with the answer the handler gave at that call |
| Sessions.RunConfiguresSucceeded | Sources/KituraBot.swift:48-54 | the `configure` calls made by a run are exactly one per successful registration, with the bot's router and the registered name, in order |
| Sessions.RunPreservesWellFormed | Sources/KituraBot.swift:47-63 | every run from a well-formed bot ends in a well-formed bot, whatever the handler answers at each call |
| Sessions.StartedBotRegistry | Sources/KituraBot.swift:42-55 | from construction, the registry after any run holds exactly the names whose registration succeeded, and the invariant holds |

## Left out

- The Kitura `Router` and all HTTP and webhook wiring: it is a foreign library. The router is an opaque token that is only passed on to `configure`.
- What concrete `KituraBotProtocol` adapters do inside `configure` and `sendTextMessage`: this is external I/O. Both appear only as recorded calls.
- The `configure` event records the adapter, router and name but not the callback. The callback is always the bot's own inbound handler, which `Dispatch` models.
- The body of the application handler: it is user code. It is an uninterpreted total function, so a handler that crashes or hangs is not modelled.
- Concurrency: the dictionary has no lock. Calls are modelled as sequential steps.
- Re-entrancy: an adapter could invoke the callback from inside `configure`, before its entry is stored. The model treats each call as atomic.
- `KituraBot.swift` has no push endpoint, security token, message store, history API, message ids, timestamps or JSON. None of these are modelled.
- The handler receives three strings: channel name, sender id and message text. The core sends the reply itself, through `sendTextMessage` on the adapter found by channel name, not by which adapter called. An adapter that calls the callback with another channel's name therefore gets the reply routed to that other channel's adapter. The model does the same.
- Construction (`init`) is modelled by `KituraBot.Init`. The handler is not stored in the bot. Each dispatch receives the handler's behaviour at that call, and `Sessions.Run` receives it for every call of the run.
- The handler's state and any outside effects it has are not modelled. Only the answer it returns at each call is.
- KituraBot.AddChannel: channel names are compared as exact sequences of characters. Swift compares `String` dictionary keys by canonical equivalence, so `"caf\u{E9}"` and `"cafe\u{301}"` are one key to Swift's duplicate check and two keys in the model. Dafny has no Unicode normalisation to model this.
- KituraBot.Dispatch: the registry lookup uses exact character equality. Swift would also find an adapter registered under a canonically equivalent spelling and send the reply there.
- Sessions.Step: a registration "succeeds exactly when the name is new" in the sense of exact character equality, not Swift's canonical equivalence. The run lemmas built on `Sessions.Step` inherit this.
