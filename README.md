# pocket-sockets core, modelled in Dafny

pocket-sockets puts one event-driven interface over TCP and WebSocket
clients and listeners. This project models the transport-independent core:

- `AbstractClient` (module `Connection`, class `Client`). One connection has
  a lifecycle (unbound or bound, then disconnected) and a buffering event hub.
  Payloads raised while an event has no handler are queued. The first handler
  registered for that event receives the queued payloads.
- `AbstractServer` (module `Listener`, class `Server`). A listener tracks the
  clients it accepted and has a non-buffering event list.
- `VirtualClient` and `CreatePair` (module `VirtualTransport`). This is an
  in-process pair of clients. Each side holds a FIFO queue of outgoing
  buffers and an optional simulated latency.
- The two static `ValidateConfig` chains (module `Config`).

Modules:

- `EventHub` holds the event table as a value. It has pure functions for
  `_on`, `_off` and `_triggerEvent`, and the client's methods are proved to
  follow them.
- `Seqs` holds the `indexOf`/`splice` removal idiom.
- `JsValues` holds the JavaScript values that cross the boundary, their
  truthiness, and `Buffer.from(string)` as UTF-8.

The model never runs the transport drivers:

- A call to one of the client hooks (`_socketConnect`, `_socketHook`,
  `_socketSend`, `_socketDisconnect`) is appended to `driverCalls`.
- So is a call to one of the listener hooks (`_serverCreate`,
  `_serverListen`, `_serverClose`).
- A handler is an id (`EventHub.Handler`), and each invocation `fn(payload)` is
  appended to the owner's `calls` log.
- A `throw` becomes a `Failure`/`Fail` result that carries the thrown
  message (`Message()`).
- A `setTimeout` copy is a pending count (`scheduled`). It fires through
  `RunScheduledCopy`, in any order relative to other activity.

`VirtualClient` extends `AbstractClient` in the source. Here it holds its
`AbstractClient` part as the object `base`, and a handler that receives
`Ref(base)` receives the virtual client. Its `Send` and `Disconnect` run the
inherited checks on `base`. When `base` reports that the hook was called,
they run the virtual hook body (`SocketSend`, `SocketDisconnect`).

Where the code and its own documentation differ, the model follows the code,
with one exception: the trigger defect under "## Findings", where the classes
use the corrected trigger. Otherwise:

- `send` checks the payload's type before the socket and the disconnected
  flag. A disconnected client sent a number fails with the type error.
- `close` never clears `server`, so a second `close` calls `_serverClose`
  again.
- `_disconnect` has no once-guard: it sets the flag and emits `disconnect` on
  every call.
- Suppose a send with latency 0 happens while delayed copies are still
  queued. The paired client then receives the oldest queued buffer, not the
  one just sent (`VirtualTransport.ImmediateSendBehindDelayed`).

## Model

| member | source | states |
|---|---|---|
| JsValues.Utf8 | AbstractClient.js:102-107 | `Buffer.from(string)` is at least one byte per character and at most four, and an ASCII string encodes to its own character codes |
| Seqs.IndexOf | AbstractServer.js:148 | `indexOf` gives -1 exactly when the element is absent, otherwise the first index holding it |
| Seqs.RemoveAbsent | AbstractServer.js:146-152 | `indexOf` plus `splice` leaves the array unchanged when the element is absent |
| Seqs.RemovePresent | AbstractClient.js:252-259 | a present element loses exactly its first occurrence, the rest keep their order, and the length drops by one |
| Seqs.RemoveKeepsDistinct | AbstractServer.js:146-152 | removal keeps an array free of repeats and leaves the element absent |
| Seqs.AppendDistinct | AbstractServer.js:136 | `push` keeps an array free of repeats exactly when the element is new |
| Seqs.RemoveJustAppended | AbstractClient.js:242 | splicing out an element just pushed, which was absent before, restores the array |
| EventHub.Deliver | AbstractClient.js:316-320 | `forEach` calls every handler once with the same payload, in registration order |
| EventHub.Replay | AbstractClient.js:235-241 | the replay calls the one new handler with every queued payload, in arrival order |
| EventHub.Register | AbstractClient.js:230-243 | `_on` appends the handler last. When the event had no handlers it replays the whole queue to the handler and empties the queue. With handlers it calls nobody and keeps the queue. No other event changes |
| EventHub.Unregister | AbstractClient.js:252-259 | `_off` removes only the first occurrence of the handler and keeps the queue. An absent handler or an unknown event changes nothing. No other event changes |
| EventHub.Trigger | AbstractClient.js:307-321 | with handlers, each is called once with the payload, in order, and the table is unchanged. With none and buffering on, the payload joins the queue. With none and buffering off, nothing changes |
| EventHub.TriggerAsWritten | AbstractClient.js:307-321 | as written, a payload for an event that has no table entry is dropped even when buffering is on. Otherwise it agrees with `Trigger` |
| EventHub.BufferedPayloadsReplayedOnce | AbstractClient.js:230-243 | payloads raised while there is no handler all reach the next registered handler exactly once, in arrival order. A second handler receives none of them |
| EventHub.BufferAccumulates | AbstractClient.js:310-314 | without handlers, successive buffered triggers call nobody and append their payloads in order |
| EventHub.NoBufferingWithHandlers | AbstractClient.js:310-320 | once an event has a handler, a buffered trigger only delivers and queues nothing |
| EventHub.EarlyPayloadLostAsWritten | AbstractClient.js:309 | as written, a payload buffered on an event without an entry never reaches the first handler. The corrected trigger delivers it |
| EventHub.OffUndoesOn | AbstractClient.js:230-259 | `_off` after `_on` of a new handler restores the handler list and leaves the other events alone |
| Config.ValidateClientConfig | AbstractClient.js:337-366 | falsy options are refused with "Bad options", and any refusal names one of the client's checks |
| Config.ValidateServerConfig | AbstractServer.js:229-261 | falsy options are refused with "Bad options", and any refusal names one of the listener's checks |
| Config.FirstRefusalMeaning | AbstractClient.js:337-366 | running checks in order passes exactly when every check accepts. A refusal names the first failing check |
| Config.ClientConfigMeaning | AbstractClient.js:337-366 | the client's validator runs host, port, secure, rejectUnauthorized, cert, key and ca in that order and reports the first that fails |
| Config.ServerConfigMeaning | AbstractServer.js:229-261 | the listener's validator runs host, port, ipv6Only, rejectUnauthorized, requestCert, cert, key and ca in that order and reports the first that fails |
| Config.ServerRulesExtendClientRules | AbstractServer.js:229-261 | the listener accepts exactly the options the client would accept with `secure` ignored, when `ipv6Only` and `requestCert` are also falsy or boolean |
| Config.PortIsRequired | AbstractClient.js:339-347 | falsy options, or options whose `port` is not a number, are refused by both validators |
| Connection.SendOutcome | AbstractClient.js:100-118 | `send` succeeds exactly for a string or `Buffer` on a bound, not disconnected client. A failure is the first failing check of type, socket, then flag. A string is sent as its UTF-8 bytes and a `Buffer` as it is |
| Connection.SendAfterDisconnectFails | AbstractClient.js:100-118 | once disconnected, every `send` fails, with the type error for a payload of the wrong type |
| Connection.Client.constructor | AbstractClient.js:24-44 | a new client has no handlers, is not disconnected and buffers data. A given socket makes it bound and runs `_socketHook` |
| Connection.Client.Create | AbstractClient.js:24-44 | without a socket, invalid options throw the validator's message before any client exists. With a socket, validation is skipped |
| Connection.Client.Connect | AbstractClient.js:50-58 | a bound client refuses with "Reconnect not allowed." and keeps its socket. An unbound one gets the socket and calls `_socketConnect` then `_socketHook` |
| Connection.Client.Send | AbstractClient.js:100-118 | the result is `SendOutcome`. `_socketSend` is called once with the bytes on success and never on failure |
| Connection.Client.Disconnect | AbstractClient.js:123-134 | `_socketDisconnect` is called exactly once when bound and not disconnected, never otherwise. The flag is not changed |
| Connection.Client.On | AbstractClient.js:230-243 | the table and the handler invocations are those `Register` gives |
| Connection.Client.Off | AbstractClient.js:252-259 | the table is what `Unregister` gives |
| Connection.Client.TriggerEvent | AbstractClient.js:307-321 | the table and the handler invocations are those `Trigger` gives |
| Connection.Client.Disconnected | AbstractClient.js:261-265 | `_disconnect` sets the flag and calls every `disconnect` handler with the client itself, without buffering |
| Connection.Client.Data | AbstractClient.js:273-280 | a non-`Buffer` throws "Must read buffer." and changes nothing. A `Buffer` is triggered on `data`, buffered when `bufferData` is set |
| Connection.Client.Connected | AbstractClient.js:282-285 | `_connect` calls every `connect` handler with no payload, without buffering |
| Connection.Client.Error | AbstractClient.js:294-297 | `_error` calls every `error` handler with the message, without buffering |
| Connection.Client.OnError | AbstractClient.js:142-145 | registers on `error` as `_on` does |
| Connection.Client.OffError | AbstractClient.js:153-156 | unregisters from `error` as `_off` does |
| Connection.Client.OnData | AbstractClient.js:163-166 | registers on `data`, replaying buffered data to a first handler |
| Connection.Client.OffData | AbstractClient.js:174-177 | unregisters from `data` as `_off` does |
| Connection.Client.OnConnect | AbstractClient.js:185-188 | registers on `connect` as `_on` does |
| Connection.Client.OffConnect | AbstractClient.js:196-199 | unregisters from `connect` as `_off` does |
| Connection.Client.OnDisconnect | AbstractClient.js:207-210 | registers on `disconnect` as `_on` does |
| Connection.Client.OffDisconnect | AbstractClient.js:218-221 | unregisters from `disconnect` as `_off` does |
| Listener.ErrorPayload | AbstractServer.js:175-178 | the payload is `err.message` when that is truthy, and `err` itself otherwise |
| Listener.Subscribe | AbstractServer.js:194-199 | the listener's `_on` only appends the handler to its event, and no other event changes |
| Listener.Server.constructor | AbstractServer.js:25-46 | a new listener has no clients, no `SocketType` and no handlers, is not disconnected, and has called `_serverCreate` |
| Listener.Server.Create | AbstractServer.js:25-46 | invalid options throw the validator's message before `_serverCreate` could run |
| Listener.Server.Listen | AbstractServer.js:77-80 | `listen` calls `_serverListen` once |
| Listener.Server.Close | AbstractServer.js:85-93 | without a listening socket nothing changes, for the listener or its clients. Otherwise `_serverClose` runs once, and every tracked client gets one `disconnect()` request, judged on its state before the call, with its socket, flag, buffering, handlers and handler calls unchanged. `clients` ends empty |
| Listener.Server.AddClient | AbstractServer.js:134-139 | the client is appended and one disconnect hook that removes it is registered on it. `connection` handlers are called with the client |
| Listener.Server.RemoveClient | AbstractServer.js:146-152 | the client's first occurrence leaves `clients` and the rest keep their order. An absent client changes nothing |
| Listener.Server.Connection | AbstractServer.js:160-168 | with no `SocketType` it throws "SocketType must be a valid instance" and `clients` is unchanged. Otherwise a new client is made for the socket and added. It is bound without options, not disconnected, buffers data and has made no handler calls, and its only handler is the removal hook on `disconnect` |
| Listener.Server.Error | AbstractServer.js:175-178 | `error` handlers are called with `ErrorPayload(err)` |
| Listener.Server.Closed | AbstractServer.js:183-186 | `close` handlers are called with no payload |
| Listener.Server.On | AbstractServer.js:194-199 | the handler lists are what `Subscribe` gives |
| Listener.Server.TriggerEvent | AbstractServer.js:207-213 | every handler of the event is called once with the payload, in order. With none, nothing happens and nothing is buffered |
| Listener.Server.OnConnection | AbstractServer.js:102-105 | registers on `connection` |
| Listener.Server.OnError | AbstractServer.js:114-117 | registers on `error` |
| Listener.Server.OnClose | AbstractServer.js:124-127 | registers on `close` |
| VirtualTransport.Shift | VirtualClient.js:82-86 | a copy moves exactly the queue's head to the delivered buffers and loses or reorders nothing |
| VirtualTransport.Push | VirtualClient.js:54-65 | a send puts the buffer at the back of the queue. With latency one more copy is pending. Without latency the queue's head is delivered at once. The buffers delivered plus those queued gain exactly the new buffer |
| VirtualTransport.Fire | VirtualClient.js:60 | a timer firing delivers the queue's head and leaves one pending copy fewer |
| VirtualTransport.ImmediateSendOnIdlePipe | VirtualClient.js:59-62 | with latency 0 and nothing queued, the sent buffer is delivered at once and the queue stays empty |
| VirtualTransport.ImmediateSendBehindDelayed | VirtualClient.js:59-62 | with latency 0 while copies are queued, the oldest queued buffer is delivered and the new one waits at the back |
| VirtualTransport.RunKeepsSendOrder | VirtualClient.js:18-24 | in any interleaving of sends and timer firings, the buffers delivered and then those queued are exactly the buffers sent, in send order. There is one pending copy per queued buffer |
| VirtualTransport.DrainDeliversAll | VirtualClient.js:18-24 | once every pending copy has fired, the queue is empty and every queued buffer has been delivered once, in order |
| VirtualTransport.TraceDeliversAll | VirtualClient.js:18-24 | in any trace, once the timers have fired, the paired client has received exactly the buffers sent, in send order |
| VirtualTransport.VirtualClient.constructor | VirtualClient.js:9-29 | a new virtual client is bound without validation, with latency 0 and an empty queue, and is not disconnected. A given paired client is paired back to it |
| VirtualTransport.VirtualClient.SetLatency | VirtualClient.js:37-40 | only this side's latency changes |
| VirtualTransport.VirtualClient.CopyToPaired | VirtualClient.js:82-86 | the queue's head is shifted off and handed to the paired client's `_data`. An empty queue hands over `undefined`, which the paired client refuses with "Must read buffer." |
| VirtualTransport.VirtualClient.SocketSend | VirtualClient.js:54-65 | without a paired client nothing changes. Otherwise the outgoing side changes as `Push` says. At latency 0 the paired client's `data` event receives the queue's head. A delayed send leaves the paired client untouched |
| VirtualTransport.VirtualClient.RunScheduledCopy | VirtualClient.js:60 | a pending copy always finds a buffer and a paired client, and changes the outgoing side as `Fire` says |
| VirtualTransport.VirtualClient.SocketDisconnect | VirtualClient.js:70-76 | both the paired client and this one are marked disconnected, and each calls its `disconnect` handlers with itself |
| VirtualTransport.VirtualClient.Send | AbstractClient.js:100-118 | a virtual client is always bound, so a string or `Buffer` fails only once disconnected. A success queues or delivers the bytes as `Push` says, and at latency 0 the paired client's `data` event receives the queue's head. A failed or delayed send leaves the paired client untouched |
| VirtualTransport.VirtualClient.Disconnect | AbstractClient.js:123-134 | the first `disconnect()` marks both ends disconnected and emits on both. Later calls change neither end. Handler tables never change |
| VirtualTransport.CreatePair | VirtualClient.js:89-94 | two fresh clients, each the other's pair, with latency 0 and nothing queued. Both are bound and not disconnected, have no handlers and no handler calls, and buffer data |
| VirtualTransport.PairDeliversFirstSend | VirtualClient.js:54-65 | on a fresh pair, a data handler on one end receives exactly the UTF-8 bytes of a string the other end sends, at once |

## Findings

| source | as written | input that shows it | evidently intended | confidence | as-written member | corrected member |
|---|---|---|---|---|---|---|
| AbstractClient.js:307-321 | `_triggerEvent` falls back to a fresh `[[], []]` pair for an event without an entry and never stores that pair. A payload buffered for an event without an entry is pushed onto a discarded array | a new client receives `_data(Buffer.from("x"))`, then `onData(h)` runs: `h` is never called | the payload is kept and replayed to the first data handler, as the `bufferData` comment at AbstractClient.js:34 says | not executed | EventHub.TriggerAsWritten (shown by EventHub.EarlyPayloadLostAsWritten) | EventHub.Trigger (with EventHub.BufferedPayloadsReplayedOnce) |

`Connection.Client.TriggerEvent`, and everything built on it, follows the
corrected `EventHub.Trigger`.

## Left out

- The TCP and WebSocket drivers (`TCPClient.js`, `TCPServer.js`, `WSClient.js`, `WSServer.js`) and `index.js` are not part of this model. Driver hooks are only recorded in `driverCalls`, and the sockets they create are opaque handles.
- Handler bodies are not run. A handler is an id and each invocation is logged, so handlers that register or unregister during dispatch are not modelled.
- The listener's per-client disconnect hook is recorded as `RemoveClientHook`. Its effect is the separate operation `Listener.Server.RemoveClient`. It does not run by itself when a client disconnects, including while `close` iterates.
- Calls to different objects are logged per object. The order across objects, such as the paired client's `disconnect` handlers running before this client's, is not recorded.
- `setTimeout` timing is not modelled. A delayed copy is a pending count that `RunScheduledCopy` fires, in any order relative to other activity.
- `Buffer.from(string)` is UTF-8 over Unicode scalar values. Lone UTF-16 surrogates are not modelled.
- Numbers are mathematical integers. Fractions, `NaN` and infinities are left out. The validators only ask whether `port` is a number at all, so nothing they decide depends on this.
- `null` and `undefined` are one value, `Null`. Every test the core makes treats them alike.
- Event names are looked up as map keys. Lookups that would hit `Object.prototype` properties (such as `"constructor"`) are not modelled.
- The `bind` calls in both constructors and the client's `userData` field are left out. Neither affects any modelled behaviour.
- `SocketType` is a flag that only a derived class sets, by assigning the field. With it set, `_connection` builds a plain `Client` from `(null, socket)`. Driver-specific subclasses are not part of this model.
- `_serverClose`'s default body (`this.server.close()`) is recorded as `ServerClose`. The listener's `isDisconnected` field is kept but never changes, as in the source.
- Listener.Server.Close: the per-client effect (one `disconnect()` request each) is stated only when `clients` has no repeats. A client tracked twice gets two requests, and `_connection` never tracks a client twice.
- Listener.Server.AddClient, Listener.Server.RemoveClient, Listener.Server.Connection: "no repeats in `clients`" is stated as preserved, not assumed. A caller that adds a tracked client again breaks it, as the source allows.
- VirtualTransport.VirtualClient.SocketSend, VirtualTransport.VirtualClient.Send, VirtualTransport.VirtualClient.Disconnect, VirtualTransport.VirtualClient.SocketDisconnect: these require the class invariant `Valid()`. It holds for every client built by the constructor and `CreatePair` and is kept by every operation except a direct `CopyToPaired` outside a timer. A direct copy shifts the queue without cancelling a timer, after which a later timer hands `undefined` to the paired client.
- Connection.Client.TriggerEvent, Connection.Client.Data, VirtualTransport.VirtualClient.CopyToPaired, VirtualTransport.VirtualClient.SocketSend, VirtualTransport.VirtualClient.RunScheduledCopy, VirtualTransport.VirtualClient.Send: these follow the corrected `EventHub.Trigger`, not the code as written. A payload raised on an event that has never had an entry is kept and replayed by the model, but lost by the source. `EventHub.TriggerAsWritten` models the code as written.
