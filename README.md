# qewd-svelte: the store adapters, modelled in Dafny

qewd-svelte exposes a real-time messaging client as Svelte writable stores. Two near-duplicate adapters do this:
`src/qewdStore.js` wraps the `qewd-client` QEWD object, and `src/ewd/ewdStore.js` wraps the `ewd-client` EWD object.
Each adapter keeps a small amount of state of its own:

- the `isConnected` and session stores;
- a generic last-message store;
- a registry (a `Map`) from message type to a store, filled lazily by `getMessageStore` / `subscribeToMessageType`.

The client's lifecycle events drive that state: `ewd-registered`, `socketDisconnected` and `error` in both adapters,
`ewd-reregistered` in the qewd adapter only, and `ewd-message` in the ewd adapter only. The explicit `connect()` and `disconnect()` calls change it too. `sendMessage`
checks a precondition, builds a `{type, params}` envelope, and turns the server's response into a resolved or
rejected promise.

The files:

- `js.dfy` (module `Js`): the JavaScript semantics the adapters rely on. This covers values, truthiness (`""`, `0`,
  `null` and `undefined` are falsy), the TypeError raised by reading a property of `null` or `undefined`, `a || b`,
  the envelope, and how a send ends (`Outcome`).
- `registry.dfy` (module `MessageRegistry`): the `messageStores` Map. A store is an object, so store identity is
  modelled as the store's creation index. `index[t]` is the store registered for `t`, and `slots[i]` is the current
  value of store `i`.
- `qewd_store.dfy` (module `Qewd`) and `ewd_store.dfy` (module `Ewd`): one adapter each. Each file has a class
  (`QewdStore`, `EwdStore`) with one field per module-level variable, and one method per event handler and per API
  call that changes state (`connect`, `disconnect`, `getMessageStore`, `subscribeToMessageType`). `sendMessage` and
  `getSession` only read the client, so they are module-level functions (`SendMessage`, `GetSession`).
  The module-level variables are the stores and the registry, and in the ewd adapter also the client instance
  (`ewdClientInstance`); the qewd adapter has no instance variable and reads the imported `QEWD` object. The class
  also holds an abstract view of the wrapped client and a flag saying whether `connect` has registered its handlers.
  Every method ties its new state to a pure `Step(snapshot, event)` function. `Run` folds `Step` over a sequence of
  events, and the lemmas about whole event sequences are stated over `Run`.
- `conventions.dfy` (module `Conventions`): the two adapters' response-error conventions, compared on the same
  responses.

The wrapped clients are foreign code, so their effects are parameters:

- `Connect` receives the client as the foreign `start` leaves it. In the ewd adapter it also receives whether
  `EWD.start` returns a truthy instance.
- A `ClientChanged` event stands for the client changing its own properties.
- `sendMessage` receives what `QEWD.reply` produces (a response, a rejection, or no reply at all). In the ewd
  adapter it receives what `EWD.send` does, in time order: callback invocations (during `EWD.send` or after it has
  returned) and a synchronous throw.

Two properties one might expect of the adapters do not hold in the code:

- Neither adapter's `sendMessage` looks at the `isConnected` store. The qewd adapter tests `QEWD.application`, and
  the ewd adapter tests the instance and `EWD.session.token`. So after `disconnect()`, a send still goes out when the
  client still holds those values (`SendIgnoresConnectionFlag` in both modules).
- In the ewd adapter, "`isConnected` is true iff a session is present" is not an invariant. The already-connected
  guard of `connect` sets `isConnected` without touching the session (`Ewd.ConnectedWithoutSession`). Also,
  `ewd-registered` copies whatever `EWD.session` is. In the qewd adapter the agreement does hold over every event
  sequence (`Qewd.RunKeepsConsistent`).

## Model

| member | source | states |
|---|---|---|
| `Js.Envelope` | src/qewdStore.js:87-91 | the outbound message has exactly the keys `type` and `params`, holding the arguments; no token is added |
| `MessageRegistry.GetOrCreate` | src/qewdStore.js:16-21 | returns the store registered for the type. The registry gains at most that one key, loses none, and leaves every other store and its value as they were. A new store starts as `null` and is distinct from every existing store. A type already present leaves the registry unchanged |
| `MessageRegistry.Route` | src/ewd/ewdStore.js:64-67 | sets the value of the store registered for the type, and nothing happens if there is none. No key is created, and no other store's value changes (this needs distinct types to have distinct stores) |
| `MessageRegistry.SameStoreLater` | src/qewdStore.js:16-21 | once a type has a store, a later lookup after any growth of the registry returns that same store and changes nothing |
| `Qewd.Initial` | src/qewdStore.js:7-14 | at module load: not connected, session `null`, `qewdMessages` `null`, empty registry, no handlers registered |
| `Qewd.Step` | src/qewdStore.js:29-137 | no event or call removes a registry key, moves a type to another store, or changes a store's value. `qewdMessages` is never written |
| `Qewd.RunKeepsConsistent` | src/qewdStore.js:40-65 | over any event sequence, `isConnected` is true exactly when the session store holds a session, provided this held at the start (it holds at module load) |
| `Qewd.RunKeepsStores` | src/qewdStore.js:11-21 | over any event sequence the registry only grows, each type keeps its store, store values are never written, and `qewdMessages` stays as it was |
| `Qewd.SameStoreAfterRun` | src/qewdStore.js:16-25 | `getMessageStore(t)` returns the same store on every call, whatever events come in between, and a repeated call does not change the registry |
| `Qewd.HandlersIdempotent` | src/qewdStore.js:40-71 | delivering a lifecycle event twice ends in the same state as once. Each `connect` registers the handlers again, so this is what makes duplicate registrations harmless |
| `Qewd.Classify` | src/qewdStore.js:94-107 | a `QEWD.reply` that never settles leaves the call pending, and only that does. A failed `QEWD.reply` rejects with its error. A null or undefined response rejects with a TypeError. Otherwise the call rejects with `response.message` iff `response.message.error` is truthy, and resolves with the whole response if not |
| `Qewd.SendMessage` | src/qewdStore.js:80-108 | nothing is sent iff `QEWD.application` is falsy, and then the call fails with "QEWD Store: Not connected.". Otherwise exactly `{type, params}` is sent and the outcome is the response classification |
| `Qewd.NestedError` | src/qewdStore.js:100 | the nested error marker is present iff `response.message` is an object whose `error` is truthy |
| `Qewd.Run` | src/qewdStore.js:29-137 | events take effect one after another, in the order the client delivers them; the registry stays well formed |
| `Qewd.SessionJwtIsLive` | src/qewdStore.js:45-48 | after registration and a later change of the client, the stored session still has the old application but its `jwt` reports the new token |
| `Qewd.QewdStore.ClientChanged` | src/qewdStore.js:46-47 | between events, the foreign client changes the live `QEWD` object that lines 46-47, 82, 122-125 and 131 read: it changes `QEWD.application`, `QEWD.jwt` or `QEWD.disconnectSocket`; only the client view changes |
| `Qewd.NotConnectedNeverReplies` | src/qewdStore.js:82-85 | without an application, the outcome does not depend on any reply: `QEWD.reply` plays no part |
| `Qewd.SendIgnoresConnectionFlag` | src/qewdStore.js:82-85 | after `disconnect()` the `isConnected` store is false, yet a send still goes out while `QEWD.application` is truthy |
| `Qewd.GetSession` | src/qewdStore.js:121-127 | returns `null` iff `QEWD.application` is falsy, and otherwise a session carrying that application |
| `Qewd.GetSessionAfterRegistered` | src/qewdStore.js:40-49 | after `ewd-registered` the store holds `{application}`. `getSession()` agrees with the store exactly when the application is truthy |
| `Qewd.DemoRegistration` | src/qewdStore.js:40-49 | `connect` then `ewd-registered` for application "demo" and token "t1": connected, and the session has application "demo" and jwt "t1" |
| `Qewd.QewdStore.constructor` | src/qewdStore.js:6-14 | the module-level stores and registry in their initial state |
| `Qewd.QewdStore.GetMessageStore` | src/qewdStore.js:16-21 | get-or-create on the registry field: at most the requested key is added, and a new store starts as `null` |
| `Qewd.QewdStore.SubscribeToMessageType` | src/qewdStore.js:23-25 | the same as `getMessageStore` |
| `Qewd.QewdStore.Connect` | src/qewdStore.js:30-78 | always starts the client and registers the handlers. The stores are not touched |
| `Qewd.QewdStore.OnRegistered` | src/qewdStore.js:40-49 | `isConnected` becomes true and the session becomes `{application: QEWD.application}` |
| `Qewd.QewdStore.OnReregistered` | src/qewdStore.js:51-59 | `isConnected` stays or becomes true and the session is replaced with the current application |
| `Qewd.QewdStore.OnSocketDisconnected` | src/qewdStore.js:61-65 | `isConnected` becomes false and the session `null`, whatever the prior state |
| `Qewd.QewdStore.OnError` | src/qewdStore.js:67-71 | changes nothing |
| `Qewd.QewdStore.Disconnect` | src/qewdStore.js:130-137 | calls `disconnectSocket` exactly when it exists. It always ends with `isConnected` false and the session `null` |
| `Ewd.Initial` | src/ewd/ewdStore.js:4-25 | at module load: not connected, session and `ewdMessages` `null`, empty registry, no instance, no handlers |
| `Ewd.RoutedType` | src/ewd/ewdStore.js:64 | a message is routed by its `type` only when that is a truthy string, i.e. a possible registry key |
| `Ewd.Payload` | src/ewd/ewdStore.js:66 | the routed value is `message.message` when that is truthy, and the whole message otherwise |
| `Ewd.OnMessage` | src/ewd/ewdStore.js:59-68 | `ewdMessages` always becomes the message. Only an existing key equal to the message's type gets the payload, no key is created, and no other store changes. A null or undefined message stops at the throwing `message.type` read, after `ewdMessages` is set |
| `Ewd.Step` | src/ewd/ewdStore.js:27-118 | only `getMessageStore` adds registry keys. No event or call removes a key or moves a type to another store |
| `Ewd.RunKeepsStores` | src/ewd/ewdStore.js:14-19 | over any event sequence the registry only grows and each type keeps its store. The only new keys are the types asked for through `getMessageStore`, so routing never creates an entry |
| `Ewd.SameStoreAfterRun` | src/ewd/ewdStore.js:14-23 | `getMessageStore(t)` returns the same store on every call, whatever events come in between, and a repeated call does not change the registry |
| `Ewd.ConnectGuard` | src/ewd/ewdStore.js:28-36 | with an instance whose socket is connected, `connect` only sets `isConnected` true: no new client and the session unchanged. Otherwise the instance and client are replaced by what `EWD.start` gives, and the session is unchanged |
| `Ewd.ConnectTwice` | src/ewd/ewdStore.js:29-33 | while live, a second `connect` changes nothing more than the first, and `isConnected` stays true |
| `Ewd.HandlersIdempotent` | src/ewd/ewdStore.js:38-68 | delivering `ewd-registered`, `socketDisconnected`, `error` or `ewd-message` twice ends in the same state as once |
| `Ewd.ConnectedWithoutSession` | src/ewd/ewdStore.js:29-42 | a reachable state has `isConnected` true while the session store is `null`: a second `connect` once the socket is up, before registration |
| `Ewd.Classify` | src/ewd/ewdStore.js:85-92 | for a readable response: reject with the whole response iff `response.error` is truthy, otherwise resolve with it |
| `Ewd.Settle` | src/ewd/ewdStore.js:72-93 | the promise stays pending iff nothing settles it: every invocation is a callback run after `EWD.send` returned and given null or undefined (it throws before settling). Otherwise the first invocation that settles it decides the outcome |
| `Ewd.Effect` | src/ewd/ewdStore.js:72-92 | a throw escaping `EWD.send` rejects with the thrown value. A callback run during `EWD.send` with null or undefined rejects with the TypeError it throws into the executor. A readable response is classified |
| `Ewd.SettlesOnce` | src/ewd/ewdStore.js:85-92 | once settled, further invocations do not change the outcome |
| `Ewd.SendMessage` | src/ewd/ewdStore.js:71-94 | nothing is sent iff the instance, `EWD.session` or `EWD.session.token` is falsy, and then the call fails with "EWD Store: Not connected or no session token.". Otherwise exactly `{type, params}` is sent and the outcome is `Settle` of what `EWD.send` does |
| `Ewd.NotConnectedNeverSends` | src/ewd/ewdStore.js:73-76 | when the precondition fails, the outcome does not depend on what `EWD.send` would do: it plays no part |
| `Ewd.MaySend` | src/ewd/ewdStore.js:73 | a send may go out iff an instance exists and `EWD.session` is an object carrying a truthy `token` |
| `Ewd.GetSession` | src/ewd/ewdStore.js:107 | returns `EWD.session` unchanged; whenever a send may go out, that is an object with a truthy token |
| `Ewd.Run` | src/ewd/ewdStore.js:27-118 | events take effect one after another, in the order the client delivers them; the registry stays well formed |
| `Ewd.Requested` | src/ewd/ewdStore.js:21-23 | exactly the types a sequence of events asks `subscribeToMessageType` / `getMessageStore` for |
| `Ewd.EwdStore.ClientChanged` | src/ewd/ewdStore.js:41 | between events, the client replaces `EWD.session` or its socket connects or disconnects; only the client view changes |
| `Ewd.SendIgnoresConnectionFlag` | src/ewd/ewdStore.js:73-76 | after `disconnect()` the `isConnected` store is false, yet a send still goes out while the instance and the token are there |
| `Ewd.GetSessionAfterRegistered` | src/ewd/ewdStore.js:107 | after `ewd-registered` (line 41) the session store holds exactly what `getSession()` returns. Before `connect` the event changes nothing |
| `Ewd.EwdStore.constructor` | src/ewd/ewdStore.js:4-25 | the module-level stores, registry and `ewdClientInstance = null` |
| `Ewd.EwdStore.GetMessageStore` | src/ewd/ewdStore.js:14-19 | get-or-create on the registry field: at most the requested key is added, and a new store starts as `null` |
| `Ewd.EwdStore.SubscribeToMessageType` | src/ewd/ewdStore.js:21-23 | the same as `getMessageStore` |
| `Ewd.EwdStore.Connect` | src/ewd/ewdStore.js:28-69 | `EWD.start` is called iff no live instance exists. When not called, `isConnected` becomes true. The session is never touched |
| `Ewd.EwdStore.OnRegistered` | src/ewd/ewdStore.js:38-42 | `isConnected` becomes true and the session store becomes `EWD.session` |
| `Ewd.EwdStore.OnSocketDisconnected` | src/ewd/ewdStore.js:44-48 | `isConnected` becomes false and the session `null` |
| `Ewd.EwdStore.OnError` | src/ewd/ewdStore.js:50-53 | changes no store |
| `Ewd.EwdStore.OnEwdMessage` | src/ewd/ewdStore.js:59-68 | sets `ewdMessages` and routes to an existing store only; the registry keys do not change |
| `Ewd.EwdStore.Disconnect` | src/ewd/ewdStore.js:110-118 | calls `socket.disconnect()` exactly when an instance with a connected socket exists. It always ends with `isConnected` false and the session `null` |
| `Conventions.FlatErrorResponse` | src/ewd/ewdStore.js:87-91 | `{error: "bad token"}` rejects in the ewd adapter but resolves in the qewd adapter |
| `Conventions.NestedErrorResponse` | src/qewdStore.js:100-103 | `{message: {error: "x"}}` rejects with the inner message in the qewd adapter but resolves in the ewd adapter |
| `Conventions.PingResponse` | src/qewdStore.js:98-103 | a response without an error marker resolves with the whole response in both adapters |

## Left out

- The wrapped clients (`QEWD.start`, `QEWD.reply`, `QEWD.disconnectSocket`, `EWD.start`, `EWD.send`, the socket) are
  foreign code. They appear only as parameters and as the abstract `Client` view, which the `ClientChanged` event may
  change at any time. The jwt getter's decoding is not modelled; the getter itself is modelled as `Qewd.Jwt`, a read
  of the current `QEWD.jwt`.
- Qewd.QewdStore.Connect: assumes `QEWD.start(config)` (src/qewdStore.js:38) returns normally. If it threw, the
  exception would reach the caller before the handlers at lines 40-71 are registered; the model always registers them.
- Ewd.EwdStore.Connect: assumes `EWD.start(config)` (src/ewd/ewdStore.js:36) returns normally. If it threw,
  `ewdClientInstance` would not be reassigned and no handler at lines 38-68 would be registered; the model always
  does both when the instance is not live.
- Qewd.QewdStore.Disconnect: assumes `QEWD.disconnectSocket()` (src/qewdStore.js:132) returns normally; a throw would
  skip the store reset at lines 135-136, which the model always performs. It also does not say how `QEWD.disconnectSocket()` changes the client or whether it emits
  `socketDisconnected`, because that is the foreign client's behaviour. A following `ClientChanged` or
  `SocketDisconnected` event models either.
- Ewd.EwdStore.Disconnect: assumes `socket.disconnect()` (src/ewd/ewdStore.js:112) returns normally; a throw would
  skip the store reset at lines 115-116, which the model always performs. It also does not mark the socket as
  disconnected afterwards, because what the socket does after `socket.disconnect()` is the foreign client's
  behaviour. A later `ClientChanged` models it.
- Svelte's `writable` subscription and notification: each store is modelled as the value it currently holds.
- The `on(messageType, callback)` passthrough (src/qewdStore.js:111-118, src/ewd/ewdStore.js:97-104). It only
  guards and delegates to the client's emitter. Event delivery is modelled as direct calls of the handler methods,
  gated by whether `connect` has registered the handlers.
- Promise scheduling. `sendMessage` is a function from the client's reply, or from what `EWD.send` does, to one
  outcome. In-flight sends are not interleaved. No correlation id and no timeout exist in the source, and none is
  added.
- Registry keys are strings. The source's `Map` accepts any key, so after `subscribeToMessageType(42)` a message
  `{type: 42, message: X}` would be routed to that store; non-string keys, and their routing, are not modelled.
- Writes to the stores by other code: every store is an exported `writable`, and `subscribeToMessageType` hands out
  the per-type store itself, so any importer may call `.set` on them. The `Event` type has no such case, so
  `Qewd.RunKeepsConsistent`, `Qewd.RunKeepsStores` and `Ewd.RunKeepsStores` describe the adapters' own writes only.
- Ewd.Step: `ewd-registered` stores the very object `EWD.session` refers to, and `getSession()` returns it. The model
  copies its value, so a later reassignment of `EWD.session` is modelled (through `ClientChanged`) but a change the
  client makes inside that shared object (a new `token`, say) does not show in the model's session store.
- Numbers are integers. There is no NaN and no floating point, which changes no branch the adapters take on the
  values they read.
- Logging (`console.log`, `console.warn`, `console.error`) and the commented-out auto-connect blocks.
