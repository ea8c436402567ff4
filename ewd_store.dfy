/** The Svelte adapter over the `ewd-client` EWD object (src/ewd/ewdStore.js). */
module Ewd {
  import opened Js
  import opened MessageRegistry

  /** What the adapter reads of the wrapped client, which changes it on its own: `EWD.session`, and whether the
      socket of the current client instance exists and is connected (`instance.socket && instance.socket.connected`). */
  datatype Client = Client(session: JsValue, socketConnected: bool)

  /** The module-level state: the three exported stores, the registry, whether `ewdClientInstance` is truthy,
      the client, and whether `connect` has registered its event handlers on `EWD`. */
  datatype Snapshot = Snapshot(
    isConnected: bool,
    ewdSession: JsValue,
    ewdMessages: JsValue,
    stores: Registry,
    hasInstance: bool,
    client: Client,
    listening: bool)

  /** The state when the module is loaded: `ewdClientInstance = null`. */
  function Initial(c: Client): (s: Snapshot)
    ensures !s.isConnected && s.ewdSession == Null && s.ewdMessages == Null
    ensures s.stores == Empty && WellFormed(s.stores) && !s.hasInstance && !s.listening
  {
    Snapshot(false, Null, Null, Empty, false, c, false)
  }

  /** The already-connected test of `connect` and `disconnect`, `ewdClientInstance && ewdClientInstance.socket &&
      ewdClientInstance.socket.connected`: the client's `socketConnected` stands for the last two conjuncts. */
  predicate Live(s: Snapshot)
  {
    s.hasInstance && s.client.socketConnected
  }

  /** Everything that changes the module state: the API calls, the four events `connect` listens to, and the
      wrapped client changing its own properties (`ClientChanged`). `Connect` carries what the foreign
      `EWD.start(config)` would produce: whether it returns a truthy instance, and the client it leaves. */
  datatype Event =
    | Connect(startReturns: bool, started: Client)
    | GetStore(msgType: string)
    | Registered
    | SocketDisconnected
    | Error(error: JsValue)
    | Message(message: JsValue)
    | Disconnect
    | ClientChanged(now: Client)

  /** The type a generic message is routed by: `message.type` when it is a non-empty string (a truthy value that
      can be a key of the registry). */
  function RoutedType(message: JsValue): (t: Option<string>)
    requires !ReadThrows(message)
    ensures t.Some? <==> Truthy(Prop(message, "type")) && Prop(message, "type").Str?
    ensures t.Some? ==> Prop(message, "type") == Str(t.value)
  {
    var ty := Prop(message, "type");
    if ty.Str? && ty.s != "" then Some(ty.s) else None
  }

  /** What a routed message puts into its type's store: `message.message || message`. */
  function Payload(message: JsValue): (p: JsValue)
    requires !ReadThrows(message)
    ensures Truthy(Prop(message, "message")) ==> p == Prop(message, "message")
    ensures !Truthy(Prop(message, "message")) ==> p == message
  {
    Or(Prop(message, "message"), message)
  }

  /** The `ewd-message` handler. `ewdMessages` is set first; reading `message.type` of a null or undefined
      message then throws, which ends the handler before any routing. */
  function OnMessage(s: Snapshot, message: JsValue): (r: Snapshot)
    requires WellFormed(s.stores)
    ensures WellFormed(r.stores) && Extends(s.stores, r.stores)
    ensures r.ewdMessages == message
    ensures r.stores.index == s.stores.index
    ensures r == s.(ewdMessages := message, stores := r.stores)
    ensures forall u :: u in s.stores.index && (ReadThrows(message) || RoutedType(message) != Some(u)) ==>
      ValueOf(r.stores, u) == ValueOf(s.stores, u)
    ensures !ReadThrows(message) && RoutedType(message).Some? && RoutedType(message).value in s.stores.index ==>
      ValueOf(r.stores, RoutedType(message).value) == Payload(message)
  {
    if ReadThrows(message) then s.(ewdMessages := message)
    else
      match RoutedType(message)
      case None => s.(ewdMessages := message)
      case Some(t) => s.(ewdMessages := message, stores := Route(s.stores, t, Payload(message)))
  }

  /** The effect of one event. An event emitted before `connect` has registered the handlers reaches no handler. */
  function Step(s: Snapshot, e: Event): (r: Snapshot)
    requires WellFormed(s.stores)
    ensures WellFormed(r.stores) && Extends(s.stores, r.stores)
    ensures !e.GetStore? ==> r.stores.index == s.stores.index
  {
    match e
    case Connect(startReturns, started) =>
      if Live(s) then s.(isConnected := true)
      else s.(hasInstance := startReturns, client := started, listening := true)
    case GetStore(t) => s.(stores := GetOrCreate(s.stores, t).reg)
    case Registered =>
      if s.listening then s.(isConnected := true, ewdSession := s.client.session) else s
    case SocketDisconnected =>
      if s.listening then s.(isConnected := false, ewdSession := Null) else s
    case Error(_) => s
    case Message(m) => if s.listening then OnMessage(s, m) else s
    case Disconnect => s.(isConnected := false, ewdSession := Null)
    case ClientChanged(c) => s.(client := c)
  }

  /** The effect of a sequence of events, in the order the client delivers them. */
  function Run(s: Snapshot, es: seq<Event>): (r: Snapshot)
    requires WellFormed(s.stores)
    ensures WellFormed(r.stores)
    decreases |es|
  {
    if es == [] then s else Run(Step(s, es[0]), es[1..])
  }

  /** The types `es` asks `getMessageStore` for. */
  function Requested(es: seq<Event>): (ts: set<string>)
    ensures ts == set i | 0 <= i < |es| && es[i].GetStore? :: es[i].msgType
    decreases |es|
  {
    if es == [] then {}
    else (if es[0].GetStore? then {es[0].msgType} else {}) + Requested(es[1..])
  }

  /** Over any sequence of events the registry only grows, every type keeps its store, and the only new types
      are those asked for through `getMessageStore`: routing a message never creates an entry. */
  lemma {:induction false} RunKeepsStores(s: Snapshot, es: seq<Event>)
    requires WellFormed(s.stores)
    ensures Extends(s.stores, Run(s, es).stores)
    ensures Run(s, es).stores.index.Keys <= s.stores.index.Keys + Requested(es)
    decreases |es|
  {
    if es != [] {
      var next := Step(s, es[0]);
      RunKeepsStores(next, es[1..]);
      ExtendsTransitive(s.stores, next.stores, Run(next, es[1..]).stores);
    }
  }

  /** `getMessageStore(t)` returns the same store on every call, whatever happened in between, and a repeated
      call leaves the registry unchanged. */
  lemma SameStoreAfterRun(s: Snapshot, t: string, es: seq<Event>)
    requires WellFormed(s.stores)
    ensures var later := Run(Step(s, GetStore(t)), es).stores;
      GetOrCreate(later, t) == Lookup(later, GetOrCreate(s.stores, t).slot)
  {
    var first := Step(s, GetStore(t));
    RunKeepsStores(first, es);
    SameStoreLater(s.stores, t, Run(first, es).stores);
  }

  /** A `connect` while an instance with a connected socket exists only re-affirms `isConnected`: no new client,
      no new handlers, the session untouched. Otherwise the instance is replaced by what `EWD.start` returns. */
  lemma ConnectGuard(s: Snapshot, startReturns: bool, started: Client)
    requires WellFormed(s.stores)
    ensures Live(s) ==> Step(s, Connect(startReturns, started)) == s.(isConnected := true)
    ensures !Live(s) ==> Step(s, Connect(startReturns, started)).hasInstance == startReturns &&
                         Step(s, Connect(startReturns, started)).client == started &&
                         Step(s, Connect(startReturns, started)).ewdSession == s.ewdSession
  {
  }

  /** Connecting twice in a row while the first connection is live changes nothing more than connecting once. */
  lemma ConnectTwice(s: Snapshot, r1: bool, c1: Client, r2: bool, c2: Client)
    requires WellFormed(s.stores) && Live(s)
    ensures Step(Step(s, Connect(r1, c1)), Connect(r2, c2)) == Step(s, Connect(r1, c1))
    ensures Step(s, Connect(r1, c1)).isConnected
  {
  }

  /** The handlers are idempotent: an event that reaches two registrations of a handler (a second `connect`
      while not live registers them again) ends in the same state as reaching one. */
  lemma HandlersIdempotent(s: Snapshot, e: Event)
    requires WellFormed(s.stores)
    requires e.Registered? || e.SocketDisconnected? || e.Error? || e.Message?
    ensures Step(Step(s, e), e) == Step(s, e)
  {
  }

  /** Unlike the other adapter, the connection flag and the session store can disagree: a second `connect`
      while the socket is already up, before `ewd-registered`, reports connected with no session. */
  lemma ConnectedWithoutSession()
    ensures var s := Run(Initial(Client(Null, false)),
                         [Connect(true, Client(Null, true)), Connect(true, Client(Null, true))]);
      s.isConnected && s.ewdSession == Null
  {
  }

  const NotConnectedMessage: string := "EWD Store: Not connected or no session token."

  /** `ewdClientInstance && EWD.session && EWD.session.token`: the send precondition. The session must be an
      object that carries a truthy `token`. */
  predicate MaySend(s: Snapshot)
    ensures MaySend(s) <==>
      s.hasInstance && s.client.session.Obj? && "token" in s.client.session.props &&
      Truthy(s.client.session.props["token"])
  {
    s.hasInstance && Truthy(s.client.session) && Truthy(Prop(s.client.session, "token"))
  }

  /** The send callback, for a response it can read: reject with the whole response iff `response.error` is
      truthy, otherwise resolve with it. */
  function Classify(response: JsValue): (o: Outcome)
    requires !ReadThrows(response)
    ensures o.Reject? <==> Truthy(Prop(response, "error"))
    ensures o.Resolve? <==> !Truthy(Prop(response, "error"))
    ensures o.Reject? ==> o.reason == response
    ensures o.Resolve? ==> o.value == response
  {
    if Truthy(Prop(response, "error")) then Reject(response) else Resolve(response)
  }

  /** What the foreign `EWD.send(message, callback)` does, in time order. The promise executor is running while
      `EWD.send` runs, so an exception that escapes `EWD.send` rejects the call. The orders that can happen are:
      the synchronous callbacks first, ending in at most one `Throw`, then the later `Callback`s. `Settle` is
      defined, and its properties proved, for every sequence, including orders that cannot happen. */
  datatype Invocation =
    | Callback(response: JsValue)      // the callback, run after `EWD.send` has returned
    | SyncCallback(response: JsValue)  // the callback, run by `EWD.send` before it returns
    | Throw(error: JsValue)            // `EWD.send` throws `error`

  /** Whether an invocation settles the promise. Only a later callback given null or undefined does not: it
      throws at `response.error`, outside the executor, before calling `resolve` or `reject`. */
  predicate Settles(inv: Invocation)
  {
    !(inv.Callback? && ReadThrows(inv.response))
  }

  /** How an invocation that settles the promise settles it. A synchronous callback given null or undefined
      throws a TypeError that escapes `EWD.send` into the executor, which rejects the call with it. */
  function Effect(inv: Invocation): (o: Outcome)
    requires Settles(inv)
    ensures inv.Throw? ==> o == Reject(inv.error)
    ensures inv.SyncCallback? && ReadThrows(inv.response) ==> o == RejectTypeError
    ensures !inv.Throw? && !ReadThrows(inv.response) ==> o == Classify(inv.response)
    ensures !o.Pending? && !o.NotConnected?
  {
    match inv
    case Throw(error) => Reject(error)
    case SyncCallback(response) => if ReadThrows(response) then RejectTypeError else Classify(response)
    case Callback(response) => Classify(response)
  }

  /** `invocations[i]` is the first invocation that settles the promise. */
  ghost predicate FirstSettling(invocations: seq<Invocation>, i: int)
  {
    0 <= i < |invocations| && Settles(invocations[i]) &&
    forall j :: 0 <= j < i ==> !Settles(invocations[j])
  }

  /** How the promise ends after `invocations`: the first invocation that settles it decides, and a promise
      settles only once; when none settles, it stays pending. */
  function Settle(invocations: seq<Invocation>): (o: Outcome)
    ensures o.Pending? <==> forall i :: 0 <= i < |invocations| ==> !Settles(invocations[i])
    ensures !o.Pending? ==> exists i :: FirstSettling(invocations, i) && o == Effect(invocations[i])
    decreases |invocations|
  {
    if invocations == [] then Pending
    else if !Settles(invocations[0]) then Settle(invocations[1..])
    else Effect(invocations[0])
  }

  /** Later invocations do not change a settled outcome. */
  lemma {:induction false} SettlesOnce(invocations: seq<Invocation>, later: seq<Invocation>)
    requires !Settle(invocations).Pending?
    ensures Settle(invocations + later) == Settle(invocations)
    decreases |invocations|
  {
    assert invocations != [];
    assert (invocations + later)[0] == invocations[0];
    if !Settles(invocations[0]) {
      assert (invocations + later)[1..] == invocations[1..] + later;
      SettlesOnce(invocations[1..], later);
    }
  }

  /** `sendMessage(type, params)`, with `invocations` standing for what `EWD.send` would do. */
  function SendMessage(s: Snapshot, msgType: JsValue, params: JsValue, invocations: seq<Invocation>): (r: Send)
    ensures r.sent.None? <==> !MaySend(s)
    ensures r.sent.None? ==> r.outcome == NotConnected(NotConnectedMessage)
    ensures r.sent.Some? ==> r.sent.value == Envelope(msgType, params) && r.outcome == Settle(invocations)
  {
    if !MaySend(s) then Send(None, NotConnected(NotConnectedMessage))
    else Send(Some(Envelope(msgType, params)), Settle(invocations))
  }

  /** Without an instance, a session or a token what `EWD.send` would do plays no part: it is never called. */
  lemma NotConnectedNeverSends(s: Snapshot, msgType: JsValue, params: JsValue,
                               is1: seq<Invocation>, is2: seq<Invocation>)
    requires !MaySend(s)
    ensures SendMessage(s, msgType, params, is1) == SendMessage(s, msgType, params, is2)
    ensures SendMessage(s, msgType, params, is1).outcome.NotConnected?
  {
  }

  /** The send check looks at the client, not at the `isConnected` store: after `disconnect()`, with the
      instance and the session token still there, a send still goes out. */
  lemma SendIgnoresConnectionFlag(s: Snapshot, msgType: JsValue, params: JsValue, invocations: seq<Invocation>)
    requires WellFormed(s.stores) && MaySend(s)
    ensures !Step(s, Disconnect).isConnected
    ensures SendMessage(Step(s, Disconnect), msgType, params, invocations).sent == Some(Envelope(msgType, params))
  {
  }

  /** `getSession()`: `EWD.session` as it is; whenever a send may go out, that is an object with a truthy token. */
  function GetSession(s: Snapshot): (r: JsValue)
    ensures r == s.client.session
    ensures MaySend(s) ==> r.Obj? && Truthy(Prop(r, "token"))
  {
    s.client.session
  }

  /** After `ewd-registered` the session store holds what `getSession()` returns, until the client changes
      `EWD.session`; before `connect` the event changes nothing. */
  lemma GetSessionAfterRegistered(s: Snapshot)
    requires WellFormed(s.stores)
    ensures s.listening ==> Step(s, Registered).isConnected && Step(s, Registered).ewdSession == GetSession(s)
    ensures !s.listening ==> Step(s, Registered) == s
  {
  }

  /** The adapter as an object: one field per module-level variable, and one method per event handler and per API
      call that changes state. `sendMessage` and `getSession` only read the client, so they are the functions
      `SendMessage` and `GetSession` above. */
  class EwdStore {
    var isConnected: bool
    var ewdSession: JsValue
    var ewdMessages: JsValue
    var messageStores: Registry
    var hasInstance: bool
    var client: Client
    var listening: bool

    function View(): Snapshot
      reads this
    {
      Snapshot(isConnected, ewdSession, ewdMessages, messageStores, hasInstance, client, listening)
    }

    ghost predicate Valid()
      reads this
    {
      WellFormed(messageStores)
    }

    constructor (ewd: Client)
      ensures Valid() && View() == Initial(ewd)
    {
      isConnected := false;
      ewdSession := Null;
      ewdMessages := Null;
      messageStores := Empty;
      hasInstance := false;
      client := ewd;
      listening := false;
    }

    method GetMessageStore(t: string) returns (slot: nat)
      requires Valid()
      modifies this
      ensures Valid() && View() == Step(old(View()), GetStore(t))
      ensures Lookup(messageStores, slot) == GetOrCreate(old(messageStores), t)
      ensures old(messageStores.index.Keys) <= messageStores.index.Keys <= old(messageStores.index.Keys) + {t}
      ensures t !in old(messageStores.index) ==> ValueOf(messageStores, t) == Null
    {
      var found := GetOrCreate(messageStores, t);
      messageStores := found.reg;
      slot := found.slot;
    }

    method SubscribeToMessageType(t: string) returns (slot: nat)
      requires Valid()
      modifies this
      ensures Valid() && View() == Step(old(View()), GetStore(t))
      ensures Lookup(messageStores, slot) == GetOrCreate(old(messageStores), t)
    {
      slot := GetMessageStore(t);
    }

    /** Returns whether `EWD.start(config)` was called. */
    method Connect(startReturns: bool, started: Client) returns (startCalled: bool)
      requires Valid()
      modifies this
      ensures Valid() && View() == Step(old(View()), Event.Connect(startReturns, started))
      ensures startCalled <==> !old(Live(View()))
      ensures isConnected == (old(isConnected) || !startCalled)
      ensures ewdSession == old(ewdSession)
    {
      if hasInstance && client.socketConnected {
        isConnected := true;
        return false;
      }
      hasInstance := startReturns;
      client := started;
      listening := true;
      startCalled := true;
    }

    method OnRegistered()
      requires Valid()
      modifies this
      ensures Valid() && View() == Step(old(View()), Registered)
      ensures old(listening) ==> isConnected && ewdSession == client.session
    {
      if listening {
        isConnected := true;
        ewdSession := client.session;
      }
    }

    method OnSocketDisconnected()
      requires Valid()
      modifies this
      ensures Valid() && View() == Step(old(View()), SocketDisconnected)
      ensures old(listening) ==> !isConnected && ewdSession == Null
    {
      if listening {
        isConnected := false;
        ewdSession := Null;
      }
    }

    /** The `error` handler only logs. */
    method OnError(error: JsValue)
      requires Valid()
      ensures View() == old(View())
    {
    }

    method OnEwdMessage(message: JsValue)
      requires Valid()
      modifies this
      ensures Valid() && View() == Step(old(View()), Message(message))
      ensures old(listening) ==> ewdMessages == message
      ensures messageStores.index == old(messageStores.index)
    {
      if listening {
        ewdMessages := message;
        if !ReadThrows(message) {
          match RoutedType(message)
          case Some(t) => messageStores := Route(messageStores, t, Payload(message));
          case None =>
        }
      }
    }

    /** Returns whether `socket.disconnect()` was called. */
    method Disconnect() returns (closeRequested: bool)
      requires Valid()
      modifies this
      ensures Valid() && View() == Step(old(View()), Event.Disconnect)
      ensures closeRequested <==> Live(old(View()))
      ensures !isConnected && ewdSession == Null
    {
      closeRequested := hasInstance && client.socketConnected;
      isConnected := false;
      ewdSession := Null;
    }

    /** The wrapped client changes `EWD.session` or the state of the instance's socket on its own. */
    method ClientChanged(now: Client)
      requires Valid()
      modifies this
      ensures Valid() && View() == Step(old(View()), Event.ClientChanged(now))
    {
      client := now;
    }
  }
}
