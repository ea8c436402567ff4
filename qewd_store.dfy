/** The Svelte adapter over the `qewd-client` QEWD object (src/qewdStore.js). */
module Qewd {
  import opened Js
  import opened MessageRegistry

  /** What the adapter reads of the QEWD object, which the wrapped client changes on its own: `QEWD.application`,
      the value of the `QEWD.jwt` getter, and whether `QEWD.disconnectSocket` exists. */
  datatype Client = Client(application: JsValue, jwt: JsValue, hasDisconnectSocket: bool)

  /** The object put into `qewdSession` and returned by `getSession`: `application` is copied when the object is
      built; `jwt` is a getter that reads `QEWD.jwt` whenever it is read, so it is not stored here (see `Jwt`). */
  datatype Session = Session(application: JsValue)

  /** Reading `session.jwt` reads the client's current `QEWD.jwt`, whichever session object it is read from. */
  function Jwt(session: Session, c: Client): JsValue
  {
    c.jwt
  }

  /** The module-level state: the three exported stores, the registry, the QEWD object and whether `connect` has
      registered its event handlers on it. */
  datatype Snapshot = Snapshot(
    isConnected: bool,
    qewdSession: Option<Session>,
    qewdMessages: JsValue,
    stores: Registry,
    client: Client,
    listening: bool)

  /** The state when the module is loaded, with the imported QEWD object as it then is. */
  function Initial(c: Client): (s: Snapshot)
    ensures !s.isConnected && s.qewdSession == None && s.qewdMessages == Null
    ensures s.stores == Empty && WellFormed(s.stores) && !s.listening
  {
    Snapshot(false, None, Null, Empty, c, false)
  }

  /** Everything that changes the module state: the API calls, the four events `connect` listens to, and the
      wrapped client changing its own properties (`ClientChanged`). */
  datatype Event =
    | Connect(started: Client)
    | GetStore(msgType: string)
    | Registered
    | Reregistered
    | SocketDisconnected
    | Error(error: JsValue)
    | Disconnect
    | ClientChanged(now: Client)

  /** The effect of one event. An event emitted before `connect` has registered the handlers reaches no handler. */
  function Step(s: Snapshot, e: Event): (r: Snapshot)
    requires WellFormed(s.stores)
    ensures WellFormed(r.stores) && Extends(s.stores, r.stores) && s.stores.slots <= r.stores.slots
    ensures r.qewdMessages == s.qewdMessages
  {
    match e
    case Connect(started) => s.(client := started, listening := true)
    case GetStore(t) => s.(stores := GetOrCreate(s.stores, t).reg)
    case Registered =>
      if s.listening then s.(isConnected := true, qewdSession := Some(Session(s.client.application))) else s
    case Reregistered =>
      if s.listening then s.(isConnected := true, qewdSession := Some(Session(s.client.application))) else s
    case SocketDisconnected =>
      if s.listening then s.(isConnected := false, qewdSession := None) else s
    case Error(_) => s
    case Disconnect => s.(isConnected := false, qewdSession := None)
    case ClientChanged(c) => s.(client := c)
  }

  /** The effect of a sequence of events, in the order the client delivers them. */
  function Run(s: Snapshot, es: seq<Event>): (r: Snapshot)
    requires WellFormed(s.stores)
    ensures WellFormed(r.stores)
    decreases |es|
  {
    if es == [] then s else Run(Step(s, es[0]), es[1..])
  }

  /** The connection flag and the session store agree. */
  ghost predicate Consistent(s: Snapshot)
  {
    s.isConnected <==> s.qewdSession.Some?
  }

  /** Every event keeps the connection flag and the session store in agreement. */
  lemma {:induction false} RunKeepsConsistent(s: Snapshot, es: seq<Event>)
    requires WellFormed(s.stores) && Consistent(s)
    ensures Consistent(Run(s, es))
    decreases |es|
  {
    if es != [] {
      RunKeepsConsistent(Step(s, es[0]), es[1..]);
    }
  }

  /** Over any sequence of events the registry only grows, every type keeps its store, no per-type store is ever
      written, and `qewdMessages` is never written. */
  lemma {:induction false} RunKeepsStores(s: Snapshot, es: seq<Event>)
    requires WellFormed(s.stores)
    ensures Extends(s.stores, Run(s, es).stores) && s.stores.slots <= Run(s, es).stores.slots
    ensures Run(s, es).qewdMessages == s.qewdMessages
    decreases |es|
  {
    if es != [] {
      var next := Step(s, es[0]);
      RunKeepsStores(next, es[1..]);
      ExtendsTransitive(s.stores, next.stores, Run(next, es[1..]).stores);
    }
  }

  /** `getMessageStore(t)` returns the same store on every call, whatever happened in between, and a repeated
      call leaves the registry unchanged. */
  lemma SameStoreAfterRun(s: Snapshot, t: string, es: seq<Event>)
    requires WellFormed(s.stores)
    ensures var later := Run(Step(s, GetStore(t)), es).stores;
      GetOrCreate(later, t) == Lookup(later, GetOrCreate(s.stores, t).slot)
  {
    var first := Step(s, GetStore(t));
    RunKeepsStores(first, es);
    SameStoreLater(s.stores, t, Run(first, es).stores);
  }

  /** The lifecycle handlers are idempotent: since every `connect` registers them again, an event may reach two
      copies of a handler, which ends in the same state as reaching one. */
  lemma HandlersIdempotent(s: Snapshot, e: Event)
    requires WellFormed(s.stores)
    requires e.Registered? || e.Reregistered? || e.SocketDisconnected? || e.Error?
    ensures Step(Step(s, e), e) == Step(s, e)
  {
  }

  /** The result of `QEWD.reply(message)`: the server's response, a rejection of the reply promise, or a reply
      promise that never settles. */
  datatype Reply = Replied(response: JsValue) | ReplyFailed(error: JsValue) | NoReply

  const NotConnectedMessage: string := "QEWD Store: Not connected."

  /** `response.message && response.message.error` is truthy: the nested error convention. */
  predicate NestedError(response: JsValue)
    requires !ReadThrows(response)
    ensures NestedError(response) <==>
      response.Obj? && "message" in response.props && response.props["message"].Obj? &&
      "error" in response.props["message"].props && Truthy(response.props["message"].props["error"])
  {
    Truthy(Prop(response, "message")) && Truthy(Prop(Prop(response, "message"), "error"))
  }

  /** How the `try` block of `sendMessage` ends: it waits on `QEWD.reply` and, once that settles, classifies it. */
  function Classify(reply: Reply): (o: Outcome)
    ensures o.Resolve? || o.Reject? || o.RejectTypeError? || o.Pending?
    ensures o.Pending? <==> reply.NoReply?
    ensures reply.ReplyFailed? ==> o == Reject(reply.error)
    ensures reply.Replied? && ReadThrows(reply.response) ==> o == RejectTypeError
    ensures reply.Replied? && !ReadThrows(reply.response) ==>
      (o.Reject? <==> NestedError(reply.response)) &&
      (o.Reject? ==> o.reason == Prop(reply.response, "message")) &&
      (!NestedError(reply.response) ==> o == Resolve(reply.response))
  {
    match reply
    case NoReply => Pending
    case ReplyFailed(error) => Reject(error)
    case Replied(response) =>
      if ReadThrows(response) then RejectTypeError
      else if NestedError(response) then Reject(Prop(response, "message"))
      else Resolve(response)
  }

  /** `sendMessage(type, params)`, with `reply` standing for what `QEWD.reply` would produce. */
  function SendMessage(c: Client, msgType: JsValue, params: JsValue, reply: Reply): (r: Send)
    ensures r.sent.None? <==> !Truthy(c.application)
    ensures r.sent.None? ==> r.outcome == NotConnected(NotConnectedMessage)
    ensures r.sent.Some? ==> r.sent.value == Envelope(msgType, params) && r.outcome == Classify(reply)
  {
    if !Truthy(c.application) then Send(None, NotConnected(NotConnectedMessage))
    else Send(Some(Envelope(msgType, params)), Classify(reply))
  }

  /** Without an application the reply plays no part: `QEWD.reply` is never called. */
  lemma NotConnectedNeverReplies(c: Client, msgType: JsValue, params: JsValue, r1: Reply, r2: Reply)
    requires !Truthy(c.application)
    ensures SendMessage(c, msgType, params, r1) == SendMessage(c, msgType, params, r2)
    ensures SendMessage(c, msgType, params, r1).outcome.NotConnected?
  {
  }

  /** The send check looks at `QEWD.application`, not at the `isConnected` store: after `disconnect()`, with the
      client's application still set, a send still goes out. */
  lemma SendIgnoresConnectionFlag(s: Snapshot, msgType: JsValue, params: JsValue, reply: Reply)
    requires WellFormed(s.stores) && Truthy(s.client.application)
    ensures !Step(s, Disconnect).isConnected
    ensures SendMessage(Step(s, Disconnect).client, msgType, params, reply).sent == Some(Envelope(msgType, params))
  {
  }

  /** `getSession()`: `null` without an application, otherwise a fresh session object. */
  function GetSession(c: Client): (r: Option<Session>)
    ensures r.Some? <==> Truthy(c.application)
    ensures r.Some? ==> r.value.application == c.application
  {
    if !Truthy(c.application) then None else Some(Session(c.application))
  }

  /** After `ewd-registered`, `getSession()` describes the same session as the store exactly when the
      application is truthy; with a falsy application the store holds a session and `getSession()` returns null. */
  lemma GetSessionAfterRegistered(s: Snapshot)
    requires WellFormed(s.stores) && s.listening
    ensures Step(s, Registered).qewdSession == Some(Session(s.client.application))
    ensures GetSession(Step(s, Registered).client) == Step(s, Registered).qewdSession <==> Truthy(s.client.application)
  {
  }

  /** The session object keeps the application it was built with, but its `jwt` follows the client: after the
      client changes, the stored session reports the new token and the old application. */
  lemma SessionJwtIsLive(s: Snapshot, now: Client)
    requires WellFormed(s.stores) && s.listening
    ensures var r := Step(Step(s, Registered), ClientChanged(now));
      r.qewdSession == Some(Session(s.client.application)) &&
      Jwt(r.qewdSession.value, r.client) == now.jwt
  {
  }

  /** A `connect` followed by `ewd-registered` for application "demo" with token "t1". */
  lemma DemoRegistration()
    ensures var s := Run(Initial(Client(Undefined, Undefined, false)),
                         [Connect(Client(Str("demo"), Str("t1"), true)), Registered]);
      s.isConnected && s.qewdSession == Some(Session(Str("demo"))) &&
      Jwt(s.qewdSession.value, s.client) == Str("t1")
  {
  }

  /** The adapter as an object: one field per module-level variable, and one method per event handler and per API
      call that changes state. `sendMessage` and `getSession` only read the client, so they are the functions
      `SendMessage` and `GetSession` above. */
  class QewdStore {
    var isConnected: bool
    var qewdSession: Option<Session>
    var qewdMessages: JsValue
    var messageStores: Registry
    var client: Client
    var listening: bool

    function View(): Snapshot
      reads this
    {
      Snapshot(isConnected, qewdSession, qewdMessages, messageStores, client, listening)
    }

    ghost predicate Valid()
      reads this
    {
      WellFormed(messageStores)
    }

    constructor (qewd: Client)
      ensures Valid() && View() == Initial(qewd)
    {
      isConnected := false;
      qewdSession := None;
      qewdMessages := Null;
      messageStores := Empty;
      client := qewd;
      listening := false;
    }

    method GetMessageStore(t: string) returns (slot: nat)
      requires Valid()
      modifies this
      ensures Valid() && View() == Step(old(View()), GetStore(t))
      ensures Lookup(messageStores, slot) == GetOrCreate(old(messageStores), t)
      ensures old(messageStores.index.Keys) <= messageStores.index.Keys <= old(messageStores.index.Keys) + {t}
      ensures t !in old(messageStores.index) ==> ValueOf(messageStores, t) == Null
    {
      var found := GetOrCreate(messageStores, t);
      messageStores := found.reg;
      slot := found.slot;
    }

    method SubscribeToMessageType(t: string) returns (slot: nat)
      requires Valid()
      modifies this
      ensures Valid() && View() == Step(old(View()), GetStore(t))
      ensures Lookup(messageStores, slot) == GetOrCreate(old(messageStores), t)
    {
      slot := GetMessageStore(t);
    }

    /** `QEWD.start(config)` is foreign: `started` is the QEWD object as it leaves it. */
    method Connect(started: Client)
      requires Valid()
      modifies this
      ensures Valid() && View() == Step(old(View()), Event.Connect(started))
      ensures listening && client == started
      ensures isConnected == old(isConnected) && qewdSession == old(qewdSession)
    {
      client := started;
      listening := true;
    }

    method OnRegistered()
      requires Valid()
      modifies this
      ensures Valid() && View() == Step(old(View()), Registered)
      ensures old(listening) ==> isConnected && qewdSession == Some(Session(client.application))
    {
      if listening {
        isConnected := true;
        qewdSession := Some(Session(client.application));
      }
    }

    method OnReregistered()
      requires Valid()
      modifies this
      ensures Valid() && View() == Step(old(View()), Reregistered)
      ensures old(listening) ==> isConnected && qewdSession == Some(Session(client.application))
    {
      if listening {
        isConnected := true;
        qewdSession := Some(Session(client.application));
      }
    }

    method OnSocketDisconnected()
      requires Valid()
      modifies this
      ensures Valid() && View() == Step(old(View()), SocketDisconnected)
      ensures old(listening) ==> !isConnected && qewdSession == None
    {
      if listening {
        isConnected := false;
        qewdSession := None;
      }
    }

    /** The `error` handler only logs. */
    method OnError(error: JsValue)
      requires Valid()
      ensures View() == old(View())
      ensures isConnected == old(isConnected) && qewdSession == old(qewdSession)
    {
    }

    /** Returns whether `QEWD.disconnectSocket()` was called. */
    method Disconnect() returns (closeRequested: bool)
      requires Valid()
      modifies this
      ensures Valid() && View() == Step(old(View()), Event.Disconnect)
      ensures closeRequested == client.hasDisconnectSocket
      ensures !isConnected && qewdSession == None
    {
      closeRequested := client.hasDisconnectSocket;
      isConnected := false;
      qewdSession := None;
    }

    /** The wrapped client changes `QEWD.application`, `QEWD.jwt` or `QEWD.disconnectSocket` on its own. */
    method ClientChanged(now: Client)
      requires Valid()
      modifies this
      ensures Valid() && View() == Step(old(View()), Event.ClientChanged(now))
    {
      client := now;
    }
  }
}
