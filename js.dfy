/** The few JavaScript value semantics both store adapters depend on: values, truthiness, property reads,
    the `{type, params}` envelope and how a `sendMessage` promise ends. */
module Js {

  datatype Option<+T> = None | Some(value: T)

  /** A JavaScript value as far as the adapters inspect it. Numbers are integers here (no NaN, no fractions). */
  datatype JsValue =
    | Undefined
    | Null
    | Bool(b: bool)
    | Num(n: int)
    | Str(s: string)
    | Obj(props: map<string, JsValue>)

  /** JavaScript truthiness: what `if (v)`, `!v`, `a && b` and `a || b` test. */
  predicate Truthy(v: JsValue)
  {
    match v
    case Undefined => false
    case Null => false
    case Bool(b) => b
    case Num(n) => n != 0
    case Str(s) => s != ""
    case Obj(_) => true
  }

  /** Reading a property of `null` or `undefined` throws a TypeError. */
  predicate ReadThrows(v: JsValue)
  {
    v.Undefined? || v.Null?
  }

  /** `v.k` on a value that is neither `null` nor `undefined`. Only own properties of plain objects are modelled:
      the names the adapters read (`message`, `error`, `type`, `token`) are not built-in properties of primitives. */
  function Prop(v: JsValue, k: string): (r: JsValue)
    requires !ReadThrows(v)
    ensures !v.Obj? ==> r == Undefined
    ensures v.Obj? ==> (r == Undefined || k in v.props)
  {
    if v.Obj? && k in v.props then v.props[k] else Undefined
  }

  /** `a || b`: the first operand when it is truthy, the second otherwise. */
  function Or(a: JsValue, b: JsValue): (r: JsValue)
    ensures Truthy(a) ==> r == a
    ensures !Truthy(a) ==> r == b
  {
    if Truthy(a) then a else b
  }

  /** The outbound message `{type: type, params: params}`; the session token is not part of it, the wrapped
      client attaches it. */
  function Envelope(msgType: JsValue, params: JsValue): (r: JsValue)
    ensures r.Obj? && r.props.Keys == {"type", "params"}
    ensures Prop(r, "type") == msgType && Prop(r, "params") == params
  {
    Obj(map["type" := msgType, "params" := params])
  }

  /** How the promise returned by `sendMessage` ends. */
  datatype Outcome =
    | NotConnected(message: string)  // rejected with `new Error(message)` before anything is sent
    | Resolve(value: JsValue)        // resolved with `value`
    | Reject(reason: JsValue)        // rejected with a value that came back from the server or the client
    | RejectTypeError                // rejected with the TypeError of a property read on null or undefined
    | Pending                        // never settled

  /** One `sendMessage` call: the envelope handed to the wrapped client, if any, and how the call ends. */
  datatype Send = Send(sent: Option<JsValue>, outcome: Outcome)
}
