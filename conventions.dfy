/** The two adapters read a server response differently: src/qewdStore.js rejects on a nested
    `response.message.error`, src/ewd/ewdStore.js on a flat `response.error`. */
module Conventions {
  import opened Js
  import Qewd
  import Ewd

  /** `{error: "bad token"}`: the flat marker rejects in the ewd adapter and resolves in the qewd adapter. */
  lemma FlatErrorResponse()
    ensures var response := Obj(map["error" := Str("bad token")]);
      Qewd.Classify(Qewd.Replied(response)) == Resolve(response) &&
      Ewd.Settle([Ewd.Callback(response)]) == Reject(response)
  {
  }

  /** `{message: {error: "x"}}`: the nested marker rejects in the qewd adapter, with the inner message, and
      resolves in the ewd adapter. */
  lemma NestedErrorResponse()
    ensures var inner := Obj(map["error" := Str("x")]);
      var response := Obj(map["message" := inner]);
      Qewd.Classify(Qewd.Replied(response)) == Reject(inner) &&
      Ewd.Settle([Ewd.Callback(response)]) == Resolve(response)
  {
  }

  /** `{type: "ping", message: {result: "pong"}}` resolves with the whole response in both adapters. */
  lemma PingResponse()
    ensures var response := Obj(map["type" := Str("ping"), "message" := Obj(map["result" := Str("pong")])]);
      Qewd.Classify(Qewd.Replied(response)) == Resolve(response) &&
      Ewd.Settle([Ewd.Callback(response)]) == Resolve(response)
  {
  }
}
