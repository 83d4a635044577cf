/**
 * `WssListener`: the okhttp `WebSocketListener` whose five callbacks forward to
 * the four actions it was constructed with. The base class's callbacks do
 * nothing, so each override amounts to one forwarding call.
 */
module Listener {
  import opened Base

  /** A callback the transport makes on the listener. */
  datatype Callback =
    | OnOpen(ws: SocketId, response: ResponseId)
    | OnFailure(ws: SocketId, t: Cause, failureResponse: Option<ResponseId>)
    | OnTextMessage(ws: SocketId, text: string)
    | OnBinaryMessage(ws: SocketId, bytes: seq<byte>)
    | OnClosed(ws: SocketId, code: int, reason: string)

  /** A call of one of the four actions the listener was given. */
  datatype Action =
    | OpenAction(ws: SocketId, response: ResponseId)
    | MessageAction(ws: SocketId, text: Option<string>, bytes: Option<seq<byte>>)
    | FailureAction(ws: SocketId, t: Cause, failureResponse: Option<ResponseId>)
    | ClosedAction(ws: SocketId, code: int, reason: string)

  /** The callback an action call must have come from, if it can come from any. */
  function Origin(a: Action): (r: Option<Callback>)
    ensures r.None? <==> a.MessageAction? && a.text.Some? == a.bytes.Some?
    ensures r.Some? ==> r.value.ws == a.ws
  {
    match a
    case OpenAction(ws, response) => Some(OnOpen(ws, response))
    case FailureAction(ws, t, response) => Some(OnFailure(ws, t, response))
    case ClosedAction(ws, code, reason) => Some(OnClosed(ws, code, reason))
    case MessageAction(ws, text, bytes) =>
      if text.Some? && bytes.None? then Some(OnTextMessage(ws, text.value))
      else if text.None? && bytes.Some? then Some(OnBinaryMessage(ws, bytes.value))
      else None
  }

  /** The action call each callback makes, with its arguments. */
  function Forward(cb: Callback): (a: Action)
    ensures Origin(a) == Some(cb)
    ensures a.ws == cb.ws
    ensures cb.OnTextMessage? ==> a == MessageAction(cb.ws, Some(cb.text), None)
    ensures cb.OnBinaryMessage? ==> a == MessageAction(cb.ws, None, Some(cb.bytes))
    ensures a.MessageAction? <==> cb.OnTextMessage? || cb.OnBinaryMessage?
    ensures a.MessageAction? ==> a.text.Some? != a.bytes.Some?
    ensures cb.OnClosed? ==> a.ClosedAction? && a.code == cb.code && a.reason == cb.reason
    ensures cb.OnOpen? ==> a.OpenAction? && a.response == cb.response
    ensures cb.OnFailure? ==> a.FailureAction? && a.t == cb.t && a.failureResponse == cb.failureResponse
  {
    match cb
    case OnOpen(ws, response) => OpenAction(ws, response)
    case OnFailure(ws, t, response) => FailureAction(ws, t, response)
    case OnTextMessage(ws, text) => MessageAction(ws, Some(text), None)
    case OnBinaryMessage(ws, bytes) => MessageAction(ws, None, Some(bytes))
    case OnClosed(ws, code, reason) => ClosedAction(ws, code, reason)
  }

  /** An action call that `Origin` traces back is exactly the call that callback makes. */
  lemma OriginForwards(a: Action)
    requires Origin(a).Some?
    ensures Forward(Origin(a).value) == a
  {
  }

  /** Distinct callbacks make distinct action calls: nothing is lost in forwarding. */
  lemma ForwardInjective(c1: Callback, c2: Callback)
    requires Forward(c1) == Forward(c2)
    ensures c1 == c2
  {
    assert Origin(Forward(c1)) == Some(c1);
  }
}
