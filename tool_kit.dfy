// What the agents' tools share: the correlation id they read from the context, the effects a
// tool call has on the mesh (messages, handshake requests, broadcasts, phone notifications), the
// dict send_message returns, and the HANDSHAKE_RESULT confirmation every agent sends back.
module ToolKit {
  import opened Wrappers
  import opened Strings
  import opened Json
  import Messaging
  import Pushover

  /** What a tool call does to the outside world, in order. */
  datatype Effect =
    | Sent(source: string, target: string, text: string, cid: string)
    | Requested(source: string, target: string, payload: Json, cid: string)
    | Broadcasted(source: string, agents: seq<string>, text: string)
    | Pushed(notification: Pushover.Notification)

  /** A tool's returned dict and its effects. */
  datatype ToolRun = ToolRun(result: Json, effects: seq<Effect>)

  /** `get_cid()`: the context's correlation id, or "UNKNOWN" when it is unset or empty. */
  function Cid(current: Option<string>): (c: string)
    ensures c != ""
    ensures current.Some? && current.value != "" ==> c == current.value
  {
    if current.Some? && current.value != "" then current.value else "UNKNOWN"
  }

  /** The dict send_message returns (a raised error has none). */
  function SendDict(r: Messaging.SendResult): Json
    requires !r.Error?
  {
    match r
    case CircuitOpen(a) => Obj([("status", Str("circuit_open")), ("agent", Str(a)), ("error", Str("Circuit breaker is open"))])
    case Unhealthy(a) => Obj([("status", Str("unhealthy")), ("agent", Str(a))])
    case Delivered(a, response) => Obj([("status", Str("delivered")), ("agent", Str(a)), ("response", response)])
    case Unreachable(a) => Obj([("status", Str("unreachable")), ("agent", Str(a))])
    case NoReply => Null
  }

  /** The status field of a result dict. */
  function Status(j: Json): Option<Json> {
    Get(j, "status")
  }

  /** A confirmation: the payload goes to the target as JSON text; the result names the target,
      or carries the error when the send raised. Nothing is raised. */
  function Confirm(source: string, target: string, payload: Json, cid: string, send: Messaging.SendResult,
                   okStatus: string, failStatus: string): (run: ToolRun)
    ensures run.effects == [Sent(source, target, Dumps(payload), cid)]
    ensures Status(run.result) == Some(Str(if send.Error? then failStatus else okStatus))
    ensures send.Error? ==> run.result == Obj([("status", Str(failStatus)), ("error", Str(send.error))])
    ensures !send.Error? ==> run.result == Obj([("status", Str(okStatus)), ("target", Str(target))])
  {
    var effects := [Sent(source, target, Dumps(payload), cid)];
    if send.Error? then ToolRun(Obj([("status", Str(failStatus)), ("error", Str(send.error))]), effects)
    else ToolRun(Obj([("status", Str(okStatus)), ("target", Str(target))]), effects)
  }

  /** The HANDSHAKE_RESULT message with its fields in the order the tool writes them. */
  function ResultMessage(fields: seq<(string, Json)>): Json {
    Obj([("type", Str("HANDSHAKE_RESULT"))] + fields)
  }

  /** A confirmation message is a handshake result, which the receiving executor resolves. */
  lemma ResultMessageIsTyped(fields: seq<(string, Json)>)
    ensures Get(ResultMessage(fields), "type") == Some(Str("HANDSHAKE_RESULT"))
  {
    GetAt(ResultMessage(fields), "type", 0);
  }

  /** The correlation id, when the tool writes it as the `i`-th field, is what the receiver reads. */
  lemma ResultMessageCid(fields: seq<(string, Json)>, i: nat, cid: string)
    requires i < |fields| && fields[i] == ("correlation_id", Str(cid))
    requires forall k :: 0 <= k < i ==> fields[k].0 != "correlation_id"
    ensures Get(ResultMessage(fields), "correlation_id") == Some(Str(cid))
  {
    var m := ResultMessage(fields);
    assert m.fields[i + 1] == fields[i];
    assert forall k :: 1 <= k <= i ==> m.fields[k] == fields[k - 1];
    GetAt(m, "correlation_id", i + 1);
  }
}
