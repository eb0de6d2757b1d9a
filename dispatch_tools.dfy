// The dispatch agent's own tools: naming the incident commander and telling only the agencies
// involved, and confirming receipt of a request.
module DispatchTools {
  import opened Wrappers
  import opened Strings
  import opened Json
  import Messaging
  import opened ToolKit

  /** The agency names the dispatcher knows and their agents. */
  const AgencyMap: map<string, string> := map[
    "fire" := "fire-chief-agent",
    "medical" := "medical-agent",
    "police" := "police-chief-agent",
    "utility" := "utility-agent"
  ]

  predicate Known(agency: string) {
    Lower(agency) in AgencyMap
  }

  /** The agents of the listed agencies, in list order, unknown names dropped. */
  function FromInvolved(involved: seq<string>): (agents: seq<string>)
    ensures |agents| <= |involved|
    ensures forall k :: 0 <= k < |agents| ==> agents[k] in AgencyMap.Values
    decreases |involved|
  {
    if |involved| == 0 then []
    else
      var a := involved[|involved| - 1];
      FromInvolved(involved[..|involved| - 1]) + (if Known(a) then [AgencyMap[Lower(a)]] else [])
  }

  /** Exactly one agent per known agency is notified. */
  function CountKnown(involved: seq<string>): nat
    decreases |involved|
  {
    if |involved| == 0 then 0
    else CountKnown(involved[..|involved| - 1]) + (if Known(involved[|involved| - 1]) then 1 else 0)
  }

  lemma {:induction false} FromInvolvedCount(involved: seq<string>)
    ensures |FromInvolved(involved)| == CountKnown(involved)
    decreases |involved|
  {
    if |involved| > 0 {
      FromInvolvedCount(involved[..|involved| - 1]);
    }
  }

  /** When every listed agency is known, the k-th agent notified is the k-th agency's. */
  lemma {:induction false} AllKnownPointwise(involved: seq<string>)
    requires forall k :: 0 <= k < |involved| ==> Known(involved[k])
    ensures |FromInvolved(involved)| == |involved|
    ensures forall k :: 0 <= k < |involved| ==>
      Lower(involved[k]) in AgencyMap && FromInvolved(involved)[k] == AgencyMap[Lower(involved[k])]
    decreases |involved|
  {
    if |involved| > 0 {
      var init := involved[..|involved| - 1];
      assert forall k :: 0 <= k < |init| ==> init[k] == involved[k];
      AllKnownPointwise(init);
    }
  }

  /** The lead agency's agent, tested in the order fire, medical or hospital, police; fire when
      none matches. */
  function FromLead(lead: string): (agents: seq<string>)
    ensures |agents| == 1
    ensures Contains(Lower(lead), "fire") ==> agents == ["fire-chief-agent"]
    ensures agents == ["police-chief-agent"] <==>
      !Contains(Lower(lead), "fire") && !Contains(Lower(lead), "medical") && !Contains(Lower(lead), "hospital")
      && Contains(Lower(lead), "police")
    ensures (!Contains(Lower(lead), "fire") && !Contains(Lower(lead), "medical") && !Contains(Lower(lead), "hospital")
             && !Contains(Lower(lead), "police")) ==> agents == ["fire-chief-agent"]
    ensures agents == ["medical-agent"] <==>
      !Contains(Lower(lead), "fire") && (Contains(Lower(lead), "medical") || Contains(Lower(lead), "hospital"))
  {
    var l := Lower(lead);
    if Contains(l, "fire") then ["fire-chief-agent"]
    else if Contains(l, "medical") || Contains(l, "hospital") then ["medical-agent"]
    else if Contains(l, "police") then ["police-chief-agent"]
    else ["fire-chief-agent"]
  }

  /** `agents_to_notify`: the involved agencies when a non-empty list is given, else the lead's. */
  function AgentsToNotify(lead: string, involved: Option<seq<string>>): seq<string> {
    if involved.Some? && |involved.value| > 0 then FromInvolved(involved.value) else FromLead(lead)
  }

  function AgentList(agents: seq<string>): Json {
    Arr(seq(|agents|, k requires 0 <= k < |agents| => Str(agents[k])))
  }

  /** `assign_incident_commander`: the command update goes to the computed agents only, and only
      when there is one; the result reports exactly that list. */
  function AssignIncidentCommander(incidentId: string, lead: string, involved: Option<seq<string>>): (run: ToolRun)
    ensures var agents := AgentsToNotify(lead, involved);
      Get(run.result, "notified_agents") == Some(AgentList(agents))
      && Status(run.result) == Some(Str("commander_assigned"))
      && (agents == [] <==> run.effects == [])
      && (agents != [] ==> run.effects == [Broadcasted("dispatch-agent", agents,
            "COMMAND UPDATE: " + lead + " is now Incident Commander for " + incidentId + ".")])
  {
    var agents := AgentsToNotify(lead, involved);
    var effects := if agents != [] then
        [Broadcasted("dispatch-agent", agents, "COMMAND UPDATE: " + lead + " is now Incident Commander for " + incidentId + ".")]
      else [];
    var result := Obj([("status", Str("commander_assigned")), ("incident_id", Str(incidentId)),
                       ("lead_agency", Str(lead)), ("notified_agents", AgentList(agents))]);
    GetAt(result, "notified_agents", 3);
    ToolRun(result, effects)
  }

  /** Without an involved list the lead's agent is always told; with a list naming no known
      agency nobody is. */
  lemma CommanderBroadcasts(incidentId: string, lead: string, involved: Option<seq<string>>)
    ensures involved.None? || involved.value == [] ==> |AssignIncidentCommander(incidentId, lead, involved).effects| == 1
    ensures involved.Some? && |involved.value| > 0 && CountKnown(involved.value) == 0 ==>
      AssignIncidentCommander(incidentId, lead, involved).effects == []
  {
    if involved.Some? {
      FromInvolvedCount(involved.value);
    }
  }

  /** `confirm_receipt`: a HANDSHAKE_RESULT with the current correlation id, sent to the target as
      given (no name normalisation); a failed send is reported, not raised. */
  function ConfirmReceipt(target: string, status: string, message: string, cid: string, send: Messaging.SendResult): (run: ToolRun)
    ensures run.effects == [Sent("dispatch-agent", target, Dumps(ResultMessage(
      [("correlation_id", Str(cid)), ("status", Str(status)), ("message", Str(message))])), cid)]
    ensures Status(run.result) == Some(Str(if send.Error? then "failed" else "confirmation_sent"))
  {
    Confirm("dispatch-agent", target,
      ResultMessage([("correlation_id", Str(cid)), ("status", Str(status)), ("message", Str(message))]),
      cid, send, "confirmation_sent", "failed")
  }

  /** The confirmation carries the current correlation id as a handshake result. */
  lemma ConfirmReceiptCarriesCid(status: string, message: string, cid: string)
    ensures var m := ResultMessage([("correlation_id", Str(cid)), ("status", Str(status)), ("message", Str(message))]);
      Get(m, "type") == Some(Str("HANDSHAKE_RESULT")) && Get(m, "correlation_id") == Some(Str(cid))
  {
    var fields := [("correlation_id", Str(cid)), ("status", Str(status)), ("message", Str(message))];
    ResultMessageIsTyped(fields);
    ResultMessageCid(fields, 0, cid);
  }
}
