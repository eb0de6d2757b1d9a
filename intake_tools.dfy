// The human intake agent's own tools: report processing, logging a call and routing it to
// dispatch, the de-escalation script, and the task confirmation (whose target is used as given).
module IntakeTools {
  import opened Wrappers
  import opened Strings
  import opened Json
  import Messaging
  import Pushover
  import opened ToolKit

  /** `process_report`: the raw text is kept verbatim and the intent is always "emergency". */
  function ProcessReport(rawText: string): (r: Json)
    ensures Status(r) == Some(Str("processed"))
    ensures var d := Get(r, "data");
      d.Some? && Get(d.value, "original") == Some(Str(rawText)) && Get(d.value, "extracted_intent") == Some(Str("emergency"))
  {
    var data := Obj([("original", Str(rawText)), ("extracted_intent", Str("emergency"))]);
    var r := Obj([("status", Str("processed")), ("data", data)]);
    GetAt(r, "data", 1);
    GetAt(data, "extracted_intent", 1);
    r
  }

  /** The call id: "CALL-" and the first eight characters of the correlation id. */
  function CallId(cid: string): (id: string)
    ensures StartsWith(id, "CALL-") && 5 <= |id| <= 13
    ensures |cid| >= 8 ==> id == "CALL-" + cid[..8]
    ensures |cid| < 8 ==> id == "CALL-" + cid
  {
    var id := "CALL-" + Take(cid, 8);
    assert id[..5] == "CALL-";
    id
  }

  /** Without a correlation id in context the call is logged as CALL-UNKNOWN. */
  lemma CallIdWithoutContext()
    ensures CallId(Cid(None)) == "CALL-UNKNOWN"
  {
  }

  /** The report sent to dispatch. */
  function IntakeReport(callId: string, raw: string, incidentType: string, location: string, severity: string): string {
    "INTAKE REPORT [" + callId + "]: " + incidentType + " at " + location + ". Severity: " + severity + ". Raw: " + raw
  }

  /** `log_and_route_call`: the phone notification always goes out first, then the report goes to
      dispatch; a raised send is reported as a failure, after the notification. */
  function LogAndRouteCall(raw: string, incidentType: string, location: string, severity: string,
                           cid: string, send: Messaging.SendResult): (run: ToolRun)
    ensures run.effects == [Pushed(Pushover.NotifyEmergencyReport(incidentType, location, "911 Call")),
      Sent("human-intake-agent", "dispatch-agent", IntakeReport(CallId(cid), raw, incidentType, location, severity), cid)]
    ensures Status(run.result) == Some(Str(if send.Error? then "failed" else "logged_and_routed"))
    ensures !send.Error? ==>
      Get(run.result, "call_id") == Some(Str(CallId(cid))) && Get(run.result, "dispatch_response") == Some(SendDict(send))
    ensures send.Error? ==> run.result == Obj([("status", Str("failed")), ("error", Str(send.error))])
  {
    var callId := CallId(cid);
    var effects := [Pushed(Pushover.NotifyEmergencyReport(incidentType, location, "911 Call")),
      Sent("human-intake-agent", "dispatch-agent", IntakeReport(callId, raw, incidentType, location, severity), cid)];
    if send.Error? then ToolRun(Obj([("status", Str("failed")), ("error", Str(send.error))]), effects)
    else
      var result := Obj([("status", Str("logged_and_routed")),
        ("message", Str("Notified dispatch, emergency report submitted for " + incidentType + " at " + location)),
        ("call_id", Str(callId)), ("dispatch_response", SendDict(send))]);
      GetAt(result, "call_id", 2);
      GetAt(result, "dispatch_response", 3);
      ToolRun(result, effects)
  }

  const CalmDefault := "I understand this is difficult, but help is on the way. Take a deep breath."
  const CalmAngry := "I am listening. I want to help you. Please tell me exactly what you see."
  const CalmPanic := "Stay with me. Focus on my voice. You are doing a great job."

  /** `calm_caller`'s script, matched in lower case: anger takes precedence over crying or panic. */
  function CalmScript(state: string): (script: string)
    ensures script == CalmAngry <==> Contains(Lower(state), "angry")
    ensures script == CalmPanic <==>
      !Contains(Lower(state), "angry") && (Contains(Lower(state), "crying") || Contains(Lower(state), "panic"))
    ensures script in {CalmDefault, CalmAngry, CalmPanic}
  {
    var l := Lower(state);
    if Contains(l, "angry") then CalmAngry
    else if Contains(l, "crying") || Contains(l, "panic") then CalmPanic
    else CalmDefault
  }

  /** The script does not depend on letter case. */
  lemma CalmScriptIgnoresCase(state: string)
    ensures CalmScript(Lower(state)) == CalmScript(state)
  {
    LowerIdempotent(state);
  }

  function CalmCaller(state: string): Json {
    Obj([("action", Str("provide_script")), ("script", Str(CalmScript(state))), ("advice", Str("Speak slowly and clearly."))])
  }

  /** `confirm_task`: as in the camera agent's, the target is used exactly as given, without name
      normalisation. */
  function ConfirmTask(status: string, message: string, target: string, cid: string, send: Messaging.SendResult): (run: ToolRun)
    ensures run.effects == [Sent("human-intake-agent", target, Dumps(ResultMessage(
      [("correlation_id", Str(cid)), ("status", Str(status)), ("message", Str(message))])), cid)]
    ensures Status(run.result) == Some(Str(if send.Error? then "error" else "sent"))
  {
    Confirm("human-intake-agent", target,
      ResultMessage([("correlation_id", Str(cid)), ("status", Str(status)), ("message", Str(message))]),
      cid, send, "sent", "error")
  }
}
