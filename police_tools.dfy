// The police chief's own tools: SWAT deployment, the cordon, the PA broadcast it performs for
// other agents, its civic alert, the emergency PA broadcast used when civic alerting is down, and
// the confirmation back to the requester.
module PoliceTools {
  import opened Wrappers
  import opened Strings
  import opened Json
  import Messaging
  import Pushover
  import opened AgentNames
  import opened ToolKit

  /** `deploy_swat`: police dispatch is always notified of a SWAT team at the threat level given;
      the result reports two teams five minutes out. */
  function DeploySwat(location: string, threatLevel: string): (run: ToolRun)
    ensures run.effects == [Pushed(Pushover.NotifyPoliceDispatch(location, "SWAT Team", threatLevel))]
    ensures Status(run.result) == Some(Str("swat_en_route"))
    ensures Get(run.result, "eta_minutes") == Some(Int(5))
  {
    var result := Obj([("status", Str("swat_en_route")),
      ("message", Str("Notified police dispatch, deploying SWAT to " + location)),
      ("location", Str(location)), ("units", Str("Team-Alpha, Team-Bravo")), ("eta_minutes", Int(5))]);
    GetAt(result, "eta_minutes", 4);
    ToolRun(result, [Pushed(Pushover.NotifyPoliceDispatch(location, "SWAT Team", threatLevel))])
  }

  /** `cordon_area`: the cordon is reported at the radius asked for; nothing is sent. */
  function CordonArea(location: string, radius: int): (r: Json)
    ensures Status(r) == Some(Str("cordon_established")) && Get(r, "radius") == Some(Int(radius))
  {
    var r := Obj([("status", Str("cordon_established")), ("location", Str(location)), ("radius", Int(radius))]);
    GetAt(r, "radius", 2);
    r
  }

  /** `broadcast_via_pa_system`: the broadcast is reported with the message verbatim. */
  function BroadcastViaPaSystem(location: string, message: string): (r: Json)
    ensures Status(r) == Some(Str("broadcast_active"))
    ensures Get(r, "message") == Some(Str(message)) && Get(r, "location") == Some(Str(location))
  {
    var r := Obj([("status", Str("broadcast_active")), ("location", Str(location)), ("message", Str(message)),
                  ("device", Str("Vehicle PA + Street Speakers"))]);
    GetAt(r, "location", 1);
    GetAt(r, "message", 2);
    r
  }

  /** The alert text sent to the civic alert agent. */
  function AlertText(location: string, message: string, severity: string): string {
    "POLICE EMERGENCY: " + message + ". Location: " + location + ". Severity: " + severity
  }

  /** `trigger_civic_alert`: one message to the civic alert agent; the returned dict comes back as
      the civic response, a raised error as a failure. */
  function TriggerCivicAlert(location: string, message: string, severity: string, cid: string, send: Messaging.SendResult): (run: ToolRun)
    ensures run.effects == [Sent("police-chief-agent", "civic-alert-agent", AlertText(location, message, severity), cid)]
    ensures !send.Error? ==> run.result == Obj([("status", Str("alert_requested")), ("civic_response", SendDict(send))])
    ensures send.Error? ==> run.result == Obj([("status", Str("failed")), ("error", Str(send.error))])
  {
    var effects := [Sent("police-chief-agent", "civic-alert-agent", AlertText(location, message, severity), cid)];
    if send.Error? then ToolRun(Obj([("status", Str("failed")), ("error", Str(send.error))]), effects)
    else ToolRun(Obj([("status", Str("alert_requested")), ("civic_response", SendDict(send))]), effects)
  }

  const Channels: Json := Arr([Str("police_pa_vehicles"), Str("street_speakers"), Str("mobile_alert")])

  /** The dict `emergency_public_broadcast` returns, given the notification's status. */
  function BroadcastResult(location: string, message: string, severity: string, pushStatus: Json): (r: Json)
    ensures Status(r) == Some(Str("broadcast_active"))
    ensures Get(r, "pushover_status") == Some(pushStatus)
    ensures Get(r, "channels") == Some(Channels)
  {
    var r := Obj([("status", Str("broadcast_active")),
      ("message", Str("Emergency PA broadcast active: " + message)),
      ("location", Str(location)), ("severity", Str(severity)), ("channels", Channels),
      ("pushover_status", pushStatus),
      ("failover_reason", Str("Civic Alert Agent unavailable"))]);
    GetAt(r, "channels", 4);
    GetAt(r, "pushover_status", 5);
    r
  }

  /** `emergency_public_broadcast`: a PA-broadcast notification signed by the police chief, and a
      result that reports the notification dict's status (`pushed` is what send_pushover
      returned), or "unknown" when it has none. */
  function EmergencyPublicBroadcast(location: string, message: string, severity: string, pushed: Json): (run: ToolRun)
    ensures run.effects == [Pushed(Pushover.NotifyPaBroadcast(message, location, "police-chief-agent"))]
    ensures Status(run.result) == Some(Str("broadcast_active"))
    ensures Get(run.result, "pushover_status") == Some(GetOr(pushed, "status", Str("unknown")))
  {
    ToolRun(BroadcastResult(location, message, severity, GetOr(pushed, "status", Str("unknown"))),
      [Pushed(Pushover.NotifyPaBroadcast(message, location, "police-chief-agent"))])
  }

  /** Whatever send_pushover answers (skipped without credentials, or the POST's status), the
      broadcast reports a real status, never "unknown". */
  lemma BroadcastReportsPushStatus(location: string, message: string, severity: string, answer: Option<Pushover.PostAnswer>)
    ensures var n := Pushover.NotifyPaBroadcast(message, location, "police-chief-agent");
      var pushed := if answer.None? then Pushover.Skipped() else Pushover.AnswerDict(n.title, answer.value);
      var s := Get(EmergencyPublicBroadcast(location, message, severity, pushed).result, "pushover_status");
      s.Some? && s.value in {Str("skipped"), Str("sent"), Str("failed"), Str("error")}
  {
    var n := Pushover.NotifyPaBroadcast(message, location, "police-chief-agent");
    if answer.None? {
      GetAt(Pushover.Skipped(), "status", 0);
    }
  }

  /** `confirm_support_request`: the handshake result goes to the normalised target, with its
      fields in the police chief's order (the correlation id last). */
  function ConfirmSupportRequest(target: string, status: string, details: string, cid: string, send: Messaging.SendResult): (run: ToolRun)
    ensures run.effects == [Sent("police-chief-agent", NormalizeTarget(target), Dumps(SupportResult(status, details, cid)), cid)]
    ensures Status(run.result) == Some(Str(if send.Error? then "failed" else "confirmation_sent"))
  {
    Confirm("police-chief-agent", NormalizeTarget(target), SupportResult(status, details, cid),
      cid, send, "confirmation_sent", "failed")
  }

  function SupportResult(status: string, details: string, cid: string): Json {
    ResultMessage([("status", Str(status)), ("details", Str(details)), ("correlation_id", Str(cid))])
  }

  /** Even with the correlation id written last, the receiver reads the right one. */
  lemma SupportResultCarriesCid(status: string, details: string, cid: string)
    ensures Get(SupportResult(status, details, cid), "correlation_id") == Some(Str(cid))
    ensures Get(SupportResult(status, details, cid), "type") == Some(Str("HANDSHAKE_RESULT"))
  {
    var fields := [("status", Str(status)), ("details", Str(details)), ("correlation_id", Str(cid))];
    ResultMessageCid(fields, 2, cid);
    ResultMessageIsTyped(fields);
  }
}
