// The fire chief's own tools: deploying units after a nearest-station search, the keyword
// severity estimate, the civic alert with its fallback to the police PA system, and the
// confirmation back to the requester.
module FireTools {
  import opened Wrappers
  import opened Strings
  import opened Json
  import Messaging
  import Maps
  import Pushover
  import opened AgentNames
  import opened ToolKit

  /** The integer-valued fields of the dict `find_nearest_resource` returns: only `eta_mins` on
      success (the unit is a dict and the distance a float); none on error. */
  function IntFields(r: Result<Maps.Nearest, string>): seq<(string, int)> {
    if r.Ok? then [("eta_mins", r.value.etaMins)] else []
  }

  /** `dict.get(key, default)` over those fields. */
  function GetInt(fields: seq<(string, int)>, key: string, default: int): (v: int)
    ensures (forall k :: 0 <= k < |fields| ==> fields[k].0 != key) ==> v == default
    decreases |fields|
  {
    if |fields| == 0 then default
    else if fields[0].0 == key then fields[0].1
    else GetInt(fields[1..], key, default)
  }

  /** The ETA `deploy_units` reports, as written: it asks for `duration_minutes`, a key the search
      result never has, so the 12-minute default always wins. */
  function DeployEtaAsWritten(r: Result<Maps.Nearest, string>): int {
    GetInt(IntFields(r), "duration_minutes", 12)
  }

  /** Whatever the search found, the reported ETA is 12. */
  lemma DeployEtaIgnoresRoute(r: Result<Maps.Nearest, string>)
    ensures DeployEtaAsWritten(r) == 12
  {
  }

  /** A station 3 minutes away is reported as 12 minutes away. */
  lemma DeployEtaCounterexample()
    ensures var r: Result<Maps.Nearest, string> := Ok(Maps.Nearest("fire_station", "Fire Station HQ", 1.5, 3));
      DeployEtaAsWritten(r) == 12 && r.value.etaMins == 3
  {
    DeployEtaIgnoresRoute(Ok(Maps.Nearest("fire_station", "Fire Station HQ", 1.5, 3)));
  }

  /** The ETA the tool evidently means: the quickest route's minutes, 12 when there is no route. */
  function DeployEta(r: Result<Maps.Nearest, string>): (eta: int)
    ensures r.Ok? ==> eta == r.value.etaMins
    ensures r.Err? ==> eta == 12
  {
    GetInt(IntFields(r), "eta_mins", 12)
  }

  /** The run of `deploy_units` once its ETA is settled: the fire station is always notified, with
      the count and type asked for, and the result reports the deployment and that ETA. */
  function Deployment(location: string, unitType: string, count: int, eta: int): (run: ToolRun)
    ensures run.effects == [Pushed(Pushover.NotifyFireStation(location, count, unitType))]
    ensures Status(run.result) == Some(Str("deployed"))
    ensures Get(run.result, "eta_minutes") == Some(Int(eta))
    ensures Get(run.result, "units_dispatched") == Some(Int(count))
  {
    var result := Obj([("status", Str("deployed")),
      ("message", Str("Notified fire station, sending " + IntToString(count) + " " + unitType + "(s) to " + location)),
      ("location", Str(location)), ("units_dispatched", Int(count)), ("type", Str(unitType)),
      ("eta_minutes", Int(eta))]);
    GetAt(result, "units_dispatched", 3);
    GetAt(result, "eta_minutes", 5);
    ToolRun(result, [Pushed(Pushover.NotifyFireStation(location, count, unitType))])
  }

  /** `deploy_units` as written: whatever the nearest-station search found, the deployment is
      reported 12 minutes out. */
  function DeployUnits(location: string, unitType: string, count: int, nearest: Result<Maps.Nearest, string>): (run: ToolRun)
    ensures run.effects == [Pushed(Pushover.NotifyFireStation(location, count, unitType))]
    ensures Status(run.result) == Some(Str("deployed"))
    ensures Get(run.result, "eta_minutes") == Some(Int(12))
    ensures Get(run.result, "units_dispatched") == Some(Int(count))
  {
    DeployEtaIgnoresRoute(nearest);
    Deployment(location, unitType, count, DeployEtaAsWritten(nearest))
  }

  /** `deploy_units` with the ETA read from the key the search result has: the quickest station's
      minutes, 12 only when the search failed. */
  function DeployUnitsCorrected(location: string, unitType: string, count: int, nearest: Result<Maps.Nearest, string>): (run: ToolRun)
    ensures run.effects == [Pushed(Pushover.NotifyFireStation(location, count, unitType))]
    ensures Status(run.result) == Some(Str("deployed"))
    ensures nearest.Ok? ==> Get(run.result, "eta_minutes") == Some(Int(nearest.value.etaMins))
    ensures nearest.Err? ==> Get(run.result, "eta_minutes") == Some(Int(12))
    ensures Get(run.result, "units_dispatched") == Some(Int(count))
  {
    Deployment(location, unitType, count, DeployEta(nearest))
  }

  const CriticalWords: seq<string> := ["explosion", "huge", "massive", "trapped", "chemical"]

  /** `estimate_fire_severity`: critical on any alarm word, else medium on smoke or flame, else low,
      all matched in lower case. */
  function FireSeverity(description: string): (severity: string)
    ensures severity == "critical" <==> exists w :: w in CriticalWords && Contains(Lower(description), w)
    ensures severity == "medium" <==>
      (forall w :: w in CriticalWords ==> !Contains(Lower(description), w))
      && (Contains(Lower(description), "smoke") || Contains(Lower(description), "flame"))
    ensures severity in {"critical", "medium", "low"}
  {
    var d := Lower(description);
    if exists w :: w in CriticalWords && Contains(d, w) then "critical"
    else if Contains(d, "smoke") || Contains(d, "flame") then "medium"
    else "low"
  }

  /** The estimate does not depend on letter case. */
  lemma FireSeverityIgnoresCase(description: string)
    ensures FireSeverity(Lower(description)) == FireSeverity(description)
  {
    LowerIdempotent(description);
  }

  /** The request the fire chief sends the police chief when the civic alert channel is down. */
  function PaRequest(message: string, region: string): Json {
    Obj([("action", Str("broadcast_via_pa_system")), ("location", Str(region)),
         ("message", Str("FALLBACK ALERT: " + message)),
         ("details", Str("Civic Alert System is DOWN. Requesting manual PA broadcast."))])
  }

  /** `trigger_civic_alert`: the digital alert goes to the civic alert agent; only when that send
      raises is the police chief asked, by handshake, to broadcast on the PA system. A returned
      dict of any status (an open circuit, an unhealthy agent) counts as sent. */
  function TriggerCivicAlert(message: string, region: string, cid: string,
                             send: Messaging.SendResult, handshake: Result<Json, string>): (run: ToolRun)
    ensures |run.effects| >= 1 && run.effects[0] == Sent("fire-chief-agent", "civic-alert-agent",
      "EMERGENCY ALERT: " + message + " in " + region, cid)
    ensures |run.effects| == 2 <==> send.Error?
    ensures |run.effects| <= 2
    ensures send.Error? ==> run.effects[1] == Requested("fire-chief-agent", "police-chief-agent", PaRequest(message, region), cid)
    ensures Status(run.result) == Some(Str(
      if !send.Error? then "digital_alert_sent"
      else if handshake.Ok? then "analog_fallback_active"
      else "critical_failure"))
  {
    var digital := Sent("fire-chief-agent", "civic-alert-agent", "EMERGENCY ALERT: " + message + " in " + region, cid);
    if !send.Error? then
      ToolRun(Obj([("status", Str("digital_alert_sent")), ("method", Str("civic_alert_agent"))]), [digital])
    else
      var effects := [digital, Requested("fire-chief-agent", "police-chief-agent", PaRequest(message, region), cid)];
      if handshake.Ok? then
        ToolRun(Obj([("status", Str("analog_fallback_active")), ("method", Str("police_pa_system"))]), effects)
      else
        ToolRun(Obj([("status", Str("critical_failure")), ("error", Str("Both Digital and Analog channels failed."))]), effects)
  }

  /** An open circuit on the civic alert agent is reported as a digital alert sent, and the PA
      fallback is not tried. */
  lemma OpenCircuitCountsAsSent(message: string, region: string, cid: string, handshake: Result<Json, string>)
    ensures var run := TriggerCivicAlert(message, region, cid, Messaging.CircuitOpen("civic-alert-agent"), handshake);
      Status(run.result) == Some(Str("digital_alert_sent")) && forall e :: e in run.effects ==> !e.Requested?
  {
  }

  /** `confirm_incident`: the handshake result goes to the normalised target. */
  function ConfirmIncident(status: string, message: string, target: string, cid: string, send: Messaging.SendResult): (run: ToolRun)
    ensures run.effects == [Sent("fire-chief-agent", NormalizeTarget(target), Dumps(ResultMessage(
      [("correlation_id", Str(cid)), ("status", Str(status)), ("message", Str(message))])), cid)]
    ensures EndsWith(run.effects[0].target, "-agent")
    ensures Status(run.result) == Some(Str(if send.Error? then "failed" else "confirmation_sent"))
    ensures !send.Error? ==> Get(run.result, "target") == Some(Str(NormalizeTarget(target)))
  {
    var to := NormalizeTarget(target);
    var run := Confirm("fire-chief-agent", to,
      ResultMessage([("correlation_id", Str(cid)), ("status", Str(status)), ("message", Str(message))]),
      cid, send, "confirmation_sent", "failed");
    if send.Error? then run
    else GetAt(run.result, "target", 1); run
  }
}
