// The medical agent's own tools: ambulance dispatch after a location check, the fixed-ratio
// triage split, hospital preparation, the confirmation back to the requester and the medical
// civic alert.
module MedicalTools {
  import opened Wrappers
  import opened Strings
  import opened Json
  import Messaging
  import Maps
  import Pushover
  import opened AgentNames
  import opened ToolKit

  /** `dispatch_ambulances`: an unresolved location is an error dict and nobody is notified;
      otherwise the hospital is notified and the dispatch is reported with an 8-minute ETA. */
  function DispatchAmbulances(location: string, units: int, lookup: Maps.Lookup): (run: ToolRun)
    ensures lookup.NotFound? ==>
      run.effects == [] && run.result == Obj([("error", Str("Location '" + location + "' not found."))])
    ensures lookup.Found? ==>
      run.effects == [Pushed(Pushover.NotifyHospital(location, units))]
      && Status(run.result) == Some(Str("dispatched"))
      && Get(run.result, "units") == Some(Int(units)) && Get(run.result, "eta_minutes") == Some(Int(8))
  {
    if lookup.NotFound? then ToolRun(Obj([("error", Str("Location '" + location + "' not found."))]), [])
    else
      var result := Obj([("status", Str("dispatched")),
        ("message", Str("Notified hospital, dispatching " + IntToString(units) + " ambulance(s) to " + location)),
        ("units", Int(units)), ("location", Str(location)), ("eta_minutes", Int(8))]);
      GetAt(result, "units", 2);
      GetAt(result, "eta_minutes", 4);
      ToolRun(result, [Pushed(Pushover.NotifyHospital(location, units))])
  }

  /** The triage breakdown: critical, serious, minor. */
  datatype Breakdown = Breakdown(critical: int, serious: int, minor: int)

  /** `triage_casualties`: a fifth critical and two fifths serious, each truncated toward zero;
      the rest are minor. */
  function Triage(count: int): (b: Breakdown)
    ensures b.critical + b.serious + b.minor == count
  {
    var critical := Maps.Trunc(count as real * 0.2);
    var serious := Maps.Trunc(count as real * 0.4);
    Breakdown(critical, serious, count - critical - serious)
  }

  /** For a real casualty count every share is non-negative, and the shares grow with
      decreasing severity: critical <= serious <= minor. */
  lemma TriageShares(count: int)
    requires count >= 0
    ensures var b := Triage(count); 0 <= b.critical <= b.serious <= b.minor
  {
    var x := count as real;
    var c := (x * 0.2).Floor;
    var s := (x * 0.4).Floor;
    assert c as real <= x * 0.2 < c as real + 1.0;
    assert s as real <= x * 0.4 < s as real + 1.0;
    assert 2 * c <= s by {
      assert (2 * c) as real <= x * 0.4;
    }
    assert (count - c - s) as real >= x - x * 0.2 - x * 0.4;
  }

  /** Truncation toward zero makes the split odd: a negated count gives the negated breakdown. */
  lemma TriageOdd(count: int)
    ensures var b := Triage(count); var n := Triage(-count);
      n.critical == -b.critical && n.serious == -b.serious && n.minor == -b.minor
  {
    assert (-count) as real * 0.2 == -(count as real * 0.2);
    assert (-count) as real * 0.4 == -(count as real * 0.4);
  }

  function TriageResult(location: string, count: int): Json {
    var b := Triage(count);
    Obj([("status", Str("triage_complete")), ("location", Str(location)),
         ("breakdown", Obj([("critical", Int(b.critical)), ("serious", Int(b.serious)), ("minor", Int(b.minor))]))])
  }

  /** `prepare_medical_response`: trauma teams and reserved beds; only the exact severity "High"
      (case-sensitive) gets the larger allocation. */
  function PrepareMedicalResponse(incidentType: string, severity: string): (r: (int, int))
    ensures r == (2, 20) <==> severity == "High"
    ensures r == (1, 5) <==> severity != "High"
  {
    if severity == "High" then (2, 20) else (1, 5)
  }

  function PrepareResult(incidentType: string, severity: string): Json {
    var (teams, beds) := PrepareMedicalResponse(incidentType, severity);
    Obj([("status", Str("prepared")), ("trauma_teams_activated", Int(teams)), ("beds_reserved", Int(beds))])
  }

  /** `confirm_support_request`: the handshake result, with the details, goes to the normalised
      target. */
  function ConfirmSupportRequest(target: string, status: string, details: string, cid: string, send: Messaging.SendResult): (run: ToolRun)
    ensures run.effects == [Sent("medical-agent", NormalizeTarget(target), Dumps(ResultMessage(
      [("correlation_id", Str(cid)), ("status", Str(status)), ("details", Str(details))])), cid)]
    ensures Status(run.result) == Some(Str(if send.Error? then "failed" else "confirmation_sent"))
  {
    Confirm("medical-agent", NormalizeTarget(target),
      ResultMessage([("correlation_id", Str(cid)), ("status", Str(status)), ("details", Str(details))]),
      cid, send, "confirmation_sent", "failed")
  }

  /** The alert text sent to the civic alert agent. */
  function AlertText(message: string, zone: string, severity: string): string {
    "MEDICAL ALERT: " + message + ". Zone: " + zone + ". Severity: " + severity
  }

  /** `trigger_civic_alert`: one message to the civic alert agent; the returned dict comes back as
      the details, a raised error as the message. */
  function TriggerCivicAlert(message: string, zone: string, severity: string, cid: string, send: Messaging.SendResult): (run: ToolRun)
    ensures run.effects == [Sent("medical-agent", "civic-alert-agent", AlertText(message, zone, severity), cid)]
    ensures !send.Error? ==> run.result == Obj([("status", Str("alert_broadcasted")), ("details", SendDict(send))])
    ensures send.Error? ==> run.result == Obj([("status", Str("error")), ("message", Str(send.error))])
  {
    var effects := [Sent("medical-agent", "civic-alert-agent", AlertText(message, zone, severity), cid)];
    if send.Error? then ToolRun(Obj([("status", Str("error")), ("message", Str(send.error))]), effects)
    else ToolRun(Obj([("status", Str("alert_broadcasted")), ("details", SendDict(send))]), effects)
  }

  /** The alert text carries the message, the zone and the severity. */
  lemma AlertTextCarries(message: string, zone: string, severity: string)
    ensures var t := AlertText(message, zone, severity);
      StartsWith(t, "MEDICAL ALERT: ") && Contains(t, message) && Contains(t, zone) && EndsWith(t, severity)
  {
    var t := AlertText(message, zone, severity);
    assert t == "MEDICAL ALERT: " + message + (". Zone: " + zone + ". Severity: " + severity);
    ContainsInfix("MEDICAL ALERT: ", message, ". Zone: " + zone + ". Severity: " + severity);
    assert t == "MEDICAL ALERT: " + message + ". Zone: " + zone + (". Severity: " + severity);
    ContainsInfix("MEDICAL ALERT: " + message + ". Zone: ", zone, ". Severity: " + severity);
    assert t[..|"MEDICAL ALERT: "|] == "MEDICAL ALERT: ";
    assert t[|t| - |severity|..] == severity;
  }
}
