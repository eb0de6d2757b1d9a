// The utility agent's own tools: power and gas shutdown through the utility control station,
// the hydrant pressure boost, the keyword infrastructure-risk rating and the task confirmation.
module UtilityTools {
  import opened Wrappers
  import opened Strings
  import opened Json
  import Messaging
  import Pushover
  import opened AgentNames
  import opened ToolKit

  const AffectedCustomers := 1500

  /** `shutdown_power_grid`: the control station is told of the shutdown with the reason and the
      fixed 1500 customers; the grid id is the zone upper-cased. */
  function ShutdownPowerGrid(zone: string, reason: string): (run: ToolRun)
    ensures run.effects == [Pushed(Pushover.NotifyUtilityControl("Power Grid SHUTDOWN", zone,
      "Reason: " + reason + ". Affected: " + IntToString(AffectedCustomers) + " customers."))]
    ensures Status(run.result) == Some(Str("shutdown_complete"))
    ensures Get(run.result, "grid_id") == Some(Str("GRID-" + Upper(zone)))
    ensures Get(run.result, "affected_customers") == Some(Int(AffectedCustomers))
  {
    var result := Obj([("status", Str("shutdown_complete")),
      ("message", Str("Notified power station, shutting down power grid in " + zone)),
      ("grid_id", Str("GRID-" + Upper(zone))), ("affected_customers", Int(AffectedCustomers)),
      ("reason", Str(reason))]);
    GetAt(result, "grid_id", 2);
    GetAt(result, "affected_customers", 3);
    ToolRun(result, [Pushed(Pushover.NotifyUtilityControl("Power Grid SHUTDOWN", zone,
      "Reason: " + reason + ". Affected: " + IntToString(AffectedCustomers) + " customers."))])
  }

  /** `cut_gas_supply`: the control station is told the valves are closed; pressure is reported as 0 PSI. */
  function CutGasSupply(region: string, severity: string): (run: ToolRun)
    ensures run.effects == [Pushed(Pushover.NotifyUtilityControl("Gas Supply ISOLATED", region,
      "Severity: " + severity + ". Pressure: 0 PSI. Valves closed."))]
    ensures Status(run.result) == Some(Str("valves_closed"))
    ensures Get(run.result, "pressure_reading") == Some(Str("0 PSI"))
  {
    var result := Obj([("status", Str("valves_closed")),
      ("message", Str("Notified gas station, isolating gas supply in " + region)),
      ("region", Str(region)), ("pressure_reading", Str("0 PSI")), ("action_taken", Str("emergency_isolation"))]);
    GetAt(result, "pressure_reading", 3);
    ToolRun(result, [Pushed(Pushover.NotifyUtilityControl("Gas Supply ISOLATED", region,
      "Severity: " + severity + ". Pressure: 0 PSI. Valves closed."))])
  }

  /** `restore_water_pressure`: the pressure reported is the one asked for, 80 PSI by default. */
  function RestoreWaterPressure(sector: string, targetPsi: Option<int>): (r: Json)
    ensures Status(r) == Some(Str("pressure_boosted"))
    ensures Get(r, "current_psi") == Some(Int(if targetPsi.Some? then targetPsi.value else 80))
  {
    var psi := if targetPsi.Some? then targetPsi.value else 80;
    var r := Obj([("status", Str("pressure_boosted")), ("current_psi", Int(psi)), ("sector", Str(sector))]);
    GetAt(r, "current_psi", 1);
    r
  }

  /** `evaluate_infrastructure_risk`'s rating from the location's name, in lower case: industrial
      sites and factories are high risk, markets medium, anything else low with no hazards. */
  function InfrastructureRisk(location: string): (r: (string, seq<string>))
    ensures var l := Lower(location);
      (r.0 == "HIGH" <==> Contains(l, "industrial") || Contains(l, "factory"))
      && (r.0 == "MEDIUM" <==> !Contains(l, "industrial") && !Contains(l, "factory") && Contains(l, "market"))
      && (r.0 == "LOW" <==> r.1 == [])
    ensures r.0 == "HIGH" ==> r.1 == ["Chemical Storage", "High Voltage Lines"]
    ensures r.0 == "MEDIUM" ==> r.1 == ["Dense Gas Lines"]
  {
    var l := Lower(location);
    if Contains(l, "industrial") || Contains(l, "factory") then ("HIGH", ["Chemical Storage", "High Voltage Lines"])
    else if Contains(l, "market") then ("MEDIUM", ["Dense Gas Lines"])
    else ("LOW", [])
  }

  /** The rating does not depend on letter case. */
  lemma InfrastructureRiskIgnoresCase(location: string)
    ensures InfrastructureRisk(Lower(location)) == InfrastructureRisk(location)
  {
    LowerIdempotent(location);
  }

  /** `confirm_task`: the handshake result goes to the normalised target; the statuses are "sent"
      and "error". */
  function ConfirmTask(status: string, message: string, target: string, cid: string, send: Messaging.SendResult): (run: ToolRun)
    ensures run.effects == [Sent("utility-agent", NormalizeTarget(target), Dumps(ResultMessage(
      [("correlation_id", Str(cid)), ("status", Str(status)), ("message", Str(message))])), cid)]
    ensures Status(run.result) == Some(Str(if send.Error? then "error" else "sent"))
  {
    Confirm("utility-agent", NormalizeTarget(target),
      ResultMessage([("correlation_id", Str(cid)), ("status", Str(status)), ("message", Str(message))]),
      cid, send, "sent", "error")
  }
}
