// The camera agent's own tools that do not depend on chance: the crowd-rush rating of a measured
// density, the hazard broadcast to the commanders, and the task confirmation (whose target is
// used as given).
module CameraTools {
  import opened Wrappers
  import opened Json
  import Messaging
  import opened ToolKit

  /** `detect_crowd_rush`'s risk level for a density (people per area unit). */
  function RiskLevel(density: int): (level: string)
    ensures level == "LOW" <==> density <= 120
    ensures level == "CRITICAL" <==> density > 180
    ensures level in {"LOW", "MEDIUM", "HIGH", "CRITICAL"}
  {
    if density > 180 then "CRITICAL"
    else if density > 150 then "HIGH"
    else if density > 120 then "MEDIUM"
    else "LOW"
  }

  function Rank(level: string): nat {
    if level == "CRITICAL" then 3 else if level == "HIGH" then 2 else if level == "MEDIUM" then 1 else 0
  }

  /** A denser crowd is never rated lower. */
  lemma RiskLevelMonotone(a: int, b: int)
    requires a <= b
    ensures Rank(RiskLevel(a)) <= Rank(RiskLevel(b))
  {
  }

  /** `detect_crowd_rush` for a measured density: conditions are dangerous above 120, exactly when
      the level is not LOW, and only then is police action asked for. */
  function CrowdRush(location: string, density: int): (r: Json)
    ensures Get(r, "dangerous_conditions") == Some(Bool(density > 120))
    ensures Get(r, "risk_level") == Some(Str(RiskLevel(density)))
    ensures Get(r, "action_required") == Some(Null) <==> RiskLevel(density) == "LOW"
  {
    var dangerous := density > 120;
    var r := Obj([("location", Str(location)), ("crowd_density", Int(density)),
      ("dangerous_conditions", Bool(dangerous)), ("risk_level", Str(RiskLevel(density))),
      ("action_required", if dangerous then Str("Use delegate_to_police tool for crowd control") else Null)]);
    GetAt(r, "dangerous_conditions", 2);
    GetAt(r, "risk_level", 3);
    GetAt(r, "action_required", 4);
    r
  }

  const HazardTargets: seq<string> := ["fire-chief-agent", "police-chief-agent", "dispatch-agent"]

  /** `broadcast_hazard`: the alert goes to the fire chief, the police chief and dispatch. The
      broadcast never raises (each failed delivery becomes an "unreachable" entry), so the tool
      always reports it sent. */
  function BroadcastHazard(hazardType: string, location: string): (run: ToolRun)
    ensures run.effects == [Broadcasted("camera-agent", HazardTargets,
      "VISUAL ALERT: " + hazardType + " confirmed at " + location + ".")]
    ensures Status(run.result) == Some(Str("broadcast_sent"))
  {
    ToolRun(Obj([("status", Str("broadcast_sent")),
      ("targets", Arr([Str("fire-chief-agent"), Str("police-chief-agent"), Str("dispatch-agent")]))]),
      [Broadcasted("camera-agent", HazardTargets, "VISUAL ALERT: " + hazardType + " confirmed at " + location + ".")])
  }

  /** `confirm_task`: the target is used exactly as given. */
  function ConfirmTask(status: string, message: string, target: string, cid: string, send: Messaging.SendResult): (run: ToolRun)
    ensures run.effects == [Sent("camera-agent", target, Dumps(ResultMessage(
      [("correlation_id", Str(cid)), ("status", Str(status)), ("message", Str(message))])), cid)]
    ensures Status(run.result) == Some(Str(if send.Error? then "error" else "sent"))
  {
    Confirm("camera-agent", target,
      ResultMessage([("correlation_id", Str(cid)), ("status", Str(status)), ("message", Str(message))]),
      cid, send, "sent", "error")
  }
}
