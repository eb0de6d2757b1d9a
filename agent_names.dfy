// Agent names: hyphen normalisation, the "-agent" suffix rule of the confirmation tools,
// and the fixed A2A port of each agent.
module AgentNames {
  import opened Strings

  /** `_normalize_name`: every underscore becomes a hyphen. */
  function NormalizeName(name: string): (r: string)
    ensures |r| == |name|
    ensures forall i :: 0 <= i < |r| ==> r[i] != '_'
    ensures forall i :: 0 <= i < |r| ==> (if name[i] == '_' then r[i] == '-' else r[i] == name[i])
  {
    ReplaceChar(name, '_', '-')
  }

  /** Normalising twice is normalising once. */
  lemma NormalizeNameIdempotent(name: string)
    ensures NormalizeName(NormalizeName(name)) == NormalizeName(name)
  {
  }

  /** The confirmation tools' rule: hyphens for underscores, then "-agent" appended unless already there. */
  function NormalizeTarget(target: string): (r: string)
    ensures EndsWith(r, "-agent")
    ensures forall i :: 0 <= i < |r| ==> r[i] != '_'
  {
    var n := NormalizeName(target);
    if EndsWith(n, "-agent") then n
    else
      var r := n + "-agent";
      assert r[|r| - 6..] == "-agent";
      r
  }

  /** A name already in canonical form is left alone, so the rule is idempotent. */
  lemma {:induction false} NormalizeTargetIdempotent(target: string)
    ensures NormalizeTarget(NormalizeTarget(target)) == NormalizeTarget(target)
  {
    var r := NormalizeTarget(target);
    assert NormalizeName(r) == r;
  }

  /** The suffix is added only when missing: a name ending in "-agent" (after the hyphen rewrite) keeps its length. */
  lemma NormalizeTargetSuffix(target: string)
    ensures EndsWith(NormalizeName(target), "-agent") ==> NormalizeTarget(target) == NormalizeName(target)
    ensures !EndsWith(NormalizeName(target), "-agent") ==> NormalizeTarget(target) == NormalizeName(target) + "-agent"
  {
  }

  /** The nine agents and their A2A ports; any other name gets 9000. */
  function PortOffset(name: string): (port: int)
    ensures 9000 <= port <= 9009
  {
    if name == "human-intake-agent" then 9001
    else if name == "dispatch-agent" then 9002
    else if name == "fire-chief-agent" then 9003
    else if name == "civic-alert-agent" then 9004
    else if name == "medical-agent" then 9005
    else if name == "police-chief-agent" then 9006
    else if name == "utility-agent" then 9007
    else if name == "iot-sensor-agent" then 9008
    else if name == "camera-agent" then 9009
    else 9000
  }

  /** Names outside the table share the default port. */
  lemma {:induction false} UnknownNameDefaultPort(name: string)
    requires name !in {"human-intake-agent", "dispatch-agent", "fire-chief-agent", "civic-alert-agent",
      "medical-agent", "police-chief-agent", "utility-agent", "iot-sensor-agent", "camera-agent"}
    ensures PortOffset(name) == 9000
  {
  }
}
