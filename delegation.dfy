// The delegation tool: one agent hands a natural-language request to another over the
// correlation-id handshake, guarded by the incident-level dedup query of the delegation ledger,
// with a PENDING ledger row written first and updated with the outcome, and a single failover
// handshake to a backup agent when the error text looks like a connection failure.
module Delegation {
  import opened Wrappers
  import opened Strings
  import opened Json
  import opened Store
  import opened Messaging
  import opened CircuitBreaker
  import opened AgentNames
  import opened IncidentId

  /** get_cid: the current correlation id, "UNKNOWN" when unset. */
  function GetCid(current: string): (cid: string)
    ensures cid != "" && (current != "" ==> cid == current)
  {
    if current == "" then "UNKNOWN" else current
  }

  /** The tool name the factory registers: "delegate_to_" + the target with every "-agent" removed
      and the remaining hyphens turned into underscores. */
  function ToolName(target: string): (name: string)
    ensures StartsWith(name, "delegate_to_")
    ensures forall i :: 0 <= i < |name| ==> name[i] != '-'
  {
    var n := "delegate_to_" + ReplaceChar(RemoveAll(target, "-agent"), '-', '_');
    assert n[..12] == "delegate_to_";
    n
  }

  /** Removing `p` from `x + p`, where no occurrence of `p` starts inside `x`, leaves `x`. */
  lemma {:induction false} RemoveTrailing(x: string, p: string)
    requires |p| > 0
    requires forall i :: 0 <= i < |x| ==> (x + p)[i] != p[0] || !StartsWith((x + p)[i..], p)
    ensures RemoveAll(x + p, p) == x
    decreases |x|
  {
    if |x| == 0 {
      assert (x + p)[|p|..] == "";
    } else {
      assert (x + p)[1..] == x[1..] + p;
      forall i | 0 <= i < |x[1..]|
        ensures (x[1..] + p)[i] != p[0] || !StartsWith((x[1..] + p)[i..], p)
      {
        assert (x[1..] + p)[i..] == (x + p)[i + 1..];
      }
      RemoveTrailing(x[1..], p);
    }
  }

  /** For a target "<x>-agent" whose `x` has no hyphen followed by 'a' (so no "-agent" inside it),
      the tool is "delegate_to_" and `x` with its hyphens turned into underscores: "fire-chief-agent"
      registers delegate_to_fire_chief. */
  lemma ToolNameOf(x: string)
    requires forall i :: 0 <= i < |x| ==> (x + "-agent")[i] != '-' || (x + "-agent")[i + 1] != 'a'
    ensures ToolName(x + "-agent") == "delegate_to_" + ReplaceChar(x, '-', '_')
  {
    forall i | 0 <= i < |x|
      ensures (x + "-agent")[i] != '-' || !StartsWith((x + "-agent")[i..], "-agent")
    {
      if (x + "-agent")[i] == '-' {
        assert (x + "-agent")[i..][1] == (x + "-agent")[i + 1];
      }
    }
    RemoveTrailing(x, "-agent");
  }

  /** Who stands in for whom when a delegation's target is unreachable. */
  const FailoverAgents: map<string, string> := map[
    "medical-agent" := "police-chief-agent",
    "civic-alert-agent" := "police-chief-agent",
    "fire-chief-agent" := "police-chief-agent",
    "utility-agent" := "fire-chief-agent",
    "police-chief-agent" := "fire-chief-agent"]

  /** No agent is its own backup, but fire chief and police chief back each other up: a failover
      that were itself failed over would come back to the original target. */
  lemma FailoverShape()
    ensures forall t :: t in FailoverAgents ==> FailoverAgents[t] != t
    ensures forall t :: t in FailoverAgents ==> FailoverAgents[t] in FailoverAgents
    ensures FailoverAgents[FailoverAgents["fire-chief-agent"]] == "fire-chief-agent"
    ensures FailoverAgents[FailoverAgents["police-chief-agent"]] == "police-chief-agent"
  {
  }

  /** The failover test on the error text: "503" anywhere, or "connection" or "timeout" in any case. */
  predicate IsConnectionFailure(error: string) {
    Contains(error, "503") || ContainsIgnoringCase(error, "connection") || ContainsIgnoringCase(error, "timeout")
  }

  /** 'n' or 'N'; 'o' or 'O'; 'u' or 'U'. */
  predicate IsN(c: char) { c == 'n' || c == 'N' }
  predicate IsO(c: char) { c == 'o' || c == 'O' }
  predicate IsU(c: char) { c == 'u' || c == 'U' }

  /** No '5', no "nn" and no "ou" in any case: the marks every failover word needs. */
  predicate Unmarked(s: string) {
    (forall i :: 0 <= i < |s| ==> s[i] != '5')
    && (forall i :: 0 <= i < |s| - 1 ==> !(IsN(s[i]) && IsN(s[i + 1])) && !(IsO(s[i]) && IsU(s[i + 1])))
  }

  /** Lower-casing leaves 'n', 'o' and 'u' only where one of them was, in either case. */
  lemma LowerCharMarks(c: char)
    ensures LowerChar(c) == 'n' ==> IsN(c)
    ensures LowerChar(c) == 'o' ==> IsO(c)
    ensures LowerChar(c) == 'u' ==> IsU(c)
  {
  }

  /** An unmarked error text cannot pass the failover test. */
  lemma UnmarkedNotConnectionFailure(s: string)
    requires Unmarked(s)
    ensures !IsConnectionFailure(s)
  {
    AbsentChar(s, "503", 0);
    var l := Lower(s);
    forall i | 0 <= i < |l| - 1
      ensures !(l[i] == 'n' && l[i + 1] == 'n') && !(l[i] == 'o' && l[i + 1] == 'u')
    {
      LowerCharMarks(s[i]);
      LowerCharMarks(s[i + 1]);
    }
    assert Lower("connection") == "connection";
    AbsentPair(l, "connection", 2);
    assert Lower("timeout") == "timeout";
    AbsentPair(l, "timeout", 4);
  }

  /** Two unmarked texts joined where no mark straddles the seam give an unmarked text. */
  lemma UnmarkedJoin(a: string, b: string)
    requires Unmarked(a) && Unmarked(b)
    requires |a| > 0 && |b| > 0 ==> !(IsN(a[|a| - 1]) && IsN(b[0])) && !(IsO(a[|a| - 1]) && IsU(b[0]))
    ensures Unmarked(a + b)
  {
    var s := a + b;
    forall i | 0 <= i < |s| - 1
      ensures !(IsN(s[i]) && IsN(s[i + 1])) && !(IsO(s[i]) && IsU(s[i + 1]))
    {
      if i + 1 < |a| {
        assert s[i] == a[i] && s[i + 1] == a[i + 1];
      } else if i >= |a| {
        assert s[i] == b[i - |a|] && s[i + 1] == b[i + 1 - |a|];
      }
    }
  }

  /** Unmarked, checked one position at a time from position i on. */
  predicate UnmarkedFrom(s: string, i: nat)
    decreases |s| - i
  {
    i >= |s|
    || (s[i] != '5'
      && (i + 1 < |s| ==> !(IsN(s[i]) && IsN(s[i + 1])) && !(IsO(s[i]) && IsU(s[i + 1])))
      && UnmarkedFrom(s, i + 1))
  }

  lemma {:induction false} UnmarkedFromMeans(s: string, i: nat)
    requires UnmarkedFrom(s, i)
    ensures forall k :: i <= k < |s| ==> s[k] != '5'
    ensures forall k :: i <= k < |s| - 1 ==> !(IsN(s[k]) && IsN(s[k + 1])) && !(IsO(s[k]) && IsU(s[k + 1]))
    decreases |s| - i
  {
    if i < |s| {
      UnmarkedFromMeans(s, i + 1);
    }
  }

  /** A text that passes the position-by-position check is unmarked. */
  lemma UnmarkedByScan(s: string)
    requires UnmarkedFrom(s, 0)
    ensures Unmarked(s)
  {
    UnmarkedFromMeans(s, 0);
  }

  lemma UnmarkedMedical() ensures Unmarked("medical-agent") {
    var s := "medical-agent";
    assert UnmarkedFrom(s, 12);
    assert UnmarkedFrom(s, 8);
    assert UnmarkedFrom(s, 4);
    UnmarkedByScan(s);
  }
  lemma UnmarkedCivicAlert() ensures Unmarked("civic-alert-agent") {
    var s := "civic-alert-agent";
    assert UnmarkedFrom(s, 16);
    assert UnmarkedFrom(s, 12);
    assert UnmarkedFrom(s, 8);
    assert UnmarkedFrom(s, 4);
    UnmarkedByScan(s);
  }
  lemma UnmarkedFireChief() ensures Unmarked("fire-chief-agent") {
    var s := "fire-chief-agent";
    assert UnmarkedFrom(s, 12);
    assert UnmarkedFrom(s, 8);
    assert UnmarkedFrom(s, 4);
    UnmarkedByScan(s);
  }
  lemma UnmarkedUtility() ensures Unmarked("utility-agent") {
    var s := "utility-agent";
    assert UnmarkedFrom(s, 12);
    assert UnmarkedFrom(s, 8);
    assert UnmarkedFrom(s, 4);
    UnmarkedByScan(s);
  }
  lemma UnmarkedPoliceChief() ensures Unmarked("police-chief-agent") {
    var s := "police-chief-agent";
    assert UnmarkedFrom(s, 16);
    assert UnmarkedFrom(s, 12);
    assert UnmarkedFrom(s, 8);
    assert UnmarkedFrom(s, 4);
    UnmarkedByScan(s);
  }
  lemma UnmarkedOpenText() ensures Unmarked("Circuit breaker OPEN for ") {
    var s := "Circuit breaker OPEN for ";
    assert UnmarkedFrom(s, 24);
    assert UnmarkedFrom(s, 22);
    assert UnmarkedFrom(s, 20);
    assert UnmarkedFrom(s, 18);
    assert UnmarkedFrom(s, 16);
    assert UnmarkedFrom(s, 14);
    assert UnmarkedFrom(s, 12);
    assert UnmarkedFrom(s, 10);
    assert UnmarkedFrom(s, 8);
    assert UnmarkedFrom(s, 6);
    assert UnmarkedFrom(s, 4);
    assert UnmarkedFrom(s, 2);
    UnmarkedByScan(s);
  }
  lemma UnmarkedTimeoutHead() ensures Unmarked("Agent ") { UnmarkedByScan("Agent "); }
  lemma UnmarkedDidNotRespond() ensures Unmarked(" did not respond within ") {
    var s := " did not respond within ";
    assert UnmarkedFrom(s, 22);
    assert UnmarkedFrom(s, 20);
    assert UnmarkedFrom(s, 18);
    assert UnmarkedFrom(s, 16);
    assert UnmarkedFrom(s, 14);
    assert UnmarkedFrom(s, 12);
    assert UnmarkedFrom(s, 10);
    assert UnmarkedFrom(s, 8);
    assert UnmarkedFrom(s, 6);
    assert UnmarkedFrom(s, 4);
    assert UnmarkedFrom(s, 2);
    UnmarkedByScan(s);
  }

  /** The agents that have a backup have unmarked names. */
  lemma BackedUpAgentsUnmarked(t: string)
    requires t in FailoverAgents
    ensures Unmarked(t)
  {
    if t == "medical-agent" {
      UnmarkedMedical();
    } else if t == "civic-alert-agent" {
      UnmarkedCivicAlert();
    } else if t == "fire-chief-agent" {
      UnmarkedFireChief();
    } else if t == "utility-agent" {
      UnmarkedUtility();
    } else {
      UnmarkedPoliceChief();
    }
  }

  /** The refused-gate message of an unmarked agent is not a connection failure. */
  lemma OpenNotFailedOver(t: string)
    requires Unmarked(t)
    ensures !IsConnectionFailure(OpenMessage(t))
  {
    UnmarkedOpenText();
    UnmarkedJoin("Circuit breaker OPEN for ", t);
    UnmarkedNotConnectionFailure(OpenMessage(t));
  }

  /** The 60-second handshake-timeout message of an unmarked agent is not a connection failure. */
  lemma TimeoutNotFailedOver(t: string)
    requires Unmarked(t)
    ensures !IsConnectionFailure(TimeoutMessage(t, 60))
  {
    assert IntToString(60) == "60";
    assert Unmarked("60s");
    UnmarkedTimeoutHead();
    UnmarkedDidNotRespond();
    UnmarkedJoin("Agent ", t);
    UnmarkedJoin("Agent " + t, " did not respond within ");
    UnmarkedJoin("Agent " + t + " did not respond within ", "60");
    UnmarkedJoin("Agent " + t + " did not respond within " + "60", "s");
    UnmarkedNotConnectionFailure(TimeoutMessage(t, 60));
  }

  /** The two exceptions a handshake raises on its own, the refused gate and the tool's 60-second
      timeout, are not connection failures for any agent with an unmarked name (every agent that
      has a backup): a delegation ending in either is logged FAILED and never failed over. */
  lemma HandshakeErrorsNotFailedOver(t: string)
    requires Unmarked(t)
    ensures !IsConnectionFailure(OpenMessage(t))
    ensures !IsConnectionFailure(TimeoutMessage(t, 60))
  {
    OpenNotFailedOver(t);
    TimeoutNotFailedOver(t);
  }

  /** Normalising a name turns '_' into '-', which creates none of the marks. */
  lemma UnmarkedNormalized(s: string)
    requires Unmarked(s)
    ensures Unmarked(NormalizeName(s))
  {
    var n := NormalizeName(s);
    forall i | 0 <= i < |n| - 1
      ensures !(IsN(n[i]) && IsN(n[i + 1])) && !(IsO(n[i]) && IsU(n[i + 1]))
    {
      assert !(IsN(s[i]) && IsN(s[i + 1])) && !(IsO(s[i]) && IsU(s[i + 1]));
    }
  }

  /** int((at - start) * 1000): elapsed milliseconds, truncated toward zero. */
  function Millis(start: real, at: real): (ms: int)
    ensures var x := (at - start) * 1000.0;
      (x >= 0.0 ==> 0 <= ms && ms as real <= x < ms as real + 1.0)
      && (x < 0.0 ==> ms <= 0 && ms as real - 1.0 < x <= ms as real)
  {
    var x := (at - start) * 1000.0;
    if x >= 0.0 then x.Floor else -((-x).Floor)
  }

  // ---- payloads and the decision -------------------------------------------

  /** The handshake payload of a delegation. */
  function DelegationPayload(request: string, source: string): Json {
    Obj([("type", Str("DELEGATION_REQUEST")), ("request", Str(request)), ("source", Str(source)),
      ("requires_response", Bool(true))])
  }

  /** The handshake payload of the failover: the request tagged with the original target. */
  function FailoverPayload(request: string, source: string, target: string): Json {
    Obj([("type", Str("DELEGATION_REQUEST")), ("request", Str("[FAILOVER from " + target + "] " + request)),
      ("source", Str(source)), ("requires_response", Bool(true)), ("is_failover", Bool(true)),
      ("original_target", Str(target))])
  }

  /** One handshake the tool sent: to whom, under which correlation id, with what payload. */
  datatype Send = Send(target: string, cid: string, payload: Json)

  /** The dict delegate_to_agent returns; it never raises. */
  datatype Outcome =
    | AlreadyHandled(delegatedTo: string, handledBy: string, incidentId: string, message: string)
    | Delegated(delegatedTo: string, response: Json, durationMs: int, toolsCalled: Json,
        prompt: Json, completion: Json, total: Json)
    | Failover(originalTarget: string, handledBy: string, response: Json, message: string, durationMs: int)
    | DelegationFailed(delegatedTo: string, error: string, durationMs: int)

  function AlreadyHandledOutcome(target: string, handledBy: string, incident: string): Outcome {
    AlreadyHandled(target, handledBy, incident,
      target + " was already contacted for incident " + incident + " by " + handledBy + ". No duplicate action needed.")
  }

  /** response.get(key, default) when the result is a dict; the default otherwise. */
  function Field(response: Json, key: string, default: Json): Json {
    if response.Obj? then GetOr(response, key, default) else default
  }

  /** The final response of a delegation: "message", else "result", else the dict's text. */
  function FinalResponse(response: Json): Json {
    if response.Obj? then GetOr(response, "message", GetOr(response, "result", Str(Repr(response))))
    else Str(ToStr(response))
  }

  /** The final response of a failover: "message", else the dict's text. */
  function FailoverResponse(response: Json): Json {
    if response.Obj? then GetOr(response, "message", Str(Repr(response))) else Str(ToStr(response))
  }

  /** The token total of the success dict: Python's `+`, which can raise a TypeError. */
  function TokenTotal(response: Json): Result<Json, string> {
    PyAdd(Field(response, "prompt_tokens", Int(0)), Field(response, "completion_tokens", Int(0)))
  }

  /** The text of the exception the first handshake ends in, if any: the handshake's own, or the
      TypeError the token total raises after a successful handshake. */
  function FailureText(answer: Result<Json, string>): Option<string> {
    if answer.Err? then Some(answer.error)
    else if TokenTotal(answer.value).Err? then Some(TokenTotal(answer.value).error)
    else None
  }

  /** failover_agents.get(target): the backup of a target, looked up under the name as given. */
  function FailoverFor(target: string): (backup: Option<string>)
    ensures backup.Some? <==> target in FailoverAgents
    ensures backup.Some? ==> backup.value == FailoverAgents[target]
  {
    if target in FailoverAgents then Some(FailoverAgents[target]) else None
  }

  /** Whether the exception handler tries the backup agent. */
  predicate WantsFailover(error: string, backup: Option<string>) {
    IsConnectionFailure(error) && backup.Some?
  }

  /** The ledger update after a successful first handshake (COMPLETED), if its values bind. */
  function SuccessUpdate(response: Json, ms: int): Option<LogUpdate> {
    Bind(Some(ms), Field(response, "tools_called", Arr([])), Field(response, "tool_results", Arr([])),
      FinalResponse(response), Field(response, "prompt_tokens", Int(0)), Field(response, "completion_tokens", Int(0)),
      Completed)
  }

  function FailoverUpdate(backup: string, response: Json, ms: int): Option<LogUpdate> {
    Bind(Some(ms), Null, Null, Str("[FAILOVER to " + backup + "] " + ToStr(FailoverResponse(response))),
      Int(0), Int(0), FailoverSuccess)
  }

  function FailedUpdate(error: string, ms: int): Option<LogUpdate> {
    Bind(Some(ms), Null, Null, Str(error), Int(0), Int(0), Failed)
  }

  /** What the exception handler returns: the backup's answer when the one failover handshake
      (`more`, empty when none was made) succeeded, FAILED with the error text otherwise. */
  function Recovered(target: string, backup: Option<string>, error: string, ms: int, ms2: int,
    more: seq<Result<Json, string>>): Outcome
    requires |more| <= 1
  {
    if |more| == 1 && more[0].Ok? && backup.Some? then
      Failover(target, backup.value, FailoverResponse(more[0].value),
        target + " was unreachable. " + backup.value + " handled the request.", ms2)
    else DelegationFailed(target, error, ms)
  }

  /** The ledger update the exception handler makes: FAILOVER_SUCCESS or FAILED. */
  function RecoveryUpdate(backup: Option<string>, error: string, ms: int, ms2: int,
    more: seq<Result<Json, string>>): Option<LogUpdate>
    requires |more| <= 1
  {
    if |more| == 1 && more[0].Ok? && backup.Some? then
      FailoverUpdate(backup.value, more[0].value, ms2)
    else FailedUpdate(error, ms)
  }

  /** What the tool returns once past the dedup gate, given the answers of its one or two handshakes
      (the first ending at `at1`, the failover at `at2`). */
  function Conclude(target: string, start: real, at1: real, at2: real, answers: seq<Result<Json, string>>): Outcome
    requires 1 <= |answers| <= 2
  {
    var failure := FailureText(answers[0]);
    if failure.None? then
      var response := answers[0].value;
      Delegated(target, FinalResponse(response), Millis(start, at1), Field(response, "tools_called", Arr([])),
        Field(response, "prompt_tokens", Int(0)), Field(response, "completion_tokens", Int(0)),
        TokenTotal(response).value)
    else Recovered(target, FailoverFor(target), failure.value, Millis(start, at1), Millis(start, at2), answers[1..])
  }

  /** The ledger updates the tool attempts, in order; None where the values cannot be bound. */
  function Updates(target: string, start: real, at1: real, at2: real, answers: seq<Result<Json, string>>): seq<Option<LogUpdate>>
    requires 1 <= |answers| <= 2
  {
    var first := if answers[0].Ok? then [SuccessUpdate(answers[0].value, Millis(start, at1))] else [];
    var failure := FailureText(answers[0]);
    if failure.None? then first
    else first + [RecoveryUpdate(FailoverFor(target), failure.value, Millis(start, at1), Millis(start, at2), answers[1..])]
  }

  /** The ledger after a sequence of update_delegation_log calls for one cid. */
  function ApplyAll(logs: seq<LogEntry>, cid: string, us: seq<Option<LogUpdate>>, available: bool): (r: seq<LogEntry>)
    ensures |r| == |logs|
    decreases |us|
  {
    if |us| == 0 then logs
    else ApplyAll(LogsAfter(logs, cid, us[0], available), cid, us[1..], available)
  }

  /** The dedup query of the tool: only with an extracted incident id and a pool. */
  function Dedup(available: bool, logs: seq<LogEntry>, incident: Option<string>, target: string, now: real): Option<LogEntry> {
    if incident.Some? && available then ExistingDelegation(logs, incident.value, target, 300, now) else None
  }

  /** What one handshake of the tool meets: the attempts of its send, the polls of its record, what
      a same-process resolve delivers, and the clock when it ends. */
  datatype Exchange = Exchange(world: nat -> Attempt, completions: nat -> Option<Json>, local: Option<Json>, at: real)

  /** What the tool's one send_request_with_handshake (60-second timeout) returns, from the breaker
      table `cs` it meets at `now` and whether the pool is up: the refused gate; the error of the
      fourth raised attempt, which only a closed circuit lets happen (a half-open one refuses the
      inner send); else the polled row or the local future, either of them possibly the timeout. */
  ghost predicate HandshakeAnswer(cs: Circuits, to: string, now: real, ex: Exchange, available: bool,
    answer: Result<Json, string>)
  {
    var t := NormalizeName(to);
    if !Allowed(cs, t, now) then answer == Err(OpenMessage(t))
    else if StateOf(cs, t, now) == Closed && forall k :: 0 <= k < 4 ==> ex.world(k).delivery.Raised? then
      answer == Err(ex.world(3).delivery.error)
    else if available then
      var p := PollOutcome(Some(HandshakeRow(HsPending, None)), ex.completions, 0, 60);
      answer == if p.0.Some? && Truthy(p.0.value) then Ok(p.0.value) else Err(TimeoutMessage(t, 60))
    else answer == if ex.local.Some? then Ok(ex.local.value) else Err(TimeoutMessage(t, 60))
  }

  /** A first handshake refused by the gate or timed out ends the delegation FAILED with that text,
      without a failover, whichever agent was the target. */
  lemma RefusedOrTimedOutFails(target: string, start: real, at1: real, at2: real, answers: seq<Result<Json, string>>)
    requires 1 <= |answers| <= 2 && answers[0].Err?
    requires answers[0].error == OpenMessage(NormalizeName(target)) || answers[0].error == TimeoutMessage(NormalizeName(target), 60)
    requires |answers| == 2 <==> WantsFailover(answers[0].error, FailoverFor(target))
    ensures |answers| == 1
    ensures Conclude(target, start, at1, at2, answers) == DelegationFailed(target, answers[0].error, Millis(start, at1))
  {
    if target in FailoverAgents {
      BackedUpAgentsUnmarked(target);
      UnmarkedNormalized(target);
      HandshakeErrorsNotFailedOver(NormalizeName(target));
    }
    assert answers[1..] == [];
  }

  /** A delegation whose target's circuit refuses the first handshake makes no failover and
      reports the gate's message. */
  lemma OpenCircuitDelegationFails(cs: Circuits, target: string, start: real, first: Exchange, at2: real,
    available: bool, answers: seq<Result<Json, string>>)
    requires 1 <= |answers| <= 2
    requires !Allowed(cs, NormalizeName(target), start)
    requires HandshakeAnswer(cs, target, start, first, available, answers[0])
    requires |answers| == 2 <==> FailureText(answers[0]).Some? && WantsFailover(FailureText(answers[0]).value, FailoverFor(target))
    ensures |answers| == 1
    ensures Conclude(target, start, first.at, at2, answers)
      == DelegationFailed(target, OpenMessage(NormalizeName(target)), Millis(start, first.at))
  {
    RefusedOrTimedOutFails(target, start, first.at, at2, answers);
  }

  /** A handshake's answer depends on the breaker table only through its target's circuit: a
      table that differs elsewhere gives the same answer. */
  lemma HandshakeAnswerElsewhere(cs: Circuits, cs0: Circuits, x: string, to: string, now: real, ex: Exchange,
    available: bool, answer: Result<Json, string>)
    requires SameExcept(cs, cs0, x) && NormalizeName(to) != x
    ensures HandshakeAnswer(cs, to, now, ex, available, answer) == HandshakeAnswer(cs0, to, now, ex, available, answer)
  {
    var t := NormalizeName(to);
    assert t in cs <==> t in cs - {x};
    assert t in cs0 <==> t in cs0 - {x};
    if t in cs {
      assert cs[t] == (cs - {x})[t] == (cs0 - {x})[t] == cs0[t];
    }
    assert StateOf(cs, t, now) == StateOf(cs0, t, now);
    assert Allowed(cs, t, now) == Allowed(cs0, t, now);
  }

  /** A target and its backup are different circuits, so the failover meets the backup's circuit
      as it was before the first handshake. */
  lemma BackupOnOtherCircuit(target: string)
    requires target in FailoverAgents
    ensures NormalizeName(FailoverAgents[target]) != NormalizeName(target)
  {
    var backup := FailoverAgents[target];
    assert |NormalizeName(backup)| == |backup| && |NormalizeName(target)| == |target|;
    assert |backup| != |target|;
  }

  /** So the failover's answer is the one the backup's circuit gives as it stood before the first
      handshake, which touched only the target's circuit. */
  lemma BackupAnswerUnmoved(mid: Circuits, cs: Circuits, target: string, now: real, ex: Exchange, available: bool,
    answer: Result<Json, string>)
    requires target in FailoverAgents && SameExcept(mid, cs, NormalizeName(target))
    requires HandshakeAnswer(mid, FailoverAgents[target], now, ex, available, answer)
    ensures HandshakeAnswer(cs, FailoverAgents[target], now, ex, available, answer)
  {
    BackupOnOtherCircuit(target);
    HandshakeAnswerElsewhere(mid, cs, NormalizeName(target), FailoverAgents[target], now, ex, available, answer);
  }

  // ---- the tool ------------------------------------------------------------

  /** create_delegation_tool: a delegation tool for one source/target pair. */
  class DelegationTool {
    const client: A2AClient
    const source: string
    const target: string
    const description: string
    const name: string

    constructor (client: A2AClient, source: string, target: string, description: string)
      ensures this.client == client && this.source == source && this.target == target
      ensures this.description == description && name == ToolName(target)
    {
      this.client := client;
      this.source := source;
      this.target := target;
      this.description := description;
      name := ToolName(target);
    }

    /** delegate_to_agent. `current` is the correlation id in context, `start` the clock at entry;
        `first` is what the handshake to the target meets and `second` what the failover meets.
        `sends` lists the handshakes made and `answers` what each returned or raised. */
    method Delegate(request: string, current: string, start: real, first: Exchange, second: Exchange)
      returns (r: Outcome, sends: seq<Send>, answers: seq<Result<Json, string>>)
      modifies client, client.breaker, client.consul, client.db
      ensures |sends| == |answers| <= 2
      ensures client.db.available == old(client.db.available)
      ensures var cid := GetCid(current);
        var incident := ExtractIncidentId(request);
        var hit := Dedup(old(client.db.available), old(client.db.logs), incident, target, start);
        (hit.Some? <==> r.AlreadyHandled?)
        && (hit.Some? ==> (r == AlreadyHandledOutcome(target, hit.value.source, incident.value)
              && sends == [] && client.db.logs == old(client.db.logs)
              && client.breaker.circuits == old(client.breaker.circuits)))
        && (hit.None? ==> (|sends| >= 1 && sends[0] == Send(target, cid, DelegationPayload(request, source))
              && r == Conclude(target, start, first.at, second.at, answers)
              && (|sends| == 2 <==> FailureText(answers[0]).Some? && WantsFailover(FailureText(answers[0]).value, FailoverFor(target)))
              && (|sends| == 2 ==> sends[1] == Send(FailoverFor(target).value, cid, FailoverPayload(request, source, target)))
              && client.db.logs == ApplyAll(Inserted(old(client.db.logs), NewLog(cid, source, target, request, incident, start),
                  client.db.available), cid, Updates(target, start, first.at, second.at, answers), client.db.available)
              && HandshakeAnswer(old(client.breaker.circuits), target, start, first, old(client.db.available), answers[0])
              && (|sends| == 2 ==> HandshakeAnswer(old(client.breaker.circuits), FailoverFor(target).value, first.at, second,
                    old(client.db.available), answers[1]))))
    {
      var cid := GetCid(current);
      var incident := ExtractIncidentId(request);
      if incident.Some? {
        var existing := client.db.CheckDelegationExists(incident.value, target, 300, start);
        if existing.Some? {
          return AlreadyHandledOutcome(target, existing.value.source, incident.value), [], [];
        }
      }
      var _ := client.db.CreateDelegationLog(cid, source, target, request, incident, start);
      r, sends, answers := Proceed(request, cid, FailoverFor(target), start, first, second);
    }

    /** The handshake to the target and what follows it, once the PENDING row is written. */
    method Proceed(request: string, cid: string, backup: Option<string>, start: real, first: Exchange, second: Exchange)
      returns (r: Outcome, sends: seq<Send>, answers: seq<Result<Json, string>>)
      requires backup == FailoverFor(target)
      modifies client, client.breaker, client.consul, client.db
      ensures 1 <= |sends| == |answers| <= 2
      ensures client.db.available == old(client.db.available)
      ensures sends[0] == Send(target, cid, DelegationPayload(request, source))
      ensures var failure := FailureText(answers[0]);
        r == if failure.None? then Conclude(target, start, first.at, second.at, answers)
          else Recovered(target, backup, failure.value, Millis(start, first.at), Millis(start, second.at), answers[1..])
      ensures |sends| == 2 <==> FailureText(answers[0]).Some? && WantsFailover(FailureText(answers[0]).value, backup)
      ensures |sends| == 2 ==> sends[1] == Send(backup.value, cid, FailoverPayload(request, source, target))
      ensures client.db.logs == ApplyAll(old(client.db.logs), cid, Updates(target, start, first.at, second.at, answers),
        client.db.available)
      ensures HandshakeAnswer(old(client.breaker.circuits), target, start, first, old(client.db.available), answers[0])
      ensures |answers| == 2 ==>
        HandshakeAnswer(old(client.breaker.circuits), backup.value, first.at, second, old(client.db.available), answers[1])
    {
      var payload := DelegationPayload(request, source);
      var answer := Handshake(target, payload, cid, start, first);
      ghost var sent, mid := client.db.logs, client.breaker.circuits;
      var ms := Millis(start, first.at);
      var ms2 := Millis(start, second.at);
      if answer.Ok? {
        LogSuccess(cid, answer.value, ms);
      }
      var failure := FailureText(answer);
      if failure.None? {
        var response := answer.value;
        r := Delegated(target, FinalResponse(response), ms, Field(response, "tools_called", Arr([])),
          Field(response, "prompt_tokens", Int(0)), Field(response, "completion_tokens", Int(0)), TokenTotal(response).value);
        ApplyAllOne(sent, cid, SuccessUpdate(answer.value, ms), client.db.available);
        assert Updates(target, start, first.at, second.at, [answer]) == [SuccessUpdate(answer.value, ms)];
        return r, [Send(target, cid, payload)], [answer];
      }
      ghost var firstUpdates := if answer.Ok? then [SuccessUpdate(answer.value, ms)] else [];
      if answer.Ok? {
        ApplyAllOne(sent, cid, SuccessUpdate(answer.value, ms), client.db.available);
      }
      assert client.db.logs == ApplyAll(sent, cid, firstUpdates, client.db.available);
      var more, moreAnswers;
      r, more, moreAnswers := Recover(request, cid, backup, failure.value, ms, ms2, first.at, second);
      sends := [Send(target, cid, payload)] + more;
      answers := [answer] + moreAnswers;
      assert answers[1..] == moreAnswers;
      if |moreAnswers| == 1 {
        BackupAnswerUnmoved(mid, old(client.breaker.circuits), target, first.at, second, old(client.db.available), moreAnswers[0]);
      }
      ApplyAllSnoc(sent, cid, firstUpdates, RecoveryUpdate(backup, failure.value, ms, ms2, moreAnswers), client.db.available);
      assert Updates(target, start, first.at, second.at, answers)
        == firstUpdates + [RecoveryUpdate(FailoverFor(target), failure.value, ms, ms2, moreAnswers)];
    }

    /** The COMPLETED ledger write after a successful handshake: the response's telemetry fields,
        defaulted where missing, and the total of its two token counts. */
    method LogSuccess(cid: string, response: Json, ms: int)
      modifies client.db
      ensures client.db.available == old(client.db.available)
      ensures client.db.logs == LogsAfter(old(client.db.logs), cid, SuccessUpdate(response, ms), client.db.available)
    {
      var _ := client.db.UpdateDelegationLog(cid, Field(response, "tools_called", Arr([])),
        Field(response, "tool_results", Arr([])), FinalResponse(response), Some(ms),
        Field(response, "prompt_tokens", Int(0)), Field(response, "completion_tokens", Int(0)), Completed);
    }

    /** One send_request_with_handshake of the tool (60-second timeout, the tool's cid), seen from
        the ledger: it leaves the delegation rows alone. */
    method Handshake(to: string, payload: Json, cid: string, now: real, ex: Exchange) returns (answer: Result<Json, string>)
      modifies client, client.breaker, client.consul, client.db
      ensures client.db.available == old(client.db.available) && client.db.logs == old(client.db.logs)
      ensures HandshakeAnswer(old(client.breaker.circuits), to, now, ex, old(client.db.available), answer)
      ensures SameExcept(client.breaker.circuits, old(client.breaker.circuits), NormalizeName(to))
    {
      var a, _, _, _ := client.SendRequestWithHandshake(source, to, payload, Some(cid), cid, 60,
        now, ex.at, ex.world, ex.completions, ex.local);
      answer := a;
    }

    /** The exception handler: at most one failover handshake, then the FAILOVER_SUCCESS or FAILED update. */
    method Recover(request: string, cid: string, backup: Option<string>, error: string, ms: int, ms2: int, now: real, second: Exchange)
      returns (r: Outcome, more: seq<Send>, moreAnswers: seq<Result<Json, string>>)
      modifies client, client.breaker, client.consul, client.db
      ensures |more| == |moreAnswers| <= 1
      ensures client.db.available == old(client.db.available)
      ensures |more| == 1 <==> WantsFailover(error, backup)
      ensures |more| == 1 ==> more[0] == Send(backup.value, cid, FailoverPayload(request, source, target))
      ensures |more| == 1 ==>
        HandshakeAnswer(old(client.breaker.circuits), backup.value, now, second, old(client.db.available), moreAnswers[0])
      ensures r == Recovered(target, backup, error, ms, ms2, moreAnswers)
      ensures client.db.logs == LogsAfter(old(client.db.logs), cid, RecoveryUpdate(backup, error, ms, ms2, moreAnswers),
        client.db.available)
    {
      more, moreAnswers := [], [];
      if WantsFailover(error, backup) {
        var backupPayload := FailoverPayload(request, source, target);
        var again := Handshake(backup.value, backupPayload, cid, now, second);
        more, moreAnswers := [Send(backup.value, cid, backupPayload)], [again];
      }
      LogRecovery(cid, backup, error, ms, ms2, moreAnswers);
      r := Recovered(target, backup, error, ms, ms2, moreAnswers);
    }

    /** The last ledger write of the exception handler: FAILOVER_SUCCESS with the backup's answer
        when the failover handshake succeeded, FAILED with the original error text otherwise. */
    method LogRecovery(cid: string, backup: Option<string>, error: string, ms: int, ms2: int, moreAnswers: seq<Result<Json, string>>)
      requires |moreAnswers| <= 1
      modifies client.db
      ensures client.db.available == old(client.db.available)
      ensures client.db.logs == LogsAfter(old(client.db.logs), cid, RecoveryUpdate(backup, error, ms, ms2, moreAnswers),
        client.db.available)
    {
      if |moreAnswers| == 1 && moreAnswers[0].Ok? && backup.Some? {
        var response := FailoverResponse(moreAnswers[0].value);
        var text := "[FAILOVER to " + backup.value + "] " + ToStr(response);
        var _ := client.db.UpdateDelegationLog(cid, Null, Null, Str(text), Some(ms2), Int(0), Int(0), FailoverSuccess);
      } else {
        var _ := client.db.UpdateDelegationLog(cid, Null, Null, Str(error), Some(ms), Int(0), Int(0), Failed);
      }
    }
  }

  /** Applying a one-element list is applying its element. */
  lemma ApplyAllOne(logs: seq<LogEntry>, cid: string, u: Option<LogUpdate>, available: bool)
    ensures ApplyAll(logs, cid, [u], available) == LogsAfter(logs, cid, u, available)
  {
    assert [u][1..] == [];
  }

  /** Applying one more update after a list is applying the longer list. */
  lemma {:induction false} ApplyAllSnoc(logs: seq<LogEntry>, cid: string, us: seq<Option<LogUpdate>>, u: Option<LogUpdate>,
    available: bool)
    ensures ApplyAll(logs, cid, us + [u], available) == LogsAfter(ApplyAll(logs, cid, us, available), cid, u, available)
    decreases |us|
  {
    if |us| == 0 {
      assert (us + [u])[1..] == [];
    } else {
      assert (us + [u])[1..] == us[1..] + [u];
      ApplyAllSnoc(LogsAfter(logs, cid, us[0], available), cid, us[1..], u, available);
    }
  }
}
