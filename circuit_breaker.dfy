// The per-destination circuit breaker of the messaging layer.
// Time is an explicit `now` (seconds, as time.time() reads them) instead of a clock call.
module CircuitBreaker {

  /** Failures after which a closed circuit opens. */
  const FailureThreshold: nat := 3
  /** Seconds an open circuit waits before it lets a probe through. */
  const ResetTimeout: real := 60.0
  /** Probes a half-open circuit lets through. */
  const HalfOpenMax: nat := 1

  datatype State = Closed | Open | HalfOpen

  /** The stored tuple (state, failure_count, last_failure_time, half_open_attempts). */
  datatype Circuit = Circuit(state: State, failures: nat, lastFailure: real, halfOpenAttempts: nat)

  type Circuits = map<string, Circuit>

  /** The tuple a success stores. */
  const Reset := Circuit(Closed, 0, 0.0, 0)

  /** An open circuit whose timeout has strictly passed turns half-open with its probe count cleared. */
  predicate Expired(c: Circuit, now: real) {
    c.state == Open && now - c.lastFailure > ResetTimeout
  }

  // ---- get_state -------------------------------------------------------------

  /** The state `get_state` reports. */
  function StateOf(cs: Circuits, name: string, now: real): State {
    if name !in cs then Closed
    else if Expired(cs[name], now) then HalfOpen
    else cs[name].state
  }

  /** The table after `get_state`: only an expired open entry is rewritten. */
  function AfterGetState(cs: Circuits, name: string, now: real): Circuits {
    if name in cs && Expired(cs[name], now) then
      cs[name := Circuit(HalfOpen, cs[name].failures, cs[name].lastFailure, 0)]
    else cs
  }

  // ---- record_success / record_failure ---------------------------------------

  function AfterSuccess(cs: Circuits, name: string): Circuits {
    cs[name := Reset]
  }

  /** The entry `record_failure` stores for `name`. */
  function FailedEntry(cs: Circuits, name: string, now: real): Circuit {
    if name !in cs then Circuit(Closed, 1, now, 0)
    else
      var c := cs[name];
      if c.state == HalfOpen then Circuit(Open, c.failures + 1, now, 0)
      else if c.failures + 1 >= FailureThreshold then Circuit(Open, c.failures + 1, now, 0)
      else Circuit(Closed, c.failures + 1, now, 0)
  }

  function AfterFailure(cs: Circuits, name: string, now: real): Circuits {
    cs[name := FailedEntry(cs, name, now)]
  }

  /** Failures recorded one after another, at the given times. */
  function AfterFailures(cs: Circuits, name: string, times: seq<real>): Circuits
    decreases |times|
  {
    if |times| == 0 then cs
    else AfterFailures(AfterFailure(cs, name, times[0]), name, times[1..])
  }

  // ---- allow_request ---------------------------------------------------------

  /** Whether `allow_request` lets the call through. */
  function Allowed(cs: Circuits, name: string, now: real): bool {
    var t := AfterGetState(cs, name, now);
    match StateOf(cs, name, now)
    case Closed => true
    case Open => false
    case HalfOpen => t[name].halfOpenAttempts < HalfOpenMax
  }

  /** The table after `allow_request`: the state refresh, plus one probe counted when half-open admits. */
  function AfterAllow(cs: Circuits, name: string, now: real): Circuits {
    var t := AfterGetState(cs, name, now);
    if StateOf(cs, name, now) == HalfOpen && t[name].halfOpenAttempts < HalfOpenMax then
      var c := t[name];
      t[name := Circuit(HalfOpen, c.failures, c.lastFailure, c.halfOpenAttempts + 1)]
    else t
  }

  /** How many of a run of `allow_request` calls, at the given times and with nothing recorded between them, are let through. */
  function CountAllowed(cs: Circuits, name: string, times: seq<real>): nat
    decreases |times|
  {
    if |times| == 0 then 0
    else
      (if Allowed(cs, name, times[0]) then 1 else 0)
      + CountAllowed(AfterAllow(cs, name, times[0]), name, times[1..])
  }

  /** The probes an entry may still let through before the next record. */
  function ProbeBudget(c: Circuit): nat
    requires c.state != Closed
  {
    if c.state == Open then HalfOpenMax
    else if c.halfOpenAttempts < HalfOpenMax then HalfOpenMax - c.halfOpenAttempts
    else 0
  }

  // ---- properties ------------------------------------------------------------

  /** An unknown destination reads CLOSED and lets calls through. */
  lemma UnknownIsClosed(cs: Circuits, name: string, now: real)
    requires name !in cs
    ensures StateOf(cs, name, now) == Closed && AfterGetState(cs, name, now) == cs
    ensures Allowed(cs, name, now) && AfterAllow(cs, name, now) == cs
  {
  }

  /** HALF_OPEN is reported for a stored OPEN entry exactly when strictly more than 60s have passed, and the rewrite clears the probe count and keeps the rest. */
  lemma HalfOpenOnlyAfterTimeout(cs: Circuits, name: string, now: real)
    requires name in cs && cs[name].state == Open
    ensures StateOf(cs, name, now) == HalfOpen <==> now - cs[name].lastFailure > 60.0
    ensures StateOf(cs, name, now) == Open <==> now - cs[name].lastFailure <= 60.0
    ensures StateOf(cs, name, now) == HalfOpen ==>
      AfterGetState(cs, name, now)[name]
        == Circuit(HalfOpen, cs[name].failures, cs[name].lastFailure, 0)
  {
  }

  /** get_state rewrites nothing but the named entry, and never a closed or half-open one. */
  lemma GetStateFrame(cs: Circuits, name: string, now: real)
    ensures AfterGetState(cs, name, now).Keys == cs.Keys
    ensures forall n :: n in cs && n != name ==> AfterGetState(cs, name, now)[n] == cs[n]
    ensures name in cs && cs[name].state != Open ==> AfterGetState(cs, name, now) == cs
  {
  }

  /** A recorded success always leaves (CLOSED, 0, 0.0, 0), whatever came before. */
  lemma SuccessResets(cs: Circuits, name: string)
    ensures AfterSuccess(cs, name)[name] == Circuit(Closed, 0, 0.0, 0)
    ensures StateOf(AfterSuccess(cs, name), name, 0.0) == Closed
  {
  }

  /** The transitions of record_failure. */
  lemma FailureTransitions(cs: Circuits, name: string, now: real)
    ensures name !in cs ==> AfterFailure(cs, name, now)[name] == Circuit(Closed, 1, now, 0)
    ensures name in cs && cs[name].state == HalfOpen ==> AfterFailure(cs, name, now)[name].state == Open
    ensures name in cs && cs[name].failures + 1 >= 3 ==> AfterFailure(cs, name, now)[name].state == Open
    ensures name in cs && cs[name].state != HalfOpen && cs[name].failures + 1 < 3 ==>
      AfterFailure(cs, name, now)[name] == Circuit(Closed, cs[name].failures + 1, now, 0)
    ensures AfterFailure(cs, name, now)[name].lastFailure == now
    ensures AfterFailure(cs, name, now)[name].halfOpenAttempts == 0
  {
  }

  /** The failure count only grows on a failure: by one over a stored entry. */
  lemma FailureCountGrows(cs: Circuits, name: string, now: real)
    ensures AfterFailure(cs, name, now)[name].failures
      == (if name in cs then cs[name].failures + 1 else 1)
    ensures forall n :: n in cs && n != name ==> AfterFailure(cs, name, now)[n] == cs[n]
  {
  }

  /** Over a run of failures the count rises by exactly the number recorded (from an entry that exists). */
  lemma {:induction false} FailuresAccumulate(cs: Circuits, name: string, times: seq<real>)
    requires name in cs
    ensures name in AfterFailures(cs, name, times)
    ensures AfterFailures(cs, name, times)[name].failures == cs[name].failures + |times|
    decreases |times|
  {
    if |times| > 0 {
      FailuresAccumulate(AfterFailure(cs, name, times[0]), name, times[1..]);
    }
  }

  /** Recording one more failure extends the run. */
  lemma {:induction false} AfterFailuresSnoc(cs: Circuits, name: string, times: seq<real>, t: real)
    ensures AfterFailures(cs, name, times + [t]) == AfterFailure(AfterFailures(cs, name, times), name, t)
    decreases |times|
  {
    if |times| > 0 {
      assert (times + [t])[1..] == times[1..] + [t];
      AfterFailuresSnoc(AfterFailure(cs, name, times[0]), name, times[1..], t);
    }
  }

  /** Two tables that hold the same entry (or none) for `name`. */
  predicate SameAt(cs: Circuits, other: Circuits, name: string) {
    (name in cs <==> name in other) && (name in cs ==> cs[name] == other[name])
  }

  /** What failures do to an entry depends on that entry alone. */
  lemma {:induction false} AfterFailuresLocal(cs: Circuits, other: Circuits, name: string, times: seq<real>)
    requires SameAt(cs, other, name)
    ensures SameAt(AfterFailures(cs, name, times), AfterFailures(other, name, times), name)
    decreases |times|
  {
    if |times| > 0 {
      AfterFailuresLocal(AfterFailure(cs, name, times[0]), AfterFailure(other, name, times[0]), name, times[1..]);
    }
  }

  /** Three failures in a row open a circuit that was unknown or freshly reset. */
  lemma {:induction false} ThreeFailuresOpen(cs: Circuits, name: string, times: seq<real>)
    requires |times| == 3
    requires name !in cs || cs[name] == Reset
    ensures name in AfterFailures(cs, name, times)
      && AfterFailures(cs, name, times)[name] == Circuit(Open, 3, times[2], 0)
  {
    var c1 := AfterFailure(cs, name, times[0]);
    assert c1[name] == Circuit(Closed, 1, times[0], 0);
    var c2 := AfterFailure(c1, name, times[1]);
    assert c2[name] == Circuit(Closed, 2, times[1], 0);
    var c3 := AfterFailure(c2, name, times[2]);
    assert c3[name] == Circuit(Open, 3, times[2], 0);
    assert AfterFailures(c2, name, times[2..]) == AfterFailures(c3, name, times[3..]);
    assert times[1..][1..] == times[2..];
  }

  /** allow_request is true in CLOSED and false in OPEN. */
  lemma AllowByState(cs: Circuits, name: string, now: real)
    ensures StateOf(cs, name, now) == Closed ==> Allowed(cs, name, now)
    ensures StateOf(cs, name, now) == Open ==> !Allowed(cs, name, now)
    ensures StateOf(cs, name, now) != HalfOpen ==> AfterAllow(cs, name, now) == AfterGetState(cs, name, now)
  {
  }

  /** An open circuit refuses every call until its timeout has passed. */
  lemma OpenRefusesWithinTimeout(cs: Circuits, name: string, now: real)
    requires name in cs && cs[name].state == Open && now - cs[name].lastFailure <= ResetTimeout
    ensures !Allowed(cs, name, now) && AfterAllow(cs, name, now) == cs
  {
  }

  /** One allow_request call spends the probe budget: it lets at most that many through and leaves a non-closed entry with the rest. */
  lemma AllowSpendsBudget(cs: Circuits, name: string, now: real)
    requires name in cs && cs[name].state != Closed
    ensures name in AfterAllow(cs, name, now) && AfterAllow(cs, name, now)[name].state != Closed
    ensures (if Allowed(cs, name, now) then 1 else 0) + ProbeBudget(AfterAllow(cs, name, now)[name])
      <= ProbeBudget(cs[name])
  {
  }

  /** Between two records, an OPEN or HALF_OPEN circuit lets at most CIRCUIT_HALF_OPEN_MAX (1) calls through, however many are made and whenever. */
  lemma {:induction false} AtMostOneProbe(cs: Circuits, name: string, times: seq<real>)
    requires name in cs && cs[name].state != Closed
    ensures CountAllowed(cs, name, times) <= ProbeBudget(cs[name]) <= HalfOpenMax
    decreases |times|
  {
    if |times| > 0 {
      AllowSpendsBudget(cs, name, times[0]);
      AtMostOneProbe(AfterAllow(cs, name, times[0]), name, times[1..]);
    }
  }

  /** Two gates in a row at the same instant: when the first finds the circuit HALF_OPEN, the second is refused,
      whether or not the first let the call through. */
  lemma HalfOpenSecondGateRefuses(cs: Circuits, name: string, now: real)
    requires StateOf(cs, name, now) == HalfOpen
    ensures !Allowed(AfterAllow(cs, name, now), name, now)
  {
    var t := AfterAllow(cs, name, now);
    assert t[name].state == HalfOpen && t[name].halfOpenAttempts >= HalfOpenMax;
  }

  /** A circuit that has just opened refuses a call made within the reset timeout and lets one probe through after it. */
  lemma OpenThenProbe(cs: Circuits, name: string, times: seq<real>, later: real)
    requires |times| == 3
    requires name !in cs || cs[name] == Reset
    requires later - times[2] > ResetTimeout
    ensures !Allowed(AfterFailures(cs, name, times), name, times[2])
    ensures Allowed(AfterFailures(cs, name, times), name, later)
    ensures !Allowed(AfterAllow(AfterFailures(cs, name, times), name, later), name, later)
  {
    ThreeFailuresOpen(cs, name, times);
    var o := AfterFailures(cs, name, times);
    assert StateOf(o, name, later) == HalfOpen;
    var p := AfterAllow(o, name, later);
    assert p[name] == Circuit(HalfOpen, 3, times[2], 1);
  }

  // ---- the stateful object ---------------------------------------------------

  /** CircuitBreaker, holding the table `_circuits`. */
  class Breaker {
    var circuits: Circuits

    constructor ()
      ensures circuits == map[]
    {
      circuits := map[];
    }

    /** get_state. */
    method GetState(name: string, now: real) returns (s: State)
      modifies this
      ensures s == StateOf(old(circuits), name, now)
      ensures circuits == AfterGetState(old(circuits), name, now)
    {
      if name !in circuits {
        return Closed;
      }
      var c := circuits[name];
      if c.state == Open && now - c.lastFailure > ResetTimeout {
        circuits := circuits[name := Circuit(HalfOpen, c.failures, c.lastFailure, 0)];
        return HalfOpen;
      }
      return c.state;
    }

    /** record_success. */
    method RecordSuccess(name: string)
      modifies this
      ensures circuits == AfterSuccess(old(circuits), name)
      ensures circuits[name] == Reset
    {
      circuits := circuits[name := Reset];
    }

    /** record_failure. */
    method RecordFailure(name: string, now: real)
      modifies this
      ensures circuits == AfterFailure(old(circuits), name, now)
      ensures circuits[name].failures == (if name in old(circuits) then old(circuits)[name].failures + 1 else 1)
      ensures circuits[name].lastFailure == now && circuits[name].halfOpenAttempts == 0
    {
      if name !in circuits {
        circuits := circuits[name := Circuit(Closed, 1, now, 0)];
        return;
      }
      var c := circuits[name];
      var newFailures := c.failures + 1;
      if c.state == HalfOpen {
        circuits := circuits[name := Circuit(Open, newFailures, now, 0)];
      } else if newFailures >= FailureThreshold {
        circuits := circuits[name := Circuit(Open, newFailures, now, 0)];
      } else {
        circuits := circuits[name := Circuit(Closed, newFailures, now, 0)];
      }
    }

    /** allow_request. */
    method AllowRequest(name: string, now: real) returns (ok: bool)
      modifies this
      ensures ok == Allowed(old(circuits), name, now)
      ensures circuits == AfterAllow(old(circuits), name, now)
    {
      var s := GetState(name, now);
      if s == Closed {
        return true;
      } else if s == Open {
        return false;
      }
      var c := circuits[name];
      if c.halfOpenAttempts < HalfOpenMax {
        circuits := circuits[name := Circuit(HalfOpen, c.failures, c.lastFailure, c.halfOpenAttempts + 1)];
        return true;
      }
      return false;
    }
  }
}
