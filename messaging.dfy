// The A2A messaging client: client cache per source->target pair, the circuit-gated send with
// bounded retries and backoff, the correlation-id handshake over the durable `handshakes` table
// and the in-process pending map, and the one-shot failover send and broadcast built on it.
// The transport, the catalog, the clock and the other side's answers are oracles: attempt k of a
// send meets `world(k)`, poll k of a handshake meets `completions(k)`.
module Messaging {
  import opened Wrappers
  import opened Strings
  import opened Json
  import opened CircuitBreaker
  import opened Registry
  import opened AgentNames
  import opened Store

  /** What one `client.send_message` call does: the target answers, or the call raises with this text. */
  datatype Delivery = Answered(response: Json) | Raised(error: string)

  /** What one send attempt meets: the catalog reply (used only when the client is not cached),
      the transport's outcome, and the clock reading when the failure is recorded. */
  datatype Attempt = Attempt(catalog: CatalogReply, delivery: Delivery, clock: real)

  /** The dict send_message returns, or the exception it raises (`Error`); `NoReply` is the
      None a send with fewer than zero retries falls through to. `Unreachable` is failover_call's. */
  datatype SendResult =
    | CircuitOpen(agent: string)
    | Unhealthy(agent: string)
    | Delivered(agent: string, response: Json)
    | Unreachable(agent: string)
    | NoReply
    | Error(error: string)

  /** Which way a handshake ended. */
  datatype Stage = Gated | SendFailed | Polled | Waited

  // ---- pure parts ------------------------------------------------------------

  function Pow2(n: nat): (r: nat)
    ensures r >= 1
  {
    if n == 0 then 1 else 2 * Pow2(n - 1)
  }

  /** `min(32, 2 ** attempt)`: the seconds slept after failed attempt `attempt`. */
  function Backoff(attempt: nat): (d: nat)
    ensures 1 <= d <= 32
    ensures d == 32 || d == Pow2(attempt)
  {
    if Pow2(attempt) < 32 then Pow2(attempt) else 32
  }

  /** The schedule 1, 2, 4, 8, 16 and then 32 for ever. */
  lemma {:induction false} BackoffSchedule(attempt: nat)
    ensures attempt < 5 ==> Backoff(attempt) == [1, 2, 4, 8, 16][attempt]
    ensures attempt >= 5 ==> Backoff(attempt) == 32
  {
    if attempt >= 5 {
      Pow2AtLeast32(attempt);
    } else {
      assert Pow2(1) == 2 && Pow2(2) == 4 && Pow2(3) == 8 && Pow2(4) == 16;
    }
  }

  lemma {:induction false} Pow2AtLeast32(n: nat)
    requires n >= 5
    ensures Pow2(n) >= 32
  {
    if n == 5 {
      assert Pow2(5) == 32 by {
        assert Pow2(1) == 2 && Pow2(2) == 4 && Pow2(3) == 8 && Pow2(4) == 16;
      }
    } else {
      Pow2AtLeast32(n - 1);
    }
  }

  /** The backoff never shrinks from one attempt to the next. */
  lemma {:induction false} BackoffMonotone(a: nat, b: nat)
    requires a <= b
    ensures Backoff(a) <= Backoff(b)
    decreases b - a
  {
    if a < b {
      BackoffMonotone(a, b - 1);
      assert Pow2(b) == 2 * Pow2(b - 1);
    }
  }

  /** The sleeps of the first `n` failed attempts. */
  function Backoffs(n: nat): (r: seq<nat>)
    ensures |r| == n && forall k :: 0 <= k < n ==> r[k] == Backoff(k)
  {
    seq(n, k requires 0 <= k => Backoff(k))
  }

  /** The clock readings of the first `n` attempts, at which their failures are recorded. */
  function FailureTimes(world: nat -> Attempt, n: nat): (r: seq<real>)
    ensures |r| == n && forall k :: 0 <= k < n ==> r[k] == world(k).clock
  {
    seq(n, k requires 0 <= k => world(k).clock)
  }

  /** `f"{source}->{target}"`, the key of both client caches. */
  function ClientKey(source: string, target: string): string {
    source + "->" + target
  }

  /** The base URL get_client gives a new client: the localhost A2A port when the resolver gave
      nothing (or an empty string), the resolved URL when it already ends in "/a2a/", and otherwise
      the resolved URL without trailing slashes followed by "/a2a/". */
  function ClientUrl(resolved: Option<string>, port: int): (url: string)
    ensures EndsWith(url, "/a2a/")
  {
    var r := if resolved.None? || resolved.value == ""
      then "http://localhost:" + IntToString(port) + "/a2a/"
      else if EndsWith(resolved.value, "/a2a/") then resolved.value
      else StripRightChar(resolved.value, '/') + "/a2a/";
    assert EndsWith(r, "/a2a/") by {
      if !(resolved.None? || resolved.value == "") && !EndsWith(resolved.value, "/a2a/") {
        assert r[|r| - 5..] == "/a2a/";
      } else if resolved.None? || resolved.value == "" {
        assert r[|r| - 5..] == "/a2a/";
      }
    }
    r
  }

  /** A URL the resolver already suffixed is kept verbatim, so suffixing is idempotent. */
  lemma ClientUrlIdempotent(resolved: Option<string>, port: int, other: int)
    ensures ClientUrl(Some(ClientUrl(resolved, port)), other) == ClientUrl(resolved, port)
  {
  }

  /** A resolver hit decides the URL; the port only matters on a miss. */
  lemma ClientUrlPortOnMiss(resolved: Option<string>, p: int, q: int)
    ensures resolved.Some? && resolved.value != "" ==> ClientUrl(resolved, p) == ClientUrl(resolved, q)
    ensures resolved.None? ==> ClientUrl(resolved, p) == "http://localhost:" + IntToString(p) + "/a2a/"
  {
  }

  /** The A2A ports of `_get_port_offset` and the static service table agree on every agent. */
  lemma StaticMeshMatchesPorts(name: string)
    requires name in StaticMesh
    ensures StaticMesh[name].1 == PortOffset(name)
  {
  }

  /** The HANDSHAKE_REQUEST envelope the handshake serialises. */
  function HandshakeRequest(source: string, payload: Json, cid: string): (j: Json)
    ensures Get(j, "type") == Some(Str("HANDSHAKE_REQUEST"))
  {
    var j := Obj([("type", Str("HANDSHAKE_REQUEST")), ("source", Str(source)), ("payload", payload), ("correlation_id", Str(cid))]);
    GetAt(j, "type", 0);
    j
  }

  /** The envelope names the correlation id the handshake waits on. */
  lemma HandshakeRequestCarriesCid(source: string, payload: Json, cid: string)
    ensures Get(HandshakeRequest(source, payload, cid), "correlation_id") == Some(Str(cid))
  {
    var j := HandshakeRequest(source, payload, cid);
    GetAt(j, "correlation_id", 3);
  }

  /** The JSON text of the request envelope, as send_message carries it. */
  function HandshakeMessage(source: string, payload: Json, cid: string): string {
    Dumps(HandshakeRequest(source, payload, cid))
  }

  /** The message of the exception a handshake timeout becomes. */
  function TimeoutMessage(target: string, timeout: int): string {
    "Agent " + target + " did not respond within " + IntToString(timeout) + "s"
  }

  /** The message of the exception a refused handshake gate raises. */
  function OpenMessage(target: string): string {
    "Circuit breaker OPEN for " + target
  }

  /** The row of `cid`, if any. */
  function RowOf(rows: map<string, HandshakeRow>, cid: string): Option<HandshakeRow> {
    if cid in rows then Some(rows[cid]) else None
  }

  /** What _poll_handshake_result sees from poll `k` on, given the row before that poll:
      the other side's completion for poll k lands first (an UPDATE, so only on an existing row),
      a COMPLETED row ends the poll with its result, and after `timeout` one-second polls it gives up.
      The second component counts the SELECTs made. */
  function PollOutcome(row: Option<HandshakeRow>, completions: nat -> Option<Json>, k: nat, timeout: int): (r: (Option<Json>, nat))
    ensures k < timeout ==> k < r.1 <= timeout
    ensures k >= timeout ==> r == (None, k)
    decreases timeout - k
  {
    if k >= timeout then (None, k)
    else
      var row' := if row.Some? && completions(k).Some? then Some(HandshakeRow(HsCompleted, completions(k))) else row;
      if row'.Some? && row'.value.status == HsCompleted then (row'.value.result, k + 1)
      else PollOutcome(row', completions, k + 1, timeout)
  }

  /** Without a row nothing completes: the poll runs to its timeout and returns None. */
  lemma {:induction false} PollWithoutRowTimesOut(completions: nat -> Option<Json>, k: nat, timeout: int)
    ensures PollOutcome(None, completions, k, timeout) == (None, if k < timeout then timeout else k)
    decreases timeout - k
  {
    if k < timeout {
      PollWithoutRowTimesOut(completions, k + 1, timeout);
    }
  }

  /** A PENDING row whose first completion arrives at poll j < timeout yields exactly that
      result, after j + 1 polls; with no completion before the timeout it yields None. */
  lemma {:induction false} PollFindsFirstCompletion(completions: nat -> Option<Json>, k: nat, timeout: int)
    ensures var r := PollOutcome(Some(HandshakeRow(HsPending, None)), completions, k, timeout);
      (r.0.Some? ==> completions(r.1 - 1) == r.0 && forall j :: k <= j < r.1 - 1 ==> completions(j).None?)
      && (r.0.None? ==> forall j :: k <= j < timeout ==> completions(j).None?)
    decreases timeout - k
  {
    if k < timeout && completions(k).None? {
      PollFindsFirstCompletion(completions, k + 1, timeout);
    }
  }

  /** Two maps that agree everywhere except perhaps at `key`. */
  ghost predicate SameExcept<V>(a: map<string, V>, b: map<string, V>, key: string) {
    a - {key} == b - {key}
  }

  /** Setting and then removing a key is removing it. */
  lemma SetThenRemove<V>(m: map<string, V>, key: string, v: V)
    ensures m[key := v] - {key} == m - {key}
  {
  }

  lemma SameExceptTrans<V>(a: map<string, V>, b: map<string, V>, c: map<string, V>, key: string)
    requires SameExcept(a, b, key) && SameExcept(b, c, key)
    ensures SameExcept(a, c, key)
  {
  }

  /** allow_request touches no circuit but the one it gates. */
  lemma AfterAllowSameExcept(cs: Circuits, t: string, now: real)
    ensures SameExcept(AfterAllow(cs, t, now), cs, t)
  {
    var g := AfterGetState(cs, t, now);
    if t in cs && Expired(cs[t], now) {
      SetThenRemove(cs, t, Circuit(HalfOpen, cs[t].failures, cs[t].lastFailure, 0));
    }
    if StateOf(cs, t, now) == HalfOpen && g[t].halfOpenAttempts < HalfOpenMax {
      SetThenRemove(g, t, Circuit(HalfOpen, g[t].failures, g[t].lastFailure, g[t].halfOpenAttempts + 1));
    }
  }

  /** Failures recorded against one circuit leave every other circuit as it was. */
  lemma {:induction false} AfterFailuresSameExcept(cs: Circuits, t: string, times: seq<real>)
    ensures SameExcept(AfterFailures(cs, t, times), cs, t)
    decreases |times|
  {
    if |times| > 0 {
      AfterFailuresSameExcept(AfterFailure(cs, t, times[0]), t, times[1..]);
      SetThenRemove(cs, t, FailedEntry(cs, t, times[0]));
    }
  }

  /** What the attempt loop of send_message does, from the breaker table `gated` left by the gate
      and the client and resolver caches before it, to the outcome, the attempt count, the sleeps
      and the tables after it. */
  ghost predicate Sent(gated: Circuits, clients0: map<string, string>, cache0: map<string, string>,
    s: string, t: string, retries: int, world: nat -> Attempt,
    r: SendResult, tries: nat, sleeps: seq<nat>, circuits: Circuits, clients: map<string, string>, cache: map<string, string>)
  {
    var key := ClientKey(s, t);
    (r.Delivered? || r.Error? || r.NoReply?)
    && (r.NoReply? <==> retries < 0)
    && (r.NoReply? ==> tries == 0 && circuits == gated && clients == clients0 && cache == cache0)
    && (r.Delivered? ==>
          r.agent == t && 1 <= tries <= retries + 1 && world(tries - 1).delivery == Answered(r.response)
          && (forall k :: 0 <= k < tries - 1 ==> world(k).delivery.Raised?)
          && circuits == AfterSuccess(AfterFailures(gated, t, FailureTimes(world, tries - 1)), t)
          && key in clients)
    && (r.Error? ==>
          retries >= 0 && tries == retries + 1
          && (forall k :: 0 <= k < tries ==> world(k).delivery.Raised?)
          && r.error == world(retries).delivery.error
          && circuits == AfterFailures(gated, t, FailureTimes(world, tries))
          && key !in clients && t !in cache)
    && sleeps == Backoffs(if tries == 0 then 0 else tries - 1)
    && SameExcept(clients, clients0, key)
    && SameExcept(cache, cache0, t)
  }

  lemma SentDelivered(gated: Circuits, clients0: map<string, string>, cache0: map<string, string>,
    s: string, t: string, retries: int, world: nat -> Attempt, attempt: nat,
    clients: map<string, string>, cache: map<string, string>)
    requires attempt <= retries && world(attempt).delivery.Answered?
    requires forall k :: 0 <= k < attempt ==> world(k).delivery.Raised?
    requires ClientKey(s, t) in clients
    requires SameExcept(clients, clients0, ClientKey(s, t)) && SameExcept(cache, cache0, t)
    ensures Sent(gated, clients0, cache0, s, t, retries, world, Delivered(t, world(attempt).delivery.response), attempt + 1,
      Backoffs(attempt), AfterSuccess(AfterFailures(gated, t, FailureTimes(world, attempt)), t), clients, cache)
  {
  }

  lemma SentError(gated: Circuits, clients0: map<string, string>, cache0: map<string, string>,
    s: string, t: string, retries: int, world: nat -> Attempt,
    clients: map<string, string>, cache: map<string, string>)
    requires retries >= 0 && forall k :: 0 <= k <= retries ==> world(k).delivery.Raised?
    requires ClientKey(s, t) !in clients && t !in cache
    requires SameExcept(clients, clients0, ClientKey(s, t)) && SameExcept(cache, cache0, t)
    ensures Sent(gated, clients0, cache0, s, t, retries, world, Error(world(retries).delivery.error), retries + 1,
      Backoffs(retries), AfterFailures(gated, t, FailureTimes(world, retries + 1)), clients, cache)
  {
  }

  /** The attempt loop raises exactly when every one of its `retries + 1` attempts raised, and
      then with the last attempt's text. */
  lemma SentRaisesIff(gated: Circuits, clients0: map<string, string>, cache0: map<string, string>,
    s: string, t: string, retries: int, world: nat -> Attempt,
    r: SendResult, tries: nat, sleeps: seq<nat>, circuits: Circuits, clients: map<string, string>, cache: map<string, string>)
    requires retries >= 0
    requires Sent(gated, clients0, cache0, s, t, retries, world, r, tries, sleeps, circuits, clients, cache)
    ensures r.Error? <==> forall k :: 0 <= k <= retries ==> world(k).delivery.Raised?
    ensures r.Error? ==> world(retries).delivery.Raised? && r.error == world(retries).delivery.error
  {
    if r.Delivered? {
      assert !world(tries - 1).delivery.Raised?;
    }
  }

  /** `{agent: result for agent, result in zip(agents, results)}`: later pairs overwrite earlier ones. */
  function Collect(agents: seq<string>, outcomes: seq<SendResult>): map<string, SendResult>
    requires |agents| == |outcomes|
    decreases |agents|
  {
    if |agents| == 0 then map[]
    else
      var n := |agents| - 1;
      Collect(agents[..n], outcomes[..n])[agents[n] := outcomes[n]]
  }

  /** The dict has one key per listed agent. */
  lemma {:induction false} CollectKeys(agents: seq<string>, outcomes: seq<SendResult>)
    requires |agents| == |outcomes|
    ensures Collect(agents, outcomes).Keys == set a | a in agents
    decreases |agents|
  {
    if |agents| > 0 {
      var n := |agents| - 1;
      CollectKeys(agents[..n], outcomes[..n]);
      assert agents == agents[..n] + [agents[n]];
    }
  }

  /** A listed agent's key holds the outcome of its last listing; with distinct agents every outcome is kept. */
  lemma {:induction false} CollectLast(agents: seq<string>, outcomes: seq<SendResult>, i: nat)
    requires |agents| == |outcomes| && i < |agents|
    requires forall j :: i < j < |agents| ==> agents[j] != agents[i]
    ensures agents[i] in Collect(agents, outcomes) && Collect(agents, outcomes)[agents[i]] == outcomes[i]
    decreases |agents|
  {
    var n := |agents| - 1;
    if i < n {
      assert agents[n] != agents[i];
      CollectLast(agents[..n], outcomes[..n], i);
    }
  }

  /** What failover_call returns, how many transport calls it made, and the circuit table it
      leaves: send_message with one retry and no health check, where the exception raised after
      the second failed attempt becomes `unreachable` under the name as given. */
  function FailoverOutcome(cs: Circuits, agent: string, now: real, world: nat -> Attempt): (r: (SendResult, nat, Circuits))
    ensures var t := NormalizeName(agent);
      (r.0.CircuitOpen? <==> !Allowed(cs, t, now))
      && (r.0.Unreachable? <==> Allowed(cs, t, now) && world(0).delivery.Raised? && world(1).delivery.Raised?)
      && (r.0.Delivered? <==> Allowed(cs, t, now) && (world(0).delivery.Answered? || world(1).delivery.Answered?))
    ensures r.0.CircuitOpen? ==> r == (CircuitOpen(NormalizeName(agent)), 0, AfterAllow(cs, NormalizeName(agent), now))
    ensures r.0.Unreachable? ==> r.0.agent == agent && r.1 == 2
  {
    var t := NormalizeName(agent);
    var gated := AfterAllow(cs, t, now);
    if !Allowed(cs, t, now) then (CircuitOpen(t), 0, gated)
    else if world(0).delivery.Answered? then (Delivered(t, world(0).delivery.response), 1, AfterSuccess(gated, t))
    else if world(1).delivery.Answered? then
      (Delivered(t, world(1).delivery.response), 2, AfterSuccess(AfterFailures(gated, t, FailureTimes(world, 1)), t))
    else (Unreachable(agent), 2, AfterFailures(gated, t, FailureTimes(world, 2)))
  }

  /** A failover call reads and writes only its own target's circuit: tables that agree there give
      the same answer and still agree afterwards. */
  lemma FailoverLocal(cs: Circuits, other: Circuits, agent: string, now: real, world: nat -> Attempt)
    requires SameAt(cs, other, NormalizeName(agent))
    ensures FailoverOutcome(cs, agent, now, world).0 == FailoverOutcome(other, agent, now, world).0
    ensures FailoverOutcome(cs, agent, now, world).1 == FailoverOutcome(other, agent, now, world).1
    ensures SameAt(FailoverOutcome(cs, agent, now, world).2, FailoverOutcome(other, agent, now, world).2, NormalizeName(agent))
  {
    var t := NormalizeName(agent);
    assert SameAt(AfterAllow(cs, t, now), AfterAllow(other, t, now), t);
    AfterFailuresLocal(AfterAllow(cs, t, now), AfterAllow(other, t, now), t, FailureTimes(world, 1));
    AfterFailuresLocal(AfterAllow(cs, t, now), AfterAllow(other, t, now), t, FailureTimes(world, 2));
  }

  /** A failover call leaves every other destination's circuit as it was. */
  lemma FailoverFrame(cs: Circuits, agent: string, now: real, world: nat -> Attempt, name: string)
    requires name != NormalizeName(agent)
    ensures SameAt(cs, FailoverOutcome(cs, agent, now, world).2, name)
  {
    var t := NormalizeName(agent);
    var gated := AfterAllow(cs, t, now);
    AfterAllowSameExcept(cs, t, now);
    AfterFailuresSameExcept(gated, t, FailureTimes(world, 1));
    AfterFailuresSameExcept(gated, t, FailureTimes(world, 2));
    SetThenRemove(gated, t, Reset);
    SetThenRemove(AfterFailures(gated, t, FailureTimes(world, 1)), t, Reset);
    var after := FailoverOutcome(cs, agent, now, world).2;
    assert after - {t} == cs - {t};
    assert name in after <==> name in after - {t};
    assert name in cs <==> name in cs - {t};
    if name in cs {
      assert after[name] == (after - {t})[name] == (cs - {t})[name] == cs[name];
    }
  }

  /** broadcast as a run of failover calls in list order, call `i` at `clock(i)` meeting
      `worlds(i)`: the outcomes and the circuit table left behind. */
  ghost function BroadcastRun(cs: Circuits, agents: seq<string>, clock: nat -> real, worlds: nat -> (nat -> Attempt))
    : (r: (seq<SendResult>, Circuits))
    ensures |r.0| == |agents|
    decreases |agents|
  {
    if |agents| == 0 then ([], cs)
    else
      var n := |agents| - 1;
      var before := BroadcastRun(cs, agents[..n], clock, worlds);
      var call := FailoverOutcome(before.1, agents[n], clock(n), worlds(n));
      (before.0 + [call.0], call.2)
  }

  /** The first `k` outcomes of a broadcast are those of a broadcast to the first `k` agents. */
  lemma {:induction false} BroadcastPrefix(cs: Circuits, agents: seq<string>, clock: nat -> real,
                                           worlds: nat -> (nat -> Attempt), k: nat)
    requires k <= |agents|
    ensures BroadcastRun(cs, agents[..k], clock, worlds).0 == BroadcastRun(cs, agents, clock, worlds).0[..k]
    decreases |agents| - k
  {
    if k < |agents| {
      var n := |agents| - 1;
      assert agents[..n][..k] == agents[..k];
      BroadcastPrefix(cs, agents[..n], clock, worlds, k);
      assert BroadcastRun(cs, agents, clock, worlds).0[..n] == BroadcastRun(cs, agents[..n], clock, worlds).0;
    } else {
      assert agents[..k] == agents;
    }
  }

  /** A broadcast touches no circuit but those of the agents it calls. */
  lemma {:induction false} BroadcastFrame(cs: Circuits, agents: seq<string>, clock: nat -> real,
                                          worlds: nat -> (nat -> Attempt), name: string)
    requires forall j :: 0 <= j < |agents| ==> NormalizeName(agents[j]) != name
    ensures SameAt(cs, BroadcastRun(cs, agents, clock, worlds).1, name)
    decreases |agents|
  {
    if |agents| > 0 {
      var n := |agents| - 1;
      BroadcastFrame(cs, agents[..n], clock, worlds, name);
      var before := BroadcastRun(cs, agents[..n], clock, worlds);
      FailoverFrame(before.1, agents[n], clock(n), worlds(n), name);
    }
  }

  /** An agent whose normalised name no earlier agent shares gets the answer a lone failover call
      would get from the table the broadcast started with: the calls before it do not open or
      close its circuit. */
  lemma BroadcastIsolated(cs: Circuits, agents: seq<string>, clock: nat -> real, worlds: nat -> (nat -> Attempt), i: nat)
    requires i < |agents|
    requires forall j :: 0 <= j < i ==> NormalizeName(agents[j]) != NormalizeName(agents[i])
    ensures BroadcastRun(cs, agents, clock, worlds).0[i] == FailoverOutcome(cs, agents[i], clock(i), worlds(i)).0
  {
    BroadcastPrefix(cs, agents, clock, worlds, i + 1);
    var prefix := agents[..i + 1];
    assert prefix[..i] == agents[..i];
    var before := BroadcastRun(cs, agents[..i], clock, worlds);
    BroadcastFrame(cs, agents[..i], clock, worlds, NormalizeName(agents[i]));
    FailoverLocal(cs, before.1, agents[i], clock(i), worlds(i));
  }

  /** An in-process future: unset until set_result. */
  class Future {
    var result: Option<Json>

    constructor ()
      ensures result == None
    {
      result := None;
    }
  }

  /** A2AClientWrapper: the shared breaker, resolver and database, the client cache and the pending handshakes. */
  class A2AClient {
    const breaker: Breaker
    const consul: ConsulRegistry
    const db: Database
    /** `_a2a_clients` and `_httpx_clients`, always keyed alike: pair key -> base URL. */
    var clients: map<string, string>
    /** `_pending_handshakes`. */
    var pending: map<string, Future>

    constructor (breaker: Breaker, consul: ConsulRegistry, db: Database)
      ensures this.breaker == breaker && this.consul == consul && this.db == db
      ensures clients == map[] && pending == map[]
    {
      this.breaker := breaker;
      this.consul := consul;
      this.db := db;
      clients := map[];
      pending := map[];
    }

    /** get_client: the cached client of the pair, or a new one at ClientUrl of the resolver's answer. */
    method GetClient(source: string, target: string, catalog: CatalogReply) returns (url: string)
      modifies this, consul
      ensures SameExcept(clients, old(clients), ClientKey(NormalizeName(source), NormalizeName(target)))
      ensures SameExcept(consul.cache, old(consul.cache), NormalizeName(target))
      ensures var key := ClientKey(NormalizeName(source), NormalizeName(target));
        key in clients && url == clients[key] && pending == old(pending)
        && (key in old(clients) ==> clients == old(clients) && consul.cache == old(consul.cache))
        && (key !in old(clients) ==>
              url == ClientUrl(Resolve(old(consul.cache), NormalizeName(target), catalog), PortOffset(NormalizeName(target)))
              && clients == old(clients)[key := url]
              && consul.cache == CacheAfter(old(consul.cache), NormalizeName(target), catalog))
    {
      var s := NormalizeName(source);
      var t := NormalizeName(target);
      var key := ClientKey(s, t);
      if key !in clients {
        var resolved := consul.GetServiceUrl(t, catalog);
        url := ClientUrl(resolved, PortOffset(t));
        clients := clients[key := url];
      }
      return clients[key];
    }

    /** send_message: the circuit gate, the optional health check (its answer is `healthy`), then
        the attempts of Deliver. Returns the outcome, the number of transport attempts and the
        sleeps between them. */
    method SendMessage(source: string, target: string, text: string, retries: int, checkHealth: bool,
      healthy: bool, now: real, world: nat -> Attempt) returns (r: SendResult, tries: nat, sleeps: seq<nat>)
      modifies this, breaker, consul
      ensures pending == old(pending)
      ensures var t := NormalizeName(target);
        !Allowed(old(breaker.circuits), t, now) ==>
          r == CircuitOpen(t) && tries == 0 && breaker.circuits == AfterAllow(old(breaker.circuits), t, now)
          && clients == old(clients) && consul.cache == old(consul.cache)
      ensures var t := NormalizeName(target);
        Allowed(old(breaker.circuits), t, now) && checkHealth && !healthy ==>
          r == Unhealthy(t) && tries == 0 && breaker.circuits == AfterFailure(AfterAllow(old(breaker.circuits), t, now), t, now)
          && clients == old(clients) && consul.cache == old(consul.cache)
      ensures var t := NormalizeName(target);
        Allowed(old(breaker.circuits), t, now) && !(checkHealth && !healthy) ==>
          Sent(AfterAllow(old(breaker.circuits), t, now), old(clients), old(consul.cache),
            NormalizeName(source), t, retries, world, r, tries, sleeps, breaker.circuits, clients, consul.cache)
      ensures r.CircuitOpen? || r.Unhealthy? || r.Delivered? || r.Error? || r.NoReply?
    {
      var t := NormalizeName(target);
      var s := NormalizeName(source);
      var ok := breaker.AllowRequest(t, now);
      if !ok {
        return CircuitOpen(t), 0, [];
      }
      if checkHealth && !healthy {
        breaker.RecordFailure(t, now);
        return Unhealthy(t), 0, [];
      }
      NormalizeNameIdempotent(target);
      NormalizeNameIdempotent(source);
      r, tries, sleeps := Deliver(s, t, retries, world);
    }

    /** The body of one pass of send_message's attempt loop: get_client, the transport call, and
        on an answer record_success; on a raise record_failure and drop the pair's client and the
        target's resolver entry. */
    method TryAttempt(s: string, t: string, w: Attempt) returns (answered: bool)
      requires NormalizeName(s) == s && NormalizeName(t) == t
      modifies this, breaker, consul
      ensures answered == w.delivery.Answered? && pending == old(pending)
      ensures SameExcept(clients, old(clients), ClientKey(s, t)) && SameExcept(consul.cache, old(consul.cache), t)
      ensures answered ==> breaker.circuits == AfterSuccess(old(breaker.circuits), t) && ClientKey(s, t) in clients
      ensures !answered ==>
        breaker.circuits == AfterFailure(old(breaker.circuits), t, w.clock) && ClientKey(s, t) !in clients && t !in consul.cache
    {
      var key := ClientKey(s, t);
      var _ := GetClient(s, t, w.catalog);
      if w.delivery.Answered? {
        breaker.RecordSuccess(t);
        return true;
      }
      breaker.RecordFailure(t, w.clock);
      ghost var clients1, cache1 := clients, consul.cache;
      if key in clients {
        clients := clients - {key};
      }
      consul.InvalidateCache(t);
      SameExceptTrans(clients, clients1, old(clients), key);
      SameExceptTrans(consul.cache, cache1, old(consul.cache), t);
      return false;
    }

    /** The `for attempt in range(retries + 1)` loop of send_message, for names already normalised:
        stops at the first answer (recording a success), records a failure and drops the pair's
        client and the target's resolver entry after each raise, re-raises after the last attempt
        and sleeps Backoff(attempt) before the next. The breaker is not consulted inside the loop. */
    method Deliver(s: string, t: string, retries: int, world: nat -> Attempt) returns (r: SendResult, tries: nat, sleeps: seq<nat>)
      requires NormalizeName(s) == s && NormalizeName(t) == t
      modifies this, breaker, consul
      ensures pending == old(pending)
      ensures Sent(old(breaker.circuits), old(clients), old(consul.cache), s, t, retries, world,
        r, tries, sleeps, breaker.circuits, clients, consul.cache)
    {
      ghost var gated := breaker.circuits;
      var key := ClientKey(s, t);
      tries, sleeps := 0, [];
      var attempt := 0;
      while attempt < retries + 1
        invariant 0 <= attempt <= (if retries >= 0 then retries else 0)
        invariant tries == attempt && sleeps == Backoffs(attempt)
        invariant forall k :: 0 <= k < attempt ==> world(k).delivery.Raised?
        invariant breaker.circuits == AfterFailures(gated, t, FailureTimes(world, attempt))
        invariant attempt > 0 ==> key !in clients && t !in consul.cache
        invariant attempt == 0 ==> clients == old(clients) && consul.cache == old(consul.cache)
        invariant pending == old(pending)
        invariant SameExcept(clients, old(clients), key)
        invariant SameExcept(consul.cache, old(consul.cache), t)
      {
        var w := world(attempt);
        ghost var clients1, cache1 := clients, consul.cache;
        var answered := TryAttempt(s, t, w);
        SameExceptTrans(clients, clients1, old(clients), key);
        SameExceptTrans(consul.cache, cache1, old(consul.cache), t);
        tries := tries + 1;
        if answered {
          SentDelivered(gated, old(clients), old(consul.cache), s, t, retries, world, attempt, clients, consul.cache);
          return Delivered(t, w.delivery.response), tries, sleeps;
        }
        AfterFailuresSnoc(gated, t, FailureTimes(world, attempt), w.clock);
        assert FailureTimes(world, attempt) + [w.clock] == FailureTimes(world, attempt + 1);
        if attempt == retries {
          SentError(gated, old(clients), old(consul.cache), s, t, retries, world, clients, consul.cache);
          return Error(w.delivery.error), tries, sleeps;
        }
        sleeps := sleeps + [Backoff(attempt)];
        attempt := attempt + 1;
      }
      return NoReply, tries, sleeps;
    }

    /** _poll_handshake_result: one SELECT a second until the row is COMPLETED or `timeout` polls
        have passed; the row is deleted either way. Without a pool it returns None at once. */
    method PollHandshakeResult(cid: string, timeout: int, completions: nat -> Option<Json>) returns (res: Option<Json>, polls: nat)
      modifies db
      ensures db.available == old(db.available) && db.logs == old(db.logs)
      ensures !db.available ==> res.None? && polls == 0 && db.handshakes == old(db.handshakes)
      ensures db.available ==> (res, polls) == PollOutcome(RowOf(old(db.handshakes), cid), completions, 0, timeout)
      ensures db.available ==> db.handshakes == old(db.handshakes) - {cid}
    {
      if !db.available {
        return None, 0;
      }
      var k := 0;
      while k < timeout
        invariant 0 <= k && (k <= timeout || k == 0)
        invariant db.available && db.logs == old(db.logs)
        invariant PollOutcome(RowOf(db.handshakes, cid), completions, k, timeout)
          == PollOutcome(RowOf(old(db.handshakes), cid), completions, 0, timeout)
        invariant db.handshakes - {cid} == old(db.handshakes) - {cid}
      {
        if completions(k).Some? {
          db.UpdateHandshakeRecord(cid, completions(k).value);
        }
        if cid in db.handshakes && db.handshakes[cid].status == HsCompleted {
          res := db.handshakes[cid].result;
          db.DeleteHandshakeRecord(cid);
          return res, k + 1;
        }
        k := k + 1;
      }
      db.DeleteHandshakeRecord(cid);
      return None, k;
    }

    /** resolve_handshake: sets the local future only if it is still unset, forgets it, and requests
        the durable COMPLETED write (which needs an event loop: `hasLoop`). */
    method ResolveHandshake(cid: string, result: Json, hasLoop: bool)
      modifies this, db, if cid in pending then {pending[cid]} else {}
      ensures pending == old(pending) - {cid}
      ensures clients == old(clients)
      ensures cid in old(pending) && old(pending[cid].result).None? ==> old(pending)[cid].result == Some(result)
      ensures cid in old(pending) && old(pending[cid].result).Some? ==> old(pending)[cid].result == old(pending[cid].result)
      ensures db.available == old(db.available) && db.logs == old(db.logs)
      ensures db.handshakes == if hasLoop && db.available && cid in old(db.handshakes)
        then old(db.handshakes)[cid := HandshakeRow(HsCompleted, Some(result))] else old(db.handshakes)
    {
      if cid in pending {
        var future := pending[cid];
        if future.result.None? {
          future.result := Some(result);
        }
        pending := pending - {cid};
      }
      if hasLoop {
        db.UpdateHandshakeRecord(cid, result);
      }
    }

    /** send_request_with_handshake. The gate runs before anything is created; then a durable
        PENDING row (when there is a pool) and a local future; the request goes out through
        SendMessage with 3 retries, whose returned dict is ignored. With a pool the result is polled
        for; without one the future is awaited, and `local` is what a same-process resolve delivers
        to it before the timeout. `doneAt` is the clock when the outcome is recorded. */
    method SendRequestWithHandshake(source: string, target: string, payload: Json, cid: Option<string>,
      freshCid: string, timeout: int, now: real, doneAt: real, world: nat -> Attempt,
      completions: nat -> Option<Json>, local: Option<Json>)
      returns (r: Result<Json, string>, usedCid: string, stage: Stage, tries: nat)
      modifies this, breaker, consul, db
      ensures usedCid == if cid.Some? && cid.value != "" then cid.value else freshCid
      ensures db.available == old(db.available) && db.logs == old(db.logs)
      ensures var t := NormalizeName(target);
        (!Allowed(old(breaker.circuits), t, now) <==> stage == Gated)
        && (stage == Gated ==> (r == Err(OpenMessage(t)) && tries == 0 && pending == old(pending)
              && db.handshakes == old(db.handshakes) && breaker.circuits == AfterAllow(old(breaker.circuits), t, now)))
        && (stage != Gated ==> pending == old(pending) - {usedCid})
        && (r.Ok? ==> t in breaker.circuits && breaker.circuits[t] == Reset)
        && (r.Err? && stage != Gated ==> (t in breaker.circuits && breaker.circuits[t].lastFailure == doneAt
              && breaker.circuits[t].failures >= 1 && breaker.circuits[t].halfOpenAttempts == 0))
        && (stage == SendFailed ==> r.Err? && (db.available ==> db.handshakes == old(db.handshakes)[usedCid := HandshakeRow(HsPending, None)]))
        && (stage == Polled ==> (db.available && db.handshakes == old(db.handshakes) - {usedCid}
              && var p := PollOutcome(Some(HandshakeRow(HsPending, None)), completions, 0, timeout);
                 r == if p.0.Some? && Truthy(p.0.value) then Ok(p.0.value) else Err(TimeoutMessage(t, timeout))))
        && (stage == Waited ==> (!db.available && db.handshakes == old(db.handshakes)
              && r == if local.Some? then Ok(local.value) else Err(TimeoutMessage(t, timeout))))
        && (StateOf(old(breaker.circuits), t, now) == HalfOpen ==> tries == 0 && stage != SendFailed)
      ensures stage == SendFailed ==> world(3).delivery.Raised? && r == Err(world(3).delivery.error)
      ensures StateOf(old(breaker.circuits), NormalizeName(target), now) == Closed ==>
        (stage == SendFailed <==> forall k :: 0 <= k < 4 ==> world(k).delivery.Raised?)
      ensures SameExcept(breaker.circuits, old(breaker.circuits), NormalizeName(target))
    {
      var c := if cid.Some? && cid.value != "" then cid.value else freshCid;
      usedCid := c;
      var t := NormalizeName(target);
      var ok := breaker.AllowRequest(t, now);
      AfterAllowSameExcept(old(breaker.circuits), t, now);
      if !ok {
        return Err(OpenMessage(t)), c, Gated, 0;
      }
      ghost var afterGate := breaker.circuits;
      NormalizeNameIdempotent(target);
      if StateOf(old(breaker.circuits), t, now) == HalfOpen {
        HalfOpenSecondGateRefuses(old(breaker.circuits), t, now);
      } else if StateOf(old(breaker.circuits), t, now) == Closed {
        assert afterGate == old(breaker.circuits) && Allowed(afterGate, t, now);
      }
      r, stage, tries := HandshakeAfterGate(source, t, payload, c, timeout, now, doneAt, world, completions, local);
    }

    /** send_request_with_handshake past the gate: the request goes out; a send that raised records
        a breaker failure at `doneAt`, drops the pending entry and returns the error; otherwise the
        wait decides. */
    method HandshakeAfterGate(source: string, t: string, payload: Json, c: string, timeout: int, now: real, doneAt: real,
      world: nat -> Attempt, completions: nat -> Option<Json>, local: Option<Json>)
      returns (r: Result<Json, string>, stage: Stage, tries: nat)
      requires NormalizeName(t) == t
      modifies this, breaker, consul, db
      ensures stage != Gated && pending == old(pending) - {c}
      ensures db.available == old(db.available) && db.logs == old(db.logs)
      ensures r.Ok? ==> t in breaker.circuits && breaker.circuits[t] == Reset
      ensures r.Err? ==>
        (t in breaker.circuits && breaker.circuits[t].lastFailure == doneAt
         && breaker.circuits[t].failures >= 1 && breaker.circuits[t].halfOpenAttempts == 0)
      ensures stage == SendFailed ==>
        (world(3).delivery.Raised? && r == Err(world(3).delivery.error)
         && (db.available ==> db.handshakes == old(db.handshakes)[c := HandshakeRow(HsPending, None)]))
      ensures stage == Polled ==>
        (db.available && db.handshakes == old(db.handshakes) - {c}
         && var p := PollOutcome(Some(HandshakeRow(HsPending, None)), completions, 0, timeout);
            r == if p.0.Some? && Truthy(p.0.value) then Ok(p.0.value) else Err(TimeoutMessage(t, timeout)))
      ensures stage == Waited ==>
        (!db.available && db.handshakes == old(db.handshakes)
         && r == if local.Some? then Ok(local.value) else Err(TimeoutMessage(t, timeout)))
      ensures !Allowed(old(breaker.circuits), t, now) ==> tries == 0 && stage != SendFailed
      ensures Allowed(old(breaker.circuits), t, now) ==>
        (stage == SendFailed <==> forall k :: 0 <= k < 4 ==> world(k).delivery.Raised?)
      ensures SameExcept(breaker.circuits, old(breaker.circuits), t)
    {
      var sent, n, future := PostHandshakeRequest(source, t, payload, c, now, world);
      tries := n;
      SetThenRemove(old(pending), c, future);
      ghost var posted := breaker.circuits;
      if sent.Error? {
        breaker.RecordFailure(t, doneAt);
        SetThenRemove(posted, t, FailedEntry(posted, t, doneAt));
        pending := pending - {c};
        return Err(sent.error), SendFailed, tries;
      }
      r, stage := AwaitHandshake(c, t, future, timeout, doneAt, completions, local);
      SetThenRemove(old(db.handshakes), c, HandshakeRow(HsPending, None));
      if r.Ok? {
        SetThenRemove(posted, t, Reset);
      } else {
        SetThenRemove(posted, t, FailedEntry(posted, t, doneAt));
      }
    }

    /** The first half of send_request_with_handshake once the gate has let it through: the
        durable PENDING row (when there is a pool), the local future, and the request sent through
        SendMessage with 3 retries and no health check, which gates the target a second time. */
    method PostHandshakeRequest(source: string, t: string, payload: Json, c: string, now: real, world: nat -> Attempt)
      returns (sent: SendResult, tries: nat, future: Future)
      requires NormalizeName(t) == t
      modifies this, breaker, consul, db
      ensures fresh(future) && future.result.None? && pending == old(pending)[c := future]
      ensures db.available == old(db.available) && db.logs == old(db.logs)
      ensures db.handshakes == if db.available then old(db.handshakes)[c := HandshakeRow(HsPending, None)] else old(db.handshakes)
      ensures !Allowed(old(breaker.circuits), t, now) ==>
        sent == CircuitOpen(t) && tries == 0 && breaker.circuits == AfterAllow(old(breaker.circuits), t, now)
      ensures Allowed(old(breaker.circuits), t, now) ==>
        (sent.Error? <==> forall k :: 0 <= k < 4 ==> world(k).delivery.Raised?)
        && (sent.Error? ==>
              (world(3).delivery.Raised? && sent.error == world(3).delivery.error
               && breaker.circuits == AfterFailures(AfterAllow(old(breaker.circuits), t, now), t, FailureTimes(world, 4))))
      ensures SameExcept(breaker.circuits, old(breaker.circuits), t)
    {
      var dbAvailable := db.CreateHandshakeRecord(c);
      future := new Future();
      pending := pending[c := future];
      var message := HandshakeMessage(source, payload, c);
      ghost var gate, clientsBefore, cacheBefore := breaker.circuits, clients, consul.cache;
      var sleeps;
      sent, tries, sleeps := SendMessage(source, t, message, 3, false, true, now, world);
      AfterAllowSameExcept(gate, t, now);
      if Allowed(gate, t, now) {
        SentRaisesIff(AfterAllow(gate, t, now), clientsBefore, cacheBefore, NormalizeName(source), t, 3, world,
          sent, tries, sleeps, breaker.circuits, clients, consul.cache);
        if sent.Delivered? {
          AfterFailuresSameExcept(AfterAllow(gate, t, now), t, FailureTimes(world, tries - 1));
          SetThenRemove(AfterFailures(AfterAllow(gate, t, now), t, FailureTimes(world, tries - 1)), t, Reset);
        } else if sent.Error? {
          AfterFailuresSameExcept(AfterAllow(gate, t, now), t, FailureTimes(world, tries));
        }
      }
    }

    /** The wait of send_request_with_handshake once the request is out: with a pool, poll the durable
        row and take a truthy result (anything else is the timeout); without one, await the local
        future, which a same-process resolve fills with `local` in time, or not. Success records a
        breaker success, the timeout a breaker failure at `doneAt`; the pending entry goes either way. */
    method AwaitHandshake(c: string, t: string, future: Future, timeout: int, doneAt: real,
      completions: nat -> Option<Json>, local: Option<Json>) returns (r: Result<Json, string>, stage: Stage)
      requires c in pending && pending[c] == future && future.result.None?
      requires db.available ==> RowOf(db.handshakes, c) == Some(HandshakeRow(HsPending, None))
      modifies this, breaker, db, future
      ensures pending == old(pending) - {c}
      ensures db.available == old(db.available) && db.logs == old(db.logs)
      ensures stage == if db.available then Polled else Waited
      ensures db.available ==> db.handshakes == old(db.handshakes) - {c}
      ensures db.available ==>
        var p := PollOutcome(Some(HandshakeRow(HsPending, None)), completions, 0, timeout);
        r == if p.0.Some? && Truthy(p.0.value) then Ok(p.0.value) else Err(TimeoutMessage(t, timeout))
      ensures !db.available ==> db.handshakes == old(db.handshakes)
      ensures !db.available ==> r == if local.Some? then Ok(local.value) else Err(TimeoutMessage(t, timeout))
      ensures r.Ok? ==> breaker.circuits == AfterSuccess(old(breaker.circuits), t) && t in breaker.circuits && breaker.circuits[t] == Reset
      ensures r.Err? ==> breaker.circuits == AfterFailure(old(breaker.circuits), t, doneAt)
      ensures r.Err? ==>
        t in breaker.circuits && breaker.circuits[t].lastFailure == doneAt && breaker.circuits[t].failures >= 1 && breaker.circuits[t].halfOpenAttempts == 0
    {
      if db.available {
        var res, _ := PollHandshakeResult(c, timeout, completions);
        if res.Some? && Truthy(res.value) {
          breaker.RecordSuccess(t);
          pending := pending - {c};
          return Ok(res.value), Polled;
        }
        breaker.RecordFailure(t, doneAt);
        pending := pending - {c};
        return Err(TimeoutMessage(t, timeout)), Polled;
      }
      if local.Some? {
        ResolveHandshake(c, local.value, true);
      }
      if future.result.Some? {
        breaker.RecordSuccess(t);
        return Ok(future.result.value), Waited;
      }
      breaker.RecordFailure(t, doneAt);
      pending := pending - {c};
      return Err(TimeoutMessage(t, timeout)), Waited;
    }

    /** failover_call: one send with a single retry; an exception becomes `unreachable` under the name as given. */
    method FailoverCall(source: string, agent: string, text: string, now: real, world: nat -> Attempt)
      returns (r: SendResult, tries: nat)
      modifies this, breaker, consul
      ensures pending == old(pending)
      ensures !r.Error? && !r.NoReply?
      ensures tries <= 2
      ensures r.Unreachable? ==> r.agent == agent && tries == 2 && world(0).delivery.Raised? && world(1).delivery.Raised?
      ensures r.Delivered? ==>
        (tries == 1 && world(0).delivery == Answered(r.response))
        || (tries == 2 && world(0).delivery.Raised? && world(1).delivery == Answered(r.response))
      ensures (r, tries, breaker.circuits) == FailoverOutcome(old(breaker.circuits), agent, now, world)
      ensures SameExcept(clients, old(clients), ClientKey(NormalizeName(source), NormalizeName(agent)))
    {
      var s, n, _ := SendMessage(source, agent, text, 1, false, true, now, world);
      tries := n;
      assert FailureTimes(world, 0) == [];
      if s.Error? {
        return Unreachable(agent), tries;
      }
      return s, tries;
    }

    /** broadcast: a failover_call per listed agent (at `clock(i)`, meeting `worlds(i)`), collected
        into a dict keyed by agent. */
    method Broadcast(source: string, agents: seq<string>, text: string, clock: nat -> real, worlds: nat -> (nat -> Attempt))
      returns (results: map<string, SendResult>, outcomes: seq<SendResult>)
      modifies this, breaker, consul
      ensures pending == old(pending)
      ensures |outcomes| == |agents| && results == Collect(agents, outcomes)
      ensures forall i :: 0 <= i < |agents| ==> !outcomes[i].Error? && !outcomes[i].NoReply?
      ensures forall i :: 0 <= i < |agents| && outcomes[i].Unreachable? ==>
        outcomes[i].agent == agents[i] && worlds(i)(0).delivery.Raised? && worlds(i)(1).delivery.Raised?
      ensures (outcomes, breaker.circuits) == BroadcastRun(old(breaker.circuits), agents, clock, worlds)
    {
      results, outcomes := map[], [];
      var i := 0;
      while i < |agents|
        invariant 0 <= i <= |agents| && |outcomes| == i
        invariant pending == old(pending)
        invariant results == Collect(agents[..i], outcomes)
        invariant forall k :: 0 <= k < i ==> !outcomes[k].Error? && !outcomes[k].NoReply?
        invariant forall k :: 0 <= k < i && outcomes[k].Unreachable? ==>
          outcomes[k].agent == agents[k] && worlds(k)(0).delivery.Raised? && worlds(k)(1).delivery.Raised?
        invariant (outcomes, breaker.circuits) == BroadcastRun(old(breaker.circuits), agents[..i], clock, worlds)
      {
        var o, _ := FailoverCall(source, agents[i], text, clock(i), worlds(i));
        results := results[agents[i] := o];
        assert agents[..i + 1][..i] == agents[..i];
        assert (outcomes + [o])[..i] == outcomes;
        outcomes := outcomes + [o];
        i := i + 1;
      }
      assert agents[..i] == agents;
    }
  }
}
