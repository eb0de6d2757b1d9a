// The two Postgres tables the messaging layer keeps: `handshakes` (cid -> status, result)
// and `delegation_logs` (one row per delegation, newest last). SQL statements become
// methods over the tables; the pool is either there or not (`available`).
module Store {
  import opened Wrappers
  import opened Strings
  import opened Json
  import opened AgentNames

  datatype HandshakeStatus = HsPending | HsCompleted

  /** A row of `handshakes`: its status and the JSON result a completion wrote. */
  datatype HandshakeRow = HandshakeRow(status: HandshakeStatus, result: Option<Json>)

  datatype LogStatus = Pending | Completed | Timeout | FailoverSuccess | Failed

  /** A row of `delegation_logs`. */
  datatype LogEntry = LogEntry(
    cid: string,
    source: string,
    target: string,
    request: string,
    incidentId: Option<string>,
    createdAt: real,
    status: LogStatus,
    durationMs: Option<int>,
    toolsCalled: Json,
    toolResults: Json,
    finalResponse: Option<string>,
    promptTokens: int,
    completionTokens: int,
    totalTokens: int)

  /** The row create_delegation_log inserts: PENDING, with the column defaults for the rest. */
  function NewLog(cid: string, source: string, target: string, request: string, incidentId: Option<string>, now: real): LogEntry {
    LogEntry(cid, source, target, request, incidentId, now, Pending, None, Arr([]), Arr([]), None, 0, 0, 0)
  }

  // ---- update_delegation_log -----------------------------------------------

  /** Python's `a + b` on two values: numbers add, strings and lists concatenate, anything else is a TypeError. */
  function PyAdd(a: Json, b: Json): (r: Result<Json, string>)
    ensures a.Int? && b.Int? ==> r == Ok(Int(a.i + b.i))
  {
    if (a.Int? || a.Bool?) && (b.Int? || b.Bool?) then Ok(Int(AsInt(a) + AsInt(b)))
    else if a.Str? && b.Str? then Ok(Str(a.s + b.s))
    else if a.Arr? && b.Arr? then Ok(Arr(a.items + b.items))
    else if a.Str? then Err("can only concatenate str (not \"" + TypeName(b) + "\") to str")
    else if a.Arr? then Err("can only concatenate list (not \"" + TypeName(b) + "\") to list")
    else Err("unsupported operand type(s) for +: '" + TypeName(a) + "' and '" + TypeName(b) + "'")
  }

  function AsInt(j: Json): int
    requires j.Int? || j.Bool?
  {
    if j.Int? then j.i else if j.b then 1 else 0
  }

  function TypeName(j: Json): string {
    match j
    case Null => "NoneType"
    case Bool(_) => "bool"
    case Int(_) => "int"
    case Str(_) => "str"
    case Arr(_) => "list"
    case Obj(_) => "dict"
  }

  /** The new column values update_delegation_log writes, if its arguments can be bound:
      token counts and duration that fit the INTEGER columns, a text or NULL final response.
      The total is always prompt + completion. */
  datatype LogUpdate = LogUpdate(durationMs: Option<int>, toolsCalled: Json, toolResults: Json,
    finalResponse: Option<string>, promptTokens: int, completionTokens: int, totalTokens: int, status: LogStatus)

  /** Whether a value fits a Postgres INTEGER column, a signed 32-bit integer. */
  predicate IsInt32(n: int) {
    -0x8000_0000 <= n < 0x8000_0000
  }

  function Bind(durationMs: Option<int>, toolsCalled: Json, toolResults: Json, finalResponse: Json,
    promptTokens: Json, completionTokens: Json, status: LogStatus): (r: Option<LogUpdate>)
    ensures r.Some? ==> r.value.totalTokens == r.value.promptTokens + r.value.completionTokens
    ensures r.Some? ==> IsInt32(r.value.promptTokens) && IsInt32(r.value.completionTokens) && IsInt32(r.value.totalTokens)
    ensures r.Some? <==> (promptTokens.Int? && completionTokens.Int? && (finalResponse.Str? || finalResponse.Null?)
      && IsInt32(promptTokens.i) && IsInt32(completionTokens.i) && IsInt32(promptTokens.i + completionTokens.i)
      && (durationMs.None? || IsInt32(durationMs.value)))
  {
    if promptTokens.Int? && completionTokens.Int? && (finalResponse.Str? || finalResponse.Null?)
      && IsInt32(promptTokens.i) && IsInt32(completionTokens.i) && IsInt32(promptTokens.i + completionTokens.i)
      && (durationMs.None? || IsInt32(durationMs.value)) then
      var total := PyAdd(promptTokens, completionTokens);
      Some(LogUpdate(durationMs, Or(toolsCalled, Arr([])), Or(toolResults, Arr([])),
        if finalResponse.Str? then Some(finalResponse.s) else None,
        promptTokens.i, completionTokens.i, total.value.i, status))
    else None
  }

  function Apply(e: LogEntry, u: LogUpdate): LogEntry {
    e.(durationMs := u.durationMs, toolsCalled := u.toolsCalled, toolResults := u.toolResults,
      finalResponse := u.finalResponse, promptTokens := u.promptTokens,
      completionTokens := u.completionTokens, totalTokens := u.totalTokens, status := u.status)
  }

  /** UPDATE ... WHERE correlation_id = cid: every row with that cid, and no other, gets the new values. */
  function UpdateRows(logs: seq<LogEntry>, cid: string, u: LogUpdate): (r: seq<LogEntry>)
    ensures |r| == |logs|
    ensures forall i :: 0 <= i < |logs| ==> r[i] == (if logs[i].cid == cid then Apply(logs[i], u) else logs[i])
  {
    seq(|logs|, i requires 0 <= i < |logs| => if logs[i].cid == cid then Apply(logs[i], u) else logs[i])
  }

  /** The table after create_delegation_log: the row appended when there is a pool. */
  function Inserted(logs: seq<LogEntry>, e: LogEntry, available: bool): (r: seq<LogEntry>)
    ensures available ==> r == logs + [e]
    ensures !available ==> r == logs
  {
    if available then logs + [e] else logs
  }

  /** The table after update_delegation_log: the rows of the cid rewritten when there is a pool and
      the values bind, unchanged otherwise. */
  function LogsAfter(logs: seq<LogEntry>, cid: string, u: Option<LogUpdate>, available: bool): (r: seq<LogEntry>)
    ensures |r| == |logs|
  {
    if available && u.Some? then UpdateRows(logs, cid, u.value) else logs
  }

  /** An updated row keeps who, what and when; only the outcome columns change, and its total is prompt + completion. */
  lemma UpdateKeepsIdentity(logs: seq<LogEntry>, cid: string, u: LogUpdate, i: nat)
    requires i < |logs| && u.totalTokens == u.promptTokens + u.completionTokens
    ensures var e := UpdateRows(logs, cid, u)[i];
      e.cid == logs[i].cid && e.source == logs[i].source && e.target == logs[i].target
      && e.createdAt == logs[i].createdAt && e.incidentId == logs[i].incidentId
      && (logs[i].cid == cid ==> e.status == u.status && e.totalTokens == e.promptTokens + e.completionTokens)
  {
  }

  // ---- check_delegation_exists ---------------------------------------------

  /** The WHERE clause of the dedup query. */
  predicate Matches(e: LogEntry, incident: string, target: string, cutoff: real) {
    e.incidentId == Some(incident) && e.target == target && e.createdAt > cutoff
    && (e.status == Pending || e.status == Completed)
  }

  /** ORDER BY created_at DESC LIMIT 1 over the first `n` rows; among equal times the row inserted last. */
  function NewestMatch(logs: seq<LogEntry>, incident: string, target: string, cutoff: real, n: nat): (r: Option<nat>)
    requires n <= |logs|
    ensures r.Some? ==> r.value < n && Matches(logs[r.value], incident, target, cutoff)
    ensures r.Some? ==> forall k :: 0 <= k < n && Matches(logs[k], incident, target, cutoff) ==>
      logs[k].createdAt <= logs[r.value].createdAt
    ensures r.None? ==> forall k :: 0 <= k < n ==> !Matches(logs[k], incident, target, cutoff)
    decreases n
  {
    if n == 0 then None
    else
      var best := NewestMatch(logs, incident, target, cutoff, n - 1);
      if Matches(logs[n - 1], incident, target, cutoff)
        && (best.None? || logs[best.value].createdAt <= logs[n - 1].createdAt)
      then Some(n - 1)
      else best
  }

  /** The row check_delegation_exists returns, before the pool is considered. */
  function ExistingDelegation(logs: seq<LogEntry>, incident: string, target: string, maxAge: int, now: real): Option<LogEntry> {
    if incident == "" then None
    else
      var r := NewestMatch(logs, incident, NormalizeName(target), now - maxAge as real, |logs|);
      if r.Some? then Some(logs[r.value]) else None
  }

  /** The dedup query found something exactly when some row matches incident, hyphen-normalised target,
      window and status; what it found is such a row and no matching row is newer. */
  lemma ExistingDelegationSpec(logs: seq<LogEntry>, incident: string, target: string, maxAge: int, now: real)
    requires incident != ""
    ensures var found := ExistingDelegation(logs, incident, target, maxAge, now);
      var cutoff := now - maxAge as real;
      (found.Some? <==> exists k :: 0 <= k < |logs| && Matches(logs[k], incident, NormalizeName(target), cutoff))
      && (found.Some? ==> found.value in logs && Matches(found.value, incident, NormalizeName(target), cutoff))
      && (found.Some? ==> forall k :: 0 <= k < |logs| && Matches(logs[k], incident, NormalizeName(target), cutoff) ==>
            logs[k].createdAt <= found.value.createdAt)
  {
  }

  /** An empty incident id never finds anything. */
  lemma EmptyIncidentNeverFound(logs: seq<LogEntry>, target: string, maxAge: int, now: real)
    ensures ExistingDelegation(logs, "", target, maxAge, now).None?
  {
  }

  /** A fresh PENDING row makes the same incident and target a dedup hit while it is younger than the window. */
  lemma {:induction false} NewLogIsFound(logs: seq<LogEntry>, cid: string, source: string, target: string,
    request: string, incident: string, now: real, later: real, maxAge: int)
    requires incident != "" && NormalizeName(target) == target
    requires later - (maxAge as real) < now
    ensures ExistingDelegation(logs + [NewLog(cid, source, target, request, Some(incident), now)], incident, target, maxAge, later).Some?
  {
    var all := logs + [NewLog(cid, source, target, request, Some(incident), now)];
    assert Matches(all[|logs|], incident, NormalizeName(target), later - maxAge as real);
    ExistingDelegationSpec(all, incident, target, maxAge, later);
  }

  // ---- the tables ----------------------------------------------------------

  /** The database behind the shared pool. */
  class Database {
    /** Whether `_get_db_pool` yields a pool (DATABASE_URL set and the pool created). */
    var available: bool
    var handshakes: map<string, HandshakeRow>
    var logs: seq<LogEntry>

    constructor (available: bool)
      ensures this.available == available && handshakes == map[] && logs == []
    {
      this.available := available;
      handshakes := map[];
      logs := [];
    }

    /** _create_handshake_record: upsert the row as PENDING with no result; false without a pool. */
    method CreateHandshakeRecord(cid: string) returns (ok: bool)
      modifies this
      ensures ok == available && available == old(available) && logs == old(logs)
      ensures handshakes == if ok then old(handshakes)[cid := HandshakeRow(HsPending, None)] else old(handshakes)
    {
      if !available {
        return false;
      }
      handshakes := handshakes[cid := HandshakeRow(HsPending, None)];
      return true;
    }

    /** _update_handshake_record: UPDATE only touches a row that exists. */
    method UpdateHandshakeRecord(cid: string, result: Json)
      modifies this
      ensures available == old(available) && logs == old(logs)
      ensures handshakes == if available && cid in old(handshakes)
        then old(handshakes)[cid := HandshakeRow(HsCompleted, Some(result))] else old(handshakes)
    {
      if available && cid in handshakes {
        handshakes := handshakes[cid := HandshakeRow(HsCompleted, Some(result))];
      }
    }

    /** DELETE FROM handshakes WHERE cid = ... */
    method DeleteHandshakeRecord(cid: string)
      modifies this
      ensures available == old(available) && logs == old(logs)
      ensures handshakes == old(handshakes) - {cid}
    {
      handshakes := handshakes - {cid};
    }

    /** create_delegation_log: appends a PENDING row stamped `now`; false without a pool. */
    method CreateDelegationLog(cid: string, source: string, target: string, request: string,
      incidentId: Option<string>, now: real) returns (ok: bool)
      modifies this
      ensures ok == available && available == old(available) && handshakes == old(handshakes)
      ensures logs == Inserted(old(logs), NewLog(cid, source, target, request, incidentId, now), available)
    {
      if !available {
        return false;
      }
      logs := logs + [NewLog(cid, source, target, request, incidentId, now)];
      return true;
    }

    /** update_delegation_log: rewrites every row with the cid; false without a pool or when an argument cannot be bound. */
    method UpdateDelegationLog(cid: string, toolsCalled: Json, toolResults: Json, finalResponse: Json,
      durationMs: Option<int>, promptTokens: Json, completionTokens: Json, status: LogStatus) returns (ok: bool)
      modifies this
      ensures available == old(available) && handshakes == old(handshakes)
      ensures var u := Bind(durationMs, toolsCalled, toolResults, finalResponse, promptTokens, completionTokens, status);
        ok == (available && u.Some?) && logs == LogsAfter(old(logs), cid, u, available)
    {
      if !available {
        return false;
      }
      var u := Bind(durationMs, toolsCalled, toolResults, finalResponse, promptTokens, completionTokens, status);
      if u.None? {
        return false;
      }
      logs := UpdateRows(logs, cid, u.value);
      return true;
    }

    /** check_delegation_exists with the default 300-second window. */
    method CheckDelegationExists(incident: string, target: string, maxAge: int, now: real) returns (found: Option<LogEntry>)
      ensures found == if available then ExistingDelegation(logs, incident, target, maxAge, now) else None
    {
      if incident == "" || !available {
        return None;
      }
      var t := NormalizeName(target);
      var r := NewestMatch(logs, incident, t, now - maxAge as real, |logs|);
      if r.Some? {
        return Some(logs[r.value]);
      }
      return None;
    }
  }
}
