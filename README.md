# Emergency mesh: messaging and resilience layer

This project models, in Dafny, the core of a multi-agent emergency-response mesh. In the mesh, the
human intake, dispatch, fire chief, medical, police chief, utility, IoT sensor, camera and civic
alert agents talk to each other over A2A HTTP. The model covers three parts and proves properties
about each.

The messaging layer holds:
- the per-destination circuit breaker;
- the circuit-gated send, with bounded retries and capped exponential backoff;
- the correlation-id handshake, run over a durable `handshakes` table and an in-process map of
  pending futures;
- `broadcast` and `failover_call`;
- the delegation ledger, with its dedup query and token totals;
- the service resolver: a cache, then Consul, then a static table.

Above it sit:
- the delegation tool, with incident-id extraction, the dedup gate, the ledger lifecycle and the
  one-shot failover;
- the cross-process token-bucket rate limiter and the rate-limit retry helpers;
- the receive side of the agent executors;
- the JWT gate and the environment-variable check;
- the Pushover payload rules;
- the geocode cache and nearest-resource search of the maps tool.

Finally, there are the deterministic tools of each agent.

How the model is built:
- **Modules follow the source's components, not its files.**
  - lib/utils/communication.py is split into `CircuitBreaker` (the breaker table), `Messaging`
    (the A2A client), `Store` (the database) and `AgentNames` (the name rules the tools share).
  - lib/tools/delegation_tool.py is split into `Delegation` (the tool) and `IncidentId` (the
    incident-label extraction).
  - lib/consul/registry.py is `Registry`, lib/utils/retry.py is `RateLimiter`, and
    lib/utils/middleware.py, lib/utils/pushover.py, lib/utils/env_utils.py and
    lib/tools/real_maps_tool.py are `Middleware`, `Pushover`, `EnvUtils` and `Maps`.
  - agents/dispatch_folder/dispatch/executor.py is `Executor`. Each agent's tools.py is its own module (`DispatchTools`,
    `FireTools`, `PoliceTools`, `MedicalTools`, `UtilityTools`, `CameraTools`, `IntakeTools`).
  - `Wrappers`, `Strings`, `Json` and `ToolKit` stand for no source file. They hold the Option and
    Result types, the string and JSON helpers, and what the tools share: the context's correlation id, the
    effects of a tool call and the HANDSHAKE_RESULT confirmation.
- **State that changes is a class.** Code that updates state in place is a `class` whose methods have
  `modifies` clauses. Examples: the breaker table, the client and pending maps, the resolver cache,
  the database tables, the rate limiter's lock and state file, the executor's session set, the maps
  cache and the environment.
- **Loops are `while` loops with invariants**, each proved against a specification function. Those
  loops are the send attempts, the handshake poll, the lock poll, the acquire loop, the retry
  loops, the event scan and the nearest-resource search.
- **Pure rules are functions with lemmas.**
- **The outside world is a parameter.** Every result from outside is passed in:
  - the HTTP transport and the Consul catalog;
  - Nominatim and OSRM;
  - the Pushover POST;
  - the Postgres pool's availability;
  - the LLM's events;
  - the clock readings;
  - the random draws.
- **Sleeps are returned, not performed.** They come back as sequences of durations.
- **Tools are pure.** Each agent tool is a function that returns its result dict together with
  the list of its effects (messages sent, handshakes requested, broadcasts, push notifications).
  What a send returned, or the text of the exception it raised, is a parameter.

## Model

| member | source | states |
|---|---|---|
| AgentNames.NormalizeName | lib/utils/communication.py:425-426 | every underscore becomes a hyphen, every other character is kept, the length is unchanged |
| AgentNames.NormalizeNameIdempotent | lib/utils/communication.py:425-426 | normalising twice equals normalising once |
| AgentNames.NormalizeTarget | agents/fire_chief_folder/fire_chief/tools.py:108-111 | the confirmation target has no underscore and always ends in "-agent" |
| AgentNames.NormalizeTargetIdempotent | agents/medical_folder/medical/tools.py:92-117 | target normalisation is idempotent, so an already canonical name is left alone |
| AgentNames.NormalizeTargetSuffix | agents/police_chief_folder/police_chief/tools.py:140-142 | "-agent" is appended exactly when the hyphenated name lacks it |
| AgentNames.PortOffset | lib/utils/communication.py:428-437 | every agent's A2A port is in 9000..9009 |
| AgentNames.UnknownNameDefaultPort | lib/utils/communication.py:437 | a name outside the nine agents gets port 9000 |
| CircuitBreaker.UnknownIsClosed | lib/utils/communication.py:60-71 | an unknown destination reads CLOSED, lets the call through and changes no entry |
| CircuitBreaker.HalfOpenOnlyAfterTimeout | lib/utils/communication.py:60-71 | a stored OPEN entry reads HALF_OPEN iff strictly more than 60 s have passed; the rewrite resets the probe count to 0 and keeps the count and timestamp |
| CircuitBreaker.GetStateFrame | lib/utils/communication.py:60-71 | get_state rewrites only the named entry, and only when it is OPEN |
| CircuitBreaker.SuccessResets | lib/utils/communication.py:73-76 | record_success always leaves (CLOSED, 0, 0.0, 0) |
| CircuitBreaker.FailureTransitions | lib/utils/communication.py:78-96 | record_failure: an unknown agent gets CLOSED with count 1; HALF_OPEN becomes OPEN; reaching 3 opens the circuit; otherwise CLOSED with count+1; the timestamp is `now` and the probe count is 0 |
| CircuitBreaker.FailureCountGrows | lib/utils/communication.py:78-96 | a failure raises the count by exactly one and leaves every other entry unchanged |
| CircuitBreaker.FailuresAccumulate | lib/utils/communication.py:78-96 | after a run of failures the count is higher by the number recorded, so it never decreases without a success |
| CircuitBreaker.AfterFailuresLocal | lib/utils/communication.py:78-96 | the entry a run of failures leaves for a destination depends only on that destination's entry before the run |
| CircuitBreaker.ThreeFailuresOpen | lib/utils/communication.py:78-96 | three failures in a row open an unknown or reset circuit, stamped with the third failure's time |
| CircuitBreaker.AllowByState | lib/utils/communication.py:98-111 | allow_request is true in CLOSED and false in OPEN, and only HALF_OPEN changes more than get_state does |
| CircuitBreaker.OpenRefusesWithinTimeout | lib/utils/communication.py:98-111 | an OPEN circuit refuses every call within the 60 s timeout and changes nothing |
| CircuitBreaker.AllowSpendsBudget | lib/utils/communication.py:98-111 | each admitted call uses up one probe of the budget left before the next record |
| CircuitBreaker.AtMostOneProbe | lib/utils/communication.py:98-111 | between records, an OPEN or HALF_OPEN circuit admits at most CIRCUIT_HALF_OPEN_MAX (1) calls, however many are made and whenever |
| CircuitBreaker.HalfOpenSecondGateRefuses | lib/utils/communication.py:612-634 | when the handshake's own gate finds HALF_OPEN, the gate inside send_message is refused |
| CircuitBreaker.OpenThenProbe | lib/utils/communication.py:78-111 | a circuit that just opened refuses calls within the timeout and admits exactly one probe after it |
| CircuitBreaker.Breaker.constructor | lib/utils/communication.py:56-58 | the circuit table starts empty |
| CircuitBreaker.Breaker.GetState | lib/utils/communication.py:60-71 | the reported state and the new table are those of the get_state specification |
| CircuitBreaker.Breaker.RecordSuccess | lib/utils/communication.py:73-76 | the entry is reset |
| CircuitBreaker.Breaker.RecordFailure | lib/utils/communication.py:78-96 | the new table is the record_failure transition; the count rises by one and is stamped `now` |
| CircuitBreaker.Breaker.AllowRequest | lib/utils/communication.py:98-111 | the answer and the new table are those of the allow_request specification |
| Messaging.Backoff | lib/utils/communication.py:587-590 | the backoff is min(32, 2^attempt), always between 1 and 32 seconds |
| Messaging.BackoffSchedule | lib/utils/communication.py:587-590 | the schedule is 1, 2, 4, 8, 16, then 32 for ever |
| Messaging.BackoffMonotone | lib/utils/communication.py:587-590 | the backoff never shrinks between attempts |
| Messaging.Backoffs | lib/utils/communication.py:541-590 | the sleeps after the first n failed attempts are Backoff(0..n-1) |
| Messaging.FailureTimes | lib/utils/communication.py:565-569 | failure k is recorded at attempt k's clock reading |
| Messaging.ClientUrl | lib/utils/communication.py:449-458 | every client base URL ends in "/a2a/" |
| Messaging.ClientUrlIdempotent | lib/utils/communication.py:456-458 | a URL that is already suffixed is kept as it is |
| Messaging.ClientUrlPortOnMiss | lib/utils/communication.py:450-455 | a resolver hit decides the URL; on a miss it is http://localhost:<port>/a2a/ |
| Messaging.StaticMeshMatchesPorts | lib/consul/registry.py:21-31 | the static table's ports agree with `_get_port_offset` for every agent |
| Messaging.HandshakeRequest | lib/utils/communication.py:627-632 | the envelope is typed HANDSHAKE_REQUEST |
| Messaging.HandshakeRequestCarriesCid | lib/utils/communication.py:627-632 | the envelope carries the correlation id that is waited on |
| Messaging.PollOutcome | lib/utils/communication.py:241-271 | the poll stops within `timeout` polls |
| Messaging.PollWithoutRowTimesOut | lib/utils/communication.py:248-271 | without a row the poll runs to its timeout and returns None |
| Messaging.PollFindsFirstCompletion | lib/utils/communication.py:248-259 | a PENDING row yields exactly the first completion, and None only if none arrives before the timeout |
| Messaging.SentDelivered | lib/utils/communication.py:541-563 | a delivery after k failed attempts: k+1 tries, k backoffs, k recorded failures and then a success |
| Messaging.SentError | lib/utils/communication.py:565-585 | when every attempt raises: retries+1 tries, all failures recorded, the client and cache entries invalidated, and the last error re-raised |
| Messaging.CollectKeys | lib/utils/communication.py:681-685 | broadcast's dict has exactly one key per listed agent |
| Messaging.CollectLast | lib/utils/communication.py:681-685 | each key holds the outcome of the agent's last listing, so with distinct agents every outcome is kept |
| Messaging.SentRaisesIff | lib/utils/communication.py:541-585 | the send loop ends in an error iff every one of the retries+1 attempts raised, and the error is the last attempt's text |
| Messaging.FailoverOutcome | lib/utils/communication.py:687-692 | circuit_open iff the gate refuses; unreachable iff admitted and both tries raise; delivered iff admitted and either try answers; unreachable carries the agent as given and two tries |
| Messaging.FailoverLocal | lib/utils/communication.py:687-692 | a failover_call's outcome and tries depend only on its own destination's breaker entry |
| Messaging.AfterAllowSameExcept | lib/utils/communication.py:98-111 | allow_request changes no breaker entry but the one it gates |
| Messaging.AfterFailuresSameExcept | lib/utils/communication.py:78-96 | failures recorded against one destination leave every other entry as it was |
| Messaging.FailoverFrame | lib/utils/communication.py:687-692 | a failover_call leaves every other destination's breaker entry as it was |
| Messaging.BroadcastRun | lib/utils/communication.py:681-685 | one outcome per listed agent |
| Messaging.BroadcastPrefix | lib/utils/communication.py:681-685 | the first k outcomes of a broadcast are those of broadcasting to the first k agents |
| Messaging.BroadcastFrame | lib/utils/communication.py:681-685 | a broadcast leaves the breaker entry of every unlisted destination as it was |
| Messaging.BroadcastIsolated | lib/utils/communication.py:681-692 | the first listing of a destination gets exactly the outcome a lone failover_call would get, whatever the other targets did |
| Messaging.Future.constructor | lib/utils/communication.py:622-624 | a new future is unset |
| Messaging.A2AClient.GetClient | lib/utils/communication.py:439-480 | a cached pair's client is reused with nothing else changed; otherwise a client at ClientUrl of the resolver's answer is cached under "source->target" |
| Messaging.A2AClient.SendMessage | lib/utils/communication.py:498-592 | a refused gate returns circuit_open with zero attempts; a failed health check records one failure; otherwise the attempt loop behaves as specified by `Sent`; the pending map is untouched |
| Messaging.A2AClient.TryAttempt | lib/utils/communication.py:541-583 | an answered attempt records success; a raised one records a failure and drops the client pair and the resolver's cache entry |
| Messaging.A2AClient.Deliver | lib/utils/communication.py:541-590 | at most retries+1 attempts; the loop's result, tries, sleeps and breaker, client and cache states are those of `Sent`; the breaker is not re-checked inside the loop |
| Messaging.A2AClient.PollHandshakeResult | lib/utils/communication.py:241-271 | without a pool: None and no poll; with a pool: the PollOutcome result, and the row is deleted on completion and on timeout |
| Messaging.A2AClient.ResolveHandshake | lib/utils/communication.py:663-679 | the future is set only if unset, the pending entry is removed, and the COMPLETED write happens even without a local future |
| Messaging.A2AClient.SendRequestWithHandshake | lib/utils/communication.py:594-661 | a refused gate raises "Circuit breaker OPEN" before any record or pending entry exists; every other exit removes the pending entry; success resets the breaker; timeout or error records a failure; the polled row is deleted; a HALF_OPEN start makes zero transport attempts and is never a send failure; from a CLOSED circuit the send fails iff all four attempts raise, with the last attempt's text; no breaker entry but the target's changes |
| Messaging.A2AClient.PostHandshakeRequest | lib/utils/communication.py:618-634 | the PENDING record (with a pool) and a fresh unset future are created and the future is pending; a refused second gate makes no attempt; an admitted send raises iff all four attempts raise, and the breaker then holds those four failures; no breaker entry but the target's changes |
| Messaging.A2AClient.HandshakeAfterGate | lib/utils/communication.py:618-661 | the pending entry is removed on every exit; a send failure returns the send's error and records it; otherwise the answer is the awaited poll or future; a send failure happens iff the gate admitted and all four attempts raised; no breaker entry but the target's changes |
| Messaging.A2AClient.AwaitHandshake | lib/utils/communication.py:637-661 | with a pool the answer is the poll's truthy result or the plain timeout message; without one, the local future or the timeout message; success resets and failure records the breaker |
| Messaging.A2AClient.FailoverCall | lib/utils/communication.py:687-692 | never raises; outcome, tries and breaker are FailoverOutcome's: circuit_open with zero tries iff the gate refuses; unreachable with the name as given iff the gate admits and both tries raise; delivered otherwise; only the client pair of this source and agent can change |
| Messaging.A2AClient.Broadcast | lib/utils/communication.py:681-685 | the outcomes and the final breaker are BroadcastRun's, one failover_call per listed agent in order; the dict holds one key per agent |
| Store.PyAdd | lib/utils/communication.py:354 | two integers add like Python's `+` |
| Store.Bind | lib/utils/communication.py:317-356 | the bound update's total is prompt + completion; binding succeeds iff the token counts are integers, prompt, completion, their total and the duration fit the signed 32-bit INTEGER columns declared at lines 171-180, and the final response is a string or None |
| Store.UpdateRows | lib/utils/communication.py:334-346 | exactly the rows with the cid are rewritten |
| Store.Inserted | lib/utils/communication.py:292-315 | with a pool the row is appended; without one the table is unchanged |
| Store.LogsAfter | lib/utils/communication.py:317-361 | update_delegation_log never adds or removes rows |
| Store.UpdateKeepsIdentity | lib/utils/communication.py:334-356 | an updated row keeps its cid, agents, creation time and incident; it takes the new status, and total = prompt + completion |
| Store.NewestMatch | lib/utils/communication.py:407-416 | the row found matches the WHERE clause and is the newest matching row; None means no row matches |
| Store.ExistingDelegationSpec | lib/utils/communication.py:379-423 | a row is found iff some row matches the incident, the hyphen-normalised target, the age window and PENDING/COMPLETED; the one returned is the newest |
| Store.EmptyIncidentNeverFound | lib/utils/communication.py:396-397 | an empty incident id finds nothing |
| Store.NewLogIsFound | lib/utils/communication.py:405-416 | a fresh PENDING row makes the same incident and target a dedup hit while it is inside the window |
| Store.Database.CreateHandshakeRecord | lib/utils/communication.py:225-239 | with a pool the row becomes PENDING with no result (an upsert); otherwise false and nothing changes |
| Store.Database.UpdateHandshakeRecord | lib/utils/communication.py:273-286 | only an existing row becomes COMPLETED with the result |
| Store.Database.DeleteHandshakeRecord | lib/utils/communication.py:265-270 | the row of the cid is removed |
| Store.Database.CreateDelegationLog | lib/utils/communication.py:292-315 | appends the PENDING row when there is a pool |
| Store.Database.UpdateDelegationLog | lib/utils/communication.py:317-361 | rewrites every row of the cid, and succeeds iff there is a pool and the values bind |
| Store.Database.CheckDelegationExists | lib/utils/communication.py:379-423 | the answer is the specified newest matching row, or None without a pool |
| Registry.ConsulUrl | lib/consul/registry.py:41-51 | a URL comes back iff the catalog answers 200 with a non-empty list; it is built from the first entry |
| Registry.StaticUrl | lib/consul/registry.py:54-56 | the static URL exists iff the name is in the static table |
| Registry.CacheHitIgnoresConsul | lib/consul/registry.py:35-36 | a cached name is answered from the cache whatever the catalog says, and the cache is unchanged |
| Registry.LookupOrder | lib/consul/registry.py:38-57 | a catalog hit wins, and the static table answers only when the catalog gives nothing |
| Registry.CachesOnlySuccess | lib/consul/registry.py:59-63 | the name is cached iff a URL came back; other names are untouched |
| Registry.StaticMeshLocal | lib/consul/registry.py:21-31 | every static entry is localhost on a port in 9001..9009 |
| Registry.ServiceId | lib/consul/registry.py:76-77 | the service id is "{service}-{hostname}" |
| Registry.RegisterDeregisterSameId | lib/consul/registry.py:69-100 | deregistration names the same id the registration carried |
| Registry.ConsulRegistry.constructor | lib/consul/registry.py:10-16 | the cache starts empty |
| Registry.ConsulRegistry.GetServiceUrl | lib/consul/registry.py:33-63 | the answer and the new cache are those of the resolution order above |
| Registry.ConsulRegistry.InvalidateCache | lib/consul/registry.py:65-67 | only the given name is dropped; an absent name changes nothing |
| IncidentId.LabelAt | lib/tools/delegation_tool.py:44 | a label match yields a non-empty id of [A-Z0-9_-] characters |
| IncidentId.LabelFrom | lib/tools/delegation_tool.py:44-46 | the label search yields a non-empty id of [A-Z0-9_-] characters |
| IncidentId.LabelFromLeftmost | lib/tools/delegation_tool.py:44 | the search finds a label iff one occurs, and returns the leftmost occurrence |
| IncidentId.ShapeFromMeans | lib/tools/delegation_tool.py:49 | the segment scanner accepts only [A-Z0-9_] with no doubled or trailing underscore and at least two underscores |
| IncidentId.IdShapeMeans | lib/tools/delegation_tool.py:49 | a fallback id starts with an upper-case letter, has at least two `_SEGMENT`s and no empty segment |
| IncidentId.FallbackAt | lib/tools/delegation_tool.py:49 | a match at a position has the fallback shape |
| IncidentId.FallbackFrom | lib/tools/delegation_tool.py:49-51 | a fallback search result has the fallback shape |
| IncidentId.FallbackFromMatch | lib/tools/delegation_tool.py:49-51 | a fallback match is a whole token between word boundaries |
| IncidentId.FallbackAtMeans | lib/tools/delegation_tool.py:49 | the match is the text at that position, bounded on both sides |
| IncidentId.ExtractIncidentId | lib/tools/delegation_tool.py:32-53 | as written: an extracted id is non-empty and uses only [A-Z0-9_-] |
| IncidentId.ExtractOrder | lib/tools/delegation_tool.py:40-53 | empty text gives None; a label wins over any all-caps token; without a label, the fallback pattern decides |
| IncidentId.UnderscoreLabelNotMatched | lib/tools/delegation_tool.py:33-51 | "incident_id: ABC_123", an example the docstring names, yields None |
| IncidentId.LabelBeatsEarlierToken | lib/tools/delegation_tool.py:43-51 | a label wins even over an all-caps token written before it |
| IncidentId.TokenFoundWithoutLabel | lib/tools/delegation_tool.py:48-51 | a bounded all-caps id with two underscores is found when there is no label |
| IncidentId.ExtractIncidentIdCorrected | lib/tools/delegation_tool.py:32-53 | the corrected extraction: a label with "incident" and "id" separated by spaces or underscores wins, otherwise the same fallback; an id is non-empty [A-Z0-9_-] |
| IncidentId.CorrectedLabelExtends | lib/tools/delegation_tool.py:42 | wherever the label as written matches, the corrected label matches the same id |
| IncidentId.UnderscoreLabelCorrected | lib/tools/delegation_tool.py:33-42 | the corrected extraction reads "incident_id: ABC_123" as ABC_123 |
| Delegation.GetCid | lib/tools/delegation_tool.py:28-29 | the cid is the one in context, or non-empty "UNKNOWN" |
| Delegation.ToolName | lib/tools/delegation_tool.py:72 | the name starts with "delegate_to_" and has no hyphen |
| Delegation.ToolNameOf | lib/tools/delegation_tool.py:72 | for "<x>-agent" without "-agent" inside x, the tool is "delegate_to_" + x with hyphens turned into underscores |
| Delegation.FailoverShape | lib/tools/delegation_tool.py:219-225 | no agent is its own backup; every backup has a backup; fire chief and police chief back each other up |
| Delegation.UnmarkedNotConnectionFailure | lib/tools/delegation_tool.py:216 | a text with no '5', no "nn" and no "ou" (any case) never passes the failover test |
| Delegation.BackedUpAgentsUnmarked | lib/tools/delegation_tool.py:219-225 | no agent name in the failover map carries such a mark |
| Delegation.HandshakeErrorsNotFailedOver | lib/tools/delegation_tool.py:211-230 | the refused-gate message and the 60 s handshake-timeout message never trigger failover, so those delegations end FAILED |
| Delegation.UnmarkedNormalized | lib/tools/delegation_tool.py:216 | hyphenating a name that carries no connection-failure mark creates none |
| Delegation.RefusedOrTimedOutFails | lib/tools/delegation_tool.py:211-250 | a first handshake refused by the gate or timed out ends FAILED with that text and no failover, for every target |
| Delegation.OpenCircuitDelegationFails | lib/tools/delegation_tool.py:127-250 | a delegation whose target's circuit refuses makes one handshake and ends FAILED with the "Circuit breaker OPEN" text |
| Delegation.Millis | lib/tools/delegation_tool.py:141 | elapsed milliseconds, truncated toward zero |
| Delegation.FailoverFor | lib/tools/delegation_tool.py:227 | a backup exists iff the target, as given, is in the failover map |
| Delegation.DelegationTool.constructor | lib/tools/delegation_tool.py:56-75 | the tool is registered under ToolName(target) |
| Delegation.HandshakeAnswerElsewhere | lib/utils/communication.py:611-616 | a handshake's answer depends on the breaker table only through its normalised target's entry |
| Delegation.BackupOnOtherCircuit | lib/tools/delegation_tool.py:219-227 | no target shares a breaker entry with its backup |
| Delegation.BackupAnswerUnmoved | lib/tools/delegation_tool.py:227-250 | after a first handshake that changed only the target's breaker entry, the failover's answer is the one the backup's entry gave before it |
| Delegation.DelegationTool.Delegate | lib/tools/delegation_tool.py:76-303 | a dedup hit returns already_handled with the existing source, writes nothing and sends nothing; the incident id is the as-written extraction, and without one there is no dedup; otherwise the PENDING row comes before the handshake, whose answer is as Handshake states; a failover's answer is as Handshake states for the backup, at the end of the first handshake, against the breaker as it stood before the delegation; at most two handshakes are made, both with the same cid; the tool never raises |
| Delegation.DelegationTool.Proceed | lib/tools/delegation_tool.py:125-303 | the first answer is the handshake's as above; the failover's answer is as Handshake states for the backup, at the end of the first handshake, against the breaker as it stood before the first; the failover handshake happens iff the first failed with a connection-like error and a backup exists; it is made once, to the backup, with is_failover and original_target; the ledger gets the specified updates |
| Delegation.DelegationTool.LogSuccess | lib/tools/delegation_tool.py:140-169 | the COMPLETED update, with the response's telemetry |
| Delegation.DelegationTool.Handshake | lib/tools/delegation_tool.py:127-138 | one 60 s handshake under the tool's cid; the answer is the gate's OPEN message when the circuit refuses, the last send error when a CLOSED circuit's four attempts all raise, the polled completion or the 60 s timeout message with a pool, the local future or the timeout without one; the ledger is untouched and no breaker entry but the target's changes |
| Delegation.DelegationTool.Recover | lib/tools/delegation_tool.py:211-303 | at most one failover, made iff the error is connection-like and a backup exists; its answer is as Handshake states for the backup; the result is FAILOVER_SUCCESS or FAILED with the matching ledger update |
| Delegation.DelegationTool.LogRecovery | lib/tools/delegation_tool.py:253-295 | the FAILOVER_SUCCESS or FAILED ledger write |
| RateLimiter.ReadBucket | lib/utils/retry.py:74-82 | a stored bucket is read as it is; a missing or unreadable file gives a full bucket stamped now |
| RateLimiter.Refill | lib/utils/retry.py:108-112 | the refill is min(max_tokens, tokens + elapsed*rate), never above capacity |
| RateLimiter.RefillNonNegative | lib/utils/retry.py:108-112 | going forward in time from non-negative tokens, the refill is non-negative |
| RateLimiter.LockScan | lib/utils/retry.py:39-64 | an acquired lock took at least one pass |
| RateLimiter.LockScanMeans | lib/utils/retry.py:39-64 | the lock is taken at the first pass that finds no lock file within the timeout; otherwise false |
| RateLimiter.Turn | lib/utils/retry.py:97-139 | a granted turn returns 0.0; a turn that loops again sleeps longer than the lock poll |
| RateLimiter.TurnPause | lib/utils/retry.py:97-130 | a refused lock loops again after 1 s leaving the file alone; a locked turn loops again iff the refill is short of one token with a positive wait, storing the refill and pausing (1-refill)/rate + 0.1 |
| RateLimiter.TurnWithinCapacity | lib/utils/retry.py:112-128 | a turn writes at most a full bucket |
| RateLimiter.RunWithinCapacity | lib/utils/retry.py:97-140 | stored tokens never exceed capacity |
| RateLimiter.TurnNonNegative | lib/utils/retry.py:108-128 | a forward-clock turn keeps the bucket non-negative and stamps it with the turn's time |
| RateLimiter.RunNonNegative | lib/utils/retry.py:97-140 | with a forward clock and a non-negative limit, tokens never go negative |
| RateLimiter.RunSleepsPositive | lib/utils/retry.py:97-140 | pause k is the pause of turn k taken from the file the earlier turns left, each above 0.1 s; with TurnPause, that is 1 s after a refused lock and (1-refill)/rate + 0.1 after a short bucket |
| RateLimiter.RunGrantsZero | lib/utils/retry.py:132-133 | as written, a granted acquire returns 0.0, however long it waited |
| RateLimiter.TotalAbove | lib/utils/retry.py:97-140 | a sum of pauses each above 0.1 s is at least 0.1 s per pause, strictly when there is one |
| RateLimiter.RunReportingWait | lib/utils/retry.py:92-140 | the corrected acquire: same file, sleeps and outcome as the run as written; a grant carries the wait |
| RateLimiter.WaitReported | lib/utils/retry.py:92-140 | the corrected wait is 0.0 iff the acquire never slept, and at least 0.1 s per sleep |
| RateLimiter.ConsumeOneToken | lib/utils/retry.py:116-133 | a refill of at least one consumes exactly one token, persists the state and ends acquire |
| RateLimiter.RefusedLockTouchesNothing | lib/utils/retry.py:97-101 | a refused lock pauses 1 s and does not touch the state |
| RateLimiter.FileLockRateLimiter.constructor | lib/utils/retry.py:20-37 | rate = rpm/60, capacity = rpm; a full bucket is written only when there is no state file |
| RateLimiter.FileLockRateLimiter.AcquireLock | lib/utils/retry.py:39-64 | the polling loop agrees with LockScan; each refused pass removes a lock older than 5 s; the lock is held iff acquired |
| RateLimiter.FileLockRateLimiter.ReleaseLock | lib/utils/retry.py:66-72 | the lock is released and the state is unchanged |
| RateLimiter.FileLockRateLimiter.ReadState | lib/utils/retry.py:74-82 | the state is read only under the lock |
| RateLimiter.FileLockRateLimiter.WriteState | lib/utils/retry.py:84-90 | the state is written only under the lock |
| RateLimiter.FileLockRateLimiter.TakeTurn | lib/utils/retry.py:97-130 | the turn is as specified, and the lock is released on every way out |
| RateLimiter.FileLockRateLimiter.Acquire | lib/utils/retry.py:92-140 | the result, final state file and sleeps are those of Run; the lock is not held afterwards |
| RateLimiter.LimiterSingleton.constructor | lib/utils/retry.py:143-144 | there is no limiter yet |
| RateLimiter.LimiterSingleton.Get | lib/utils/retry.py:147-156 | the first call creates the limiter with its limit; later calls return the same one |
| RateLimiter.AnyIndicatorIff | lib/utils/retry.py:162-165 | the scan succeeds iff some indicator occurs, ignoring case |
| RateLimiter.RateLimitIff | lib/utils/retry.py:158-165 | is_rate_limit_error is true exactly when one of the five indicators is a case-insensitive substring |
| RateLimiter.RateLimitIgnoresCase | lib/utils/retry.py:162-165 | lower-casing the text does not change the verdict |
| RateLimiter.Status429IsRateLimit | lib/utils/retry.py:159-165 | a text containing "429" is a rate-limit error |
| RateLimiter.Delay | lib/utils/retry.py:207 | the delay min(base*2^attempt, max_delay) never exceeds the cap |
| RateLimiter.JitterWithin | lib/utils/retry.py:208-209 | the jittered delay lies in [delay, delay + delay*jitter) |
| RateLimiter.DelayMonotone | lib/utils/retry.py:207 | delays never shrink between attempts |
| RateLimiter.RetryWithBackoff | lib/utils/retry.py:168-220 | a non-rate-limit error is re-raised immediately; at most max_retries+1 attempts; the items yielded are those of the attempts made; one jittered sleep between consecutive attempts |
| RateLimiter.AttemptSessionId | lib/utils/retry.py:255 | the caller's own session id is used on attempt 0 only |
| RateLimiter.AttemptSessionIdsDistinct | lib/utils/retry.py:253-255 | no two attempts share a session id |
| RateLimiter.SessionIds | lib/utils/retry.py:253-255 | attempt k runs in session AttemptSessionId(k), in order |
| RateLimiter.CreatedIds | lib/utils/retry.py:253-265 | one session is created for each attempt after the first, named for its attempt |
| RateLimiter.JitteredDelays | lib/utils/retry.py:207-209 | sleep k is the jittered, capped delay of attempt k |
| RateLimiter.RunAsync | lib/utils/retry.py:246-303 | the same retry rule; the sessions used are SessionIds, those created are CreatedIds, and the sleeps are JitteredDelays with cap 60 and jitter 0.5 |
| Middleware.Split | lib/utils/middleware.py:35 | str.split yields at least one piece |
| Middleware.SplitPieces | lib/utils/middleware.py:35-36 | there is one more piece than separators, and no piece holds a separator |
| Middleware.BearerSplit | lib/utils/middleware.py:35-38 | "Bearer " + a token without spaces splits into exactly ["Bearer", token] |
| Middleware.Decide | lib/utils/middleware.py:13-50 | OPTIONS and agent.json paths pass; a missing or non-Bearer header gets 401 unless DISABLE_AUTH; a header that does not split into two parts gets 401 even with DISABLE_AUTH; a validation failure gets 403 unless DISABLE_AUTH; a valid token is forwarded |
| Middleware.BearerTokenIsValidated | lib/utils/middleware.py:35-50 | a well-formed bearer header reaches the validator with exactly its token, and a valid token is forwarded |
| EnvUtils.Resolve | lib/utils/env_utils.py:19-29 | a non-empty environment value wins; an empty string counts as missing and falls back to the default |
| EnvUtils.Missing | lib/utils/env_utils.py:30-31 | every missing name was required and does not resolve; input order is kept |
| EnvUtils.MissingEmptyIff | lib/utils/env_utils.py:33-34 | nothing is missing iff every required variable resolves |
| EnvUtils.WithDefaultsKeepsResolution | lib/utils/env_utils.py:24-26 | setdefault adds exactly the defaulted names that had no entry and changes no resolution |
| EnvUtils.ResolvedMeans | lib/utils/env_utils.py:18-31 | the result holds every resolvable required variable with its value, and nothing else |
| EnvUtils.SuccessCoversRequired | lib/utils/env_utils.py:18-36 | on success, the returned keys are exactly the required names |
| EnvUtils.Environment.EnsureEnvVars | lib/utils/env_utils.py:5-36 | an error iff something is missing, with the RuntimeError text listing the missing names in order; otherwise the resolved map; the defaults are written back either way |
| Executor.HandshakePromptCarries | agents/dispatch_folder/dispatch/executor.py:73-82 | the prompt names the sender, carries the payload as indented JSON and ends with the instruction |
| Executor.Classify | agents/dispatch_folder/dispatch/executor.py:60-84 | HANDSHAKE_RESULT iff the JSON is typed so; only a HANDSHAKE_REQUEST rewrites the text; any other text passes unchanged |
| Executor.RequestBecomesPrompt | agents/dispatch_folder/dispatch/executor.py:73-82 | a handshake request becomes the prompt built from its source and payload |
| Executor.Delegations | agents/dispatch_folder/dispatch/executor.py:118-127 | only the results of delegating or assigning tools are kept |
| Executor.TextAfterEmpty | agents/dispatch_folder/dispatch/executor.py:111-116 | the text stays empty only if no part had text |
| Executor.FinalTextEmptyIff | agents/dispatch_folder/dispatch/executor.py:109-116 | the final text is empty iff no part of any event had text |
| Executor.ScanEvents | agents/dispatch_folder/dispatch/executor.py:109-129 | the loop computes the last non-empty text and the delegation results |
| Executor.Section | agents/dispatch_folder/dispatch/executor.py:137-155 | a result contributes at most one line, and none when it is not a dict |
| Executor.SynthesizeShape | agents/dispatch_folder/dispatch/executor.py:136-157 | the synthesized reply opens with the header and ends with "Emergency services responding." |
| Executor.ReplyText | agents/dispatch_folder/dispatch/executor.py:131-159 | the reply is never empty: the LLM's text, else a synthesized summary (dispatch with delegation results), else the fixed apology; the IoT executor (iot_sensor/executor.py:116-119) goes straight to the apology |
| Executor.EventsShape | agents/dispatch_folder/dispatch/executor.py:86-179 | with a task id, "working" comes first and exactly one final event comes last: completed on success, failed on exception; without a task id there are no status events |
| Executor.AgentExecutor.constructor | agents/dispatch_folder/dispatch/executor.py:20-25 | no session has been created yet |
| Executor.AgentExecutor.Respond | agents/dispatch_folder/dispatch/executor.py:104-159 | the retry runner's run is as specified; the reply is non-empty; the run crashes iff the runner raised |
| Executor.AgentExecutor.Serve | agents/dispatch_folder/dispatch/executor.py:86-170 | the session is created once per context; the limiter is acquired before the LLM runs, which happens iff granted; the lock is not held afterwards |
| Executor.AgentExecutor.AfterGrant | agents/dispatch_folder/dispatch/executor.py:107-180 | a zero limit crashes the run (failed with a task id); a limiter that gives up emits nothing; a grant runs the LLM once through the retry runner, and its answer or crash gives the closing events |
| Executor.AgentExecutor.Execute | agents/dispatch_folder/dispatch/executor.py:27-182 | no parts: nothing is enqueued; HANDSHAKE_RESULT: no LLM call; a string cid gets resolve_handshake (future set if unset, pending entry removed, the row made COMPLETED with the data when a pool and loop exist); a list or object cid fails the lookup, so the task gets one failed event; otherwise the query run is served; the ledger is never touched; the IoT executor (iot_sensor/executor.py:27-139) dispatches the same way |
| Maps.Trunc | lib/tools/real_maps_tool.py:112 | int() truncates toward zero |
| Maps.LookupIn | lib/tools/real_maps_tool.py:35-85 | a cache hit answers first; a fallback hit is found and cached; not_found iff neither hits and Nominatim fails, and it is never cached |
| Maps.RouteFor | lib/tools/real_maps_tool.py:87-127 | an error iff either endpoint is not found; otherwise a route between the names as given |
| Maps.RouteStep | lib/tools/real_maps_tool.py:87-127 | a routed result runs from the origin to the destination as given |
| Maps.RoutesFrom | lib/tools/real_maps_tool.py:172-186 | one route per candidate |
| Maps.RealMapsTool.constructor | lib/tools/real_maps_tool.py:16-22 | the cache starts empty |
| Maps.RealMapsTool.LookupLocation | lib/tools/real_maps_tool.py:35-85 | the answer and the new cache are those of LookupIn |
| Maps.RealMapsTool.GetRoute | lib/tools/real_maps_tool.py:87-127 | the route and new cache are RouteStep's: both ends are looked up and cached before the guard |
| Maps.RealMapsTool.RouteEach | lib/tools/real_maps_tool.py:172-186 | the routes and the final cache are RoutesFrom's, one get_route per candidate in order; the kept candidate has the minimal duration and is the first such (strict <); nothing is kept iff no route succeeded |
| Maps.RealMapsTool.FindNearestResource | lib/tools/real_maps_tool.py:152-189 | not_found location: that error; a type with no known units: "No resources of type"; otherwise one route per unit of the type, an error iff none is routable, else the first quickest unit with its distance and ETA; the cache is the one those lookups leave |
| Pushover.AnswerDict | lib/utils/pushover.py:74-86 | 200 gives sent, another status gives failed, an exception gives error; none raises |
| Pushover.PayloadKeysInOrder | lib/utils/pushover.py:55-72 | the six fixed keys, then url/url_title when truthy, then retry/expire |
| Pushover.PayloadToken | lib/utils/pushover.py:55-56 | the API key is sent as token |
| Pushover.PayloadUser | lib/utils/pushover.py:55-57 | the user key is sent as user |
| Pushover.PayloadPriority | lib/utils/pushover.py:55-60 | the priority is sent as given |
| Pushover.PayloadEmergency | lib/utils/pushover.py:69-72 | retry=60 and expire=3600 are present iff the priority is 2 |
| Pushover.SendPushover | lib/utils/pushover.py:26-86 | without both credentials: skipped, and nothing is built or sent; otherwise the payload is posted and the answer is mapped |
| Pushover.TitleFrom | lib/utils/pushover.py:209 | the length is kept; non-letters are kept; a letter is upper-cased at the start of a word and lower-cased after a letter |
| Pushover.NotifyPublicAlert | lib/utils/pushover.py:153-165 | priority 2 iff the severity is "critical" in any case, else 1 |
| Pushover.NotifyPaBroadcast | lib/utils/pushover.py:200-213 | always priority 2 with siren, signed with the sender's name in title case |
| ToolKit.Cid | agents/dispatch_folder/dispatch/tools.py:9-10 | the context's cid, or "UNKNOWN" |
| ToolKit.Confirm | agents/dispatch_folder/dispatch/tools.py:80-98 | one message of the JSON payload to the target; a raised send becomes the failure status with the error, never an exception |
| ToolKit.ResultMessageIsTyped | agents/dispatch_folder/dispatch/tools.py:82-87 | a confirmation is a HANDSHAKE_RESULT |
| ToolKit.ResultMessageCid | agents/dispatch_folder/dispatch/tools.py:82-87 | the receiver reads back the cid the tool wrote |
| DispatchTools.FromInvolved | agents/dispatch_folder/dispatch/tools.py:41-42 | the notified list is no longer than the input and holds only mapped agent names |
| DispatchTools.FromInvolvedCount | agents/dispatch_folder/dispatch/tools.py:41-42 | one agent per known agency, so unknown agencies are dropped |
| DispatchTools.AllKnownPointwise | agents/dispatch_folder/dispatch/tools.py:41-42 | when every agency is known, entry k maps the lower-cased agency k, in order |
| DispatchTools.FromLead | agents/dispatch_folder/dispatch/tools.py:44-53 | fire first, then medical/hospital, then police, else fire |
| DispatchTools.AssignIncidentCommander | agents/dispatch_folder/dispatch/tools.py:18-68 | notified_agents equals the computed list; no broadcast iff the list is empty; the status is commander_assigned |
| DispatchTools.CommanderBroadcasts | agents/dispatch_folder/dispatch/tools.py:56-61 | a non-empty list gets exactly one broadcast, from dispatch, with the command update |
| DispatchTools.ConfirmReceipt | agents/dispatch_folder/dispatch/tools.py:72-98 | exactly one message, the JSON HANDSHAKE_RESULT with the current cid, status and message, goes from dispatch to the target verbatim; a send error becomes failed |
| DispatchTools.ConfirmReceiptCarriesCid | agents/dispatch_folder/dispatch/tools.py:82-87 | the receipt carries the current cid |
| FireTools.DeployEtaIgnoresRoute | agents/fire_chief_folder/fire_chief/tools.py:32-33 | as written, the ETA is 12 whatever the route search returns |
| FireTools.DeployEtaCounterexample | agents/fire_chief_folder/fire_chief/tools.py:32-33 | a station 3 minutes away is reported as 12 |
| FireTools.DeployEta | agents/fire_chief_folder/fire_chief/tools.py:32-33 | the corrected ETA is the route's eta_mins, and 12 when the search fails |
| FireTools.DeployUnits | agents/fire_chief_folder/fire_chief/tools.py:28-50 | as written: notifies the fire station and reports deployed with units_dispatched = count and eta_minutes 12, whatever the search found |
| FireTools.Deployment | agents/fire_chief_folder/fire_chief/tools.py:35-50 | the fire station is notified with the count and type, and the result reports deployed with that count and ETA |
| FireTools.DeployUnitsCorrected | agents/fire_chief_folder/fire_chief/tools.py:28-50 | the corrected tool: the reported ETA is the quickest station's minutes, 12 only when the search failed |
| FireTools.FireSeverity | agents/fire_chief_folder/fire_chief/tools.py:54-61 | critical iff a critical word occurs (lower-cased); medium iff not critical and smoke or flame; else low |
| FireTools.FireSeverityIgnoresCase | agents/fire_chief_folder/fire_chief/tools.py:54-61 | the severity does not depend on letter case |
| FireTools.TriggerCivicAlert | agents/fire_chief_folder/fire_chief/tools.py:65-97 | the police handshake is requested iff the civic send raised; digital_alert_sent / analog_fallback_active / critical_failure |
| FireTools.OpenCircuitCountsAsSent | agents/fire_chief_folder/fire_chief/tools.py:69-77 | a circuit_open answer does not raise, so it is reported as digital_alert_sent |
| FireTools.ConfirmIncident | agents/fire_chief_folder/fire_chief/tools.py:101-132 | exactly one message, from fire-chief-agent to the normalised target: the serialised HANDSHAKE_RESULT with the tool's cid, status and message, under that cid; a send error becomes failed |
| MedicalTools.DispatchAmbulances | agents/medical_folder/medical/tools.py:21-49 | an unresolved location is an error with no notification; otherwise the hospital is notified, with the units and an 8-minute ETA |
| MedicalTools.Triage | agents/medical_folder/medical/tools.py:53-59 | critical + serious + minor = casualty_count |
| MedicalTools.TriageShares | agents/medical_folder/medical/tools.py:53-59 | for count >= 0: 0 <= critical <= serious <= minor |
| MedicalTools.TriageOdd | agents/medical_folder/medical/tools.py:55-56 | truncation toward zero makes the split odd in the count |
| MedicalTools.PrepareMedicalResponse | agents/medical_folder/medical/tools.py:73-81 | 2 teams and 20 beds iff the severity is exactly "High", else 1 and 5 |
| MedicalTools.ConfirmSupportRequest | agents/medical_folder/medical/tools.py:85-117 | exactly one message, the JSON HANDSHAKE_RESULT with the current cid, status and details, goes to the normalised target; a send error becomes failed |
| MedicalTools.TriggerCivicAlert | agents/medical_folder/medical/tools.py:121-134 | one message to civic alert; a send error becomes status "error", not an exception |
| MedicalTools.AlertTextCarries | agents/medical_folder/medical/tools.py:124-128 | the alert carries the message, the zone and the severity |
| PoliceTools.DeploySwat | agents/police_chief_folder/police_chief/tools.py:21-41 | notifies police dispatch; swat_en_route, ETA 5 |
| PoliceTools.CordonArea | agents/police_chief_folder/police_chief/tools.py:45-60 | the cordon is established with the radius asked for |
| PoliceTools.BroadcastViaPaSystem | agents/police_chief_folder/police_chief/tools.py:64-73 | the message and location are echoed verbatim |
| PoliceTools.TriggerCivicAlert | agents/police_chief_folder/police_chief/tools.py:77-91 | one message to civic alert; a send error becomes failed |
| PoliceTools.BroadcastResult | agents/police_chief_folder/police_chief/tools.py:117-126 | broadcast_active on the three channels, with the notification's status |
| PoliceTools.EmergencyPublicBroadcast | agents/police_chief_folder/police_chief/tools.py:95-128 | a PA-broadcast notification; pushover_status is the notification's status, or "unknown" |
| PoliceTools.BroadcastReportsPushStatus | agents/police_chief_folder/police_chief/tools.py:95-128 | whatever send_pushover answers, the status is skipped, sent, failed or error |
| PoliceTools.ConfirmSupportRequest | agents/police_chief_folder/police_chief/tools.py:132-164 | exactly one message, the JSON of SupportResult (typed HANDSHAKE_RESULT, cid last), goes to the normalised target; a send failure becomes failed and is not raised |
| PoliceTools.SupportResultCarriesCid | agents/police_chief_folder/police_chief/tools.py:148-153 | typed HANDSHAKE_RESULT and carries the cid even though it is written last |
| UtilityTools.ShutdownPowerGrid | agents/utility_folder/utility/tools.py:21-41 | grid_id is "GRID-" + the upper-cased zone; affected_customers is 1500 |
| UtilityTools.CutGasSupply | agents/utility_folder/utility/tools.py:45-64 | valves_closed at 0 PSI, and the control station is notified |
| UtilityTools.RestoreWaterPressure | agents/utility_folder/utility/tools.py:68-76 | current_psi equals target_psi, 80 by default |
| UtilityTools.InfrastructureRisk | agents/utility_folder/utility/tools.py:80-101 | industrial/factory gives HIGH with two hazards; else market gives MEDIUM with one; else LOW with none |
| UtilityTools.InfrastructureRiskIgnoresCase | agents/utility_folder/utility/tools.py:86-95 | the rating does not depend on letter case |
| UtilityTools.ConfirmTask | agents/utility_folder/utility/tools.py:105-120 | exactly one message, from utility-agent to the normalised target: the serialised HANDSHAKE_RESULT with the tool's cid, status and message, under that cid; a send error becomes error |
| IntakeTools.ProcessReport | agents/human_intake_folder/human_intake/tools.py:19-32 | the raw text is echoed, with intent "emergency" |
| IntakeTools.CallId | agents/human_intake_folder/human_intake/tools.py:40 | "CALL-" + the first 8 characters of the cid (all of it when shorter) |
| IntakeTools.CallIdWithoutContext | agents/human_intake_folder/human_intake/tools.py:40 | without a cid in context the call is CALL-UNKNOWN |
| IntakeTools.LogAndRouteCall | agents/human_intake_folder/human_intake/tools.py:36-64 | the notification comes before routing; a routing error gives failed and is not raised |
| IntakeTools.CalmScript | agents/human_intake_folder/human_intake/tools.py:68-83 | "angry" first, then "crying"/"panic", else the default script (case-insensitive) |
| IntakeTools.CalmScriptIgnoresCase | agents/human_intake_folder/human_intake/tools.py:72-77 | the script does not depend on letter case |
| IntakeTools.ConfirmTask | agents/human_intake_folder/human_intake/tools.py:87-96 | target_agent is used verbatim |
| CameraTools.RiskLevel | agents/camera_folder/camera/tools.py:87 | LOW iff density <= 120, CRITICAL iff > 180 |
| CameraTools.RiskLevelMonotone | agents/camera_folder/camera/tools.py:87 | a denser crowd is never rated lower |
| CameraTools.CrowdRush | agents/camera_folder/camera/tools.py:74-89 | dangerous_conditions iff density > 120; action_required is None iff the level is LOW |
| CameraTools.BroadcastHazard | agents/camera_folder/camera/tools.py:93-107 | always broadcasts to fire chief, police chief and dispatch, and reports broadcast_sent |
| CameraTools.ConfirmTask | agents/camera_folder/camera/tools.py:111-120 | target_agent is used verbatim |

## Left out

- The transport, SDK and HTTP plumbing are not modelled. This covers httpx clients, JWT signing in `DynamicTokenAuth`, Consul, Nominatim and OSRM HTTP calls, and the Pushover POST. Each becomes a parameter that gives its answer or its exception text.
- Postgres pool creation, DDL, indexes, the 7-day purge, `get_delegation_log` and `lib/utils/postgres_task_store.py` are not modelled. The two tables are fields of `Store.Database`, and whether the pool exists is one flag.
- Concurrency is not modelled: `asyncio.gather`, futures completed by another task, event-loop scheduling, and races between processes on the lock file. Sends run one after another. The durable COMPLETED write that `resolve_handshake` schedules is applied at once.
- `RateLimiter.FileLockRateLimiter.AcquireLock`: the rule that removes a lock older than 5 s is modelled as written. Nothing is claimed about it being safe across processes.
- Sleeps and the wall clock are parameters: clock readings go in and sleep durations come out.
- Random draws are parameters: retry jitter and the camera's fire, fight and feed confidences.
- Floating point is modelled as exact reals: token-bucket arithmetic, retry delays and the triage fractions.
- `MedicalTools.Triage` uses exact multiplication by 0.2 and 0.4 instead of binary floating point. The two agree for non-negative counts below 2^50.
- The straight-line route estimate (`_estimate_route_fallback`) is kept only as a shape. Its distance uses a square-root oracle.
- `Maps.RealMapsTool.FindNearestResource` does not model the float values of `distance_km` and of the coordinates.
- `Maps.RouteFor` reports `distance_km` as the OSRM distance divided by 1000, without the rounding to one decimal that `get_route` applies (lib/tools/real_maps_tool.py:113). Python's `round` works on the binary float, which exact reals do not model.
- `UtilityTools.InfrastructureRisk` does not make the `lookup_location` call of `evaluate_infrastructure_risk` (agents/utility_folder/utility/tools.py:84). So it neither writes the shared geocode cache nor returns the `coordinates` field. The rating does not depend on that call.
- The executors' recovery of text from a Pydantic repr, and the "Status Check" text for a non-text part, are not modelled. The first part's text is an input.
- The executors' `create_session` is not modelled as something that can fail. Each run is given the LLM's events. Calls to the LLM and to telemetry are left out.
- Prompts, agent cards, FastAPI/uvicorn wiring, `main.py` files, logging, telemetry, `lib/utils/security.py`, `lib/function_tool.py` and `lib/map_tools.py` are not part of this model.
- The tools of the IoT sensor and civic alert agents are not modelled. Their results depend only on random readings, notifications and sleeps.
- These camera tools depend only on random draws and are not modelled:
  - `detect_fire`
  - `detect_fight`
  - `analyze_feed`
  - the random density of `detect_crowd_rush` (`CameraTools.CrowdRush` takes the density as input)
- `fire_map_lookup` only forwards to `lookup_location`, which `Maps.RealMapsTool.LookupLocation` models.
- `PoliceTools.DeploySwat` does not include the coordinates that the lookup dict carries, because latitude and longitude are float fields that `Json` does not have.
- `MedicalTools.DispatchAmbulances` does not include the lookup's coordinates, for the same reason.
- `PoliceTools.CordonArea` does not include the `coordinates` field (the lookup dict), for the same reason.
- `IntakeTools.ProcessReport` does not carry the confidence 0.95, because it is a float field.
- `MedicalTools.DispatchAmbulances` leaves out its `except` branch: `lookup_location` catches its own errors and returns a not_found dict (lib/tools/real_maps_tool.py:58-81), and `notify_hospital` goes through `send_pushover`, which never raises.
- `PoliceTools.CordonArea` leaves out its `except` branch: `lookup_location` catches its own errors (lib/tools/real_maps_tool.py:58-81).
- `CameraTools.BroadcastHazard` leaves out its `except` branch: `broadcast` converts every failure into an "unreachable" entry.
- `Delegation.DelegationTool.Delegate` does not model the `asyncio.TimeoutError` branch of `delegate_to_agent` (TIMEOUT status). The handshake always re-raises a timeout as a plain `Exception`, so that branch cannot be reached.
- `RateLimiter.FileLockRateLimiter.Acquire` reports the result of a limit of 0 requests per minute as a raised error. In the source that case is a division by zero.
- `Messaging.A2AClient.SendMessage` ignores the correlation-id context variable and the per-request timeout, because they do not affect any decision.
- `EnvUtils.Environment.EnsureEnvVars` does not model the logger warnings.
- `Json.ReprEscape` escapes the C0 and C1 controls, DEL, the soft hyphen and the Unicode space and line separators. Other characters that `str.isprintable` rejects (format characters, unassigned and private-use code points, surrogates) are kept raw, because the Unicode category tables are not modelled.
- `Pushover.TitleFrom` changes the case of ASCII letters only. Python's `str.title` also title-cases other letters, and some of them change length ("ß" becomes "Ss"), so "keeps the length" holds for ASCII text only.
- `Strings.Lower`, `Strings.Upper`, `Strings.LowerChar` and `Strings.UpperChar` map ASCII letters only. Python's `str.lower`/`str.upper` are Unicode-wide ("K" lowers to "k", "straße" uppers to "STRASSE").
- `IncidentId.IsWordChar` takes `\w` as [A-Za-z0-9_]. Python's `re` counts every Unicode letter and digit (such as "é") as a word character, which moves the `\b` boundaries of the fallback pattern.
- `FireTools.FireSeverity` matches its words after an ASCII-only lower-casing.
- `UtilityTools.InfrastructureRisk` matches its words after an ASCII-only lower-casing.
- `UtilityTools.ShutdownPowerGrid` builds the grid id with an ASCII-only upper-casing.
- `IntakeTools.CalmScript` matches its words after an ASCII-only lower-casing.
- `DispatchTools.FromInvolved` matches agency names after an ASCII-only lower-casing.
- `DispatchTools.FromLead` matches the lead agency after an ASCII-only lower-casing.
- `RateLimiter.RateLimitIff` matches the indicators after an ASCII-only lower-casing.
- `Delegation.IsConnectionFailure` matches its markers after an ASCII-only lower-casing.
- `Maps.LookupIn` matches the fallback table after an ASCII-only lower-casing.

## Findings

| source | as written | input that shows it | evidently intended | confidence | as-written member | corrected member |
|---|---|---|---|---|---|---|
| agents/fire_chief_folder/fire_chief/tools.py:32-33 | `deploy_units` reads `duration_minutes` from the result of `find_nearest_resource`. That result only has `eta_mins`, so the ETA is always the default 12. | `find_nearest_resource("fire_station", ...)` finds Fire Station HQ with `eta_mins` = 3. The tool's result still says `eta_minutes` = 12. | Use the route's `eta_mins`, and 12 only when the search fails | not executed | FireTools.DeployUnits (FireTools.DeployEtaAsWritten, FireTools.DeployEtaIgnoresRoute, FireTools.DeployEtaCounterexample) | FireTools.DeployUnitsCorrected (FireTools.DeployEta) |
| lib/tools/delegation_tool.py:42 | The label pattern `[Ii]ncident\s*[Ii][Dd][:=]` allows only whitespace between "incident" and "id", while the docstring (lines 33-38) lists "incident_id: ABC_123" as a form it recognises. | "incident_id: ABC_123" has no label match and no fallback match (ABC_123 has one underscore segment), so it yields None. | Accept whitespace or underscores between the two words | not executed | IncidentId.ExtractIncidentId (IncidentId.UnderscoreLabelNotMatched) | IncidentId.ExtractIncidentIdCorrected (IncidentId.UnderscoreLabelCorrected, IncidentId.CorrectedLabelExtends); `Delegation.DelegationTool.Delegate` keeps the extraction as written |
| lib/utils/retry.py:93-96 | The docstring of `acquire` says it "Returns wait time", but the granted branch returns 0.0 (lines 132-133), even after sleeping. | A run whose first turn finds an empty bucket sleeps (1-refill)/rate + 0.1 s and then is granted; it returns 0.0. | Return the total time slept | not executed | RateLimiter.RunGrantsZero | RateLimiter.RunReportingWait (RateLimiter.WaitReported); no other member reads the wait |
