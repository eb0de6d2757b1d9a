// The receive side of an agent: the executor that turns one incoming A2A message into events.
// A handshake result is handed to the messaging client and nothing else happens; a handshake
// request is rewritten into a prompt; any other text is the prompt. Then the session is created
// once per context, the shared rate limiter is acquired, the LLM runs under the rate-limit retry
// runner, and the reply (or a substitute for an empty one) is sent, closed by one final task event.
// The dispatch agent and the IoT sensor agent run the same executor; only the dispatch agent
// synthesizes a reply from delegation results when the LLM says nothing.
module Executor {
  import opened Wrappers
  import opened Strings
  import opened Json
  import Messaging
  import RateLimiter
  import Store

  datatype AgentKind = DispatchAgent | IotSensorAgent

  /** A tool result the LLM saw: the tool's name and the dict it returned. */
  datatype FnResponse = FnResponse(name: string, response: Json)

  /** One part of an LLM event: its text ("" when it has none) and its function response, if any. */
  datatype Part = Part(text: string, fn: Option<FnResponse>)

  /** One event of the LLM run; an event without content has no parts. */
  datatype LlmEvent = LlmEvent(parts: seq<Part>)

  /** What the executor puts on the event queue: task status updates and the agent's text. */
  datatype Event = Working | AgentText(text: string, contextId: string) | Completed | Failed

  /** What the first part of a message asks for. */
  datatype Inbound = HandshakeResult(cid: Json, data: Json) | Query(text: string)

  /** How a query run ended: a reply, an exception, or still waiting on the limiter when the
      modelled lock rounds ran out. */
  datatype Finish = Answer(text: string) | Crash | Stall

  /** The LLM run as the executor saw it: the prompt, how many attempts the retry runner made and
      the error it finally raised, if any. */
  datatype LlmRun = LlmRun(prompt: string, attempts: nat, raised: Option<string>)

  /** The retry runner's defaults. */
  const MaxRetries: int := 5
  const BaseDelay: real := 2.0

  const DispatchInstruction: string :=
    "INSTRUCTION: Execute the necessary action immediately. "
    + "Then, you MUST call your confirmation tool (e.g., 'confirm_receipt' or 'confirm_incident') "
    + "to notify the sender."
  const IotInstruction: string :=
    "INSTRUCTION: Execute the requested action immediately (e.g., read_sensor_data, broadcast_anomaly). "
    + "Then, you MUST call a confirmation tool if available."

  function Instruction(agent: AgentKind): string {
    if agent == DispatchAgent then DispatchInstruction else IotInstruction
  }

  /** The JSON message is a dict whose "type" is `t`. */
  predicate Typed(parsed: Option<Json>, t: string) {
    parsed.Some? && Get(parsed.value, "type") == Some(Str(t))
  }

  /** The prompt a handshake request becomes: the sender, the payload as json.dumps(indent=2), and
      the agent's instruction. */
  function HandshakePrompt(source: Json, payload: Json, instruction: string): string {
    "SYSTEM ALERT: Incoming Priority Request from " + ToStr(source) + ".\n"
    + "DATA: " + DumpsIndented(payload, 0) + "\n" + instruction
  }

  /** The prompt names the sender, carries the payload verbatim and ends with the instruction. */
  lemma HandshakePromptCarries(source: Json, payload: Json, instruction: string)
    ensures var p := HandshakePrompt(source, payload, instruction);
      Contains(p, ToStr(source)) && Contains(p, DumpsIndented(payload, 0)) && EndsWith(p, instruction)
  {
    var head := "SYSTEM ALERT: Incoming Priority Request from ";
    var s, d := ToStr(source), DumpsIndented(payload, 0);
    var mid := ".\n" + "DATA: ";
    var tail := "\n" + instruction;
    var p := HandshakePrompt(source, payload, instruction);
    assert p == head + s + (mid + d + tail);
    ContainsInfix(head, s, mid + d + tail);
    assert p == (head + s + mid) + d + tail;
    ContainsInfix(head + s + mid, d, tail);
    assert p == (head + s + mid + d + "\n") + instruction;
  }

  /** Reading the first part: a handshake result, a handshake request turned into a prompt, or the
      text itself (also for text that is not JSON, or JSON that is not a dict). */
  function Classify(query: string, parsed: Option<Json>, agent: AgentKind): (m: Inbound)
    ensures m.HandshakeResult? <==> Typed(parsed, "HANDSHAKE_RESULT")
    ensures m.HandshakeResult? ==> m.data == parsed.value
    ensures m.Query? && m.text != query ==> Typed(parsed, "HANDSHAKE_REQUEST")
    ensures !Typed(parsed, "HANDSHAKE_RESULT") && !Typed(parsed, "HANDSHAKE_REQUEST") ==> m == Query(query)
  {
    if Typed(parsed, "HANDSHAKE_RESULT") then
      HandshakeResult(GetOr(parsed.value, "correlation_id", Null), parsed.value)
    else if Typed(parsed, "HANDSHAKE_REQUEST") then
      var data := parsed.value;
      Query(HandshakePrompt(GetOr(data, "source", Str("Unknown")), GetOr(data, "payload", Obj([])), Instruction(agent)))
    else Query(query)
  }

  /** A handshake request's prompt carries its sender and payload. */
  lemma RequestBecomesPrompt(query: string, parsed: Option<Json>, agent: AgentKind)
    requires Typed(parsed, "HANDSHAKE_REQUEST")
    ensures var m := Classify(query, parsed, agent);
      m.Query? && EndsWith(m.text, Instruction(agent))
      && Contains(m.text, DumpsIndented(GetOr(parsed.value, "payload", Obj([])), 0))
  {
    HandshakePromptCarries(GetOr(parsed.value, "source", Str("Unknown")), GetOr(parsed.value, "payload", Obj([])), Instruction(agent));
  }

  // ---- scanning the LLM events ----------------------------------------------------

  /** The text left after the parts overwrite `current`: the last non-empty text among them. */
  function TextAfter(parts: seq<Part>, current: string): string
    decreases |parts|
  {
    if |parts| == 0 then current
    else if parts[|parts| - 1].text != "" then parts[|parts| - 1].text
    else TextAfter(parts[..|parts| - 1], current)
  }

  /** `final_text` after the whole run. */
  function FinalText(events: seq<LlmEvent>): string
    decreases |events|
  {
    if |events| == 0 then "" else TextAfter(events[|events| - 1].parts, FinalText(events[..|events| - 1]))
  }

  predicate IsDelegation(name: string) {
    Contains(name, "delegate") || Contains(name, "assign")
  }

  /** The function responses of delegating or assigning tools, in order. */
  function DelegationsIn(parts: seq<Part>): (ds: seq<FnResponse>)
    ensures forall k :: 0 <= k < |ds| ==> IsDelegation(ds[k].name)
    decreases |parts|
  {
    if |parts| == 0 then []
    else
      var p := parts[|parts| - 1];
      DelegationsIn(parts[..|parts| - 1]) + (if p.fn.Some? && IsDelegation(p.fn.value.name) then [p.fn.value] else [])
  }

  /** `delegation_results` after the whole run: only delegating or assigning tools are kept. */
  function Delegations(events: seq<LlmEvent>): (ds: seq<FnResponse>)
    ensures forall k :: 0 <= k < |ds| ==> IsDelegation(ds[k].name)
    decreases |events|
  {
    if |events| == 0 then [] else Delegations(events[..|events| - 1]) + DelegationsIn(events[|events| - 1].parts)
  }

  /** The texts are overwritten only by non-empty ones, so the result is empty only if every
      part's text was. */
  lemma {:induction false} TextAfterEmpty(parts: seq<Part>, current: string)
    ensures TextAfter(parts, current) == "" <==>
      current == "" && forall j :: 0 <= j < |parts| ==> parts[j].text == ""
    decreases |parts|
  {
    if |parts| > 0 {
      var init := parts[..|parts| - 1];
      TextAfterEmpty(init, current);
      assert forall j :: 0 <= j < |init| ==> init[j] == parts[j];
    }
  }

  /** The final text is empty exactly when no part of any event had text. */
  lemma {:induction false} FinalTextEmptyIff(events: seq<LlmEvent>)
    ensures FinalText(events) == "" <==>
      forall i, j :: 0 <= i < |events| && 0 <= j < |events[i].parts| ==> events[i].parts[j].text == ""
    decreases |events|
  {
    if |events| > 0 {
      var init := events[..|events| - 1];
      FinalTextEmptyIff(init);
      TextAfterEmpty(events[|events| - 1].parts, FinalText(init));
      assert forall i :: 0 <= i < |init| ==> init[i] == events[i];
    }
  }

  /** The loop over the events and their parts, as the executor runs it. */
  method ScanEvents(events: seq<LlmEvent>) returns (finalText: string, delegations: seq<FnResponse>)
    ensures finalText == FinalText(events) && delegations == Delegations(events)
  {
    finalText, delegations := "", [];
    var i := 0;
    while i < |events|
      invariant 0 <= i <= |events|
      invariant finalText == FinalText(events[..i]) && delegations == Delegations(events[..i])
    {
      var parts := events[i].parts;
      ghost var start, before := finalText, delegations;
      var j := 0;
      while j < |parts|
        invariant 0 <= j <= |parts|
        invariant finalText == TextAfter(parts[..j], start)
        invariant delegations == before + DelegationsIn(parts[..j])
      {
        var part := parts[j];
        assert parts[..j + 1][..j] == parts[..j];
        if part.text != "" {
          finalText := part.text;
        }
        if part.fn.Some? && IsDelegation(part.fn.value.name) {
          delegations := delegations + [part.fn.value];
        }
        j := j + 1;
      }
      assert parts[..j] == parts;
      assert events[..i + 1][..i] == events[..i];
      i := i + 1;
    }
    assert events[..i] == events;
  }

  // ---- the reply --------------------------------------------------------------------

  const Header: string := "\U{11F}\U{178}\U{201C} **Dispatch Response:**\n"
  const Footer: string := "\n\n\U{E2}\U{153}\U{2026} Emergency services responding."
  const Apology: string :=
    "I acknowledge your request but was unable to generate a complete response. Please retry or contact a human operator."

  /** The line a delegation result contributes, chosen by the first agency its tool name mentions;
      a result that is not a dict, or names none of them, contributes nothing. */
  function Section(d: FnResponse): (lines: seq<string>)
    ensures |lines| <= 1
    ensures !d.response.Obj? ==> lines == []
  {
    if !d.response.Obj? then []
    else
      var r := d.response;
      var status := GetOr(r, "status", Str("unknown"));
      var target := ToStr(GetOr(r, "delegated_to", GetOr(r, "notified_agents", Str(""))));
      var body := ToStr(Or(GetOr(r, "response", GetOr(r, "message", Str(""))), status));
      var tool := Lower(d.name);
      if Contains(tool, "fire") then
        ["\n\U{11F}\U{178}\U{201D}\U{A5} **Fire Response** (via " + target + "):\n" + body]
      else if Contains(tool, "medical") then
        ["\n\U{11F}\U{178}\U{A5} **Medical Response** (via " + target + "):\n" + body]
      else if Contains(tool, "police") then
        ["\n\U{11F}\U{178}\U{161}\U{201D} **Police Response** (via " + target + "):\n" + body]
      else if Contains(tool, "utility") then
        ["\n\U{E2}\U{161}\U{A1} **Utility Response** (via " + target + "):\n" + body]
      else if Contains(tool, "commander") then
        ["\n\U{11F}\U{178}\U{2018}\U{A8}\U{E2}\U{20AC}\U{E2}\U{153}\U{2C6}\U{EF}\U{B8} **Incident Commander:** "
         + ToStr(GetOr(r, "lead_agency", Str("")))]
      else []
  }

  function Sections(ds: seq<FnResponse>): (lines: seq<string>)
    ensures |lines| <= |ds|
    decreases |ds|
  {
    if |ds| == 0 then [] else Sections(ds[..|ds| - 1]) + Section(ds[|ds| - 1])
  }

  /** The synthesized reply: the header, one line per recognised result, and the closing line. */
  function Synthesize(ds: seq<FnResponse>): string {
    Join("\n", [Header] + Sections(ds)) + Footer
  }

  lemma JoinStartsWith(sep: string, head: string, rest: seq<string>)
    ensures StartsWith(Join(sep, [head] + rest), head)
  {
    var parts := [head] + rest;
    if |rest| > 0 {
      assert parts[1..] == rest;
      assert Join(sep, parts) == head + sep + Join(sep, rest);
    }
  }

  /** The synthesized reply opens with the header and closes with the "responding" line. */
  lemma SynthesizeShape(ds: seq<FnResponse>)
    ensures StartsWith(Synthesize(ds), Header) && EndsWith(Synthesize(ds), Footer)
  {
    var j := Join("\n", [Header] + Sections(ds));
    JoinStartsWith("\n", Header, Sections(ds));
    assert (j + Footer)[..|Header|] == j[..|Header|];
    assert (j + Footer)[|j + Footer| - |Footer|..] == Footer;
  }

  /** The text the executor sends: the LLM's final text, else (dispatch with delegation results)
      the synthesized summary, else the fixed apology. It is never empty. */
  function ReplyText(agent: AgentKind, finalText: string, ds: seq<FnResponse>): (r: string)
    ensures r != ""
    ensures finalText != "" ==> r == finalText
    ensures finalText == "" && agent == DispatchAgent && |ds| > 0 ==> StartsWith(r, Header) && EndsWith(r, Footer)
    ensures finalText == "" && (agent == IotSensorAgent || ds == []) ==> r == Apology
  {
    if finalText != "" then finalText
    else if agent == DispatchAgent && |ds| > 0 then
      SynthesizeShape(ds);
      Synthesize(ds)
    else Apology
  }

  // ---- the event queue ------------------------------------------------------------

  predicate IsFinal(e: Event) {
    e.Completed? || e.Failed?
  }

  /** The events a query run puts on the queue: "working" when there is a task, then the reply and
      "completed", or "failed" alone; a stalled run has only its opening event. */
  function EventsOf(taskId: Option<string>, contextId: string, f: Finish): seq<Event> {
    (if taskId.Some? then [Working] else []) + Closing(taskId, contextId, f)
  }

  /** The events a run emits after the working event. */
  function Closing(taskId: Option<string>, contextId: string, f: Finish): seq<Event> {
    match f
    case Answer(t) => [AgentText(t, contextId)] + (if taskId.Some? then [Completed] else [])
    case Crash => if taskId.Some? then [Failed] else []
    case Stall => []
  }

  /** With a task id a finished run emits exactly one final event and it is the last; without one
      it emits no status event at all. An answer is sent exactly once. */
  lemma EventsShape(taskId: Option<string>, contextId: string, f: Finish)
    ensures var es := EventsOf(taskId, contextId, f);
      (taskId.Some? && !f.Stall? ==>
        |es| >= 2 && es[0] == Working && IsFinal(es[|es| - 1])
        && (es[|es| - 1] == Completed <==> f.Answer?)
        && forall k :: 0 <= k < |es| - 1 ==> !IsFinal(es[k]))
      && (taskId.None? ==> forall k :: 0 <= k < |es| ==> es[k].AgentText?)
      && (f.Answer? ==> exists k :: 0 <= k < |es| && es[k] == AgentText(f.text, contextId))
      && (!f.Answer? ==> forall k :: 0 <= k < |es| ==> !es[k].AgentText?)
  {
    var es := EventsOf(taskId, contextId, f);
    if f.Answer? {
      var k := if taskId.Some? then 1 else 0;
      assert es[k] == AgentText(f.text, contextId);
    }
  }

  /** What a completed LLM run sends: the reply to what the attempts yielded, or nothing when
      the runner raised. */
  ghost function AnswerOf(agent: AgentKind, llm: nat -> RateLimiter.GenRun<LlmEvent>, run: LlmRun): Finish {
    if run.raised.Some? then Crash
    else
      var out := RateLimiter.Yielded(llm, run.attempts);
      Answer(ReplyText(agent, FinalText(out), Delegations(out)))
  }

  /** How a query run finishes, from the limiter's grant and the LLM run. */
  ghost function FinishOf(agent: AgentKind, grant: RateLimiter.Grant, llm: nat -> RateLimiter.GenRun<LlmEvent>, run: LlmRun): Finish {
    match grant
    case DivisionByZero => Crash
    case OutOfRounds => Stall
    case Granted(_) => AnswerOf(agent, llm, run)
  }

  /** `DispatchExecutor` and `IotSensorAgentExecutor`. */
  class AgentExecutor {
    const agent: AgentKind
    const a2a: Messaging.A2AClient
    const limiter: RateLimiter.FileLockRateLimiter
    /** `created_sessions`. */
    var createdSessions: set<string>

    constructor (agent: AgentKind, a2a: Messaging.A2AClient, limiter: RateLimiter.FileLockRateLimiter)
      ensures this.agent == agent && this.a2a == a2a && this.limiter == limiter
      ensures createdSessions == {}
    {
      this.agent := agent;
      this.a2a := a2a;
      this.limiter := limiter;
      createdSessions := {};
    }

    /** The LLM part of `execute`: the retry runner on the context's session, then the reply
        built from what the events said. */
    method Respond(prompt: string, contextId: string, llm: nat -> RateLimiter.GenRun<LlmEvent>, random: nat -> real)
      returns (finish: Finish, retried: seq<string>, run: LlmRun)
      ensures run.prompt == prompt
      ensures RateLimiter.RetriedByRule(llm, MaxRetries, run.raised, run.attempts)
      ensures retried == RateLimiter.CreatedIds(contextId, run.attempts)
      ensures finish == AnswerOf(agent, llm, run)
      ensures finish.Crash? <==> run.raised.Some?
      ensures finish.Answer? ==> finish.text != ""
    {
      var out, raised, sessions, created, _ := RateLimiter.RunAsync(llm, MaxRetries, BaseDelay, contextId, random);
      run := LlmRun(prompt, |sessions|, raised);
      retried := created;
      if raised.Some? {
        return Crash, retried, run;
      }
      var finalText, delegations := ScanEvents(out);
      var reply := if finalText != "" then finalText
        else if agent == DispatchAgent && |delegations| > 0 then Synthesize(delegations)
        else Apology;
      finish := Answer(reply);
    }

    /** A query from its prompt on: the working event, the session once per context, the
        limiter, then the rest as AfterGrant runs it. */
    method Serve(prompt: string, contextId: string, taskId: Option<string>, rounds: seq<RateLimiter.Round>,
                 llm: nat -> RateLimiter.GenRun<LlmEvent>, random: nat -> real)
      returns (events: seq<Event>, created: seq<string>, grant: RateLimiter.Grant, run: Option<LlmRun>)
      requires !limiter.holding && forall i :: 0 <= i < |rounds| ==> RateLimiter.Ticking(rounds[i].polls)
      modifies this, limiter
      ensures !limiter.holding
      ensures createdSessions == old(createdSessions) + {contextId}
      ensures RateLimiter.Run(limiter.rate, limiter.maxTokens, old(limiter.stateFile), rounds).grant == grant
      ensures RateLimiter.Run(limiter.rate, limiter.maxTokens, old(limiter.stateFile), rounds).file == limiter.stateFile
      ensures run.Some? <==> grant.Granted?
      ensures var first := if contextId in old(createdSessions) then [] else [contextId];
        run.None? ==> created == first && events == EventsOf(taskId, contextId, FinishOf(agent, grant, llm, LlmRun(prompt, 0, None)))
      ensures var first := if contextId in old(createdSessions) then [] else [contextId];
        run.Some? ==>
              run.value.prompt == prompt
              && RateLimiter.RetriedByRule(llm, MaxRetries, run.value.raised, run.value.attempts)
              && created == first + RateLimiter.CreatedIds(contextId, run.value.attempts)
              && events == EventsOf(taskId, contextId, FinishOf(agent, grant, llm, run.value))
    {
      events, created := [], [];
      if taskId.Some? {
        events := events + [Working];
      }
      if contextId !in createdSessions {
        created := created + [contextId];
        createdSessions := createdSessions + {contextId};
      }
      var sleeps;
      grant, sleeps := limiter.Acquire(rounds);
      var tail, retried;
      tail, retried, run := AfterGrant(prompt, contextId, taskId, grant, llm, random);
      events, created := events + tail, created + retried;
    }

    /** What follows the limiter's answer: a failed event when the limit is zero, nothing when the
        limiter gave up, otherwise the LLM run and its answer or failure. */
    method AfterGrant(prompt: string, contextId: string, taskId: Option<string>, grant: RateLimiter.Grant,
                      llm: nat -> RateLimiter.GenRun<LlmEvent>, random: nat -> real)
      returns (tail: seq<Event>, retried: seq<string>, run: Option<LlmRun>)
      ensures run.Some? <==> grant.Granted?
      ensures run.None? ==> retried == [] && tail == Closing(taskId, contextId, FinishOf(agent, grant, llm, LlmRun(prompt, 0, None)))
      ensures run.Some? ==>
        run.value.prompt == prompt
        && RateLimiter.RetriedByRule(llm, MaxRetries, run.value.raised, run.value.attempts)
        && retried == RateLimiter.CreatedIds(contextId, run.value.attempts)
        && tail == Closing(taskId, contextId, FinishOf(agent, grant, llm, run.value))
    {
      tail, retried, run := [], [], None;
      if grant.DivisionByZero? {
        if taskId.Some? {
          tail := tail + [Failed];
        }
        return;
      }
      if grant.OutOfRounds? {
        return;
      }
      var finish, r;
      finish, retried, r := Respond(prompt, contextId, llm, random);
      run := Some(r);
      if finish.Answer? {
        tail := tail + [AgentText(finish.text, contextId)];
        if taskId.Some? {
          tail := tail + [Completed];
        }
      } else if taskId.Some? {
        tail := tail + [Failed];
      }
    }

    /** `execute`. `parts` are the texts of the message's parts, `parse` is json.loads (None for
        text that is not JSON), `rounds` drive the rate limiter, `llm` answers the runner's attempts. */
    method Execute(parts: seq<string>, parse: string -> Option<Json>, contextId: string, taskId: Option<string>,
                   hasLoop: bool, rounds: seq<RateLimiter.Round>, llm: nat -> RateLimiter.GenRun<LlmEvent>,
                   random: nat -> real)
      returns (events: seq<Event>, created: seq<string>, grant: Option<RateLimiter.Grant>, run: Option<LlmRun>)
      requires !limiter.holding && forall i :: 0 <= i < |rounds| ==> RateLimiter.Ticking(rounds[i].polls)
      modifies this, a2a, a2a.db, a2a.pending.Values, limiter
      ensures !limiter.holding
      // a message with no parts is dropped
      ensures |parts| == 0 ==>
        events == [] && created == [] && grant.None? && run.None?
        && createdSessions == old(createdSessions) && a2a.pending == old(a2a.pending)
        && limiter.stateFile == old(limiter.stateFile)
      // the handshake table and the ledger change only when a handshake result is resolved
      ensures a2a.db.available == old(a2a.db.available) && a2a.db.logs == old(a2a.db.logs)
      ensures (|parts| == 0 || !Classify(parts[0], parse(parts[0]), agent).HandshakeResult?) ==>
        a2a.db.handshakes == old(a2a.db.handshakes)
      // a handshake result goes to the client and nowhere else; a correlation id that is a list or
      // a dict makes the pending-map lookup raise, and the task fails
      ensures |parts| > 0 && Classify(parts[0], parse(parts[0]), agent).HandshakeResult? ==>
        var m := Classify(parts[0], parse(parts[0]), agent);
        events == (if (m.cid.Arr? || m.cid.Obj?) && taskId.Some? then [Failed] else [])
        && created == [] && grant.None? && run.None?
        && createdSessions == old(createdSessions) && limiter.stateFile == old(limiter.stateFile)
        && a2a.pending == (if m.cid.Str? then old(a2a.pending) - {m.cid.s} else old(a2a.pending))
        && a2a.db.handshakes == (if m.cid.Str? && hasLoop && old(a2a.db.available) && m.cid.s in old(a2a.db.handshakes)
             then old(a2a.db.handshakes)[m.cid.s := Store.HandshakeRow(Store.HsCompleted, Some(m.data))] else old(a2a.db.handshakes))
        && (m.cid.Str? && m.cid.s in old(a2a.pending) && old(a2a.pending[m.cid.s].result).None? ==>
              old(a2a.pending)[m.cid.s].result == Some(m.data))
      // a query: the session once per context, the limiter, then the LLM on the query's prompt
      ensures |parts| > 0 && Classify(parts[0], parse(parts[0]), agent).Query? ==>
        var m := Classify(parts[0], parse(parts[0]), agent);
        createdSessions == old(createdSessions) + {contextId}
        && a2a.pending == old(a2a.pending)
        && grant.Some?
        && RateLimiter.Run(limiter.rate, limiter.maxTokens, old(limiter.stateFile), rounds).grant == grant.value
        && RateLimiter.Run(limiter.rate, limiter.maxTokens, old(limiter.stateFile), rounds).file == limiter.stateFile
        && (run.Some? <==> grant.value.Granted?)
        && (run.Some? ==>
              run.value.prompt == m.text && events == EventsOf(taskId, contextId, FinishOf(agent, grant.value, llm, run.value)))
        && (run.None? ==> events == EventsOf(taskId, contextId, if grant.value.DivisionByZero? then Crash else Stall))
    {
      events, created, grant, run := [], [], None, None;
      if |parts| == 0 {
        return;
      }
      var query := parts[0];
      var m := Classify(query, parse(query), agent);
      if m.HandshakeResult? {
        if m.cid.Str? {
          assert m.cid.s in a2a.pending ==> a2a.pending[m.cid.s] in a2a.pending.Values;
          a2a.ResolveHandshake(m.cid.s, m.data, hasLoop);
        } else if (m.cid.Arr? || m.cid.Obj?) && taskId.Some? {
          events := [Failed];
        }
        return;
      }
      var g;
      events, created, g, run := Serve(m.text, contextId, taskId, rounds, llm, random);
      grant := Some(g);
    }
  }
}
