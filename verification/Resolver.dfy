/** The tool-calling loop of one ticket (agents/resolver.py). */
module Resolver {
  import opened Schemas
  import opened Audit
  import opened Reals

  const MAX_ITER := 12

  /** A proposed call; arguments that do not parse are the empty map. */
  datatype ToolCall = ToolCall(id: string, tool: Tool, args: Args)

  datatype Reply = Raised | Silent | Calls(calls: seq<ToolCall>)

  datatype Message =
    | SystemPrompt
    | TicketPrompt
    | AssistantText
    | Nudge
    | AssistantCalls(calls: seq<ToolCall>)
    | ToolAnswer(id: string, result: ToolResult)

  /** Any model: what it answers to a conversation. */
  type Llm = seq<Message> -> Reply

  datatype Answer = Answer(result: ToolResult, decision: Decision)

  /** What guard() answers to the next call after a given trail, whatever other tickets did meanwhile. */
  type Gate = (seq<TrailEntry>, ToolCall) -> Answer

  predicate IsTerminal(tool: Tool) {
    tool == SendReply || tool == Escalate
  }

  /** The local variables of the loop. */
  datatype Loop = Loop(
    messages: seq<Message>, trail: seq<TrailEntry>, blocked: seq<Decision>,
    calls: nat, errors: nat, terminal: bool, rounds: nat)

  const START := Loop([SystemPrompt, TicketPrompt], [], [], 0, 0, false, 0)

  function OneCall(gate: Gate, s: Loop, tc: ToolCall): Loop {
    var answer := gate(s.trail, tc);
    Loop(s.messages + [ToolAnswer(tc.id, answer.result)],
         s.trail + [Called(AuditEntry(tc.tool, tc.args, answer.result, answer.decision))],
         if answer.decision.verdict != Allow then s.blocked + [answer.decision] else s.blocked,
         s.calls + 1,
         if IsError(answer.result) then s.errors + 1 else s.errors,
         s.terminal || (IsTerminal(tc.tool) && answer.decision.verdict == Allow),
         s.rounds)
  }

  function AllCalls(gate: Gate, s: Loop, tcs: seq<ToolCall>): Loop
    decreases |tcs|
  {
    if tcs == [] then s else AllCalls(gate, OneCall(gate, s, tcs[0]), tcs[1..])
  }

  /** One turn of the loop, and whether it breaks out. A reply without tool calls is answered with a
      nudge while fewer than three calls were made. */
  function OneRound(llm: Llm, gate: Gate, s: Loop): (Loop, bool) {
    var asked, reply := s.(rounds := s.rounds + 1), llm(s.messages);
    if reply.Raised? then (asked.(trail := s.trail + [LlmError], errors := s.errors + 1), true)
    else if reply.Silent? || reply.calls == [] then
      if !s.terminal && s.calls < 3 then (asked.(messages := s.messages + [AssistantText, Nudge]), false)
      else (asked, true)
    else
      var acted := AllCalls(gate, asked.(messages := s.messages + [AssistantCalls(reply.calls)]), reply.calls);
      (acted, acted.terminal)
  }

  /** The loop with `left` turns to go. */
  function Rounds(llm: Llm, gate: Gate, s: Loop, left: nat): Loop
    decreases left
  {
    if left == 0 then s
    else
      var (next, stop) := OneRound(llm, gate, s);
      if stop then next else Rounds(llm, gate, next, left - 1)
  }

  datatype Status = Resolved | Escalated | Incomplete

  predicate Finished(e: TrailEntry, tool: Tool) {
    e.Called? && e.entry.tool == tool && e.entry.result.error.None?
  }

  function StatusOf(trail: seq<TrailEntry>): Status {
    if exists i :: 0 <= i < |trail| && Finished(trail[i], Escalate) then Escalated
    else if exists i :: 0 <= i < |trail| && Finished(trail[i], SendReply) then Resolved
    else Incomplete
  }

  // ── self-assessed confidence ──

  /** round(x, 3) on a real: to the nearest thousandth, ties to the even one. */
  function RoundToInt(y: real): int {
    var f := y.Floor;
    if y - f as real < 0.5 then f
    else if y - f as real > 0.5 then f + 1
    else if f % 2 == 0 then f else f + 1
  }

  function Round3(x: real): real {
    RoundToInt(x * 1000.0) as real / 1000.0
  }

  /** Penalised by the share of failed calls. */
  function Clean(x: real, calls: nat, errors: nat): real {
    if calls > 0 then x * (1.0 - 0.5 * (errors as real / calls as real)) else x
  }

  function RawConfidence(base: real, terminal: bool, calls: nat, errors: nat, blocks: nat): real {
    var reached := if terminal then base else base * 0.5;
    var clean := Clean(reached, calls, errors);
    if blocks > 0 then clean * 0.7 else clean
  }

  function SelfConfidence(base: real, terminal: bool, calls: nat, errors: nat, blocks: nat): real {
    Round3(Max(0.05, Min(0.99, RawConfidence(base, terminal, calls, errors, blocks))))
  }

  datatype Resolution = Resolution(
    status: Status, toolCalls: nat, trail: seq<TrailEntry>, blocked: seq<Decision>, selfConfidence: real)

  function ResolutionOf(confidence: real, s: Loop): Resolution {
    Resolution(StatusOf(s.trail), s.calls, s.trail, s.blocked,
               SelfConfidence(confidence, s.terminal, s.calls, s.errors, |s.blocked|))
  }

  method Confidence(base: real, terminal: bool, calls: nat, errors: nat, blocks: nat) returns (conf: real)
    ensures conf == SelfConfidence(base, terminal, calls, errors, blocks)
  {
    conf := base;
    if !terminal {
      conf := conf * 0.5;
    }
    assert conf == if terminal then base else base * 0.5;
    if calls > 0 {
      conf := conf * (1.0 - 0.5 * (errors as real / calls as real));
    }
    if blocks > 0 {
      conf := conf * 0.7;
    }
    assert conf == RawConfidence(base, terminal, calls, errors, blocks);
    conf := Round3(Max(0.05, Min(0.99, conf)));
  }

  /** Which terminal tools went through, and what that makes of the ticket. */
  method FinalStatus(trail: seq<TrailEntry>) returns (status: Status)
    ensures status == StatusOf(trail)
  {
    var resolved, escalated := false, false;
    for i := 0 to |trail|
      invariant resolved <==> exists k :: 0 <= k < i && Finished(trail[k], SendReply)
      invariant escalated <==> exists k :: 0 <= k < i && Finished(trail[k], Escalate)
    {
      if trail[i].Called? && trail[i].entry.result.error.None? {
        resolved := resolved || trail[i].entry.tool == SendReply;
        escalated := escalated || trail[i].entry.tool == Escalate;
      }
    }
    status := if escalated then Escalated else if resolved then Resolved else Incomplete;
  }

  /** The inner loop over the proposed calls of one reply. */
  method RunCalls(gate: Gate, start: Loop, tcs: seq<ToolCall>) returns (s: Loop)
    ensures s == AllCalls(gate, start, tcs)
  {
    s := start;
    for i := 0 to |tcs|
      invariant AllCalls(gate, start, tcs) == AllCalls(gate, s, tcs[i..])
    {
      assert tcs[i..][1..] == tcs[i + 1..];
      var tc := tcs[i];
      ghost var next := OneCall(gate, s, tc);
      assert AllCalls(gate, s, tcs[i..]) == AllCalls(gate, next, tcs[i + 1..]);
      var answer := gate(s.trail, tc);
      s := s.(calls := s.calls + 1);
      var ok := !IsError(answer.result);
      if !ok {
        s := s.(errors := s.errors + 1);
      }
      if answer.decision.verdict != Allow {
        s := s.(blocked := s.blocked + [answer.decision]);
      }
      s := s.(trail := s.trail + [Called(AuditEntry(tc.tool, tc.args, answer.result, answer.decision))]);
      s := s.(messages := s.messages + [ToolAnswer(tc.id, answer.result)]);
      if IsTerminal(tc.tool) && answer.decision.verdict == Allow {
        s := s.(terminal := true);
      }
      assert s == next;
    }
  }

  method RunRound(llm: Llm, gate: Gate, start: Loop) returns (s: Loop, stop: bool)
    ensures (s, stop) == OneRound(llm, gate, start)
  {
    s, stop := start.(rounds := start.rounds + 1), false;
    var reply := llm(s.messages);
    if reply == Raised {
      s := s.(trail := s.trail + [LlmError]);
      s := s.(errors := s.errors + 1);
      return s, true;
    }
    if reply == Silent || reply.calls == [] {
      if !s.terminal && s.calls < 3 {
        s := s.(messages := s.messages + [AssistantText]);
        s := s.(messages := s.messages + [Nudge]);
        assert s.messages == start.messages + [AssistantText, Nudge];
        return;
      }
      return s, true;
    }
    s := s.(messages := s.messages + [AssistantCalls(reply.calls)]);
    s := RunCalls(gate, s, reply.calls);
    stop := s.terminal;
  }

  method Run(confidence: real, llm: Llm, gate: Gate) returns (res: Resolution)
    ensures res == ResolutionOf(confidence, Rounds(llm, gate, START, MAX_ITER))
  {
    hide OneRound, SelfConfidence, StatusOf;
    var s, stop := START, false;
    var i := 0;
    while i < MAX_ITER && !stop
      invariant 0 <= i <= MAX_ITER
      invariant Rounds(llm, gate, START, MAX_ITER) == if stop then s else Rounds(llm, gate, s, MAX_ITER - i)
      decreases MAX_ITER - i
    {
      s, stop := RunRound(llm, gate, s);
      i := i + 1;
    }
    var conf := Confidence(confidence, s.terminal, s.calls, s.errors, |s.blocked|);
    var status := FinalStatus(s.trail);
    res := Resolution(status, s.calls, s.trail, s.blocked, conf);
  }
}
