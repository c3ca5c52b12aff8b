/** Runs of the scripted agent behind the guard. */
module ScriptedRun {
  import opened Schemas
  import opened Audit
  import opened Resolver
  import opened ResolverFacts
  import opened ScriptedAgent

  const WORKING_TOOLS := {GetCustomer, GetOrder, SearchKnowledgeBase, CheckRefundEligibility, IssueRefund}

  function ToolAt(trail: seq<TrailEntry>, i: nat): Tool
    requires i < |trail| && trail[i].Called?
  {
    trail[i].entry.tool
  }

  /** No model failure, no tool twice, the customer first. */
  ghost predicate Tidy(trail: seq<TrailEntry>) {
    && (forall i :: 0 <= i < |trail| ==> trail[i].Called?)
    && (forall i, j :: 0 <= i < j < |trail| ==> ToolAt(trail, i) != ToolAt(trail, j))
    && (trail != [] ==> ToolAt(trail, 0) == GetCustomer)
  }

  /** A run that has not yet made its terminal call. */
  ghost predicate Underway(s: Loop) {
    var sc := Scan(s.messages);
    && Tidy(s.trail) && !s.terminal && s.calls == |s.trail| == s.rounds
    && sc.called == ToolsOf(s.trail) && sc.results.Keys == sc.called
    && sc.called <= WORKING_TOOLS && |s.trail| == |sc.called|
  }

  function Next(ctx: Context, s: Loop): ToolCall {
    NextCall(ctx, Scan(s.messages).called, Scan(s.messages).results)
  }

  lemma NextIsNew(ctx: Context, called: set<Tool>, results: map<Tool, ToolResult>)
    requires called <= WORKING_TOOLS
    ensures var tool := NextCall(ctx, called, results).tool;
      && tool !in called && (IsTerminal(tool) <==> tool !in WORKING_TOOLS)
      && (called == {} ==> tool == GetCustomer)
  {
  }

  lemma ScanCallAndAnswer(messages: seq<Message>, tc: ToolCall, result: ToolResult)
    ensures var before, after := Scan(messages), Scan(messages + [AssistantCalls([tc])] + [ToolAnswer(tc.id, result)]);
      && after.called == before.called + {tc.tool}
      && after.results == before.results[tc.tool := result]
  {
    ScanAppend(messages, AssistantCalls([tc]));
    ScanAppend(messages + [AssistantCalls([tc])], ToolAnswer(tc.id, result));
    var names := Scan(messages).names;
    assert [tc][1..] == [];
    assert NameCalls(names, [tc]) == NameCalls(names[tc.id := tc.tool], []);
  }

  lemma RoundOfOneCall(llm: Llm, gate: Gate, s: Loop, tc: ToolCall)
    requires llm(s.messages) == Calls([tc])
    ensures var asked := s.(rounds := s.rounds + 1, messages := s.messages + [AssistantCalls([tc])]);
      OneRound(llm, gate, s) == (OneCall(gate, asked, tc), OneCall(gate, asked, tc).terminal)
  {
    var asked := s.(rounds := s.rounds + 1, messages := s.messages + [AssistantCalls([tc])]);
    assert [tc][1..] == [];
    assert AllCalls(gate, asked, [tc]) == AllCalls(gate, OneCall(gate, asked, tc), []) == OneCall(gate, asked, tc);
  }

  /** What one round of the scripted agent does to the loop and to the conversation. */
  lemma ScriptedRound(ctx: Context, gate: Gate, s: Loop)
    ensures var tc := Next(ctx, s);
      var answer := gate(s.trail, tc);
      var (s', stop) := OneRound(Scripted(ctx), gate, s);
      var before, after := Scan(s.messages), Scan(s'.messages);
      && s'.trail == s.trail + [Called(AuditEntry(tc.tool, tc.args, answer.result, answer.decision))]
      && s'.calls == s.calls + 1 && s'.rounds == s.rounds + 1
      && s'.terminal == (s.terminal || (IsTerminal(tc.tool) && answer.decision.verdict == Allow)) == stop
      && after.called == before.called + {tc.tool}
      && after.results == before.results[tc.tool := answer.result]
  {
    hide Scan, NextCall, OneRound;
    var tc := Next(ctx, s);
    RoundOfOneCall(Scripted(ctx), gate, s, tc);
    ScanCallAndAnswer(s.messages, tc, gate(s.trail, tc).result);
  }

  ghost predicate Ended(s: Loop) {
    && Tidy(s.trail) && s.terminal && s.calls == |s.trail| == s.rounds && 0 < |s.trail|
    && IsTerminalCall(s.trail[|s.trail| - 1])
  }

  lemma TidyGrows(trail: seq<TrailEntry>, e: TrailEntry)
    requires Tidy(trail) && e.Called? && e.entry.tool !in ToolsOf(trail)
    requires trail == [] ==> e.entry.tool == GetCustomer
    ensures Tidy(trail + [e])
  {
    var all := trail + [e];
    forall i, j | 0 <= i < j < |all| ensures ToolAt(all, i) != ToolAt(all, j) {
      if j == |trail| {
        assert trail[i].entry.tool in ToolsOf(trail);
      } else {
        assert ToolAt(trail, i) != ToolAt(trail, j);
      }
    }
  }

  lemma AtMostFive(called: set<Tool>)
    requires called <= WORKING_TOOLS
    ensures |called| <= 5
    ensures |called| == 5 ==> called == WORKING_TOOLS
  {
    var rest := WORKING_TOOLS - called;
    assert WORKING_TOOLS == called + rest;
    assert |WORKING_TOOLS| == 5;
    if rest == {} {
      assert called == WORKING_TOOLS;
    } else {
      var t :| t in rest;
      assert |rest| >= 1;
    }
  }

  lemma NoTools(trail: seq<TrailEntry>)
    requires Tidy(trail)
    ensures ToolsOf(trail) == {} <==> trail == []
  {
    if trail != [] {
      assert trail[0].entry.tool in ToolsOf(trail);
    }
  }

  lemma RoundFromUnderway(ctx: Context, gate: Gate, s: Loop)
    requires ShapedGate(gate) && Underway(s)
    ensures var (s', stop) := OneRound(Scripted(ctx), gate, s);
      && |s'.trail| == |s.trail| + 1 <= 6
      && (if stop then Ended(s') else Underway(s'))
  {
    hide Scan, OneRound, NextCall, Scripted, Tidy, ToolsOf;
    ScriptedRound(ctx, gate, s);
    var tc := Next(ctx, s);
    var answer := gate(s.trail, tc);
    assert Shaped(answer, tc.tool);
    NoTools(s.trail);
    NextIsNew(ctx, Scan(s.messages).called, Scan(s.messages).results);
    AtMostFive(Scan(s.messages).called);
    TidyGrows(s.trail, Called(AuditEntry(tc.tool, tc.args, answer.result, answer.decision)));
    ToolsGrow(s.trail, Called(AuditEntry(tc.tool, tc.args, answer.result, answer.decision)));
  }

  lemma UnderwayIsShort(s: Loop)
    requires Underway(s)
    ensures |s.trail| <= 5
  {
    AtMostFive(Scan(s.messages).called);
  }

  lemma RoundsUnroll(llm: Llm, gate: Gate, s: Loop, left: nat, next: Loop, stop: bool)
    requires left > 0 && OneRound(llm, gate, s) == (next, stop)
    ensures Rounds(llm, gate, s, left) == if stop then next else Rounds(llm, gate, next, left - 1)
  {
  }

  ghost predicate EndsWithin(s: Loop, bound: nat) {
    Ended(s) && |s.trail| <= bound
  }

  lemma {:induction false} RunFromUnderway(ctx: Context, gate: Gate, s: Loop, left: nat)
    requires ShapedGate(gate) && Underway(s) && left + |s.trail| >= 6
    ensures EndsWithin(Rounds(Scripted(ctx), gate, s, left), 6)
    decreases left
  {
    hide Underway, Ended, OneRound, Rounds, Scripted;
    UnderwayIsShort(s);
    var llm := Scripted(ctx);
    var (next, stop) := OneRound(llm, gate, s);
    RoundsUnroll(llm, gate, s, left, next, stop);
    assert |next.trail| == |s.trail| + 1 <= 6 && (if stop then Ended(next) else Underway(next)) by {
      RoundFromUnderway(ctx, gate, s);
    }
    if !stop {
      RunFromUnderway(ctx, gate, next, left - 1);
    }
  }

  lemma StartIsUnderway()
    ensures Underway(START)
  {
    assert Scan([]) == Scanned(map[], {}, map[]);
    ScanAppend([], SystemPrompt);
    ScanAppend([SystemPrompt], TicketPrompt);
    assert [] + [SystemPrompt] == [SystemPrompt];
    assert [SystemPrompt] + [TicketPrompt] == START.messages;
  }

  /** For any ticket and any tool results, errors included, the scripted agent looks up the customer
      first, never repeats a tool, and makes an allowed terminal call as its last, within six calls. */
  lemma ScriptedRunsTerminate(ctx: Context, gate: Gate)
    requires ShapedGate(gate)
    ensures EndsWithin(Rounds(Scripted(ctx), gate, START, MAX_ITER), 6)
  {
    StartIsUnderway();
    RunFromUnderway(ctx, gate, START, MAX_ITER);
  }
}
