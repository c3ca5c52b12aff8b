/** What the resolver's loop guarantees for any model and any interference by other tickets. */
module ResolverFacts {
  import opened Schemas
  import opened Audit
  import opened Rules
  import opened Tools
  import opened Resilient
  import opened Retries
  import opened Evaluation
  import opened Hitl
  import opened Engine
  import opened Resolver

  // ── the books the loop keeps ──

  function Count(p: TrailEntry -> bool, trail: seq<TrailEntry>): nat {
    if trail == [] then 0 else Count(p, trail[..|trail| - 1]) + if p(trail[|trail| - 1]) then 1 else 0
  }

  predicate IsCalled(e: TrailEntry) { e.Called? }

  predicate IsFailed(e: TrailEntry) { e.Called? && IsError(e.entry.result) }

  predicate IsBlocked(e: TrailEntry) { e.Called? && e.entry.decision.verdict != Allow }

  /** A terminal tool that was allowed to run, whether or not it worked. */
  predicate IsTerminalCall(e: TrailEntry) { e.Called? && IsTerminal(e.entry.tool) && e.entry.decision.verdict == Allow }

  ghost predicate HasTerminal(trail: seq<TrailEntry>) {
    exists i :: 0 <= i < |trail| && IsTerminalCall(trail[i])
  }

  predicate EndsInLlmError(trail: seq<TrailEntry>) {
    trail != [] && trail[|trail| - 1] == LlmError
  }

  /** The counters are exactly what the trail says; a model failure is the last entry and one extra error. */
  ghost predicate Books(s: Loop) {
    && s.calls == Count(IsCalled, s.trail)
    && |s.blocked| == Count(IsBlocked, s.trail)
    && (s.terminal <==> HasTerminal(s.trail))
    && s.errors == Count(IsFailed, s.trail) + (if EndsInLlmError(s.trail) then 1 else 0)
    && forall i :: 0 <= i < |s.trail| - 1 ==> s.trail[i].Called?
  }

  lemma CountGrows(trail: seq<TrailEntry>, e: TrailEntry)
    ensures forall p: TrailEntry -> bool :: Count(p, trail + [e]) == Count(p, trail) + if p(e) then 1 else 0
  {
    assert (trail + [e])[..|trail + [e]| - 1] == trail;
  }

  lemma TerminalGrows(trail: seq<TrailEntry>, e: TrailEntry)
    ensures HasTerminal(trail + [e]) <==> HasTerminal(trail) || IsTerminalCall(e)
  {
    var all := trail + [e];
    if i :| 0 <= i < |trail| && IsTerminalCall(trail[i]) {
      assert IsTerminalCall(all[i]);
    }
    if IsTerminalCall(e) {
      assert IsTerminalCall(all[|trail|]);
    }
  }

  lemma OneCallKeepsBooks(gate: Gate, s: Loop, tc: ToolCall)
    requires Books(s) && !EndsInLlmError(s.trail)
    ensures Books(OneCall(gate, s, tc)) && !EndsInLlmError(OneCall(gate, s, tc).trail)
  {
    hide HasTerminal;
    var e := OneCall(gate, s, tc).trail[|s.trail|];
    CountGrows(s.trail, e);
    TerminalGrows(s.trail, e);
  }

  lemma {:induction false} AllCallsKeepBooks(gate: Gate, s: Loop, tcs: seq<ToolCall>)
    requires Books(s) && !EndsInLlmError(s.trail)
    ensures var s' := AllCalls(gate, s, tcs); Books(s') && !EndsInLlmError(s'.trail) && s'.rounds == s.rounds
    decreases |tcs|
  {
    hide Books, EndsInLlmError;
    if tcs != [] {
      OneCallKeepsBooks(gate, s, tcs[0]);
      AllCallsKeepBooks(gate, OneCall(gate, s, tcs[0]), tcs[1..]);
    }
  }

  /** One trail entry and one answer a call, after what was there. */
  lemma {:induction false} AllCallsAppend(gate: Gate, s: Loop, tcs: seq<ToolCall>)
    ensures var s' := AllCalls(gate, s, tcs);
      && |s'.trail| == |s.trail| + |tcs| && s.trail <= s'.trail
      && |s'.messages| == |s.messages| + |tcs| && s.messages <= s'.messages
      && forall k :: |s.messages| <= k < |s'.messages| ==> s'.messages[k].ToolAnswer?
    decreases |tcs|
  {
    if tcs != [] {
      AllCallsAppend(gate, OneCall(gate, s, tcs[0]), tcs[1..]);
    }
  }

  /** If a terminal call was made, it was made in answer to the model's very last tool-enabled reply. */
  ghost predicate TerminalOnlyLast(s: Loop) {
    s.terminal ==> exists n: nat :: LastReplyHas(s, n)
  }

  ghost predicate LastReplyHas(s: Loop, n: nat) {
    && 0 < n <= |s.trail| && n < |s.messages|
    && s.messages[|s.messages| - n - 1].AssistantCalls? && |s.messages[|s.messages| - n - 1].calls| == n
    && (forall k :: |s.messages| - n <= k < |s.messages| ==> s.messages[k].ToolAnswer?)
    && !HasTerminal(s.trail[..|s.trail| - n])
  }

  lemma CallsAreTheLastReply(before: Loop, after: Loop, tcs: seq<ToolCall>)
    requires tcs != [] && !HasTerminal(before.trail)
    requires |after.trail| == |before.trail| + |tcs| && before.trail <= after.trail
    requires |after.messages| == |before.messages| + 1 + |tcs|
        && before.messages + [AssistantCalls(tcs)] <= after.messages
    requires forall k :: |before.messages| < k < |after.messages| ==> after.messages[k].ToolAnswer?
    ensures LastReplyHas(after, |tcs|)
  {
    hide HasTerminal;
    assert after.trail[..|before.trail|] == before.trail;
    assert after.messages[|before.messages|] == (before.messages + [AssistantCalls(tcs)])[|before.messages|];
  }

  lemma CallingRoundKeepsBooks(gate: Gate, s: Loop, tcs: seq<ToolCall>)
    requires Books(s) && !EndsInLlmError(s.trail) && !s.terminal && tcs != []
    ensures var s' := AllCalls(gate, s.(rounds := s.rounds + 1, messages := s.messages + [AssistantCalls(tcs)]), tcs);
      Books(s') && TerminalOnlyLast(s') && s'.rounds == s.rounds + 1 && !EndsInLlmError(s'.trail)
  {
    hide Count, AllCalls, HasTerminal, LastReplyHas;
    var asked := s.(rounds := s.rounds + 1, messages := s.messages + [AssistantCalls(tcs)]);
    AllCallsKeepBooks(gate, asked, tcs);
    AllCallsAppend(gate, asked, tcs);
    CallsAreTheLastReply(s, AllCalls(gate, asked, tcs), tcs);
  }

  lemma ModelFailureKeepsBooks(s: Loop)
    requires Books(s) && !EndsInLlmError(s.trail)
    ensures Books(s.(trail := s.trail + [LlmError], errors := s.errors + 1))
  {
    hide HasTerminal;
    CountGrows(s.trail, LlmError);
    TerminalGrows(s.trail, LlmError);
  }

  lemma OneRoundKeepsBooks(llm: Llm, gate: Gate, s: Loop)
    requires Books(s) && !EndsInLlmError(s.trail) && !s.terminal
    ensures var (s', stop) := OneRound(llm, gate, s);
      && Books(s') && TerminalOnlyLast(s') && s'.rounds == s.rounds + 1
      && (!stop ==> !EndsInLlmError(s'.trail) && !s'.terminal)
      && (stop ==> s'.terminal || EndsInLlmError(s'.trail) || s'.calls >= 3)
  {
    hide HasTerminal, LastReplyHas, AllCalls, Count;
    var reply := llm(s.messages);
    if reply.Raised? {
      ModelFailureKeepsBooks(s.(rounds := s.rounds + 1));
    } else if reply.Calls? && reply.calls != [] {
      CallingRoundKeepsBooks(gate, s, reply.calls);
    }
  }

  lemma {:induction false} RoundsKeepBooks(llm: Llm, gate: Gate, s: Loop, left: nat)
    requires Books(s) && !EndsInLlmError(s.trail) && !s.terminal
    ensures var s' := Rounds(llm, gate, s, left);
      && Books(s') && TerminalOnlyLast(s') && s'.rounds <= s.rounds + left
      && (s'.terminal || EndsInLlmError(s'.trail) || s'.calls >= 3 || s'.rounds == s.rounds + left)
    decreases left
  {
    hide Books, EndsInLlmError, LastReplyHas, OneRound;
    if left > 0 {
      OneRoundKeepsBooks(llm, gate, s);
      var (next, stop) := OneRound(llm, gate, s);
      if !stop {
        RoundsKeepBooks(llm, gate, next, left - 1);
      }
    }
  }

  lemma {:induction false} FewerThan(p: TrailEntry -> bool, q: TrailEntry -> bool, trail: seq<TrailEntry>)
    requires forall e :: p(e) ==> q(e)
    ensures Count(p, trail) <= Count(q, trail)
  {
    if trail != [] {
      FewerThan(p, q, trail[..|trail| - 1]);
    }
  }

  /** Every run keeps exact books, asks at most MAX_ITER times, does not ask again after a reply with an
      allowed terminal call, and stops for one of four reasons. */
  lemma LoopOutcome(llm: Llm, gate: Gate)
    ensures var s := Rounds(llm, gate, START, MAX_ITER);
      && Books(s) && s.rounds <= MAX_ITER && TerminalOnlyLast(s)
      && s.errors <= s.calls + 1
      && (s.terminal || EndsInLlmError(s.trail) || s.calls >= 3 || s.rounds == MAX_ITER)
  {
    RoundsKeepBooks(llm, gate, START, MAX_ITER);
    FewerThan(IsFailed, IsCalled, Rounds(llm, gate, START, MAX_ITER).trail);
  }

  // ── what the guard can answer ──

  predicate Shaped(answer: Answer, tool: Tool) {
    && (answer.decision.verdict == Deny ==> answer.result == BLOCKED)
    && (answer.decision.verdict == RequireHuman ==> answer.result == PLAIN)
    && (tool != IssueRefund ==> answer.decision.verdict == Allow)
    && (IsError(answer.result) <==> answer.result.error.Some?)
  }

  ghost predicate ShapedGate(gate: Gate) {
    forall trail, tc :: Shaped(gate(trail, tc), tc.tool)
  }

  lemma AllowedAnswerIsOneAttempt(ticketId: string, s: Session, hitl: seq<HitlItem>, w: World,
                                  tool: Tool, args: Args, env: nat -> Env, base: real) returns (k: nat)
    requires Judge(tool, args, s).verdict == Allow
    ensures Guarded(DefaultRules(), ticketId, s, hitl, w, tool, args, env, base).result
        == ExecuteTool(w, tool, args, env(k)).1
  {
    DefaultVerdicts(tool, args, s);
    hide Evaluate, Resiliently, ExecuteTool;
    RetryBudget(w, tool, args, env, TOOL_MAX_RETRIES, base);
    k := Resiliently(w, tool, args, env, TOOL_MAX_RETRIES, base).attempts - 1;
  }

  lemma GuardAnswersAreShaped(ticketId: string, s: Session, hitl: seq<HitlItem>, w: World,
                              tool: Tool, args: Args, env: nat -> Env, base: real)
    requires forall i: nat :: LookupShape(env(i))
    ensures var out := Guarded(DefaultRules(), ticketId, s, hitl, w, tool, args, env, base);
      && Shaped(Answer(out.result, out.decision), tool)
      && (out.decision.verdict == Deny ==> out.result.error == Some("blocked_by_policy") && out.result.success == None)
      && (out.decision.verdict == RequireHuman ==> out.result.error == None && out.result.success == None)
  {
    hide Evaluate, Resiliently, ExecuteTool;
    DefaultVerdicts(tool, args, s);
    if Judge(tool, args, s).verdict == Allow {
      var k := AllowedAnswerIsOneAttempt(ticketId, s, hitl, w, tool, args, env, base);
      FailureCarriesError(w, tool, args, env(k));
    }
  }

  ghost predicate ShapedTrail(trail: seq<TrailEntry>) {
    forall i :: 0 <= i < |trail| && trail[i].Called? ==>
      Shaped(Answer(trail[i].entry.result, trail[i].entry.decision), trail[i].entry.tool)
  }

  lemma {:induction false} AllCallsKeepShape(gate: Gate, s: Loop, tcs: seq<ToolCall>)
    requires ShapedGate(gate) && ShapedTrail(s.trail)
    ensures ShapedTrail(AllCalls(gate, s, tcs).trail)
    decreases |tcs|
  {
    if tcs != [] {
      assert Shaped(gate(s.trail, tcs[0]), tcs[0].tool);
      AllCallsKeepShape(gate, OneCall(gate, s, tcs[0]), tcs[1..]);
    }
  }

  lemma {:induction false} RoundsKeepShape(llm: Llm, gate: Gate, s: Loop, left: nat)
    requires ShapedGate(gate) && ShapedTrail(s.trail)
    ensures ShapedTrail(Rounds(llm, gate, s, left).trail)
    decreases left
  {
    if left > 0 {
      var reply := llm(s.messages);
      if reply.Calls? && reply.calls != [] {
        AllCallsKeepShape(gate, s.(rounds := s.rounds + 1, messages := s.messages + [AssistantCalls(reply.calls)]),
          reply.calls);
      }
      var (next, stop) := OneRound(llm, gate, s);
      if !stop {
        RoundsKeepShape(llm, gate, next, left - 1);
      }
    }
  }

  // ── status ──

  /** Behind the guard a run is resolved or escalated only if a terminal tool ran, and it is incomplete
      exactly when every terminal call that was allowed to run came back with an error. */
  lemma StatusMeansTerminal(llm: Llm, gate: Gate)
    requires ShapedGate(gate)
    ensures var s := Rounds(llm, gate, START, MAX_ITER);
      && (StatusOf(s.trail) != Incomplete ==> s.terminal)
      && (StatusOf(s.trail) == Incomplete <==>
            forall i :: 0 <= i < |s.trail| && IsTerminalCall(s.trail[i]) ==> s.trail[i].entry.result.error.Some?)
  {
    LoopOutcome(llm, gate);
    RoundsKeepShape(llm, gate, START, MAX_ITER);
    var trail := Rounds(llm, gate, START, MAX_ITER).trail;
    forall i | 0 <= i < |trail|
      ensures Finished(trail[i], Escalate) || Finished(trail[i], SendReply)
          <==> IsTerminalCall(trail[i]) && trail[i].entry.result.error.None?
    {
    }
  }

  // ── every line of a trail is the guard's answer to a call made there ──

  ghost predicate Answered(gate: Gate, trail: seq<TrailEntry>, i: nat)
    requires i < |trail|
  {
    trail[i].Called? ==> exists id: string :: AnsweredAs(gate, trail, i, id)
  }

  ghost predicate AnsweredAs(gate: Gate, trail: seq<TrailEntry>, i: nat, id: string)
    requires i < |trail| && trail[i].Called?
  {
    var e := trail[i].entry;
    gate(trail[..i], ToolCall(id, e.tool, e.args)) == Answer(e.result, e.decision)
  }

  ghost predicate TrailAnswered(gate: Gate, trail: seq<TrailEntry>) {
    forall i :: 0 <= i < |trail| ==> Answered(gate, trail, i)
  }

  lemma AnsweredGrows(gate: Gate, trail: seq<TrailEntry>, e: TrailEntry)
    requires TrailAnswered(gate, trail)
    requires e.Called? ==> exists id: string ::
      gate(trail, ToolCall(id, e.entry.tool, e.entry.args)) == Answer(e.entry.result, e.entry.decision)
    ensures TrailAnswered(gate, trail + [e])
  {
    var all := trail + [e];
    forall i | 0 <= i < |all| ensures Answered(gate, all, i) {
      if i < |trail| {
        assert Answered(gate, trail, i);
        assert all[..i] == trail[..i];
        if trail[i].Called? {
          var id: string :| AnsweredAs(gate, trail, i, id);
          assert AnsweredAs(gate, all, i, id);
        }
      } else if e.Called? {
        assert all[..i] == trail;
        var id: string :| gate(trail, ToolCall(id, e.entry.tool, e.entry.args))
            == Answer(e.entry.result, e.entry.decision);
        assert AnsweredAs(gate, all, i, id);
      }
    }
  }

  lemma {:induction false} AllCallsAreAnswered(gate: Gate, s: Loop, tcs: seq<ToolCall>)
    requires TrailAnswered(gate, s.trail)
    ensures TrailAnswered(gate, AllCalls(gate, s, tcs).trail)
    decreases |tcs|
  {
    if tcs != [] {
      var tc := tcs[0];
      var answer := gate(s.trail, tc);
      assert tc == ToolCall(tc.id, tc.tool, tc.args);
      AnsweredGrows(gate, s.trail, Called(AuditEntry(tc.tool, tc.args, answer.result, answer.decision)));
      AllCallsAreAnswered(gate, OneCall(gate, s, tc), tcs[1..]);
    }
  }

  /** In any run each line answers a call on exactly the trail before it. */
  lemma {:induction false} RunsAreAnswered(llm: Llm, gate: Gate, s: Loop, left: nat)
    requires TrailAnswered(gate, s.trail)
    ensures TrailAnswered(gate, Rounds(llm, gate, s, left).trail)
    decreases left
  {
    if left > 0 {
      hide TrailAnswered;
      RoundIsAnswered(llm, gate, s);
      var (next, stop) := OneRound(llm, gate, s);
      if !stop {
        RunsAreAnswered(llm, gate, next, left - 1);
      }
    }
  }

  lemma RoundIsAnswered(llm: Llm, gate: Gate, s: Loop)
    requires TrailAnswered(gate, s.trail)
    ensures TrailAnswered(gate, OneRound(llm, gate, s).0.trail)
  {
    var reply := llm(s.messages);
    if reply.Raised? {
      AnsweredGrows(gate, s.trail, LlmError);
    } else if reply.Calls? && reply.calls != [] {
      var asked := s.(rounds := s.rounds + 1, messages := s.messages + [AssistantCalls(reply.calls)]);
      AllCallsAreAnswered(gate, asked, reply.calls);
    }
  }
}
