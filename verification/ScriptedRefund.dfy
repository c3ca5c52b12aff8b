/** How the policy judges the refund the scripted agent proposes. */
module ScriptedRefund {
  import opened Schemas
  import opened Audit
  import opened Rules
  import opened Tools
  import opened Resilient
  import opened Evaluation
  import opened Hitl
  import opened Engine
  import opened Resolver
  import opened ResolverFacts
  import opened ProtocolInvariants
  import opened ScriptedAgent
  import opened ScriptedRun

  function RecordOf(e: TrailEntry): ToolCallRecord
    requires e.Called?
  {
    var kept := if e.entry.decision.verdict == RequireHuman then DEFERRED else e.entry.result;
    MakeRecord(e.entry.tool, e.entry.args, kept)
  }

  /** The ticket's history, as its audit trail determines it. */
  function HistoryOf(trail: seq<TrailEntry>): seq<ToolCallRecord> {
    if trail == [] then []
    else
      var last := trail[|trail| - 1];
      HistoryOf(trail[..|trail| - 1]) + if last.Called? then [RecordOf(last)] else []
  }

  lemma HistoryGrows(trail: seq<TrailEntry>, e: TrailEntry)
    requires e.Called?
    ensures HistoryOf(trail + [e]) == HistoryOf(trail) + [RecordOf(e)]
  {
    assert (trail + [e])[..|trail + [e]| - 1] == trail;
  }

  /** Answers about an order quote its own price, and "eligible" answers are no errors. */
  ghost predicate Honest(prices: map<string, real>, tool: Tool, args: Args, result: ToolResult) {
    && Faithful(prices, tool, args, result)
    && (tool == CheckRefundEligibility && result.eligible == Some(true) ==> !IsError(result))
    && (tool == GetOrder && result.amount.Some? ==>
          && Get(args, OrderIdKey).Text? && Get(args, OrderIdKey).text in prices
          && result.amount == Some(Finite(prices[Get(args, OrderIdKey).text])))
  }

  lemma ExecutionIsHonest(w: World, tool: Tool, args: Args, env: Env)
    ensures Honest(Prices(w), tool, args, ExecuteTool(w, tool, args, env).1)
  {
    ExecutionIsFaithful(w, tool, args, env);
    if tool == CheckRefundEligibility && Binds(tool, args) && !env.fails {
      EligibleAnswers(w, args[OrderIdKey]);
    }
  }

  /** The guard's own answer on the history of the trail. */
  ghost predicate Judged(prices: map<string, real>, confidence: real, trail: seq<TrailEntry>, tc: ToolCall,
                         answer: Answer) {
    && Shaped(answer, tc.tool)
    && answer.decision == Judge(tc.tool, tc.args, Session(confidence, HistoryOf(trail)))
    && Honest(prices, tc.tool, tc.args, answer.result)
  }

  ghost predicate PolicyGate(gate: Gate, prices: map<string, real>, confidence: real) {
    forall trail, tc :: Judged(prices, confidence, trail, tc, gate(trail, tc))
  }

  lemma PolicyGatesAreShaped(gate: Gate, prices: map<string, real>, confidence: real)
    requires PolicyGate(gate, prices, confidence)
    ensures ShapedGate(gate)
  {
    forall trail, tc ensures Shaped(gate(trail, tc), tc.tool) {
      assert Judged(prices, confidence, trail, tc, gate(trail, tc));
    }
  }

  lemma GuardIsHonest(ticketId: string, s: Session, hitl: seq<HitlItem>, w: World, tool: Tool, args: Args,
                      env: nat -> Env, base: real)
    ensures Honest(Prices(w), tool, args, Guarded(DefaultRules(), ticketId, s, hitl, w, tool, args, env, base).result)
  {
    if Judge(tool, args, s).verdict == Allow {
      hide Guarded, Honest, ExecuteTool, Judge, Prices;
      var k := AllowedAnswerIsOneAttempt(ticketId, s, hitl, w, tool, args, env, base);
      ExecutionIsHonest(w, tool, args, env(k));
    } else {
      hide Evaluate, Resiliently;
    }
  }

  /** guard() answers so on any ledger with these prices, and extends the history as the trail does. */
  lemma GuardIsAPolicyGate(ticketId: string, confidence: real, trail: seq<TrailEntry>, hitl: seq<HitlItem>, w: World,
                           tc: ToolCall, env: nat -> Env, base: real)
    requires forall i: nat :: LookupShape(env(i))
    ensures var out := Guarded(DefaultRules(), ticketId, Session(confidence, HistoryOf(trail)), hitl, w,
                              tc.tool, tc.args, env, base);
      && Judged(Prices(w), confidence, trail, tc, Answer(out.result, out.decision))
      && out.calls == HistoryOf(trail + [Called(AuditEntry(tc.tool, tc.args, out.result, out.decision))])
  {
    hide Evaluate, Resiliently, Honest, Shaped, Prices, HistoryOf;
    var s := Session(confidence, HistoryOf(trail));
    var out := Guarded(DefaultRules(), ticketId, s, hitl, w, tc.tool, tc.args, env, base);
    GuardAnswersAreShaped(ticketId, s, hitl, w, tc.tool, tc.args, env, base);
    GuardIsHonest(ticketId, s, hitl, w, tc.tool, tc.args, env, base);
    HistoryGrows(trail, Called(AuditEntry(tc.tool, tc.args, out.result, out.decision)));
  }

  // ── the proposal ──

  /** The one check made so far, if it said eligible, stands in the history for the order the agent has in mind. */
  ghost predicate CheckStands(prices: map<string, real>, orderId: string, check: ToolResult,
                              history: seq<ToolCallRecord>) {
    check.eligible == Some(true) ==>
      && orderId != "" && orderId in prices && check.refundable == Some(Finite(prices[orderId]))
      && EligibilityResult(history, Text(orderId)) == Some(check)
  }

  ghost predicate OrderStands(prices: map<string, real>, orderId: string, order: ToolResult) {
    order.amount.Some? ==> orderId in prices && order.amount == Some(Finite(prices[orderId]))
  }

  lemma RefundVerdict(prices: map<string, real>, results: map<Tool, ToolResult>, orderId: string, s: Session)
    requires ResultOf(results, CheckRefundEligibility).eligible == Some(true)
    requires CheckStands(prices, orderId, ResultOf(results, CheckRefundEligibility), s.calls)
    requires OrderStands(prices, orderId, ResultOf(results, GetOrder))
    ensures orderId in prices
    ensures var args := map[OrderIdKey := Text(orderId), AmountKey := Number(RefundAmount(results))];
      Judge(IssueRefund, args, s).verdict == Deny <==> prices[orderId] <= 0.0
  {
    var args := map[OrderIdKey := Text(orderId), AmountKey := Number(RefundAmount(results))];
    assert Get(args, OrderIdKey) == Text(orderId) && Get(args, AmountKey) == Number(RefundAmount(results));
    DefaultVerdicts(IssueRefund, args, s);
  }

  ghost predicate RefundsJudged(prices: map<string, real>, orderId: string, trail: seq<TrailEntry>) {
    forall i :: 0 <= i < |trail| && trail[i].Called? && trail[i].entry.tool == IssueRefund ==>
      orderId in prices && (trail[i].entry.decision.verdict == Deny <==> prices[orderId] <= 0.0)
  }

  ghost predicate InformedBy(ctx: Context, prices: map<string, real>, results: map<Tool, ToolResult>,
                             trail: seq<TrailEntry>) {
    var orderId := OrderId(ctx, results);
    && CheckStands(prices, orderId, ResultOf(results, CheckRefundEligibility), HistoryOf(trail))
    && OrderStands(prices, orderId, ResultOf(results, GetOrder))
    && RefundsJudged(prices, orderId, trail)
  }

  ghost predicate Informed(ctx: Context, prices: map<string, real>, s: Loop) {
    InformedBy(ctx, prices, Scan(s.messages).results, s.trail)
  }

  lemma CustomerFirst(s: Loop)
    requires Underway(s)
    ensures GetCustomer in Scan(s.messages).called || s.trail == []
  {
    if s.trail != [] {
      assert s.trail[0].entry.tool in ToolsOf(s.trail);
    }
  }

  lemma CheckKeepsStanding(prices: map<string, real>, orderId: string, check: ToolResult, history: seq<ToolCallRecord>,
                           rec: ToolCallRecord)
    requires CheckStands(prices, orderId, check, history) && rec.tool != CheckRefundEligibility
    ensures CheckStands(prices, orderId, check, history + [rec])
  {
    assert (history + [rec])[..|history + [rec]| - 1] == history;
  }

  lemma NewCheckStands(prices: map<string, real>, orderId: string, history: seq<ToolCallRecord>, e: TrailEntry)
    requires e.Called? && e.entry.tool == CheckRefundEligibility && e.entry.args == map[OrderIdKey := Text(orderId)]
    requires e.entry.decision.verdict == Allow && orderId != ""
    requires Honest(prices, e.entry.tool, e.entry.args, e.entry.result)
    ensures CheckStands(prices, orderId, e.entry.result, history + [RecordOf(e)])
  {
    assert Get(e.entry.args, OrderIdKey) == Text(orderId);
    assert (history + [RecordOf(e)])[|history|] == RecordOf(e);
  }

  lemma FirstRoundInforms(ctx: Context, prices: map<string, real>, confidence: real, gate: Gate, s: Loop)
    requires PolicyGate(gate, prices, confidence) && Underway(s) && s.trail == []
    ensures Informed(ctx, prices, OneRound(Scripted(ctx), gate, s).0)
  {
    hide Scan, OneRound, Scripted;
    ScriptedRound(ctx, gate, s);
    NoTools(s.trail);
    NextIsNew(ctx, Scan(s.messages).called, Scan(s.messages).results);
  }

  lemma JudgedGrows(prices: map<string, real>, orderId: string, trail: seq<TrailEntry>, e: TrailEntry)
    requires RefundsJudged(prices, orderId, trail) && e.Called?
    requires e.entry.tool == IssueRefund ==>
        orderId in prices && (e.entry.decision.verdict == Deny <==> prices[orderId] <= 0.0)
    ensures RefundsJudged(prices, orderId, trail + [e])
  {
  }

  /** Once the customer is known, whatever the guard answers to the next call keeps the agent informed. */
  lemma AnswerInforms(ctx: Context, prices: map<string, real>, confidence: real, called: set<Tool>,
                      results: map<Tool, ToolResult>, trail: seq<TrailEntry>, answer: Answer)
    requires GetCustomer in called && InformedBy(ctx, prices, results, trail)
    requires Judged(prices, confidence, trail, NextCall(ctx, called, results), answer)
    ensures var tc := NextCall(ctx, called, results);
      InformedBy(ctx, prices, results[tc.tool := answer.result],
                 trail + [Called(AuditEntry(tc.tool, tc.args, answer.result, answer.decision))])
  {
    var tc, orderId := NextCall(ctx, called, results), OrderId(ctx, results);
    var e := Called(AuditEntry(tc.tool, tc.args, answer.result, answer.decision));
    NextArguments(ctx, called, results);
    assert OrderId(ctx, results[tc.tool := answer.result]) == orderId;
    hide NextCall, OrderId, Evaluate, CheckStands, HistoryOf, Faithful, RefundsJudged;
    HistoryGrows(trail, e);
    if tc.tool == CheckRefundEligibility {
      NewCheckStands(prices, orderId, HistoryOf(trail), e);
    } else {
      CheckKeepsStanding(prices, orderId, ResultOf(results, CheckRefundEligibility), HistoryOf(trail), RecordOf(e));
    }
    if tc.tool == GetOrder {
      assert Get(tc.args, OrderIdKey) == Text(orderId);
    }
    if tc.tool == IssueRefund {
      RefundVerdict(prices, results, orderId, Session(confidence, HistoryOf(trail)));
    }
    JudgedGrows(prices, orderId, trail, e);
  }

  lemma LaterRoundInforms(ctx: Context, prices: map<string, real>, confidence: real, gate: Gate, s: Loop)
    requires PolicyGate(gate, prices, confidence) && Underway(s) && Informed(ctx, prices, s) && s.trail != []
    ensures Informed(ctx, prices, OneRound(Scripted(ctx), gate, s).0)
  {
    hide Scan, OneRound, Scripted, NextCall, Judged, InformedBy, Underway;
    CustomerFirst(s);
    ScriptedRound(ctx, gate, s);
    var sc, tc := Scan(s.messages), Next(ctx, s);
    assert Judged(prices, confidence, s.trail, tc, gate(s.trail, tc));
    AnswerInforms(ctx, prices, confidence, sc.called, sc.results, s.trail, gate(s.trail, tc));
  }

  lemma NextArguments(ctx: Context, called: set<Tool>, results: map<Tool, ToolResult>)
    ensures var tc, orderId := NextCall(ctx, called, results), OrderId(ctx, results);
      && (tc.tool == CheckRefundEligibility || tc.tool == GetOrder ==>
        orderId != "" && tc.args == map[OrderIdKey := Text(orderId)])
      && (tc.tool == IssueRefund ==>
            && orderId != "" && tc.args == map[OrderIdKey := Text(orderId), AmountKey := Number(RefundAmount(results))]
            && ResultOf(results, CheckRefundEligibility).eligible == Some(true))
  {
  }

  lemma {:induction false} RunStaysInformed(ctx: Context, prices: map<string, real>, confidence: real, gate: Gate,
                                            s: Loop, left: nat)
    requires PolicyGate(gate, prices, confidence) && ShapedGate(gate)
    requires Underway(s) && (s.trail == [] || Informed(ctx, prices, s)) && left + |s.trail| >= 6
    ensures Informed(ctx, prices, Rounds(Scripted(ctx), gate, s, left))
    decreases left
  {
    hide Underway, Informed, OneRound, Rounds, PolicyGate, ShapedGate, Scripted;
    UnderwayIsShort(s);
    var llm := Scripted(ctx);
    var (next, stop) := OneRound(llm, gate, s);
    RoundsUnroll(llm, gate, s, left, next, stop);
    assert |next.trail| == |s.trail| + 1 && (!stop ==> Underway(next)) by {
      RoundFromUnderway(ctx, gate, s);
    }
    assert Informed(ctx, prices, next) by {
      if s.trail == [] {
        FirstRoundInforms(ctx, prices, confidence, gate, s);
      } else {
        LaterRoundInforms(ctx, prices, confidence, gate, s);
      }
    }
    if !stop {
      RunStaysInformed(ctx, prices, confidence, gate, next, left - 1);
    }
  }

  /** In a whole run behind the guard, the refund the scripted agent proposes is refused exactly when
      the order costs nothing or less; otherwise it is paid or parked. */
  lemma ScriptedRefundsAreDeniedIff(ctx: Context, prices: map<string, real>, confidence: real, gate: Gate)
    requires PolicyGate(gate, prices, confidence)
    ensures var s := Rounds(Scripted(ctx), gate, START, MAX_ITER);
      RefundsJudged(prices, OrderId(ctx, Scan(s.messages).results), s.trail)
  {
    PolicyGatesAreShaped(gate, prices, confidence);
    StartIsUnderway();
    RunStaysInformed(ctx, prices, confidence, gate, START, MAX_ITER);
  }
}
