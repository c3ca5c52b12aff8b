/** Which tools a whole run of the scripted agent uses, and in which order. */
module ScriptedPlan {
  import opened Schemas
  import opened Audit
  import opened Resolver
  import opened ResolverFacts
  import opened ScriptedAgent
  import opened ScriptedRun

  /** Whether a ticket needs a tool, given what the tools have answered. */
  predicate Needed(ctx: Context, results: map<Tool, ToolResult>, tool: Tool) {
    var orderKnown := OrderId(ctx, results) != "";
    var check := ResultOf(results, CheckRefundEligibility);
    match tool
    case GetCustomer => true
    case GetOrder => orderKnown
    case SearchKnowledgeBase => true
    case CheckRefundEligibility => orderKnown && ctx.category in {RefundRequest, Cancellation, Return}
    case IssueRefund => orderKnown && ctx.category == RefundRequest && check.eligible == Some(true)
    case Escalate => ctx.category == Warranty || check.warrantyActive
    case SendReply => ctx.category != Warranty && !check.warrantyActive
    case _ => false
  }

  function Rank(tool: Tool): nat {
    match tool
    case GetCustomer => 0
    case GetOrder => 1
    case SearchKnowledgeBase => 2
    case CheckRefundEligibility => 3
    case IssueRefund => 4
    case _ => 5
  }

  /** The tools used are exactly the needed ones up to some rank. */
  ghost predicate Prefix(ctx: Context, called: set<Tool>, results: map<Tool, ToolResult>, rank: nat) {
    forall tool :: tool in called <==> Needed(ctx, results, tool) && Rank(tool) < rank
  }

  ghost predicate OnPlan(ctx: Context, called: set<Tool>, results: map<Tool, ToolResult>) {
    exists rank: nat :: Prefix(ctx, called, results, rank)
  }

  /** The next call is the needed tool of least rank among those still to be used. */
  lemma NextIsLeast(ctx: Context, called: set<Tool>, results: map<Tool, ToolResult>)
    requires called <= WORKING_TOOLS && OnPlan(ctx, called, results)
    ensures var tool := NextCall(ctx, called, results).tool;
      && tool !in called && Needed(ctx, results, tool)
      && (forall other :: other in called ==> Rank(other) < Rank(tool))
      && (forall other :: Needed(ctx, results, other) && other !in called && other != tool ==> Rank(tool) < Rank(other))
  {
  }

  /** Whatever the next tool answers, the run stays on plan. */
  lemma AnswerStaysOnPlan(ctx: Context, called: set<Tool>, results: map<Tool, ToolResult>, answer: ToolResult)
    requires called <= WORKING_TOOLS && OnPlan(ctx, called, results)
    ensures var tool := NextCall(ctx, called, results).tool;
      Prefix(ctx, called + {tool}, results[tool := answer], Rank(tool) + 1)
  {
    var tool := NextCall(ctx, called, results).tool;
    var later := results[tool := answer];
    NextIsLeast(ctx, called, results);
    forall other ensures other in called + {tool} <==> Needed(ctx, later, other) && Rank(other) < Rank(tool) + 1 {
      if Rank(other) <= Rank(tool) {
        EarlierNeedsStand(ctx, results, tool, answer, other);
      }
    }
  }

  /** An answer only changes what comes after its tool. */
  lemma EarlierNeedsStand(ctx: Context, results: map<Tool, ToolResult>, tool: Tool, answer: ToolResult, other: Tool)
    requires Rank(other) <= Rank(tool)
    ensures Needed(ctx, results[tool := answer], other) <==> Needed(ctx, results, other)
  {
  }

  /** Tools are used in the order of the plan. */
  ghost predicate InOrder(trail: seq<TrailEntry>) {
    && (forall i :: 0 <= i < |trail| ==> trail[i].Called?)
    && (forall i, j :: 0 <= i < j < |trail| ==> Rank(ToolAt(trail, i)) < Rank(ToolAt(trail, j)))
  }

  ghost predicate Planned(ctx: Context, s: Loop) {
    InOrder(s.trail) && OnPlan(ctx, Scan(s.messages).called, Scan(s.messages).results)
  }

  /** A finished run has used exactly the tools the ticket needed, in order. */
  ghost predicate PlanCarriedOut(ctx: Context, s: Loop) {
    InOrder(s.trail) && forall tool :: tool in ToolsOf(s.trail) <==> Needed(ctx, Scan(s.messages).results, tool)
  }

  lemma OrderGrows(trail: seq<TrailEntry>, e: TrailEntry)
    requires InOrder(trail) && e.Called? && forall tool :: tool in ToolsOf(trail) ==> Rank(tool) < Rank(e.entry.tool)
    ensures InOrder(trail + [e])
  {
    var all := trail + [e];
    forall i, j | 0 <= i < j < |all| ensures Rank(ToolAt(all, i)) < Rank(ToolAt(all, j)) {
      if j == |trail| {
        assert trail[i].entry.tool in ToolsOf(trail);
      } else {
        assert Rank(ToolAt(trail, i)) < Rank(ToolAt(trail, j));
      }
    }
  }

  lemma RoundStaysOnPlan(ctx: Context, gate: Gate, s: Loop)
    requires Underway(s) && Planned(ctx, s)
    ensures var (s', stop) := OneRound(Scripted(ctx), gate, s);
      && Planned(ctx, s')
      && (stop ==> PlanCarriedOut(ctx, s'))
  {
    hide Scan, OneRound, Scripted, NextCall, ToolsOf, InOrder, Tidy, Needed;
    ScriptedRound(ctx, gate, s);
    var sc, tc := Scan(s.messages), Next(ctx, s);
    var answer := gate(s.trail, tc);
    var e := Called(AuditEntry(tc.tool, tc.args, answer.result, answer.decision));
    NextIsLeast(ctx, sc.called, sc.results);
    AnswerStaysOnPlan(ctx, sc.called, sc.results, answer.result);
    OrderGrows(s.trail, e);
    ToolsGrow(s.trail, e);
  }

  lemma {:induction false} RunFollowsPlan(ctx: Context, gate: Gate, s: Loop, left: nat)
    requires ShapedGate(gate) && Underway(s) && Planned(ctx, s) && left + |s.trail| >= 6
    ensures PlanCarriedOut(ctx, Rounds(Scripted(ctx), gate, s, left))
    decreases left
  {
    hide Underway, Ended, Planned, PlanCarriedOut, OneRound, Rounds, Scripted;
    UnderwayIsShort(s);
    var llm := Scripted(ctx);
    var (next, stop) := OneRound(llm, gate, s);
    RoundsUnroll(llm, gate, s, left, next, stop);
    RoundFromUnderway(ctx, gate, s);
    RoundStaysOnPlan(ctx, gate, s);
    if !stop {
      RunFollowsPlan(ctx, gate, next, left - 1);
    }
  }

  /** For any ticket and any tool results, a run of the scripted agent uses exactly the tools that the
      ticket and those results call for, each once, in one fixed order: customer, order, knowledge base,
      eligibility, refund, and then an escalation or a reply. */
  lemma ScriptedRunsFollowThePlan(ctx: Context, gate: Gate)
    requires ShapedGate(gate)
    ensures PlanCarriedOut(ctx, Rounds(Scripted(ctx), gate, START, MAX_ITER))
  {
    StartIsUnderway();
    assert Scan(START.messages).called == {};
    assert Prefix(ctx, Scan(START.messages).called, Scan(START.messages).results, 0);
    RunFollowsPlan(ctx, gate, START, MAX_ITER);
  }
}
