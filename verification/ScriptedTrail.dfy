/** What the scripted agent asks for, read off the audit trail it leaves. */
module ScriptedTrail {
  import opened Schemas
  import opened Audit
  import opened Resolver
  import opened ResolverFacts
  import opened ScriptedAgent
  import opened ScriptedRun
  import opened ScriptedPlan

  // ── the results of a trail by tool ──

  function ResultsIn(trail: seq<TrailEntry>): map<Tool, ToolResult> {
    if trail == [] then map[]
    else
      var before, last := ResultsIn(trail[..|trail| - 1]), trail[|trail| - 1];
      if last.Called? then before[last.entry.tool := last.entry.result] else before
  }

  lemma ResultsGrow(trail: seq<TrailEntry>, e: TrailEntry)
    requires e.Called?
    ensures ResultsIn(trail + [e]) == ResultsIn(trail)[e.entry.tool := e.entry.result]
  {
    assert (trail + [e])[..|trail + [e]| - 1] == trail;
  }

  /** Where no tool is called twice, these are the results of its lines. */
  lemma {:induction false} ResultsAreLines(trail: seq<TrailEntry>, n: nat, tool: Tool)
    requires Tidy(trail) && n <= |trail|
    ensures tool in ResultsIn(trail[..n]) <==> exists k :: 0 <= k < n && ToolAt(trail, k) == tool
    ensures forall k :: 0 <= k < n && ToolAt(trail, k) == tool ==>
      tool in ResultsIn(trail[..n]) && ResultsIn(trail[..n])[tool] == trail[k].entry.result
  {
    if n > 0 {
      ResultsAreLines(trail, n - 1, tool);
      assert trail[..n] == trail[..n - 1] + [trail[n - 1]];
      ResultsGrow(trail[..n - 1], trail[n - 1]);
      assert ToolAt(trail, n - 1) == tool ==> forall k :: 0 <= k < n - 1 ==> ToolAt(trail, k) != ToolAt(trail, n - 1);
    }
  }

  // ── each line is the agent's answer to the lines before it ──

  ghost predicate Asked(ctx: Context, trail: seq<TrailEntry>, i: nat)
    requires i < |trail|
  {
    var tc := NextCall(ctx, ToolsOf(trail[..i]), ResultsIn(trail[..i]));
    trail[i].Called? && trail[i].entry.tool == tc.tool && trail[i].entry.args == tc.args
  }

  ghost predicate AllAsked(ctx: Context, trail: seq<TrailEntry>) {
    forall i :: 0 <= i < |trail| ==> Asked(ctx, trail, i)
  }

  lemma AskedGrows(ctx: Context, trail: seq<TrailEntry>, e: TrailEntry)
    requires AllAsked(ctx, trail) && e.Called?
    requires var tc := NextCall(ctx, ToolsOf(trail), ResultsIn(trail));
      e.entry.tool == tc.tool && e.entry.args == tc.args
    ensures AllAsked(ctx, trail + [e])
  {
    hide NextCall, ToolsOf, ResultsIn;
    var all := trail + [e];
    forall i | 0 <= i < |all| ensures Asked(ctx, all, i) {
      if i < |trail| {
        assert Asked(ctx, trail, i);
        assert all[..i] == trail[..i];
      } else {
        assert all[..i] == trail;
      }
    }
  }

  ghost predicate Remembered(ctx: Context, s: Loop) {
    AllAsked(ctx, s.trail) && Scan(s.messages).results == ResultsIn(s.trail)
  }

  lemma RoundIsRemembered(ctx: Context, gate: Gate, s: Loop)
    requires Underway(s) && Remembered(ctx, s)
    ensures Remembered(ctx, OneRound(Scripted(ctx), gate, s).0)
  {
    hide Scan, OneRound, NextCall, Scripted, Tidy, ToolsOf, AllAsked, ResultsIn;
    ScriptedRound(ctx, gate, s);
    var tc := Next(ctx, s);
    var answer := gate(s.trail, tc);
    var e := Called(AuditEntry(tc.tool, tc.args, answer.result, answer.decision));
    AskedGrows(ctx, s.trail, e);
    ResultsGrow(s.trail, e);
  }

  lemma {:induction false} RunIsRemembered(ctx: Context, gate: Gate, s: Loop, left: nat)
    requires ShapedGate(gate) && Underway(s) && Remembered(ctx, s) && left + |s.trail| >= 6
    ensures Remembered(ctx, Rounds(Scripted(ctx), gate, s, left))
    decreases left
  {
    hide Underway, Ended, Remembered, OneRound, Rounds, Scripted, ShapedGate;
    UnderwayIsShort(s);
    var (next, stop) := OneRound(Scripted(ctx), gate, s);
    RoundsUnroll(Scripted(ctx), gate, s, left, next, stop);
    RoundFromUnderway(ctx, gate, s);
    RoundIsRemembered(ctx, gate, s);
    if !stop {
      RunIsRemembered(ctx, gate, next, left - 1);
    }
  }

  lemma ScriptedRunsRemember(ctx: Context, gate: Gate)
    requires ShapedGate(gate)
    ensures Remembered(ctx, Rounds(Scripted(ctx), gate, START, MAX_ITER))
  {
    hide Rounds;
    StartIsUnderway();
    RunIsRemembered(ctx, gate, START, MAX_ITER);
  }

  // ── the order it acts on ──

  /** The order in question: the one the ticket names, or else the first of the customer's, as the customer line
      of the trail answers. */
  ghost predicate InQuestion(ctx: Context, trail: seq<TrailEntry>, orderId: string)
    requires trail != [] && trail[0].Called?
  {
    if ctx.extracted != "" then orderId == ctx.extracted
    else orderId != "" && trail[0].entry.result.firstOrder == Some(orderId)
  }

  lemma CustomerLine(trail: seq<TrailEntry>, n: nat)
    requires Tidy(trail) && 0 < n <= |trail|
    ensures ResultOf(ResultsIn(trail[..n]), GetCustomer) == trail[0].entry.result
  {
    assert ToolAt(trail, 0) == GetCustomer;
    ResultsAreLines(trail, n, GetCustomer);
  }

  lemma OrderIsInQuestion(ctx: Context, trail: seq<TrailEntry>, n: nat)
    requires Tidy(trail) && 0 < n <= |trail|
    ensures forall id :: InQuestion(ctx, trail, id) <==> id != "" && OrderId(ctx, ResultsIn(trail[..n])) == id
  {
    CustomerLine(trail, n);
    hide Tidy, ResultsIn;
  }

  /** In every run, whatever the tools answer, each line that concerns an order concerns the one in question,
      the customer is looked up by the ticket's address, and the last line is about the ticket itself. */
  lemma ScriptedRunsKeepToTheTicket(ctx: Context, gate: Gate)
    requires ShapedGate(gate)
    ensures var trail := Rounds(Scripted(ctx), gate, START, MAX_ITER).trail;
      && Tidy(trail) && trail != []
      && forall i :: 0 <= i < |trail| ==>
        var e := trail[i].entry;
        && (e.tool in {GetOrder, CheckRefundEligibility, IssueRefund} ==>
              Get(e.args, OrderIdKey).Text? && InQuestion(ctx, trail, Get(e.args, OrderIdKey).text))
        && (e.tool == GetCustomer ==> e.args == map[EmailKey := Text(ctx.email)])
        && (e.tool in {SendReply, Escalate} ==> Get(e.args, TicketIdKey) == Text(ctx.ticketId))
        && (e.tool == Escalate ==> Get(e.args, PriorityKey) == Text("high"))
  {
    ScriptedRunsTerminate(ctx, gate);
    ScriptedRunsRemember(ctx, gate);
    hide Rounds, ResultsIn, NextCall, InQuestion, ToolsOf, OrderId;
    var trail := Rounds(Scripted(ctx), gate, START, MAX_ITER).trail;
    forall i | 0 <= i < |trail|
      ensures
        var e := trail[i].entry;
        && (e.tool in {GetOrder, CheckRefundEligibility, IssueRefund} ==>
              Get(e.args, OrderIdKey).Text? && InQuestion(ctx, trail, Get(e.args, OrderIdKey).text))
        && (e.tool == GetCustomer ==> e.args == map[EmailKey := Text(ctx.email)])
        && (e.tool in {SendReply, Escalate} ==> Get(e.args, TicketIdKey) == Text(ctx.ticketId))
        && (e.tool == Escalate ==> Get(e.args, PriorityKey) == Text("high"))
    {
      assert Asked(ctx, trail, i);
      var called, results := ToolsOf(trail[..i]), ResultsIn(trail[..i]);
      CallArguments(ctx, called, results);
      if i == 0 {
        assert ToolAt(trail, 0) == GetCustomer;
      } else {
        OrderIsInQuestion(ctx, trail, i);
      }
    }
  }

  lemma CallArguments(ctx: Context, called: set<Tool>, results: map<Tool, ToolResult>)
    ensures var tc, id := NextCall(ctx, called, results), OrderId(ctx, results);
      && (tc.tool in {GetOrder, CheckRefundEligibility, IssueRefund} ==>
            id != "" && Get(tc.args, OrderIdKey) == Text(id))
      && (tc.tool == GetCustomer ==> tc.args == map[EmailKey := Text(ctx.email)])
      && (tc.tool in {SendReply, Escalate} ==> Get(tc.args, TicketIdKey) == Text(ctx.ticketId))
      && (tc.tool == Escalate ==> Get(tc.args, PriorityKey) == Text("high"))
  {
    hide OrderId, RefundAmount;
  }

  // ── the refund it proposes ──

  ghost predicate IsLine(trail: seq<TrailEntry>, k: nat, tool: Tool) {
    k < |trail| && trail[k].Called? && trail[k].entry.tool == tool
  }

  ghost predicate Checked(trail: seq<TrailEntry>, k: nat, m: Money) {
    IsLine(trail, k, CheckRefundEligibility) && m != Finite(0.0) && trail[k].entry.result.refundable == Some(m)
  }

  ghost predicate Priced(trail: seq<TrailEntry>, k: nat, m: Money) {
    IsLine(trail, k, GetOrder) && m != Finite(0.0) && trail[k].entry.result.amount == Some(m)
  }

  /** What the check called refundable; failing that, what the order cost; failing both, 50. */
  ghost predicate Proposed(trail: seq<TrailEntry>, m: Money) {
    || (exists k: nat :: Checked(trail, k, m))
    || (&& (forall k: nat, other :: !Checked(trail, k, other))
        && ((exists k: nat :: Priced(trail, k, m))
            || ((forall k: nat, other :: !Priced(trail, k, other)) && m == Finite(50.0))))
  }

  lemma ResultOfLine(trail: seq<TrailEntry>, n: nat, tool: Tool)
    requires Tidy(trail) && n <= |trail|
    ensures forall k: nat :: k < n && IsLine(trail, k, tool) ==>
      ResultOf(ResultsIn(trail[..n]), tool) == trail[k].entry.result
    ensures ResultOf(ResultsIn(trail[..n]), tool) != PLAIN ==> exists k: nat :: k < n && IsLine(trail, k, tool)
  {
    ResultsAreLines(trail, n, tool);
    if tool in ResultsIn(trail[..n]) {
      var k :| 0 <= k < n && ToolAt(trail, k) == tool;
      assert IsLine(trail, k, tool);
    }
    forall k: nat | k < n && IsLine(trail, k, tool)
      ensures ResultOf(ResultsIn(trail[..n]), tool) == trail[k].entry.result
    {
      assert ToolAt(trail, k) == tool;
    }
  }

  lemma TidyPrefix(trail: seq<TrailEntry>, n: nat)
    requires Tidy(trail) && n <= |trail|
    ensures Tidy(trail[..n])
  {
    forall i, j | 0 <= i < j < n ensures ToolAt(trail[..n], i) != ToolAt(trail[..n], j) {
      assert ToolAt(trail, i) != ToolAt(trail, j);
    }
  }

  lemma AmountIsProposed(trail: seq<TrailEntry>, n: nat)
    requires Tidy(trail) && n <= |trail|
    ensures Proposed(trail[..n], RefundAmount(ResultsIn(trail[..n])))
  {
    var before := trail[..n];
    TidyPrefix(trail, n);
    assert before[..n] == before;
    ResultOfLine(before, n, CheckRefundEligibility);
    ResultOfLine(before, n, GetOrder);
    hide ResultsIn, Tidy;
    var check, order := ResultOf(ResultsIn(before), CheckRefundEligibility), ResultOf(ResultsIn(before), GetOrder);
    if NonZero(check.refundable) {
      var k: nat :| k < n && IsLine(before, k, CheckRefundEligibility);
      assert Checked(before, k, check.refundable.value);
    } else if NonZero(order.amount) {
      var k: nat :| k < n && IsLine(before, k, GetOrder);
      assert Priced(before, k, order.amount.value);
    }
  }

  /** In every run, a refund line stands only on a refund ticket and after a check line that said eligible, of the
      same order, and it proposes what the lines before it show. */
  lemma ScriptedRefundsFollowTheCheck(ctx: Context, gate: Gate)
    requires ShapedGate(gate)
    ensures var trail := Rounds(Scripted(ctx), gate, START, MAX_ITER).trail;
      forall i: nat :: IsLine(trail, i, IssueRefund) ==>
        && ctx.category == RefundRequest
        && (exists k: nat :: k < i && IsLine(trail, k, CheckRefundEligibility)
              && trail[k].entry.result.eligible == Some(true)
              && Get(trail[k].entry.args, OrderIdKey) == Get(trail[i].entry.args, OrderIdKey))
        && Get(trail[i].entry.args, AmountKey).Number?
        && Proposed(trail[..i], Get(trail[i].entry.args, AmountKey).number)
  {
    ScriptedRunsKeepToTheTicket(ctx, gate);
    ScriptedRunsRemember(ctx, gate);
    hide Rounds, ResultsIn, NextCall, ToolsOf, OrderId, Proposed, RefundAmount;
    var trail := Rounds(Scripted(ctx), gate, START, MAX_ITER).trail;
    forall i: nat | IsLine(trail, i, IssueRefund)
      ensures
        && ctx.category == RefundRequest
        && (exists k: nat :: k < i && IsLine(trail, k, CheckRefundEligibility)
              && trail[k].entry.result.eligible == Some(true)
              && Get(trail[k].entry.args, OrderIdKey) == Get(trail[i].entry.args, OrderIdKey))
        && Get(trail[i].entry.args, AmountKey).Number?
        && Proposed(trail[..i], Get(trail[i].entry.args, AmountKey).number)
    {
      assert Asked(ctx, trail, i);
      RefundArguments(ctx, ToolsOf(trail[..i]), ResultsIn(trail[..i]));
      AmountIsProposed(trail, i);
      ResultOfLine(trail, i, CheckRefundEligibility);
      var k: nat :| k < i && IsLine(trail, k, CheckRefundEligibility);
      assert trail[k].entry.tool == CheckRefundEligibility;
    }
  }

  lemma RefundArguments(ctx: Context, called: set<Tool>, results: map<Tool, ToolResult>)
    ensures var tc := NextCall(ctx, called, results); tc.tool == IssueRefund ==>
      && ctx.category == RefundRequest && Get(tc.args, AmountKey) == Number(RefundAmount(results))
      && ResultOf(results, CheckRefundEligibility).eligible == Some(true)
  {
    hide OrderId, RefundAmount;
  }

  // ── which lines there are ──

  ghost predicate Has(trail: seq<TrailEntry>, tool: Tool) {
    exists i: nat :: IsLine(trail, i, tool)
  }

  /** The tools of a finished run, from the ticket and the lines themselves. */
  lemma ScriptedPlanOnTheTrail(ctx: Context, gate: Gate)
    requires ShapedGate(gate)
    ensures var trail := Rounds(Scripted(ctx), gate, START, MAX_ITER).trail;
      && trail != [] && IsLine(trail, 0, GetCustomer) && Has(trail, SearchKnowledgeBase)
      && var named := exists id :: InQuestion(ctx, trail, id);
         var eligible := exists k: nat ::
           IsLine(trail, k, CheckRefundEligibility) && trail[k].entry.result.eligible == Some(true);
         var warranty := exists k: nat ::
           IsLine(trail, k, CheckRefundEligibility) && trail[k].entry.result.warrantyActive;
         && (Has(trail, GetOrder) <==> named)
         && (Has(trail, CheckRefundEligibility) <==>
               named && (ctx.category == RefundRequest || ctx.category == Cancellation || ctx.category == Return))
         && (Has(trail, IssueRefund) <==> ctx.category == RefundRequest && eligible)
         && (Has(trail, Escalate) <==> ctx.category == Warranty || warranty)
         && (Has(trail, SendReply) <==> !(ctx.category == Warranty || warranty))
  {
    ScriptedRunsTerminate(ctx, gate);
    ScriptedRunsRemember(ctx, gate);
    ScriptedRunsFollowThePlan(ctx, gate);
    hide Rounds, ResultsIn, Scan, ShapedGate, AllAsked;
    var trail := Rounds(Scripted(ctx), gate, START, MAX_ITER).trail;
    assert trail[..|trail|] == trail && ToolAt(trail, 0) == GetCustomer;
    ToolsAreLines(trail);
    OrderIsInQuestion(ctx, trail, |trail|);
    ResultOfLine(trail, |trail|, CheckRefundEligibility);
    var check := ResultOf(ResultsIn(trail), CheckRefundEligibility);
    NeedsOnTheTrail(ctx, trail, ResultsIn(trail));
  }

  lemma ToolsAreLines(trail: seq<TrailEntry>)
    ensures forall tool :: tool in ToolsOf(trail) <==> Has(trail, tool)
  {
    forall tool ensures tool in ToolsOf(trail) <==> Has(trail, tool) {
      if tool in ToolsOf(trail) {
        var i :| 0 <= i < |trail| && trail[i].Called? && trail[i].entry.tool == tool;
        assert IsLine(trail, i, tool);
      }
    }
  }

  lemma NeedsOnTheTrail(ctx: Context, trail: seq<TrailEntry>, results: map<Tool, ToolResult>)
    requires forall tool :: Needed(ctx, results, tool) <==> Has(trail, tool)
    requires trail != [] && trail[0].Called?
    requires forall id :: InQuestion(ctx, trail, id) <==> id != "" && OrderId(ctx, results) == id
    requires forall k: nat :: IsLine(trail, k, CheckRefundEligibility) ==>
      ResultOf(results, CheckRefundEligibility) == trail[k].entry.result
    requires ResultOf(results, CheckRefundEligibility) != PLAIN ==>
      exists k: nat :: IsLine(trail, k, CheckRefundEligibility)
    ensures Has(trail, SearchKnowledgeBase)
    ensures
      var named := exists id :: InQuestion(ctx, trail, id);
      var eligible := exists k: nat ::
        IsLine(trail, k, CheckRefundEligibility) && trail[k].entry.result.eligible == Some(true);
      var warranty := exists k: nat ::
        IsLine(trail, k, CheckRefundEligibility) && trail[k].entry.result.warrantyActive;
      && (Has(trail, GetOrder) <==> named)
      && (Has(trail, CheckRefundEligibility) <==>
            named && (ctx.category == RefundRequest || ctx.category == Cancellation || ctx.category == Return))
      && (Has(trail, IssueRefund) <==> ctx.category == RefundRequest && eligible)
      && (Has(trail, Escalate) <==> ctx.category == Warranty || warranty)
      && (Has(trail, SendReply) <==> !(ctx.category == Warranty || warranty))
  {
    hide InQuestion, IsLine, OrderId;
    var id := OrderId(ctx, results);
    assert InQuestion(ctx, trail, id) <==> id != "";
  }
}
