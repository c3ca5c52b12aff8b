/** The trace monitors fire when the policy is taken away, and only then. */
module Monitors {
  import opened Schemas
  import opened Audit
  import opened Tools
  import opened Resilient
  import opened Evaluation
  import opened Engine
  import opened Metrics
  import opened Resolver
  import opened ProtocolInvariants
  import opened ScriptedRun
  import opened ScriptedRefund
  import opened GuardedRun

  /** A model that looks the customer up, refunds an order without a check and replies, all in one reply. */
  function Careless(d: Desk, orderId: string, amount: real): Llm {
    (messages: seq<Message>) =>
      Calls([ToolCall("customer", GetCustomer, map[]), RefundCall(orderId, amount),
             ReplyCall(d.ticketId, Text("done"))])
  }

  /** An engine without rules, on the ledger the ticket finds. */
  function Ruleless(d: Desk): Gate {
    (trail: seq<TrailEntry>, tc: ToolCall) =>
      var out := Guarded([], d.ticketId, Session(d.confidence, HistoryOf(trail)), d.hitl, d.world,
                         tc.tool, tc.args, d.weather(trail), d.base);
      Answer(out.result, out.decision)
  }

  /** The loop after a reply of three calls, the last of them terminal and allowed. */
  lemma ThreeCalls(llm: Llm, gate: Gate, a: ToolCall, b: ToolCall, c: ToolCall)
    requires llm(START.messages) == Calls([a, b, c]) && IsTerminal(c.tool)
    requires forall trail :: gate(trail, c).decision.verdict == Allow
    ensures var trail := Rounds(llm, gate, START, MAX_ITER).trail;
      && |trail| == 3 && trail[0].Called? && trail[1].Called? && trail[2].Called?
      && trail[0].entry.tool == a.tool && trail[2].entry.tool == c.tool
      && trail[1].entry == AuditEntry(b.tool, b.args, gate(trail[..1], b).result, gate(trail[..1], b).decision)
  {
    var asked := START.(rounds := 1, messages := START.messages + [AssistantCalls([a, b, c])]);
    assert [a, b, c][1..] == [b, c] && [b, c][1..] == [c] && [c][1..] == [];
    var s1 := OneCall(gate, asked, a);
    var s2 := OneCall(gate, s1, b);
    var s3 := OneCall(gate, s2, c);
    assert AllCalls(gate, asked, [a, b, c]) == AllCalls(gate, s1, [b, c]) == AllCalls(gate, s2, [c])
        == AllCalls(gate, s3, []) == s3;
    assert s3.trail[..1] == s1.trail;
    RoundsUnroll(llm, gate, START, MAX_ITER, s3, true);
  }

  lemma RulelessRefunds(d: Desk, trail: seq<TrailEntry>, orderId: string, amount: real)
    requires Calm(d) && orderId in d.world.orders && !d.world.orders[orderId].refunded
    ensures Ruleless(d)(trail, RefundCall(orderId, amount)).result.success == Some(true)
  {
    assert !d.weather(trail)(0).fails;
    var args := RefundCall(orderId, amount).args;
    assert args[OrderIdKey] == Text(orderId) && args[AmountKey] == Number(Finite(amount));
    assert ExecuteTool(d.world, IssueRefund, args, d.weather(trail)(0)).1.error == None;
    hide HistoryOf;
  }

  lemma RulelessAllows(d: Desk)
    ensures forall trail, tc :: Ruleless(d)(trail, tc).decision.verdict == Allow
  {
    hide HistoryOf, Resiliently;
    forall trail, tc: ToolCall ensures Ruleless(d)(trail, tc).decision.verdict == Allow {
      var s := Session(d.confidence, HistoryOf(trail));
      var out := Guarded([], d.ticketId, s, d.hitl, d.world, tc.tool, tc.args, d.weather(trail), d.base);
      assert out.decision == Evaluate([], tc.tool, tc.args, s) == Decision(Allow, DefaultAllow);
      assert Ruleless(d)(trail, tc) == Answer(out.result, out.decision);
    }
  }

  lemma OneViolation(trail: seq<TrailEntry>)
    requires |trail| == 3 && trail[0].Called? && trail[1].Called? && trail[2].Called?
    requires trail[0].entry.tool == GetCustomer && trail[2].entry.tool == SendReply
    requires trail[1].entry.tool == IssueRefund && trail[1].entry.result.success == Some(true)
    ensures CountUnchecked(trail, 3) == 1 && Violations(trail, 3) != {} && FirstTool(trail) == Some(GetCustomer)
  {
    assert Unchecked(trail, 1);
    assert CountUnchecked(trail, 0) == 0 && CountUnchecked(trail, 1) == 0 && CountUnchecked(trail, 2) == 1;
    CountIsCardinality(trail, 3);
    hide Violations;
  }

  /** On any ledger with an open order both monitors fire on this model's run without rules: one violation,
      and an invalid sequence although the customer came first. Behind the policy they accept its run. */
  lemma MonitorsNeedThePolicy(d: Desk, orderId: string, amount: real)
    requires Calm(d) && orderId in d.world.orders && !d.world.orders[orderId].refunded
    ensures var without := Rounds(Careless(d, orderId, amount), Ruleless(d), START, MAX_ITER).trail;
      && CountUnchecked(without, |without|) == 1 && Violations(without, |without|) != {}
      && FirstTool(without) == Some(GetCustomer)
    ensures var behind := Rounds(Careless(d, orderId, amount), GuardGate(d), START, MAX_ITER).trail;
      CountUnchecked(behind, |behind|) == 0
  {
    var llm, gate := Careless(d, orderId, amount), Ruleless(d);
    var refund := RefundCall(orderId, amount);
    RulelessAllows(d);
    ThreeCalls(llm, gate, ToolCall("customer", GetCustomer, map[]), refund, ReplyCall(d.ticketId, Text("done")));
    RulelessRefunds(d, Rounds(llm, gate, START, MAX_ITER).trail[..1], orderId, amount);
    GuardGateIsAPolicyGate(d);
    hide Rounds, GuardGate, PolicyGate, Calm, Ruleless, Careless, Prices;
    var trail := Rounds(llm, gate, START, MAX_ITER).trail;
    OneViolation(trail);
    RunsBehindThePolicyAreClean(llm, GuardGate(d), Prices(d.world), d.confidence);
  }
}
