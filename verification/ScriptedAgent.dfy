/** The scripted offline agent: which tool it calls next (core/llm_client.py). */
module ScriptedAgent {
  import opened Schemas
  import opened Audit
  import opened Tools
  import opened Resolver

  datatype Category = RefundRequest | Cancellation | Return | Warranty | OtherCategory(name: string)

  /** What the agent reads of the ticket; an absent order id is the empty string. */
  datatype Context = Context(ticketId: string, email: string, category: Category, extracted: string)

  // ── scanning the conversation ──

  datatype Scanned = Scanned(names: map<string, Tool>, called: set<Tool>, results: map<Tool, ToolResult>)

  function NameCalls(names: map<string, Tool>, tcs: seq<ToolCall>): map<string, Tool>
    decreases |tcs|
  {
    if tcs == [] then names else NameCalls(names[tcs[0].id := tcs[0].tool], tcs[1..])
  }

  function ScanOne(s: Scanned, m: Message): Scanned {
    match m
    case AssistantCalls(tcs) => s.(names := NameCalls(s.names, tcs), called := s.called + set tc | tc in tcs :: tc.tool)
    case ToolAnswer(id, result) =>
      var name := if id in s.names then s.names[id] else Unregistered("");
      s.(results := s.results[name := result])
    case _ => s
  }

  function Scan(messages: seq<Message>): Scanned {
    if messages == [] then Scanned(map[], {}, map[])
    else ScanOne(Scan(messages[..|messages| - 1]), messages[|messages| - 1])
  }

  method ScanHistory(messages: seq<Message>) returns (called: set<Tool>, results: map<Tool, ToolResult>)
    ensures called == Scan(messages).called && results == Scan(messages).results
  {
    var idToName: map<string, Tool> := map[];
    called, results := {}, map[];
    for i := 0 to |messages|
      invariant Scanned(idToName, called, results) == Scan(messages[..i])
    {
      assert messages[..i + 1][..i] == messages[..i];
      match messages[i] {
        case AssistantCalls(tcs) =>
          ghost var names, before := idToName, called;
          for k := 0 to |tcs|
            invariant NameCalls(names, tcs) == NameCalls(idToName, tcs[k..])
            invariant called == before + set tc | tc in tcs[..k] :: tc.tool
          {
            assert tcs[k..][1..] == tcs[k + 1..];
            assert tcs[..k + 1] == tcs[..k] + [tcs[k]];
            idToName := idToName[tcs[k].id := tcs[k].tool];
            called := called + {tcs[k].tool};
          }
          assert tcs[..|tcs|] == tcs;
        case ToolAnswer(id, result) =>
          var name := if id in idToName then idToName[id] else Unregistered("");
          results := results[name := result];
        case _ =>
      }
    }
    assert messages[..|messages|] == messages;
  }

  // ── the decision ──

  function ResultOf(results: map<Tool, ToolResult>, tool: Tool): ToolResult {
    if tool in results then results[tool] else PLAIN
  }

  function OrderId(ctx: Context, results: map<Tool, ToolResult>): string {
    if ctx.extracted != "" then ctx.extracted
    else match ResultOf(results, GetCustomer).firstOrder
      case Some(id) => id
      case None => ""
  }

  predicate NonZero(m: Option<Money>) {
    m.Some? && m.value != Finite(0.0)
  }

  function RefundAmount(results: map<Tool, ToolResult>): Money {
    var refundable := ResultOf(results, CheckRefundEligibility).refundable;
    if NonZero(refundable) then refundable.value
    else if NonZero(ResultOf(results, GetOrder).amount) then ResultOf(results, GetOrder).amount.value
    else Finite(50.0)
  }

  function MakeCall(tool: Tool, args: Args): ToolCall {
    ToolCall("call_" + Name(tool), tool, args)
  }

  function NextCall(ctx: Context, called: set<Tool>, results: map<Tool, ToolResult>): ToolCall {
    var orderId := OrderId(ctx, results);
    var elig := ResultOf(results, CheckRefundEligibility);
    if GetCustomer !in called then MakeCall(GetCustomer, map[EmailKey := Text(ctx.email)])
    else if orderId != "" && GetOrder !in called then MakeCall(GetOrder, map[OrderIdKey := Text(orderId)])
    else if SearchKnowledgeBase !in called then MakeCall(SearchKnowledgeBase, map[QueryKey := Text("policy")])
    else if ctx.category in {RefundRequest, Cancellation, Return} && orderId != "" && CheckRefundEligibility !in called
    then
      MakeCall(CheckRefundEligibility, map[OrderIdKey := Text(orderId)])
    else if ctx.category == RefundRequest && orderId != "" && IssueRefund !in called && elig.eligible == Some(true) then
      MakeCall(IssueRefund, map[OrderIdKey := Text(orderId), AmountKey := Number(RefundAmount(results))])
    else if ctx.category == Warranty || elig.warrantyActive then
      MakeCall(Escalate,
               map[TicketIdKey := Text(ctx.ticketId), SummaryKey := Text("case"), PriorityKey := Text("high")])
    else MakeCall(SendReply, map[TicketIdKey := Text(ctx.ticketId), MessageKey := Text("reply")])
  }

  /** The agent as a model: it reads only the conversation. */
  function Scripted(ctx: Context): Llm {
    (messages: seq<Message>) => Calls([NextCall(ctx, Scan(messages).called, Scan(messages).results)])
  }

  // ── the conversation remembers the trail, for any model ──

  function ToolsOf(trail: seq<TrailEntry>): set<Tool> {
    set i | 0 <= i < |trail| && trail[i].Called? :: trail[i].entry.tool
  }

  lemma ToolsGrow(trail: seq<TrailEntry>, e: TrailEntry)
    ensures ToolsOf(trail + [e]) == ToolsOf(trail) + if e.Called? then {e.entry.tool} else {}
  {
    var all := trail + [e];
    forall t ensures t in ToolsOf(all) <==> t in ToolsOf(trail) || (e.Called? && t == e.entry.tool) {
      if t in ToolsOf(trail) {
        var i :| 0 <= i < |trail| && trail[i].Called? && trail[i].entry.tool == t;
        assert all[i] == trail[i];
      }
      if e.Called? && t == e.entry.tool {
        assert all[|trail|] == e;
      }
    }
  }

  lemma ScanAppend(messages: seq<Message>, m: Message)
    ensures Scan(messages + [m]) == ScanOne(Scan(messages), m)
  {
    assert (messages + [m])[..|messages + [m]| - 1] == messages;
  }

  lemma {:induction false} AnswersKeepCalled(gate: Gate, s: Loop, tcs: seq<ToolCall>)
    ensures var s' := AllCalls(gate, s, tcs);
      && Scan(s'.messages).called == Scan(s.messages).called
      && ToolsOf(s'.trail) == ToolsOf(s.trail) + set tc | tc in tcs :: tc.tool
    decreases |tcs|
  {
    hide Scan, ToolsOf, NameCalls;
    if tcs != [] {
      var s1 := OneCall(gate, s, tcs[0]);
      ScanAppend(s.messages, s1.messages[|s.messages|]);
      ToolsGrow(s.trail, s1.trail[|s.trail|]);
      AnswersKeepCalled(gate, s1, tcs[1..]);
      assert tcs == [tcs[0]] + tcs[1..];
    }
  }

  /** Whatever the model, the tools recovered from the conversation are those of the audit trail. */
  lemma {:induction false} ScanRecoversTrail(llm: Llm, gate: Gate, s: Loop, left: nat)
    requires Scan(s.messages).called == ToolsOf(s.trail)
    ensures var s' := Rounds(llm, gate, s, left); Scan(s'.messages).called == ToolsOf(s'.trail)
    decreases left
  {
    hide Scan, ToolsOf, OneRound;
    if left > 0 {
      var (next, stop) := OneRound(llm, gate, s);
      RoundRecoversTrail(llm, gate, s);
      if !stop {
        ScanRecoversTrail(llm, gate, next, left - 1);
      }
    }
  }

  lemma RoundRecoversTrail(llm: Llm, gate: Gate, s: Loop)
    requires Scan(s.messages).called == ToolsOf(s.trail)
    ensures var next := OneRound(llm, gate, s).0; Scan(next.messages).called == ToolsOf(next.trail)
  {
    hide Scan, ToolsOf, AllCalls, NameCalls;
    var reply := llm(s.messages);
    if reply.Raised? {
      ToolsGrow(s.trail, LlmError);
    } else if reply.Silent? || reply.calls == [] {
      ScanAppend(s.messages, AssistantText);
      ScanAppend(s.messages + [AssistantText], Nudge);
      assert s.messages + [AssistantText, Nudge] == s.messages + [AssistantText] + [Nudge];
    } else {
      var asked := s.(rounds := s.rounds + 1, messages := s.messages + [AssistantCalls(reply.calls)]);
      ScanAppend(s.messages, AssistantCalls(reply.calls));
      AnswersKeepCalled(gate, asked, reply.calls);
    }
  }
}
