/** Runs of the resolver behind guard() itself. */
module GuardedRun {
  import opened Schemas
  import opened Audit
  import opened Rules
  import opened Tools
  import opened Resilient
  import opened Retries
  import opened Transience
  import opened Evaluation
  import opened Hitl
  import opened Engine
  import opened Metrics
  import opened Resolver
  import opened ResolverFacts
  import opened ProtocolInvariants
  import opened Health
  import opened ScriptedAgent
  import opened ScriptedRun
  import opened ScriptedRefund

  // ── when a terminal call goes through ──

  /** Every attempt the budget allows meets an injected failure. */
  ghost predicate AllFail(env: nat -> Env) {
    forall i: nat :: i <= TOOL_MAX_RETRIES ==> env(i).fails
  }

  /** A well-formed terminal call with something to say. */
  predicate Deliverable(tool: Tool, args: Args) {
    IsTerminal(tool) && Binds(tool, args) && (tool == SendReply ==> !IsBlank(args[MessageKey]))
  }

  lemma TerminalAttempt(w: World, tool: Tool, args: Args, env: Env)
    requires IsTerminal(tool)
    ensures ExecuteTool(w, tool, args, env).1.error == None <==> Deliverable(tool, args) && !env.fails
    ensures Deliverable(tool, args) ==> (IsTransient(ExecuteTool(w, tool, args, env).1) <==> env.fails)
  {
    RetriedIff(w, tool, args, env);
    hide IsTransient, HasMarker;
  }

  lemma TerminalBudget(w: World, tool: Tool, args: Args, env: nat -> Env, base: real)
    requires IsTerminal(tool)
    ensures Resiliently(w, tool, args, env, TOOL_MAX_RETRIES, base).result.error == None
            <==> Deliverable(tool, args) && !AllFail(env)
  {
    hide Resiliently, ExecuteTool, Deliverable, IsTransient, Binds, Float;
    RetryBudget(w, tool, args, env, TOOL_MAX_RETRIES, base);
    var k := Resiliently(w, tool, args, env, TOOL_MAX_RETRIES, base).attempts - 1;
    TerminalAttempt(w, tool, args, env(k));
    if Deliverable(tool, args) && !AllFail(env) {
      var i: nat :| i <= TOOL_MAX_RETRIES && !env(i).fails;
      TerminalAttempt(w, tool, args, env(i));
      assert k <= i;
    }
  }

  /** Terminal tools are always allowed, and go through exactly if the call is deliverable and one of its
      attempts is spared. */
  lemma TerminalAnswerIff(ticketId: string, s: Session, hitl: seq<HitlItem>, w: World,
                          tool: Tool, args: Args, env: nat -> Env, base: real)
    requires IsTerminal(tool)
    ensures var out := Guarded(DefaultRules(), ticketId, s, hitl, w, tool, args, env, base);
      && out.decision.verdict == Allow
      && (out.result.error == None <==> Deliverable(tool, args) && !AllFail(env))
  {
    DefaultVerdicts(tool, args, s);
    hide Evaluate, Resiliently, Deliverable, AllFail;
    TerminalBudget(w, tool, args, env, base);
  }

  // ── what that makes of the ticket ──

  /** The failures injected into the attempts of the call made after a trail. */
  type Weather = seq<TrailEntry> -> (nat -> Env)

  ghost predicate GuardAnswers(answer: Answer, tc: ToolCall, env: nat -> Env) {
    exists ticketId, s, hitl, w, base ::
      var out := Guarded(DefaultRules(), ticketId, s, hitl, w, tc.tool, tc.args, env, base);
      answer == Answer(out.result, out.decision)
  }

  /** Every answer is one of guard()'s, on whatever history, queue and ledger. */
  ghost predicate FromGuard(gate: Gate, weather: Weather) {
    forall trail, tc :: GuardAnswers(gate(trail, tc), tc, weather(trail))
  }

  /** Its answers to terminal calls are: allowed, and successful exactly as guard()'s. */
  ghost predicate TerminalsGuarded(gate: Gate, weather: Weather) {
    forall trail, tc: ToolCall :: IsTerminal(tc.tool) ==> TerminalGuarded(gate(trail, tc), tc, weather(trail))
  }

  ghost predicate TerminalGuarded(answer: Answer, tc: ToolCall, env: nat -> Env) {
    && answer.decision.verdict == Allow
    && (answer.result.error == None <==> Deliverable(tc.tool, tc.args) && !AllFail(env))
  }

  lemma GuardGuardsTerminals(gate: Gate, weather: Weather)
    requires FromGuard(gate, weather)
    ensures TerminalsGuarded(gate, weather)
  {
    hide Deliverable, AllFail, Guarded;
    forall trail, tc: ToolCall | IsTerminal(tc.tool) ensures TerminalGuarded(gate(trail, tc), tc, weather(trail)) {
      assert GuardAnswers(gate(trail, tc), tc, weather(trail));
      var ticketId, s, hitl, w, base :| (
        var out := Guarded(DefaultRules(), ticketId, s, hitl, w, tc.tool, tc.args, weather(trail), base);
        gate(trail, tc) == Answer(out.result, out.decision));
      TerminalAnswerIff(ticketId, s, hitl, w, tc.tool, tc.args, weather(trail), base);
    }
  }

  /** Line i is a terminal call that was deliverable and met an attempt without failure. */
  ghost predicate Delivered(trail: seq<TrailEntry>, i: nat, tool: Tool, weather: Weather)
    requires i < |trail|
  {
    && trail[i].Called? && trail[i].entry.tool == tool
    && Deliverable(tool, trail[i].entry.args) && !AllFail(weather(trail[..i]))
  }

  lemma FinishedIffDelivered(gate: Gate, weather: Weather, trail: seq<TrailEntry>, i: nat, tool: Tool)
    requires TerminalsGuarded(gate, weather) && TrailAnswered(gate, trail) && i < |trail| && IsTerminal(tool)
    ensures Finished(trail[i], tool) <==> Delivered(trail, i, tool, weather)
  {
    hide Deliverable, AllFail;
    assert Answered(gate, trail, i);
    if trail[i].Called? && trail[i].entry.tool == tool {
      var e := trail[i].entry;
      var id: string :| AnsweredAs(gate, trail, i, id);
      var tc := ToolCall(id, e.tool, e.args);
      assert TerminalGuarded(gate(trail[..i], tc), tc, weather(trail[..i]));
    }
  }

  /** The status of a run behind guard(), from the calls it made: escalated if some escalation was
      deliverable and spared by one attempt, else resolved if some reply was, else incomplete. */
  lemma StatusIff(llm: Llm, gate: Gate, weather: Weather)
    requires TerminalsGuarded(gate, weather)
    ensures var trail := Rounds(llm, gate, START, MAX_ITER).trail;
      var escalated := exists i :: 0 <= i < |trail| && Delivered(trail, i, Escalate, weather);
      var replied := exists i :: 0 <= i < |trail| && Delivered(trail, i, SendReply, weather);
      && (StatusOf(trail) == Escalated <==> escalated)
      && (StatusOf(trail) == Resolved <==> replied && !escalated)
      && (StatusOf(trail) == Incomplete <==> !replied && !escalated)
  {
    RunsAreAnswered(llm, gate, START, MAX_ITER);
    hide Rounds, TerminalsGuarded, TrailAnswered, Delivered, Finished;
    var trail := Rounds(llm, gate, START, MAX_ITER).trail;
    forall i | 0 <= i < |trail|
      ensures Finished(trail[i], Escalate) <==> Delivered(trail, i, Escalate, weather)
      ensures Finished(trail[i], SendReply) <==> Delivered(trail, i, SendReply, weather)
    {
      FinishedIffDelivered(gate, weather, trail, i, Escalate);
      FinishedIffDelivered(gate, weather, trail, i, SendReply);
    }
  }

  // ── guard() alone with one ticket ──

  /** A ticket, the ledger and the queue it finds, and the failures it will meet. */
  datatype Desk = Desk(ticketId: string, confidence: real, world: World, hitl: seq<HitlItem>, weather: Weather,
                       base: real)

  /** The desk once the calls of a trail have been guarded there, one after the other. */
  function After(d: Desk, trail: seq<TrailEntry>): Desk
    decreases |trail|, 0
  {
    if trail == [] then d
    else
      var before, last := trail[..|trail| - 1], trail[|trail| - 1];
      if last.LlmError? then After(d, before)
      else
        var out := GuardedAt(d, before, last.entry.tool, last.entry.args);
        After(d, before).(world := out.world, hitl := out.hitl)
  }

  function GuardedAt(d: Desk, trail: seq<TrailEntry>, tool: Tool, args: Args): GuardOutcome
    decreases |trail|, 1
  {
    var now := After(d, trail);
    Guarded(DefaultRules(), d.ticketId, Session(d.confidence, HistoryOf(trail)), now.hitl, now.world,
            tool, args, d.weather(trail), d.base)
  }

  function GuardGate(d: Desk): Gate {
    (trail: seq<TrailEntry>, tc: ToolCall) =>
      var out := GuardedAt(d, trail, tc.tool, tc.args);
      Answer(out.result, out.decision)
  }

  lemma GuardGateIsFromGuard(d: Desk)
    ensures FromGuard(GuardGate(d), d.weather)
  {
    hide Guarded, After, HistoryOf;
    forall trail, tc ensures GuardAnswers(GuardGate(d)(trail, tc), tc, d.weather(trail)) {
      var now := After(d, trail);
      var s := Session(d.confidence, HistoryOf(trail));
      var out := Guarded(DefaultRules(), d.ticketId, s, now.hitl, now.world,
                         tc.tool, tc.args, d.weather(trail), d.base);
      assert GuardGate(d)(trail, tc) == Answer(out.result, out.decision);
    }
  }

  lemma GuardKeepsPrices(ticketId: string, s: Session, hitl: seq<HitlItem>, w: World,
                         tool: Tool, args: Args, env: nat -> Env, base: real)
    ensures Prices(Guarded(DefaultRules(), ticketId, s, hitl, w, tool, args, env, base).world) == Prices(w)
  {
    hide Evaluate, Resiliently, ExecuteTool, Prices;
    if Judge(tool, args, s).verdict == Allow {
      AllowedIsPayable(tool, args, s);
      RetryBudget(w, tool, args, env, TOOL_MAX_RETRIES, base);
      ExecutionIsFaithful(w, tool, args, env(Resiliently(w, tool, args, env, TOOL_MAX_RETRIES, base).attempts - 1));
    }
  }

  lemma {:induction false} AfterKeepsPrices(d: Desk, trail: seq<TrailEntry>)
    ensures Prices(After(d, trail).world) == Prices(d.world)
  {
    hide Guarded, Prices, HistoryOf;
    if trail != [] {
      var before, last := trail[..|trail| - 1], trail[|trail| - 1];
      AfterKeepsPrices(d, before);
      if last.Called? {
        var now := After(d, before);
        GuardKeepsPrices(d.ticketId, Session(d.confidence, HistoryOf(before)), now.hitl, now.world,
                         last.entry.tool, last.entry.args, d.weather(before), d.base);
      }
    }
  }

  /** So what is proved of policy gates holds of guard() at a desk, which also leaves the history that the
      trail shows. */
  lemma GuardGateIsAPolicyGate(d: Desk)
    requires forall trail, i: nat :: LookupShape(d.weather(trail)(i))
    ensures PolicyGate(GuardGate(d), Prices(d.world), d.confidence)
    ensures forall trail, tool, args ::
      var out := GuardedAt(d, trail, tool, args);
      out.calls == HistoryOf(trail + [Called(AuditEntry(tool, args, out.result, out.decision))])
  {
    hide Guarded, Judged, After, HistoryOf, Prices;
    forall trail, tc: ToolCall
      ensures Judged(Prices(d.world), d.confidence, trail, tc, GuardGate(d)(trail, tc))
      ensures
        var out := GuardedAt(d, trail, tc.tool, tc.args);
        out.calls == HistoryOf(trail + [Called(AuditEntry(tc.tool, tc.args, out.result, out.decision))])
    {
      var now := After(d, trail);
      AfterKeepsPrices(d, trail);
      GuardIsAPolicyGate(d.ticketId, d.confidence, trail, now.hitl, now.world, tc, d.weather(trail), d.base);
    }
    forall trail, tool, args
      ensures
        var out := GuardedAt(d, trail, tool, args);
        out.calls == HistoryOf(trail + [Called(AuditEntry(tool, args, out.result, out.decision))])
    {
      var tc := ToolCall("", tool, args);
      assert GuardedAt(d, trail, tc.tool, tc.args) == GuardedAt(d, trail, tool, args);
    }
  }

  // ── a run of one reply ──

  function ReplyCall(ticketId: string, message: Value): ToolCall {
    ToolCall("call", SendReply, map[TicketIdKey := Text(ticketId), MessageKey := message])
  }

  function Replying(ticketId: string, message: Value): Llm {
    (messages: seq<Message>) => Calls([ReplyCall(ticketId, message)])
  }

  function EntryOf(gate: Gate, s: Loop, tc: ToolCall): AuditEntry {
    var answer := gate(s.trail, tc);
    AuditEntry(tc.tool, tc.args, answer.result, answer.decision)
  }

  /** What a round with a single call does to the loop. */
  lemma RoundEffect(llm: Llm, gate: Gate, s: Loop, tc: ToolCall)
    requires llm(s.messages) == Calls([tc])
    ensures var (next, stop) := OneRound(llm, gate, s); var e := EntryOf(gate, s, tc);
      && next.trail == s.trail + [Called(e)] && |next.messages| == |s.messages| + 2 && next.calls == s.calls + 1
      && next.errors == s.errors + (if IsError(e.result) then 1 else 0)
      && next.blocked == s.blocked + (if e.decision.verdict != Allow then [e.decision] else [])
      && next.terminal == stop == (s.terminal || (IsTerminal(tc.tool) && e.decision.verdict == Allow))
  {
    RoundOfOneCall(llm, gate, s, tc);
    hide OneRound;
  }

  lemma ReplyRound(d: Desk, message: Value) returns (e: TrailEntry)
    ensures var s := Rounds(Replying(d.ticketId, message), GuardGate(d), START, MAX_ITER);
      s.terminal && s.calls == 1 && s.trail == [e]
    ensures e.Called? && e.entry.tool == SendReply && e.entry.args == ReplyCall(d.ticketId, message).args
  {
    var llm, gate, tc := Replying(d.ticketId, message), GuardGate(d), ReplyCall(d.ticketId, message);
    var now := After(d, []);
    TerminalAnswerIff(d.ticketId, Session(d.confidence, HistoryOf([])), now.hitl, now.world,
                      tc.tool, tc.args, d.weather([]), d.base);
    assert gate([], tc).decision.verdict == Allow;
    hide OneRound, Rounds, GuardGate, Guarded, AllFail, Deliverable;
    RoundEffect(llm, gate, START, tc);
    var (next, stop) := OneRound(llm, gate, START);
    RoundsUnroll(llm, gate, START, MAX_ITER, next, stop);
    e := Called(EntryOf(gate, START, tc));
  }

  lemma ReplyIsDeliverableIff(ticketId: string, message: Value)
    ensures Deliverable(SendReply, ReplyCall(ticketId, message).args) <==> !IsBlank(message)
  {
  }

  /** A model that replies at once ends the loop with its first call; the ticket is resolved exactly if the
      message is not blank and one attempt is spared, and is incomplete otherwise. */
  lemma ReplyRun(d: Desk, message: Value)
    ensures var s := Rounds(Replying(d.ticketId, message), GuardGate(d), START, MAX_ITER);
      && s.terminal && s.calls == 1
      && (StatusOf(s.trail) == Resolved <==> !IsBlank(message) && !AllFail(d.weather([])))
      && (StatusOf(s.trail) == Incomplete <==> IsBlank(message) || AllFail(d.weather([])))
  {
    hide Rounds, AllFail, StatusOf, GuardGate, FromGuard, TerminalsGuarded, Deliverable, Guarded, OneRound;
    var llm, gate := Replying(d.ticketId, message), GuardGate(d);
    var e := ReplyRound(d, message);
    ReplyIsDeliverableIff(d.ticketId, message);
    GuardGateIsFromGuard(d);
    GuardGuardsTerminals(GuardGate(d), d.weather);
    StatusIff(llm, gate, d.weather);
    var trail := Rounds(llm, gate, START, MAX_ITER).trail;
    assert trail[..0] == [] && trail[0] == e;
    assert Delivered(trail, 0, SendReply, d.weather) <==> !IsBlank(message) && !AllFail(d.weather([]));
  }

  // ── the monitors on runs of the loop ──

  lemma {:induction false} HistoryShows(trail: seq<TrailEntry>, rec: ToolCallRecord) returns (j: nat)
    requires rec in HistoryOf(trail)
    ensures j < |trail| && trail[j].Called? && RecordOf(trail[j]) == rec
  {
    var last := |trail| - 1;
    if trail[last].Called? && RecordOf(trail[last]) == rec {
      j := last;
    } else {
      j := HistoryShows(trail[..last], rec);
    }
  }

  lemma JudgedRefundIsChecked(prices: map<string, real>, confidence: real, trail: seq<TrailEntry>, i: nat, tc: ToolCall)
    requires i < |trail| && IsExecutedRefund(trail[i])
    requires tc.tool == trail[i].entry.tool && tc.args == trail[i].entry.args
    requires Judged(prices, confidence, trail[..i], tc, Answer(trail[i].entry.result, trail[i].entry.decision))
    ensures !Unchecked(trail, i)
  {
    var history := HistoryOf(trail[..i]);
    DefaultVerdicts(tc.tool, tc.args, Session(confidence, history));
    hide Judge, HistoryOf;
    EligibilityIsLatestCheck(history, OrderOf(tc.args));
    var k :| 0 <= k < |history| && IsCheckFor(history[k], OrderOf(tc.args));
    var j := HistoryShows(trail[..i], history[k]);
    assert trail[..i][j] == trail[j];
    assert IsCheck(trail[j]) && OrderIdOf(trail[j]) == OrderIdOf(trail[i]);
  }

  /** Behind the policy no run of the loop, for any model, has a safety violation. */
  lemma RunsBehindThePolicyAreClean(llm: Llm, gate: Gate, prices: map<string, real>, confidence: real)
    requires PolicyGate(gate, prices, confidence)
    ensures var trail := Rounds(llm, gate, START, MAX_ITER).trail; CountUnchecked(trail, |trail|) == 0
  {
    RunsAreAnswered(llm, gate, START, MAX_ITER);
    hide Rounds, Judged;
    var trail := Rounds(llm, gate, START, MAX_ITER).trail;
    forall i | 0 <= i < |trail| ensures !Unchecked(trail, i) {
      if IsExecutedRefund(trail[i]) {
        assert Answered(gate, trail, i);
        var id: string :| AnsweredAs(gate, trail, i, id);
        var tc := ToolCall(id, trail[i].entry.tool, trail[i].entry.args);
        assert Judged(prices, confidence, trail[..i], tc, gate(trail[..i], tc));
        JudgedRefundIsChecked(prices, confidence, trail, i, tc);
      }
    }
    NoViolationIff(trail, |trail|);
  }

  /** And what tool_sequence_valid asks holds of every run of the scripted agent there. */
  lemma ScriptedSequencesAreValid(ctx: Context, gate: Gate, prices: map<string, real>, confidence: real)
    requires PolicyGate(gate, prices, confidence)
    ensures var trail := Rounds(Scripted(ctx), gate, START, MAX_ITER).trail;
      FirstTool(trail) == Some(GetCustomer) && CountUnchecked(trail, |trail|) == 0
  {
    PolicyGatesAreShaped(gate, prices, confidence);
    ScriptedRunsTerminate(ctx, gate);
    RunsBehindThePolicyAreClean(Scripted(ctx), gate, prices, confidence);
    hide Rounds, PolicyGate;
    var trail := Rounds(Scripted(ctx), gate, START, MAX_ITER).trail;
    assert ToolAt(trail, 0) == GetCustomer;
  }

  // ── a clean run on which policy intervenes ──

  function CheckCall(orderId: string): ToolCall {
    ToolCall("check", CheckRefundEligibility, map[OrderIdKey := Text(orderId)])
  }

  function RefundCall(orderId: string, amount: real): ToolCall {
    ToolCall("refund", IssueRefund, map[OrderIdKey := Text(orderId), AmountKey := Number(Finite(amount))])
  }

  /** A model that checks an order, asks for a refund of it and replies. */
  function Asking(d: Desk, orderId: string, amount: real): Llm {
    (messages: seq<Message>) =>
      if |messages| == 2 then Calls([CheckCall(orderId)])
      else if |messages| == 4 then Calls([RefundCall(orderId, amount)])
      else Calls([ReplyCall(d.ticketId, Text("parked"))])
  }

  /** An eligible order for which this amount is allowed, but only by a human. */
  predicate NeedsHuman(w: World, orderId: string, amount: real) {
    && orderId != "" && EligibilityCheck(w, Text(orderId)).eligible == Some(true) && orderId in w.orders
    && 200.0 < amount <= w.orders[orderId].amount + 0.01
  }

  /** No failure is injected, and look-ups answer with records. */
  ghost predicate Calm(d: Desk) {
    forall trail, i: nat :: !d.weather(trail)(i).fails && LookupShape(d.weather(trail)(i))
  }

  /** The trail line of an allowed check, with the answer that the table gives. */
  predicate CheckLine(e: TrailEntry, w: World, orderId: string) {
    && e.Called? && e.entry.tool == CheckRefundEligibility && e.entry.args == CheckCall(orderId).args
    && e.entry.result == EligibilityCheck(w, Text(orderId)) && e.entry.decision.verdict == Allow
  }

  lemma CheckAnswer(d: Desk, orderId: string)
    requires Calm(d) && EligibilityCheck(d.world, Text(orderId)).eligible == Some(true)
    ensures var tc := CheckCall(orderId); var answer := GuardGate(d)([], tc);
      && answer.result == EligibilityCheck(d.world, Text(orderId)) && answer.decision.verdict == Allow
  {
    var tc := CheckCall(orderId);
    DefaultVerdicts(tc.tool, tc.args, Session(d.confidence, []));
    EligibleAnswers(d.world, Text(orderId));
    assert !d.weather([])(0).fails;
    hide Evaluate, EligibilityCheck;
    assert ExecuteTool(d.world, tc.tool, tc.args, d.weather([])(0))
        == (d.world, EligibilityCheck(d.world, Text(orderId)));
  }

  lemma RefundAnswer(d: Desk, orderId: string, amount: real, checked: TrailEntry)
    requires NeedsHuman(d.world, orderId, amount)
    requires CheckLine(checked, d.world, orderId)
    ensures var answer := GuardGate(d)([checked], RefundCall(orderId, amount));
      answer.result == PLAIN && answer.decision.verdict == RequireHuman
  {
    hide EligibilityCheck, NotesOf, ExecuteTool, Resiliently, Evaluate, After;
    var args := RefundCall(orderId, amount).args;
    EligibleAnswers(d.world, Text(orderId));
    HistoryGrows([], checked);
    assert [] + [checked] == [checked];
    var history := HistoryOf([checked]);
    assert history == [RecordOf(checked)];
    assert IsCheckFor(history[0], Text(orderId));
    assert EligibilityResult(history, Text(orderId)) == Some(checked.entry.result);
    assert Get(args, OrderIdKey) == Text(orderId) && Get(args, AmountKey) == Number(Finite(amount));
    DefaultVerdicts(IssueRefund, args, Session(d.confidence, history));
    hide HistoryOf;
  }

  lemma ReplyAnswer(d: Desk, trail: seq<TrailEntry>)
    requires Calm(d)
    ensures var answer := GuardGate(d)(trail, ReplyCall(d.ticketId, Text("parked")));
      answer.decision.verdict == Allow && !IsError(answer.result)
  {
    var now, tc, s := After(d, trail), ReplyCall(d.ticketId, Text("parked")), Session(d.confidence, HistoryOf(trail));
    assert !d.weather(trail)(0).fails;
    assert !IsBlank(Text("parked")) by {
      assert "parked"[0] == 'p';
    }
    hide After, HistoryOf, Guarded;
    TerminalAnswerIff(d.ticketId, s, now.hitl, now.world, tc.tool, tc.args, d.weather(trail), d.base);
    GuardAnswersAreShaped(d.ticketId, s, now.hitl, now.world, tc.tool, tc.args, d.weather(trail), d.base);
  }

  ghost predicate RepliedLast(trail: seq<TrailEntry>) {
    && trail != [] && Finished(trail[|trail| - 1], SendReply)
    && forall i :: 0 <= i < |trail| ==> !Finished(trail[i], Escalate)
  }

  /** The loop after some rounds of asking: no error and no terminal call yet. */
  ghost predicate Asked(s: Loop, trail: seq<TrailEntry>, blocked: nat) {
    && s.trail == trail && s.calls == |trail| && |s.messages| == 2 + 2 * |trail|
    && s.errors == 0 && |s.blocked| == blocked && !s.terminal
  }

  lemma CheckRound(d: Desk, orderId: string, amount: real) returns (next: Loop, a: TrailEntry)
    requires Calm(d) && NeedsHuman(d.world, orderId, amount)
    ensures OneRound(Asking(d, orderId, amount), GuardGate(d), START) == (next, false)
    ensures Asked(next, [a], 0) && CheckLine(a, d.world, orderId)
  {
    CheckAnswer(d, orderId);
    EligibleAnswers(d.world, Text(orderId));
    assert !IsError(EligibilityCheck(d.world, Text(orderId)));
    hide OneRound, GuardGate, EligibilityCheck;
    RoundEffect(Asking(d, orderId, amount), GuardGate(d), START, CheckCall(orderId));
    next := OneRound(Asking(d, orderId, amount), GuardGate(d), START).0;
    a := Called(EntryOf(GuardGate(d), START, CheckCall(orderId)));
  }

  lemma RefundRound(d: Desk, orderId: string, amount: real, s: Loop, a: TrailEntry) returns (next: Loop, b: TrailEntry)
    requires NeedsHuman(d.world, orderId, amount) && Asked(s, [a], 0) && CheckLine(a, d.world, orderId)
    ensures OneRound(Asking(d, orderId, amount), GuardGate(d), s) == (next, false)
    ensures Asked(next, [a, b], 1) && b.Called? && b.entry.tool == IssueRefund
  {
    RefundAnswer(d, orderId, amount, a);
    hide OneRound, GuardGate, EligibilityCheck;
    RoundEffect(Asking(d, orderId, amount), GuardGate(d), s, RefundCall(orderId, amount));
    next := OneRound(Asking(d, orderId, amount), GuardGate(d), s).0;
    b := Called(EntryOf(GuardGate(d), s, RefundCall(orderId, amount)));
    assert [a] + [b] == [a, b];
  }

  lemma LastRound(d: Desk, orderId: string, amount: real, s: Loop) returns (next: Loop, c: TrailEntry)
    requires Calm(d) && |s.trail| == 2 && Asked(s, s.trail, 1)
    ensures OneRound(Asking(d, orderId, amount), GuardGate(d), s) == (next, true)
    ensures next.terminal && next.calls == 3 && next.errors == 0 && |next.blocked| == 1 && next.trail == s.trail + [c]
    ensures c.Called? && c.entry.tool == SendReply && !IsError(c.entry.result)
  {
    var reply := ReplyCall(d.ticketId, Text("parked"));
    ReplyAnswer(d, s.trail);
    hide OneRound, GuardGate;
    RoundEffect(Asking(d, orderId, amount), GuardGate(d), s, reply);
    next := OneRound(Asking(d, orderId, amount), GuardGate(d), s).0;
    c := Called(EntryOf(GuardGate(d), s, reply));
  }

  /** Such a run is clean, has its refund parked, and ends on a reply. */
  lemma AskingRun(d: Desk, orderId: string, amount: real)
    requires Calm(d) && NeedsHuman(d.world, orderId, amount)
    ensures var s := Rounds(Asking(d, orderId, amount), GuardGate(d), START, MAX_ITER);
      && s.terminal && s.calls == 3 && s.errors == 0 && |s.blocked| == 1
      && RepliedLast(s.trail)
  {
    hide Rounds, OneRound, GuardGate, Asking, Calm, NeedsHuman;
    var llm, gate := Asking(d, orderId, amount), GuardGate(d);
    var s1, a := CheckRound(d, orderId, amount);
    var s2, b := RefundRound(d, orderId, amount, s1, a);
    var s3, c := LastRound(d, orderId, amount, s2);
    RoundsUnroll(llm, gate, START, 12, s1, false);
    RoundsUnroll(llm, gate, s1, 11, s2, false);
    RoundsUnroll(llm, gate, s2, 10, s3, true);
    hide CheckLine;
  }

  /** So the promise that a clean run on which policy intervened is healthy is kept behind guard() exactly
      from a triage confidence of 0.5995 / 0.7 on; at 0.7, say, such a ticket is degraded. */
  lemma ParkedRefundIsHealthyIff(d: Desk, orderId: string, amount: real)
    requires Calm(d) && NeedsHuman(d.world, orderId, amount) && 0.0 <= d.confidence <= 1.0
    ensures var s := Rounds(Asking(d, orderId, amount), GuardGate(d), START, MAX_ITER);
      && s.errors == 0 && StatusOf(s.trail) == Resolved && |s.blocked| == 1
      && (!Degraded(ResolutionOf(d.confidence, s)) <==> d.confidence * 0.7 >= 0.5995)
      && (d.confidence == 0.7 ==> Degraded(ResolutionOf(d.confidence, s)))
  {
    AskingRun(d, orderId, amount);
    GuardGateIsAPolicyGate(d);
    PolicyGatesAreShaped(GuardGate(d), Prices(d.world), d.confidence);
    hide Rounds, Degraded, GuardGate, PolicyGate, Prices, Finished, ResolutionOf;
    CleanBlockedRunIsHealthyIff(d.confidence, Asking(d, orderId, amount), GuardGate(d));
  }
}
