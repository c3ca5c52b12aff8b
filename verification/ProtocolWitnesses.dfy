/** Guarded calls as runs, and the runs that show which conditions the protocol theorems need. */
module ProtocolWitnesses {
  import opened Schemas
  import opened Audit
  import opened Rules
  import opened Tools
  import opened Resilient
  import opened Retries
  import opened Evaluation
  import opened Hitl
  import opened Engine
  import opened Protocol
  import opened ProtocolInvariants
  import opened ProtocolSafety
  import opened ProtocolParking

  lemma {:induction false} RunAppend(s: System, first: seq<Event>, second: seq<Event>)
    ensures Run(s, first + second) == Run(Run(s, first), second)
  {
    hide Step;
    if second == [] {
      assert first + second == first;
    } else {
      var init, last := second[..|second| - 1], second[|second| - 1];
      RunAppend(s, first, init);
      assert (first + second)[..|first + second| - 1] == first + init;
    }
  }

  lemma RunOne(s: System, e: Event)
    ensures Run(s, [e]) == Step(s, e)
  {
    assert [e][..0] == [];
    assert Run(s, []) == s;
  }

  // ── guard() is a run of its thread ──

  function Attempting(id: nat, env: nat -> Env, n: nat): seq<Event> {
    if n == 0 then [] else Attempting(id, env, n - 1) + [Event(id, Attempt(env(n - 1)))]
  }

  /** Propose, as many attempts as the budget allows, park if need be, record; moves a call does not need are idle. */
  function GuardSchedule(id: nat, tool: Tool, args: Args, env: nat -> Env): seq<Event> {
    [Event(id, Propose(tool, args))] + Attempting(id, env, TOOL_MAX_RETRIES + 1)
    + [Event(id, ReadLength)] + [Event(id, Append)] + [Event(id, Record)]
  }

  /** Attempt k is the first of a retry loop that is not retried. */
  ghost predicate Decisive(w: World, call: Call, env: nat -> Env, k: nat) {
    && k <= TOOL_MAX_RETRIES && !UnpayableRefund(call.tool, call.args)
    && (forall i: nat :: i < k ==> IsTransient(ExecuteTool(w, call.tool, call.args, env(i)).1))
    && (k == TOOL_MAX_RETRIES || !IsTransient(ExecuteTool(w, call.tool, call.args, env(k)).1))
  }

  lemma RetriedStep(s: System, id: nat, call: Call, env: nat -> Env, k: nat, n: nat)
    requires id in s.threads && Decisive(s.world, call, env, k) && n < k
    ensures Step(SetPhase(s, id, Executing(call, n)), Event(id, Attempt(env(n))))
        == SetPhase(s, id, Executing(call, n + 1))
  {
    RetriedAttemptChangesNothingIff(s.world, call.tool, call.args, env(n));
  }

  lemma DecisiveStep(s: System, id: nat, call: Call, env: nat -> Env, k: nat)
    requires id in s.threads && Decisive(s.world, call, env, k)
    ensures var s' := Step(SetPhase(s, id, Executing(call, k)), Event(id, Attempt(env(k))));
      s' == AttemptStep(s, id, call, k, env(k)) && !s'.threads[id].phase.Executing? && id in s'.threads
  {
  }

  lemma WaitingStep(s: System, id: nat, env: Env)
    requires id in s.threads && !s.threads[id].phase.Executing?
    ensures Step(s, Event(id, Attempt(env))) == s
  {
  }

  lemma LastAttempt(s: System, id: nat, env: nat -> Env, n: nat)
    requires n > 0
    ensures Run(s, Attempting(id, env, n)) == Step(Run(s, Attempting(id, env, n - 1)), Event(id, Attempt(env(n - 1))))
  {
    assert Attempting(id, env, n)[..|Attempting(id, env, n)| - 1] == Attempting(id, env, n - 1);
  }

  lemma NoAttempts(s: System, id: nat, env: nat -> Env)
    requires id in s.threads
    ensures Run(s, Attempting(id, env, 0)) == s == SetPhase(s, id, s.threads[id].phase)
  {
  }

  lemma {:induction false} RetriedRun(s: System, id: nat, call: Call, env: nat -> Env, k: nat, n: nat)
    requires id in s.threads && s.threads[id].phase == Executing(call, 0)
    requires Decisive(s.world, call, env, k) && n <= k
    ensures Run(s, Attempting(id, env, n)) == SetPhase(s, id, Executing(call, n))
  {
    hide Run, Attempting, SetPhase, Step, Decisive;
    if n > 0 {
      RetriedRun(s, id, call, env, k, n - 1);
      LastAttempt(s, id, env, n);
      RetriedStep(s, id, call, env, k, n - 1);
    } else {
      NoAttempts(s, id, env);
    }
  }

  lemma {:induction false} WaitingRun(s: System, id: nat, env: nat -> Env, m: nat, n: nat)
    requires m <= n
    requires var so := Run(s, Attempting(id, env, m)); id in so.threads && !so.threads[id].phase.Executing?
    ensures Run(s, Attempting(id, env, n)) == Run(s, Attempting(id, env, m))
  {
    hide Run, Attempting, Step;
    if m < n {
      WaitingRun(s, id, env, m, n - 1);
      LastAttempt(s, id, env, n);
      WaitingStep(Run(s, Attempting(id, env, m)), id, env(n - 1));
    }
  }

  lemma AttemptsRun(s: System, id: nat, call: Call, env: nat -> Env, k: nat, n: nat)
    requires id in s.threads && s.threads[id].phase == Executing(call, 0)
    requires Decisive(s.world, call, env, k) && n > k
    ensures Run(s, Attempting(id, env, n)) == AttemptStep(s, id, call, k, env(k))
  {
    RetriedRun(s, id, call, env, k, k);
    LastAttempt(s, id, env, k + 1);
    DecisiveStep(s, id, call, env, k);
    WaitingRun(s, id, env, k + 1, n);
  }

  lemma {:induction false} AttemptsIdle(s: System, id: nat, env: nat -> Env, n: nat)
    requires id in s.threads && !s.threads[id].phase.Executing?
    ensures Run(s, Attempting(id, env, n)) == s
  {
    if n > 0 {
      AttemptsIdle(s, id, env, n - 1);
      RunAppend(s, Attempting(id, env, n - 1), [Event(id, Attempt(env(n - 1)))]);
      RunOne(s, Event(id, Attempt(env(n - 1))));
    }
  }

  /** What the schedule leaves to do once the attempts are over. */
  function Closing(s: System, id: nat): System {
    Step(Step(Step(s, Event(id, ReadLength)), Event(id, Append)), Event(id, Record))
  }

  lemma ScheduleInTwo(s: System, id: nat, tool: Tool, args: Args, env: nat -> Env)
    ensures Run(s, GuardSchedule(id, tool, args, env))
            == Closing(Run(Step(s, Event(id, Propose(tool, args))), Attempting(id, env, TOOL_MAX_RETRIES + 1)), id)
  {
    var attempts := Attempting(id, env, TOOL_MAX_RETRIES + 1);
    var propose, read := Event(id, Propose(tool, args)), Event(id, ReadLength);
    var append, record := Event(id, Append), Event(id, Record);
    RunAppend(s, [propose] + attempts + [read] + [append], [record]);
    RunAppend(s, [propose] + attempts + [read], [append]);
    RunAppend(s, [propose] + attempts, [read]);
    RunAppend(s, [propose], attempts);
    RunOne(s, propose);
    var s2 := Run(Step(s, propose), attempts);
    RunOne(s2, read);
    RunOne(Step(s2, read), append);
    RunOne(Step(Step(s2, read), append), record);
  }

  lemma ClosingCases(s: System, id: nat, call: Call)
    requires id in s.threads
    ensures var th := s.threads[id];
      && (forall result :: th.phase == Executed(call, result) ==>
            Closing(s, id) == s.(threads := s.threads[id := RecordStep(th, call, result, result)]))
      && (th.phase == Refusing(call) ==>
        Closing(s, id) == s.(threads := s.threads[id := RecordStep(th, call, BLOCKED, BLOCKED)]))
      && (th.phase == Deferring(call) ==> Closing(s, id) == s.(
            hitl := s.hitl + [HitlItem(th.ticketId, |s.hitl| + 1, call.tool, call.args, call.decision.rule)],
            parkings := s.parkings + [Origin(id, |th.session.calls|)],
            threads := s.threads[id := RecordStep(th, call, DEFERRED, PLAIN)]))
  {
  }

  /** The thread after a whole call. */
  function AfterGuard(th: Thread, tool: Tool, args: Args, out: GuardOutcome): Thread {
    Thread(th.ticketId, Session(th.session.confidence, out.calls),
           th.audit + [AuditEntry(tool, args, out.result, out.decision)], Idle)
  }

  lemma DecidedAttempt(s: System, id: nat, call: Call, env: nat -> Env, k: nat)
    requires id in s.threads && Decisive(s.world, call, env, k)
    ensures var (next, result) := ExecuteTool(s.world, call.tool, call.args, env(k));
      var s' := AttemptStep(s, id, call, k, env(k));
      && s'.world == next && s'.hitl == s.hitl
      && s'.threads == s.threads[id := s.threads[id].(phase := Executed(call, result))]
  {
  }

  lemma ProposeAllowed(s: System, id: nat, tool: Tool, args: Args)
    requires id in s.threads && s.threads[id].phase == Idle
    requires Judge(tool, args, s.threads[id].session).verdict == Allow
    ensures Step(s, Event(id, Propose(tool, args)))
            == SetPhase(s, id, Executing(Call(tool, args, Judge(tool, args, s.threads[id].session)), 0))
  {
  }

  lemma BudgetIsDecisive(w: World, call: Call, env: nat -> Env, base: real) returns (k: nat)
    requires !UnpayableRefund(call.tool, call.args)
    ensures Decisive(w, call, env, k)
    ensures var run := Resiliently(w, call.tool, call.args, env, TOOL_MAX_RETRIES, base);
      (run.world, run.result) == ExecuteTool(w, call.tool, call.args, env(k))
  {
    RetryBudget(w, call.tool, call.args, env, TOOL_MAX_RETRIES, base);
    k := Resiliently(w, call.tool, call.args, env, TOOL_MAX_RETRIES, base).attempts - 1;
  }

  lemma AllowedAttempts(s: System, id: nat, call: Call, env: nat -> Env, base: real)
    requires id in s.threads && s.threads[id].phase == Executing(call, 0)
    requires !UnpayableRefund(call.tool, call.args)
    ensures var s', run := Run(s, Attempting(id, env, TOOL_MAX_RETRIES + 1)),
                           Resiliently(s.world, call.tool, call.args, env, TOOL_MAX_RETRIES, base);
      && s'.world == run.world && s'.hitl == s.hitl
      && s'.threads == s.threads[id := s.threads[id].(phase := Executed(call, run.result))]
  {
    var k := BudgetIsDecisive(s.world, call, env, base);
    AttemptsRun(s, id, call, env, k, TOOL_MAX_RETRIES + 1);
    DecidedAttempt(s, id, call, env, k);
  }

  lemma AllowedGuardIsARun(s: System, id: nat, tool: Tool, args: Args, env: nat -> Env, base: real)
    requires id in s.threads && s.threads[id].phase == Idle
    requires Judge(tool, args, s.threads[id].session).verdict == Allow
    ensures var th, run := s.threads[id], Resiliently(s.world, tool, args, env, TOOL_MAX_RETRIES, base);
      var s' := Run(s, GuardSchedule(id, tool, args, env));
      && s'.world == run.world && s'.hitl == s.hitl
      && var call := Call(tool, args, Judge(tool, args, th.session));
         s'.threads == s.threads[id := RecordStep(th, call, run.result, run.result)]
  {
    hide Run, Step, Judge, Resiliently, GuardSchedule, Attempting, Closing;
    var call := Call(tool, args, Judge(tool, args, s.threads[id].session));
    AllowedIsPayable(tool, args, s.threads[id].session);
    ScheduleInTwo(s, id, tool, args, env);
    ProposeAllowed(s, id, tool, args);
    var s1 := SetPhase(s, id, Executing(call, 0));
    AllowedAttempts(s1, id, call, env, base);
    ClosingCases(Run(s1, Attempting(id, env, TOOL_MAX_RETRIES + 1)), id, call);
  }

  /** A thread whose only steps are those of one call does what guard() does on its own: same ledger,
      same queue, same history, and one audit line with the answer the model saw. */
  lemma GuardIsARun(s: System, id: nat, tool: Tool, args: Args, env: nat -> Env, base: real)
    requires id in s.threads && s.threads[id].phase == Idle
    ensures var th := s.threads[id];
      var out := Guarded(DefaultRules(), th.ticketId, th.session, s.hitl, s.world, tool, args, env, base);
      var s' := Run(s, GuardSchedule(id, tool, args, env));
      s'.world == out.world && s'.hitl == out.hitl && s'.threads == s.threads[id := AfterGuard(th, tool, args, out)]
  {
    hide Run, Evaluate, Resiliently, GuardSchedule, Attempting, Closing;
    var th := s.threads[id];
    var call := Call(tool, args, Judge(tool, args, th.session));
    var s1 := Step(s, Event(id, Propose(tool, args)));
    ScheduleInTwo(s, id, tool, args, env);
    if call.decision.verdict == Allow {
      AllowedGuardIsARun(s, id, tool, args, env, base);
    } else {
      AttemptsIdle(s1, id, env, TOOL_MAX_RETRIES + 1);
      ClosingCases(s1, id, call);
    }
  }

  // ── one order checked by one thread ──

  const CALM := Env(false, PLAIN, OrderIdKey)

  function CheckArgs(orderId: string): Args {
    map[OrderIdKey := Text(orderId)]
  }

  function RefundArgs(orderId: string, amount: Money): Args {
    map[OrderIdKey := Text(orderId), AmountKey := Number(amount)]
  }

  function Checking(id: nat, orderId: string): seq<Event> {
    [Event(id, Propose(CheckRefundEligibility, CheckArgs(orderId))), Event(id, Attempt(CALM)), Event(id, Record)]
  }

  function AfterCheck(s: System, id: nat, orderId: string): System
    requires id in s.threads && Open(s.world, orderId)
  {
    var call := Call(CheckRefundEligibility, CheckArgs(orderId),
        Judge(CheckRefundEligibility, CheckArgs(orderId), s.threads[id].session));
    var result := EligibleFor(s.world.orders[orderId]);
    s.(threads := s.threads[id := RecordStep(s.threads[id], call, result, result)])
  }

  lemma CheckAttempted(s: System, id: nat, call: Call, orderId: string)
    requires id in s.threads && Open(s.world, orderId)
    requires call.tool == CheckRefundEligibility && call.args == CheckArgs(orderId)
    ensures Step(SetPhase(s, id, Executing(call, 0)), Event(id, Attempt(CALM)))
            == SetPhase(s, id, Executed(call, EligibleFor(s.world.orders[orderId])))
  {
    assert ExecuteTool(s.world, call.tool, call.args, CALM) == (s.world, EligibleFor(s.world.orders[orderId]));
    hide ExecuteTool;
  }

  lemma ResultRecorded(s: System, id: nat, call: Call, result: ToolResult)
    requires id in s.threads
    ensures Step(SetPhase(s, id, Executed(call, result)), Event(id, Record))
            == s.(threads := s.threads[id := RecordStep(s.threads[id], call, result, result)])
  {
  }

  lemma CheckingRun(s: System, id: nat, orderId: string)
    requires id in s.threads && s.threads[id].phase == Idle && Open(s.world, orderId)
    ensures Run(s, Checking(id, orderId)) == AfterCheck(s, id, orderId)
  {
    DefaultVerdicts(CheckRefundEligibility, CheckArgs(orderId), s.threads[id].session);
    hide Run, Step, SetPhase, Judge, CheckArgs, EligibleFor;
    var es, result := Checking(id, orderId), EligibleFor(s.world.orders[orderId]);
    var call := Call(CheckRefundEligibility, CheckArgs(orderId),
        Judge(CheckRefundEligibility, CheckArgs(orderId), s.threads[id].session));
    assert es == ([es[0]] + [es[1]]) + [es[2]];
    RunAppend(s, [es[0]] + [es[1]], [es[2]]);
    RunAppend(s, [es[0]], [es[1]]);
    RunOne(s, es[0]);
    ProposeAllowed(s, id, CheckRefundEligibility, CheckArgs(orderId));
    RunOne(SetPhase(s, id, Executing(call, 0)), es[1]);
    CheckAttempted(s, id, call, orderId);
    RunOne(SetPhase(s, id, Executed(call, result)), es[2]);
    ResultRecorded(s, id, call, result);
  }

  lemma CheckedOrderIsAdmissible(s: System, id: nat, orderId: string, amount: Money)
    requires id in s.threads && s.threads[id].phase == Idle && Open(s.world, orderId)
    ensures var th := AfterCheck(s, id, orderId).threads[id];
      Admissible(RefundArgs(orderId, amount), th.session)
      <==> !amount.AtMost(Finite(0.0)) && !amount.Greater(Finite(s.world.orders[orderId].amount + 0.01))
  {
    var calls := AfterCheck(s, id, orderId).threads[id].session.calls;
    assert IsCheckFor(calls[|calls| - 1], Text(orderId));
  }

  // ── one thread a ticket is what keeps approval references apart ──

  function Racing(a: nat, b: nat): seq<Event> {
    [Event(a, ReadLength)] + [Event(b, ReadLength)] + [Event(a, Append)] + [Event(b, Append)]
  }

  lemma RaceCollides(s: System, a: nat, b: nat)
    requires a in s.threads && b in s.threads && a != b
    requires s.threads[a].phase.Deferring? && s.threads[b].phase.Deferring?
    requires s.threads[a].ticketId == s.threads[b].ticketId
    ensures !DistinctReferences(Run(s, Racing(a, b)).hitl)
  {
    hide Run, ItemId;
    var e0, e1, e2, e3 := Event(a, ReadLength), Event(b, ReadLength), Event(a, Append), Event(b, Append);
    RunAppend(s, [e0] + [e1] + [e2], [e3]);
    RunAppend(s, [e0] + [e1], [e2]);
    RunAppend(s, [e0], [e1]);
    RunOne(s, e0);
    var s1 := Step(s, e0);
    RunOne(s1, e1);
    var s2 := Step(s1, e1);
    RunOne(s2, e2);
    RunOne(Step(s2, e2), e3);
    var hitl := Run(s, Racing(a, b)).hitl;
    assert |hitl| == |s.hitl| + 2;
    assert hitl[|s.hitl|].number == hitl[|s.hitl| + 1].number && hitl[|s.hitl|].ticketId == hitl[|s.hitl| + 1].ticketId;
  }

  /** An amount for which the thread's refund of the order is parked. */
  function ParkedAmount(w: World, th: Thread, orderId: string): Money
    requires orderId in w.orders
  {
    if th.session.confidence < 0.6 then NaN else Finite(w.orders[orderId].amount + 0.01)
  }

  function Asking(s: System, id: nat, orderId: string): seq<Event>
    requires id in s.threads && orderId in s.world.orders
  {
    Checking(id, orderId)
    + [Event(id, Propose(IssueRefund, RefundArgs(orderId, ParkedAmount(s.world, s.threads[id], orderId))))]
  }

  lemma ProposeDeferred(s: System, id: nat, tool: Tool, args: Args)
    requires id in s.threads && s.threads[id].phase == Idle
    requires Judge(tool, args, s.threads[id].session).verdict == RequireHuman
    ensures Step(s, Event(id, Propose(tool, args)))
            == SetPhase(s, id, Deferring(Call(tool, args, Judge(tool, args, s.threads[id].session))))
  {
  }

  lemma AskingDefers(s: System, id: nat, orderId: string)
    requires id in s.threads && s.threads[id].phase == Idle && Parkable(s.world, s.threads[id], orderId)
    ensures var s' := Run(s, Asking(s, id, orderId));
      && s'.world == s.world && s'.hitl == s.hitl && s'.threads.Keys == s.threads.Keys
      && s'.threads[id].phase.Deferring? && s'.threads[id].ticketId == s.threads[id].ticketId
      && forall other :: other in s.threads && other != id ==> s'.threads[other] == s.threads[other]
  {
    var amount := ParkedAmount(s.world, s.threads[id], orderId);
    var e := Event(id, Propose(IssueRefund, RefundArgs(orderId, amount)));
    var s1 := AfterCheck(s, id, orderId);
    CheckedOrderIsAdmissible(s, id, orderId, amount);
    DefaultVerdicts(IssueRefund, RefundArgs(orderId, amount), s1.threads[id].session);
    assert Judge(IssueRefund, RefundArgs(orderId, amount), s1.threads[id].session).verdict == RequireHuman;
    hide Run, Step, Judge, Checking, Admissible, RefundArgs, Open;
    CheckingRun(s, id, orderId);
    RunAppend(s, Checking(id, orderId), [e]);
    RunOne(s1, e);
    ProposeDeferred(s1, id, IssueRefund, RefundArgs(orderId, amount));
  }

  lemma SharedTicketCollides(start: System, a: nat, first: string, b: nat, second: string) returns (events: seq<Event>)
    requires Initial(start) && a in start.threads && b in start.threads && a != b
    requires start.threads[a].ticketId == start.threads[b].ticketId
    requires Parkable(start.world, start.threads[a], first) && Parkable(start.world, start.threads[b], second)
    ensures !DistinctReferences(Run(start, events).hitl)
  {
    hide Run, Parkable, DistinctReferences;
    assert first in start.world.orders && second in start.world.orders by {
      ParkableIsKnown(start.world, start.threads[a], first);
      ParkableIsKnown(start.world, start.threads[b], second);
    }
    var askA := Asking(start, a, first);
    AskingDefers(start, a, first);
    var s1 := Run(start, askA);
    var askB := Asking(s1, b, second);
    AskingDefers(s1, b, second);
    RaceCollides(Run(s1, askB), a, b);
    events := askA + askB + Racing(a, b);
    RunAppend(start, askA, askB);
    RunAppend(start, askA + askB, Racing(a, b));
  }

  lemma ParkableIsKnown(w: World, th: Thread, orderId: string)
    requires Parkable(w, th, orderId)
    ensures orderId in w.orders
  {
  }

  /** Approval references stay distinct in every run exactly when no two threads that can park anything
      share a ticket. */
  lemma ReferencesDistinctIff(start: System)
    requires Initial(start)
    ensures (forall events :: DistinctReferences(Run(start, events).hitl)) <==> ParkersApart(start)
  {
    hide Run, DistinctReferences, Parkable, Initial;
    if ParkersApart(start) {
      forall events ensures DistinctReferences(Run(start, events).hitl) {
        ApprovalReferencesAreUnique(start, events);
      }
    } else {
      var a, b :| a in start.threads && b in start.threads && a != b
                  && CanPark(start.world, start.threads[a]) && CanPark(start.world, start.threads[b])
                  && start.threads[a].ticketId == start.threads[b].ticketId;
      var first :| Parkable(start.world, start.threads[a], first);
      var second :| Parkable(start.world, start.threads[b], second);
      var events := SharedTicketCollides(start, a, first, b, second);
    }
  }

  // ── numbers in, numbers out ──

  predicate ProposesNaN(e: Event) {
    e.action.Propose? && Get(e.action.args, AmountKey) == Number(NaN)
  }

  ghost predicate AllNumbers(s: System) {
    && (forall k :: 0 <= k < |s.world.refundLog| ==> s.world.refundLog[k].amount != NaN)
    && (forall id :: id in s.threads && s.threads[id].phase != Idle ==>
      Get(s.threads[id].phase.call.args, AmountKey) != Number(NaN))
  }

  lemma StepKeepsNumeric(s: System, e: Event)
    requires AllNumbers(s) && !ProposesNaN(e)
    ensures AllNumbers(Step(s, e))
  {
    var id := e.thread;
    if id in s.threads && e.action.Attempt? && s.threads[id].phase.Executing? {
      var call := s.threads[id].phase.call;
      LedgerFrame(s.world, call.tool, call.args, e.action.env);
    }
  }

  lemma {:induction false} NumericRun(start: System, events: seq<Event>)
    requires Initial(start)
    requires forall i :: 0 <= i < |events| ==> !ProposesNaN(events[i])
    ensures AllNumbers(Run(start, events))
  {
    if events != [] {
      NumericRun(start, events[..|events| - 1]);
      StepKeepsNumeric(Run(start, events[..|events| - 1]), events[|events| - 1]);
    }
  }

  /** Unless NaN is proposed, every amount paid in a run is a number above 0 and at most 200. */
  lemma AmountsBounded(start: System, events: seq<Event>)
    requires Initial(start)
    requires forall i :: 0 <= i < |events| ==> !ProposesNaN(events[i])
    ensures forall k :: 0 <= k < |Run(start, events).world.refundLog| ==>
      var amount := Run(start, events).world.refundLog[k].amount;
      amount.Finite? && 0.0 < amount.value <= 200.0
  {
    NumericRun(start, events);
    EveryRefundIsAuthorised(start, events);
    var s := Run(start, events);
    forall k | 0 <= k < |s.world.refundLog|
      ensures s.world.refundLog[k].amount.Finite? && 0.0 < s.world.refundLog[k].amount.value <= 200.0
    {
      assert Authorised(s, k);
    }
  }

  /** Proposed for an order a check finds eligible, at sufficient confidence, NaN is paid. */
  lemma NaNIsPaid(start: System, id: nat, orderId: string)
    requires Initial(start) && id in start.threads && start.threads[id].session.confidence >= 0.6
    requires Open(start.world, orderId)
    ensures exists events :: Run(start, events).world.refundLog == [Refund(orderId, NaN)]
  {
    hide Run, Judge, ExecuteTool, Checking, Admissible;
    var args := RefundArgs(orderId, NaN);
    var propose, attempt := Event(id, Propose(IssueRefund, args)), Event(id, Attempt(CALM));
    var events := Checking(id, orderId) + [propose] + [attempt];
    CheckingRun(start, id, orderId);
    RunAppend(start, Checking(id, orderId) + [propose], [attempt]);
    RunAppend(start, Checking(id, orderId), [propose]);
    var s1 := AfterCheck(start, id, orderId);
    RunOne(s1, propose);
    CheckedOrderIsAdmissible(start, id, orderId, NaN);
    DefaultVerdicts(IssueRefund, args, s1.threads[id].session);
    var s2 := Step(s1, propose);
    RunOne(s2, attempt);
    assert s2.threads[id].phase.Executing?;
    PayOut(s2, id, orderId, NaN);
    assert Run(start, events).world.refundLog == [Refund(orderId, NaN)];
  }

  lemma PayOut(s: System, id: nat, orderId: string, amount: Money)
    requires id in s.threads && s.threads[id].phase.Executing?
    requires s.threads[id].phase.call.tool == IssueRefund
    requires s.threads[id].phase.call.args == RefundArgs(orderId, amount)
    requires Open(s.world, orderId)
    ensures Step(s, Event(id, Attempt(CALM))).world.refundLog == s.world.refundLog + [Refund(orderId, amount)]
  {
    assert RefundArgs(orderId, amount).Keys == {OrderIdKey, AmountKey};
  }
}
