/** What every step of the refund protocol keeps, whatever thread takes it. */
module ProtocolInvariants {
  import opened Schemas
  import opened Tools
  import opened Resilient
  import opened Retries
  import opened Evaluation
  import opened Engine
  import opened Protocol

  // ── one thread: history, audit trail and the call in flight ──

  function Before(th: Thread, i: nat): Session
    requires i <= |th.session.calls|
  {
    Session(th.session.confidence, th.session.calls[..i])
  }

  /** Audit line i was judged on exactly the first i records, and history and trail agree on it, save
      that a parked call is an error in the history and a plain "pending" answer in the trail. */
  ghost predicate EntryJustified(th: Thread, i: nat)
    requires i < |th.session.calls| && i < |th.audit|
  {
    var c, e := th.session.calls[i], th.audit[i];
    && e.tool == c.tool && e.args == c.args
    && e.decision == Judge(c.tool, c.args, Before(th, i))
    && match e.decision.verdict
       case Allow => c == MakeRecord(c.tool, c.args, e.result)
       case Deny => e.result == BLOCKED && c.result == BLOCKED && !c.ok
       case RequireHuman => e.result == PLAIN && c.result == DEFERRED && !c.ok
  }

  ghost predicate CallJudged(th: Thread, call: Call, verdict: Verdict) {
    call.decision == Judge(call.tool, call.args, th.session) && call.decision.verdict == verdict
  }

  ghost predicate PhaseJustified(th: Thread) {
    match th.phase
    case Idle => true
    case Executing(call, attempt) => CallJudged(th, call, Allow) && attempt <= TOOL_MAX_RETRIES
    case Executed(call, _) => CallJudged(th, call, Allow)
    case Refusing(call) => CallJudged(th, call, Deny)
    case Deferring(call) => CallJudged(th, call, RequireHuman)
    case Appending(call, _) => CallJudged(th, call, RequireHuman)
    case Parked(call) => CallJudged(th, call, RequireHuman)
  }

  ghost predicate ThreadJustified(th: Thread) {
    && |th.audit| == |th.session.calls|
    && PhaseJustified(th)
    && forall i :: 0 <= i < |th.audit| ==> EntryJustified(th, i)
  }

  lemma RecordKeepsJustified(th: Thread, call: Call, kept: ToolResult, shown: ToolResult)
    requires ThreadJustified(th)
    requires call.decision == Judge(call.tool, call.args, th.session)
    requires match call.decision.verdict
             case Allow => kept == shown
             case Deny => kept == BLOCKED && shown == BLOCKED
             case RequireHuman => kept == DEFERRED && shown == PLAIN
    ensures ThreadJustified(RecordStep(th, call, kept, shown))
  {
    var th' := RecordStep(th, call, kept, shown);
    var n := |th.audit|;
    forall i | 0 <= i <= n ensures EntryJustified(th', i) {
      assert Before(th', i).calls == th.session.calls[..i];
      if i == n {
        assert Before(th', n) == th.session;
      } else {
        assert EntryJustified(th, i);
      }
    }
  }

  lemma StepKeepsThreads(s: System, e: Event)
    requires forall id :: id in s.threads ==> ThreadJustified(s.threads[id])
    ensures Step(s, e).threads.Keys == s.threads.Keys
    ensures forall id :: id in s.threads ==> ThreadJustified(Step(s, e).threads[id])
  {
    var id := e.thread;
    if id in s.threads && e.action == Record {
      var th := s.threads[id];
      match th.phase {
        case Executed(call, result) => RecordKeepsJustified(th, call, result, result);
        case Refusing(call) => RecordKeepsJustified(th, call, BLOCKED, BLOCKED);
        case Parked(call) => RecordKeepsJustified(th, call, DEFERRED, PLAIN);
        case _ =>
      }
    } else if id in s.threads {
      var th, th' := s.threads[id], Step(s, e).threads[id];
      assert th'.session == th.session && th'.audit == th.audit;
      forall i | 0 <= i < |th'.audit| ensures EntryJustified(th', i) {
        assert EntryJustified(th, i);
      }
    }
  }

  // ── prices never change, and eligibility answers quote them ──

  function Prices(w: World): map<string, real> {
    map id | id in w.orders :: w.orders[id].amount
  }

  ghost predicate Faithful(prices: map<string, real>, tool: Tool, args: Args, result: ToolResult) {
    tool == CheckRefundEligibility && result.eligible == Some(true) ==>
      && Get(args, OrderIdKey).Text? && Get(args, OrderIdKey).text in prices
      && result.refundable == Some(Finite(prices[Get(args, OrderIdKey).text]))
  }

  ghost predicate ThreadFaithful(prices: map<string, real>, th: Thread) {
    && (forall i :: 0 <= i < |th.session.calls| ==>
          Faithful(prices, th.session.calls[i].tool, th.session.calls[i].args, th.session.calls[i].result))
    && (th.phase.Executed? ==> Faithful(prices, th.phase.call.tool, th.phase.call.args, th.phase.result))
  }

  lemma ExecutionIsFaithful(w: World, tool: Tool, args: Args, env: Env)
    ensures Faithful(Prices(w), tool, args, ExecuteTool(w, tool, args, env).1)
    ensures Prices(ExecuteTool(w, tool, args, env).0) == Prices(w)
  {
    LedgerFrame(w, tool, args, env);
    if tool == CheckRefundEligibility && Binds(tool, args) && !env.fails {
      EligibleAnswers(w, args[OrderIdKey]);
    }
    if tool == IssueRefund && Binds(tool, args) && !env.fails {
      var w' := ExecuteTool(w, tool, args, env).0;
      forall id | id in w.orders ensures w'.orders[id].amount == w.orders[id].amount {}
    }
  }

  lemma StepKeepsFaithful(s: System, e: Event)
    requires forall id :: id in s.threads ==> ThreadFaithful(Prices(s.world), s.threads[id])
    ensures Prices(Step(s, e).world) == Prices(s.world)
    ensures Step(s, e).threads.Keys == s.threads.Keys
    ensures forall id :: id in s.threads ==> ThreadFaithful(Prices(s.world), Step(s, e).threads[id])
  {
    hide ExecuteTool, Judge, Prices;
    var id := e.thread;
    if id in s.threads && e.action.Attempt? && s.threads[id].phase.Executing? {
      var call := s.threads[id].phase.call;
      ExecutionIsFaithful(s.world, call.tool, call.args, e.action.env);
    }
  }

  // ── the ledger ──

  ghost predicate Logged(w: World, orderId: string) {
    exists k :: 0 <= k < |w.refundLog| && w.refundLog[k].orderId == orderId
  }

  /** The order table is the initial one with exactly the logged orders newly marked, each logged once
      and none of them refunded at the start. */
  ghost predicate LedgerOk(start: World, w: World) {
    && w.orders.Keys == start.orders.Keys
    && (forall id :: id in w.orders ==>
          w.orders[id] == start.orders[id].(refunded := start.orders[id].refunded || Logged(w, id)))
    && (forall k :: 0 <= k < |w.refundLog| ==>
          w.refundLog[k].orderId in start.orders && !start.orders[w.refundLog[k].orderId].refunded)
    && (forall j, k :: 0 <= j < k < |w.refundLog| ==> w.refundLog[j].orderId != w.refundLog[k].orderId)
  }

  lemma RefundKeepsLedger(start: World, w: World, id: string, amount: Money)
    requires LedgerOk(start, w)
    requires id in w.orders && !w.orders[id].refunded
    ensures LedgerOk(start, MarkRefunded(w, id).(refundLog := w.refundLog + [Refund(id, amount)]))
  {
    var w' := MarkRefunded(w, id).(refundLog := w.refundLog + [Refund(id, amount)]);
    var n := |w.refundLog|;
    assert w'.refundLog[n].orderId == id;
    assert !Logged(w, id);
    forall other | other in w'.orders
      ensures Logged(w', other) <==> other == id || Logged(w, other)
    {
      if k :| 0 <= k < n && w.refundLog[k].orderId == other {
        assert w'.refundLog[k].orderId == other;
      }
    }
  }

  lemma UnpaidKeepsOrders(w: World, tool: Tool, args: Args, env: Env)
    requires !UnpayableRefund(tool, args)
    ensures var (w', _) := ExecuteTool(w, tool, args, env); w'.refundLog == w.refundLog ==> w'.orders == w.orders
  {
    LedgerFrame(w, tool, args, env);
  }

  lemma ExecutionKeepsLedger(start: World, w: World, tool: Tool, args: Args, env: Env)
    requires LedgerOk(start, w)
    requires !UnpayableRefund(tool, args)
    ensures LedgerOk(start, ExecuteTool(w, tool, args, env).0)
  {
    hide ExecuteTool;
    var (w', r) := ExecuteTool(w, tool, args, env);
    LedgerFrame(w, tool, args, env);
    if w'.refundLog != w.refundLog {
      RefundKeepsLedger(start, w, args[OrderIdKey].text, args[AmountKey].number);
    } else {
      UnpaidKeepsOrders(w, tool, args, env);
      forall id | id in w'.orders ensures Logged(w', id) <==> Logged(w, id) {}
    }
  }

  lemma AllowedIsPayable(tool: Tool, args: Args, s: Session)
    requires Judge(tool, args, s).verdict == Allow
    ensures !UnpayableRefund(tool, args)
  {
    DefaultVerdicts(tool, args, s);
  }

  lemma StepKeepsLedger(start: World, s: System, e: Event)
    requires forall id :: id in s.threads ==> ThreadJustified(s.threads[id])
    requires LedgerOk(start, s.world)
    ensures LedgerOk(start, Step(s, e).world)
  {
    var id := e.thread;
    if id in s.threads && e.action.Attempt? && s.threads[id].phase.Executing? {
      var call := s.threads[id].phase.call;
      assert ThreadJustified(s.threads[id]);
      AllowedIsPayable(call.tool, call.args, s.threads[id].session);
      ExecutionKeepsLedger(start, s.world, call.tool, call.args, e.action.env);
    }
  }
}
