/** What holds of every run of the refund protocol. */
module ProtocolSafety {
  import opened Schemas
  import opened Audit
  import opened Rules
  import opened Tools
  import opened Resilient
  import opened Retries
  import opened Evaluation
  import opened Protocol
  import opened ProtocolInvariants
  import opened ProtocolAccounts
  import opened Metrics

  ghost predicate Inv(start: System, s: System) {
    && (forall id :: id in s.threads ==> ThreadJustified(s.threads[id]))
    && Prices(s.world) == Prices(start.world)
    && (forall id :: id in s.threads ==> ThreadFaithful(Prices(s.world), s.threads[id]))
    && LedgerOk(start.world, s.world)
    && OriginsOk(s) && ParkingsOk(s) && ItemsOk(s)
    && s.threads.Keys == start.threads.Keys
  }

  lemma {:induction false} InvariantOverRuns(start: System, events: seq<Event>)
    requires Initial(start)
    ensures Inv(start, Run(start, events))
  {
    if events == [] {
      assert forall id, at: nat :: id in start.threads ==>
        !ReportsSome(start.threads[id], at) && !ParksSome(start.threads[id], at);
    } else {
      var before, e := events[..|events| - 1], events[|events| - 1];
      InvariantOverRuns(start, before);
      var s := Run(start, before);
      hide Step, ThreadJustified, ThreadFaithful, LedgerOk, OriginsOk, ParkingsOk, ItemsOk, Prices;
      StepKeepsThreads(s, e);
      StepKeepsFaithful(s, e);
      StepKeepsLedger(start.world, s, e);
      StepKeepsOrigins(s, e);
      StepKeepsParkings(s, e);
      StepKeepsItems(s, e);
    }
  }

  // ── the ledger ──

  function RefundedOrders(w: World): set<string> {
    set id | id in w.orders && w.orders[id].refunded
  }

  function LoggedOrders(w: World): set<string> {
    set k | 0 <= k < |w.refundLog| :: w.refundLog[k].orderId
  }

  /** In every interleaving each order is refunded at most once: the log names pairwise different
      orders, and the refunded orders are the initially refunded ones disjointly united with them. */
  lemma RefundedAtMostOnce(start: System, events: seq<Event>)
    requires Initial(start)
    ensures var w := Run(start, events).world;
      && (forall j, k :: 0 <= j < k < |w.refundLog| ==> w.refundLog[j].orderId != w.refundLog[k].orderId)
      && RefundedOrders(w) == RefundedOrders(start.world) + LoggedOrders(w)
      && RefundedOrders(start.world) !! LoggedOrders(w)
      && Prices(w) == Prices(start.world)
  {
    InvariantOverRuns(start, events);
    var w := Run(start, events).world;
    forall id ensures id in LoggedOrders(w) <==> Logged(w, id) {}
    forall id ensures id in RefundedOrders(w) <==> id in RefundedOrders(start.world) || id in LoggedOrders(w) {}
  }

  // ── authorisation ──

  /** The history before call `at` vouched for this refund: its latest successful check of the order said
      eligible at exactly the order's price, triage was confident, and the amount is within the limits. */
  ghost predicate VouchedFor(prices: map<string, real>, th: Thread, at: nat, refund: Refund) {
    && at <= |th.session.calls|
    && refund.orderId != "" && refund.orderId in prices
    && th.session.confidence >= 0.6
    && (match EligibilityResult(th.session.calls[..at], Text(refund.orderId))
        case None => false
        case Some(check) => check.eligible == Some(true) && check.refundable == Some(Finite(prices[refund.orderId])))
    && (match refund.amount
        case Finite(amount) => 0.0 < amount <= 200.0 && amount <= prices[refund.orderId] + 0.01
        case other => other == NaN)
  }

  ghost predicate Authorised(s: System, k: nat)
    requires k < |s.origins| == |s.world.refundLog|
  {
    && s.origins[k].thread in s.threads
    && VouchedFor(Prices(s.world), s.threads[s.origins[k].thread], s.origins[k].at, s.world.refundLog[k])
  }

  lemma AllowedRefundIsVouchedFor(prices: map<string, real>, th: Thread, at: nat, refund: Refund)
    requires at <= |th.session.calls| && ThreadFaithful(prices, th)
    requires
      var args := map[OrderIdKey := Text(refund.orderId), AmountKey := Number(refund.amount)];
      Judge(IssueRefund, args, Before(th, at)).verdict == Allow
    ensures VouchedFor(prices, th, at, refund)
  {
    var args := map[OrderIdKey := Text(refund.orderId), AmountKey := Number(refund.amount)];
    assert Get(args, OrderIdKey) == Text(refund.orderId) && Get(args, AmountKey) == Number(refund.amount);
    DefaultVerdicts(IssueRefund, args, Before(th, at));
    var history := th.session.calls[..at];
    EligibilityIsLatestCheck(history, Text(refund.orderId));
    var check := EligibilityResult(history, Text(refund.orderId)).value;
    var i :| 0 <= i < |history| && IsCheckFor(history[i], Text(refund.orderId)) && history[i].result == check;
    assert history[i] == th.session.calls[i];
  }

  lemma ReportedRefundIsVouchedFor(prices: map<string, real>, th: Thread, at: nat, refund: Refund)
    requires ThreadJustified(th) && ThreadFaithful(prices, th)
    requires Reports(th, at, refund)
    ensures VouchedFor(prices, th, at, refund)
  {
    if at < |th.audit| {
      assert EntryJustified(th, at);
    } else {
      assert Before(th, at) == th.session;
    }
    AllowedRefundIsVouchedFor(prices, th, at, refund);
  }

  /** Every logged refund was authorised by the history of the call that made it. */
  lemma EveryRefundIsAuthorised(start: System, events: seq<Event>)
    requires Initial(start)
    ensures var s := Run(start, events);
      |s.origins| == |s.world.refundLog| && forall k :: 0 <= k < |s.origins| ==> Authorised(s, k)
  {
    InvariantOverRuns(start, events);
    var s := Run(start, events);
    forall k | 0 <= k < |s.origins| ensures Authorised(s, k) {
      ReportedRefundIsVouchedFor(Prices(s.world), s.threads[s.origins[k].thread], s.origins[k].at,
        s.world.refundLog[k]);
    }
  }

  /** The money moved by the first n log lines, as far as it is a number. */
  function Total(log: seq<Refund>, n: nat): real
    requires n <= |log|
  {
    if n == 0 then 0.0
    else Total(log, n - 1) + (if log[n - 1].amount.Finite? then log[n - 1].amount.value else 0.0)
  }

  function PriceTotal(w: World, n: nat): real
    requires n <= |w.refundLog|
    requires forall k :: 0 <= k < n ==> w.refundLog[k].orderId in w.orders
  {
    if n == 0 then 0.0
    else
      var last := w.refundLog[n - 1];
      PriceTotal(w, n - 1) + (if last.amount.Finite? then w.orders[last.orderId].amount else 0.0)
  }

  lemma {:induction false} TotalsUpTo(s: System, n: nat)
    requires |s.origins| == |s.world.refundLog| && n <= |s.origins|
    requires forall k :: 0 <= k < |s.origins| ==> Authorised(s, k)
    ensures Total(s.world.refundLog, n) <= 200.0 * n as real
    ensures forall k :: 0 <= k < n ==> s.world.refundLog[k].orderId in s.world.orders
    ensures Total(s.world.refundLog, n) <= PriceTotal(s.world, n) + 0.01 * n as real
  {
    if n > 0 {
      TotalsUpTo(s, n - 1);
      assert Authorised(s, n - 1);
      assert n as real == (n - 1) as real + 1.0;
    }
  }

  /** Over a whole run the total refunded stays within 200 a refund, and within a cent a refund of what
      the refunded orders cost. */
  lemma TotalRefundedIsBounded(start: System, events: seq<Event>)
    requires Initial(start)
    ensures var w := Run(start, events).world; var k := |w.refundLog|;
      && Total(w.refundLog, k) <= 200.0 * k as real
      && (forall i :: 0 <= i < k ==> w.refundLog[i].orderId in w.orders)
      && Total(w.refundLog, k) <= PriceTotal(w, k) + 0.01 * k as real
  {
    EveryRefundIsAuthorised(start, events);
    TotalsUpTo(Run(start, events), |Run(start, events).origins|);
  }

  // ── reporting ──

  /** A call reports a refund as made exactly when that very call made it, and it made exactly one:
      call numbers and log lines correspond one to one. */
  lemma RefundsAreReportedExactly(start: System, events: seq<Event>)
    requires Initial(start)
    ensures var s := Run(start, events);
      && |s.origins| == |s.world.refundLog|
      && (forall id, at: nat :: id in s.threads ==> (ReportsSome(s.threads[id], at) <==> Origin(id, at) in s.origins))
      && (forall j, k :: 0 <= j < k < |s.origins| ==> s.origins[j] != s.origins[k])
      && (forall k :: 0 <= k < |s.origins| ==>
            && s.origins[k].thread in s.threads
            && Reports(s.threads[s.origins[k].thread], s.origins[k].at, s.world.refundLog[k]))
  {
    InvariantOverRuns(start, events);
    var s := Run(start, events);
    forall id, at: nat | id in s.threads && Origin(id, at) in s.origins ensures ReportsSome(s.threads[id], at) {
      var k :| 0 <= k < |s.origins| && s.origins[k] == Origin(id, at);
      assert Reports(s.threads[id], at, s.world.refundLog[k]);
    }
  }

  // ── the monitors ──

  function Lines(audit: seq<AuditEntry>): seq<TrailEntry> {
    seq(|audit|, i requires 0 <= i < |audit| => Called(audit[i]))
  }

  lemma JustifiedTrailIsClean(th: Thread)
    requires ThreadJustified(th)
    ensures CountUnchecked(Lines(th.audit), |th.audit|) == 0
  {
    var trail := Lines(th.audit);
    forall i | 0 <= i < |trail| ensures !Unchecked(trail, i) {
      if IsExecutedRefund(trail[i]) {
        assert EntryJustified(th, i);
        var call := th.session.calls[i];
        DefaultVerdicts(call.tool, call.args, Before(th, i));
        var history := th.session.calls[..i];
        EligibilityIsLatestCheck(history, OrderOf(call.args));
        var j :| 0 <= j < |history| && IsCheckFor(history[j], OrderOf(call.args));
        assert EntryJustified(th, j);
        assert IsCheck(trail[j]) && OrderIdOf(trail[j]) == OrderIdOf(trail[i]);
      }
    }
    NoViolationIff(trail, |trail|);
  }

  lemma {:induction false} LlmErrorAddsNothing(trail: seq<TrailEntry>, n: nat)
    requires n <= |trail|
    ensures CountUnchecked(trail + [LlmError], n) == CountUnchecked(trail, n)
  {
    if n > 0 {
      LlmErrorAddsNothing(trail, n - 1);
      assert forall j :: 0 <= j < n ==> (trail + [LlmError])[j] == trail[j];
    }
  }

  lemma TrailEndsClean(th: Thread)
    requires ThreadJustified(th)
    ensures var trail := Lines(th.audit);
      CountUnchecked(trail, |trail|) == 0 && CountUnchecked(trail + [LlmError], |trail| + 1) == 0
  {
    JustifiedTrailIsClean(th);
    hide ThreadJustified;
    LlmErrorAddsNothing(Lines(th.audit), |th.audit|);
  }

  /** Whatever the models propose and however the tickets interleave, every trail, cut at any point and
      ended by a model failure or not, has zero safety violations. */
  lemma MonitorsAcceptEveryRun(start: System, events: seq<Event>, id: nat)
    requires Initial(start) && id in start.threads
    ensures var s := Run(start, events);
      && id in s.threads
      && var trail := Lines(s.threads[id].audit);
         CountUnchecked(trail, |trail|) == 0
         && CountUnchecked(trail + [LlmError], |trail| + 1) == 0
  {
    InvariantOverRuns(start, events);
    hide Run, Prices, ThreadJustified, ThreadFaithful, OriginsOk, LedgerOk, ParkingsOk, ItemsOk, CountUnchecked, Lines;
    TrailEndsClean(Run(start, events).threads[id]);
  }

  // ── the approval queue ──

  /** In every run, whoever shares a ticket, queue items and parked calls correspond one to one: each item
      was parked by one call of a thread on its ticket, with the same tool, arguments and rule, and each
      REQUIRE_HUMAN line, or parked call still in flight, has its own item. */
  lemma ApprovalsAreAccountedFor(start: System, events: seq<Event>)
    requires Initial(start)
    ensures var s := Run(start, events);
      && |s.parkings| == |s.hitl|
      && (forall j, k :: 0 <= j < k < |s.parkings| ==> s.parkings[j] != s.parkings[k])
      && (forall k :: 0 <= k < |s.parkings| ==>
            && s.parkings[k].thread in s.threads
            && ParkedAs(s.threads[s.parkings[k].thread], s.parkings[k].at, s.hitl[k]))
      && (forall id, at: nat :: id in s.threads ==> (ParksSome(s.threads[id], at) <==> Origin(id, at) in s.parkings))
      && (forall id :: id in s.threads ==>
            CountParked(s.parkings, id)
            == CountVerdicts(s.threads[id].audit, RequireHuman) + (if s.threads[id].phase.Parked? then 1 else 0))
  {
    InvariantOverRuns(start, events);
    hide Run, Prices, OriginsOk, LedgerOk, ThreadJustified, ThreadFaithful;
    var s := Run(start, events);
    forall id, at: nat | id in s.threads && Origin(id, at) in s.parkings ensures ParksSome(s.threads[id], at) {
      var k :| 0 <= k < |s.parkings| && s.parkings[k] == Origin(id, at);
      assert ParkedAs(s.threads[id], at, s.hitl[k]);
    }
  }

  // ── retries ──

  lemma RetriedAttemptIsHarmless(s: System, id: nat, call: Call, attempt: nat, env: Env)
    requires id in s.threads && !UnpayableRefund(call.tool, call.args)
    ensures var s' := AttemptStep(s, id, call, attempt, env);
      s'.threads[id].phase.Executing? ==> s'.world == s.world && s'.origins == s.origins && s'.hitl == s.hitl
  {
    if IsTransient(ExecuteTool(s.world, call.tool, call.args, env).1) {
      RetriedAttemptChangesNothingIff(s.world, call.tool, call.args, env);
    }
    hide ExecuteTool, IsTransient;
  }

  lemma StepRetriesHarmlessly(s: System, e: Event)
    requires e.thread in s.threads && ThreadJustified(s.threads[e.thread])
    ensures var s', th := Step(s, e), s.threads[e.thread];
      && e.thread in s'.threads
      && (th.phase.Executing? ==> th.phase.attempt <= TOOL_MAX_RETRIES)
      && (th.phase.Executing? && s'.threads[e.thread].phase.Executing? ==>
            s'.world == s.world && s'.origins == s.origins && s'.hitl == s.hitl)
  {
    hide EntryJustified, Judge, UnpayableRefund, IsTransient;
    var th := s.threads[e.thread];
    if th.phase.Executing? && e.action.Attempt? {
      AllowedIsPayable(th.phase.call.tool, th.phase.call.args, th.session);
      RetriedAttemptIsHarmless(s, e.thread, th.phase.call, th.phase.attempt, e.action.env);
    }
  }

  /** Inside any run, with other tickets in between, an attempt that is retried changed nothing, and
      no call gets more attempts than its budget. */
  lemma RetriesChangeNothing(start: System, events: seq<Event>, e: Event)
    requires Initial(start) && e.thread in start.threads
    ensures var s, s' := Run(start, events), Step(Run(start, events), e);
      && e.thread in s.threads && e.thread in s'.threads
      && (s.threads[e.thread].phase.Executing? ==> s.threads[e.thread].phase.attempt <= TOOL_MAX_RETRIES)
      && (s.threads[e.thread].phase.Executing? && s'.threads[e.thread].phase.Executing? ==>
            s'.world == s.world && s'.origins == s.origins && s'.hitl == s.hitl)
  {
    hide Run, Step, ThreadJustified, ThreadFaithful, OriginsOk, LedgerOk, ParkingsOk, ItemsOk, Prices;
    InvariantOverRuns(start, events);
    StepRetriesHarmlessly(Run(start, events), e);
  }
}
