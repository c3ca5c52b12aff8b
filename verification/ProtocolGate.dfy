/** Every answer a ticket gets in any run is one the resolver and the scripted agent can count on. */
module ProtocolGate {
  import opened Schemas
  import opened Audit
  import opened Tools
  import opened Resilient
  import opened Evaluation
  import opened Engine
  import opened Protocol
  import opened ProtocolInvariants
  import opened ProtocolSafety
  import opened ScriptedRefund
  import Resolver

  ghost predicate GoodResult(prices: map<string, real>, tool: Tool, args: Args, result: ToolResult) {
    Honest(prices, tool, args, result) && (IsError(result) <==> result.error.Some?)
  }

  ghost predicate GoodEntry(prices: map<string, real>, e: AuditEntry) {
    e.decision.verdict == Allow ==> GoodResult(prices, e.tool, e.args, e.result)
  }

  ghost predicate ThreadGood(prices: map<string, real>, th: Thread) {
    && (forall i :: 0 <= i < |th.audit| ==> GoodEntry(prices, th.audit[i]))
    && (th.phase.Executed? ==> GoodResult(prices, th.phase.call.tool, th.phase.call.args, th.phase.result))
  }

  predicate LookupsAreRecords(e: Event) {
    e.action.Attempt? ==> LookupShape(e.action.env)
  }

  ghost predicate AllGood(prices: map<string, real>, s: System) {
    forall id :: id in s.threads ==> ThreadJustified(s.threads[id]) && ThreadGood(prices, s.threads[id])
  }

  lemma RecordKeepsGood(prices: map<string, real>, th: Thread, call: Call, kept: ToolResult, shown: ToolResult)
    requires ThreadGood(prices, th)
    requires call.decision.verdict == Allow ==> GoodResult(prices, call.tool, call.args, shown)
    ensures ThreadGood(prices, RecordStep(th, call, kept, shown))
  {
    hide GoodResult;
  }

  lemma AttemptKeepsGood(s: System, id: nat, call: Call, attempt: nat, env: Env)
    requires id in s.threads && ThreadGood(Prices(s.world), s.threads[id]) && LookupShape(env)
    ensures ThreadGood(Prices(s.world), AttemptStep(s, id, call, attempt, env).threads[id])
  {
    ExecutionIsHonest(s.world, call.tool, call.args, env);
    FailureCarriesError(s.world, call.tool, call.args, env);
    hide ExecuteTool, Honest, IsTransient, Prices;
  }

  lemma StepKeepsGood(s: System, e: Event)
    requires LookupsAreRecords(e) && AllGood(Prices(s.world), s)
    ensures AllGood(Prices(s.world), Step(s, e))
  {
    hide Judge, Prices, EntryJustified, GoodEntry, GoodResult, AttemptStep, RecordStep, LookupShape;
    var id := e.thread;
    StepKeepsThreads(s, e);
    if id in s.threads {
      var prices, th := Prices(s.world), s.threads[id];
      assert ThreadJustified(th) && ThreadGood(prices, th);
      match (e.action, th.phase) {
        case (Attempt(env), Executing(call, attempt)) => AttemptKeepsGood(s, id, call, attempt, env);
        case (Record, Executed(call, result)) => RecordKeepsGood(prices, th, call, result, result);
        case (Record, Refusing(call)) => RecordKeepsGood(prices, th, call, BLOCKED, BLOCKED);
        case (Record, Parked(call)) => RecordKeepsGood(prices, th, call, DEFERRED, PLAIN);
        case _ =>
      }
      OthersKeepStill(s, e);
    }
  }

  lemma OthersKeepStill(s: System, e: Event)
    ensures forall other :: other in s.threads && other != e.thread ==>
      other in Step(s, e).threads && Step(s, e).threads[other] == s.threads[other]
  {
  }

  lemma {:induction false} RunsAreGood(start: System, events: seq<Event>)
    requires Initial(start) && forall i :: 0 <= i < |events| ==> LookupsAreRecords(events[i])
    ensures AllGood(Prices(start.world), Run(start, events))
  {
    if events != [] {
      var before := events[..|events| - 1];
      RunsAreGood(start, before);
      InvariantOverRuns(start, before);
      StepKeepsGood(Run(start, before), events[|events| - 1]);
    }
  }

  lemma {:induction false} HistoryOfLines(th: Thread, n: nat)
    requires ThreadJustified(th) && n <= |th.audit|
    ensures HistoryOf(Lines(th.audit)[..n]) == th.session.calls[..n]
  {
    if n > 0 {
      HistoryOfLines(th, n - 1);
      var trail := Lines(th.audit);
      assert EntryJustified(th, n - 1);
      assert trail[..n][..n - 1] == trail[..n - 1];
      assert RecordOf(trail[n - 1]) == th.session.calls[n - 1];
      assert th.session.calls[..n] == th.session.calls[..n - 1] + [th.session.calls[n - 1]];
    }
  }

  /** Whatever the interleaving, the i-th call of a ticket is answered by the policy's verdict on exactly
      the history its own trail shows so far, with honest prices and with an error key on every failure. */
  lemma EveryAnswerIsJudged(start: System, events: seq<Event>, id: nat, i: nat)
    requires Initial(start) && id in start.threads
    requires forall k :: 0 <= k < |events| ==> LookupsAreRecords(events[k])
    requires id in Run(start, events).threads && i < |Run(start, events).threads[id].audit|
    ensures var th := Run(start, events).threads[id]; var e := th.audit[i];
      Judged(Prices(start.world), th.session.confidence, Lines(th.audit)[..i],
             Resolver.ToolCall("", e.tool, e.args), Resolver.Answer(e.result, e.decision))
  {
    InvariantOverRuns(start, events);
    RunsAreGood(start, events);
    var th := Run(start, events).threads[id];
    var e := th.audit[i];
    assert ThreadJustified(th) && ThreadGood(Prices(start.world), th);
    assert EntryJustified(th, i) && GoodEntry(Prices(start.world), e);
    HistoryOfLines(th, i);
    DefaultVerdicts(e.tool, e.args, Before(th, i));
  }
}
