/** What is proved of the resolver's loop holds of the tickets of any interleaved run. */
module ThreadRun {
  import opened Schemas
  import opened Audit
  import opened Tools
  import opened Resilient
  import opened Evaluation
  import opened Protocol
  import opened ProtocolInvariants
  import opened ProtocolAccounts
  import opened ProtocolSafety
  import opened ProtocolGate
  import Resolver
  import ResolverFacts
  import opened ScriptedAgent
  import opened ScriptedRefund
  import opened GuardedRun

  // ── the failures each call met ──

  /** The surroundings of the attempts that the thread's call number `at` has had. */
  function Met(start: System, events: seq<Event>, id: nat, at: nat): seq<Env> {
    if events == [] then []
    else
      var before, e := events[..|events| - 1], events[|events| - 1];
      var s := Run(start, before);
      Met(start, before, id, at) + if Tries(s, e, id, at) then [e.action.env] else []
  }

  predicate Tries(s: System, e: Event, id: nat, at: nat) {
    && id in s.threads && e.thread == id && e.action.Attempt? && s.threads[id].phase.Executing?
    && |s.threads[id].audit| == at
  }

  ghost predicate SomeSpared(met: seq<Env>) {
    exists k :: 0 <= k < |met| && !met[k].fails
  }

  /** A terminal call under way: as far as it is deliverable, every attempt so far failed. */
  ghost predicate Struggling(call: Call, attempt: nat, met: seq<Env>) {
    |met| == attempt && (Deliverable(call.tool, call.args) ==> !SomeSpared(met))
  }

  /** A terminal call that is over went through exactly if it was deliverable and one attempt was spared;
      and if none was, the budget was used up. */
  ghost predicate Fair(tool: Tool, args: Args, result: ToolResult, met: seq<Env>) {
    Resolver.IsTerminal(tool) ==>
      && |met| <= TOOL_MAX_RETRIES + 1
      && (result.error == None <==> Deliverable(tool, args) && SomeSpared(met))
      && (Deliverable(tool, args) && !SomeSpared(met) ==> |met| == TOOL_MAX_RETRIES + 1)
  }

  ghost predicate PhaseFair(phase: Phase, met: seq<Env>) {
    match phase
    case Executing(call, attempt) => Struggling(call, attempt, met)
    case Executed(call, result) => Fair(call.tool, call.args, result, met)
    case _ => met == []
  }

  ghost predicate LineFair(e: AuditEntry, met: seq<Env>) {
    e.decision.verdict == Allow ==> Fair(e.tool, e.args, e.result, met)
  }

  ghost predicate MetFairly(start: System, events: seq<Event>, id: nat, th: Thread) {
    && PhaseFair(th.phase, Met(start, events, id, |th.audit|))
    && (forall at :: 0 <= at < |th.audit| ==> LineFair(th.audit[at], Met(start, events, id, at)))
    && (forall at: nat :: at > |th.audit| ==> Met(start, events, id, at) == [])
  }

  /** One more attempt keeps the account, whether the call is over or not. */
  lemma AttemptIsFair(w: World, call: Call, attempt: nat, met: seq<Env>, env: Env)
    requires Struggling(call, attempt, met) && attempt <= TOOL_MAX_RETRIES
    ensures var result := ExecuteTool(w, call.tool, call.args, env).1;
      && (IsTransient(result) ==> Struggling(call, attempt + 1, met + [env]))
      && (!IsTransient(result) || attempt == TOOL_MAX_RETRIES ==> Fair(call.tool, call.args, result, met + [env]))
  {
    hide IsTransient, ExecuteTool, Binds;
    if Resolver.IsTerminal(call.tool) {
      TerminalAttempt(w, call.tool, call.args, env);
    }
    assert (met + [env])[|met|] == env;
    assert SomeSpared(met + [env]) <==> SomeSpared(met) || !env.fails by {
      if k :| 0 <= k < |met| && !met[k].fails {
        assert (met + [env])[k] == met[k];
      }
    }
  }

  /** The account of one thread after one more event, from the account before it. */
  lemma {:induction false} MetStays(start: System, events: seq<Event>, id: nat)
    requires events != []
    requires var s, e := Run(start, events[..|events| - 1]), events[|events| - 1];
      !(id in s.threads && e.thread == id && e.action.Attempt? && s.threads[id].phase.Executing?)
    ensures forall at: nat :: Met(start, events, id, at) == Met(start, events[..|events| - 1], id, at)
  {
  }

  lemma TriedThread(start: System, events: seq<Event>, id: nat)
    requires events != [] && id in Run(start, events[..|events| - 1]).threads
    requires var s, e := Run(start, events[..|events| - 1]), events[|events| - 1];
      e.thread == id && e.action.Attempt? && s.threads[id].phase.Executing?
    requires var s := Run(start, events[..|events| - 1]);
      ThreadJustified(s.threads[id]) && MetFairly(start, events[..|events| - 1], id, s.threads[id])
    ensures id in Run(start, events).threads && MetFairly(start, events, id, Run(start, events).threads[id])
  {
    var before, e := events[..|events| - 1], events[|events| - 1];
    var s := Run(start, before);
    var th := s.threads[id];
    hide Fair, Struggling, ThreadJustified, LineFair, Met, Run, Step;
    AttemptedPhase(s, id, e.action.env, Met(start, before, id, |th.audit|));
    MetGrows(start, events, id);
    LastStep(start, events);
    hide PhaseFair;
  }

  lemma LastStep(start: System, events: seq<Event>)
    requires events != []
    ensures Run(start, events) == Step(Run(start, events[..|events| - 1]), events[|events| - 1])
  {
  }

  /** What an attempt makes of its thread. */
  lemma AttemptedPhase(s: System, id: nat, env: Env, met: seq<Env>)
    requires id in s.threads && s.threads[id].phase.Executing?
    requires ThreadJustified(s.threads[id]) && PhaseFair(s.threads[id].phase, met)
    ensures var s' := Step(s, Event(id, Attempt(env)));
      && id in s'.threads && s'.threads[id].audit == s.threads[id].audit
      && PhaseFair(s'.threads[id].phase, met + [env])
  {
    var phase := s.threads[id].phase;
    AttemptIsFair(s.world, phase.call, phase.attempt, met, env);
    hide Fair, Struggling, ExecuteTool, IsTransient, EntryJustified, Judge;
  }

  lemma MetGrows(start: System, events: seq<Event>, id: nat)
    requires events != [] && id in Run(start, events[..|events| - 1]).threads
    requires var s, e := Run(start, events[..|events| - 1]), events[|events| - 1];
      e.thread == id && e.action.Attempt? && s.threads[id].phase.Executing?
    ensures var before, e := events[..|events| - 1], events[|events| - 1];
      var n := |Run(start, before).threads[id].audit|;
      && Met(start, events, id, n) == Met(start, before, id, n) + [e.action.env]
      && forall at: nat :: at != n ==> Met(start, events, id, at) == Met(start, before, id, at)
  {
    hide Step;
  }

  lemma OtherwiseThread(start: System, events: seq<Event>, id: nat)
    requires events != [] && id in Run(start, events[..|events| - 1]).threads
    requires var s, e := Run(start, events[..|events| - 1]), events[|events| - 1];
      !(e.thread == id && e.action.Attempt? && s.threads[id].phase.Executing?)
    requires var s := Run(start, events[..|events| - 1]);
      ThreadJustified(s.threads[id]) && MetFairly(start, events[..|events| - 1], id, s.threads[id])
    ensures id in Run(start, events).threads && MetFairly(start, events, id, Run(start, events).threads[id])
  {
    var before, e := events[..|events| - 1], events[|events| - 1];
    var s := Run(start, before);
    var th, th' := s.threads[id], Step(s, e).threads[id];
    MetStays(start, events, id);
    QuietKeepsFair(start, before, id, s, e);
    hide Step, MetFairly;
    assert Run(start, events) == Step(s, e);
  }

  lemma QuietKeepsFair(start: System, before: seq<Event>, id: nat, s: System, e: Event)
    requires id in s.threads && !(e.thread == id && e.action.Attempt? && s.threads[id].phase.Executing?)
    requires ThreadJustified(s.threads[id]) && MetFairly(start, before, id, s.threads[id])
    ensures id in Step(s, e).threads && MetFairly(start, before, id, Step(s, e).threads[id])
  {
    hide Fair, ExecuteTool, EntryJustified, Judge, Met;
  }

  lemma {:induction false} RunsMeetFairly(start: System, events: seq<Event>, id: nat)
    requires Initial(start) && id in start.threads
    ensures id in Run(start, events).threads && MetFairly(start, events, id, Run(start, events).threads[id])
  {
    if events != [] {
      var before, e := events[..|events| - 1], events[|events| - 1];
      RunsMeetFairly(start, before, id);
      InvariantOverRuns(start, before);
      hide Run, MetFairly, ThreadFaithful, LedgerOk, OriginsOk, ParkingsOk, ItemsOk, Prices;
      var th := Run(start, before).threads[id];
      assert ThreadJustified(th);
      if e.thread == id && e.action.Attempt? && th.phase.Executing? {
        TriedThread(start, events, id);
      } else {
        OtherwiseThread(start, events, id);
      }
    }
  }

  // ── a ticket's answers as a gate ──

  lemma {:induction false} MetAreRecords(start: System, events: seq<Event>, id: nat, at: nat)
    requires forall k :: 0 <= k < |events| ==> LookupsAreRecords(events[k])
    ensures forall k :: 0 <= k < |Met(start, events, id, at)| ==> LookupShape(Met(start, events, id, at)[k])
  {
    hide Run, LookupShape;
    if events != [] {
      assert LookupsAreRecords(events[|events| - 1]);
      MetAreRecords(start, events[..|events| - 1], id, at);
    }
  }

  /** The failures a ticket met; of attempts it did not make, nothing but failures is supposed. */
  function WeatherOf(start: System, events: seq<Event>, id: nat): Weather {
    (trail: seq<TrailEntry>) => (i: nat) =>
      var met := Met(start, events, id, |trail|);
      if i < |met| then met[i] else Env(true, PLAIN, OrderIdKey)
  }

  lemma WeatherIsMet(start: System, events: seq<Event>, id: nat, trail: seq<TrailEntry>)
    requires |Met(start, events, id, |trail|)| <= TOOL_MAX_RETRIES + 1
    ensures AllFail(WeatherOf(start, events, id)(trail)) <==> !SomeSpared(Met(start, events, id, |trail|))
  {
    hide Met;
    var met, env := Met(start, events, id, |trail|), WeatherOf(start, events, id)(trail);
    if k :| 0 <= k < |met| && !met[k].fails {
      assert !env(k).fails;
    }
  }

  predicate AnsweredNext(audit: seq<AuditEntry>, trail: seq<TrailEntry>, tc: Resolver.ToolCall) {
    && |trail| < |audit| && trail == Lines(audit[..|trail|])
    && tc.tool == audit[|trail|].tool && tc.args == audit[|trail|].args
  }

  /** An undisturbed desk for the calls the ticket did not make. */
  function DeskOf(start: System, events: seq<Event>, id: nat): Desk
    requires id in Run(start, events).threads
  {
    var th := Run(start, events).threads[id];
    Desk(th.ticketId, th.session.confidence, start.world, [], WeatherOf(start, events, id), 0.0)
  }

  /** What the ticket was answered in the run, and what guard() alone would answer to any other call. */
  function ThreadGate(start: System, events: seq<Event>, id: nat): Resolver.Gate
    requires id in Run(start, events).threads
  {
    var audit := Run(start, events).threads[id].audit;
    (trail: seq<TrailEntry>, tc: Resolver.ToolCall) =>
      if AnsweredNext(audit, trail, tc) then Resolver.Answer(audit[|trail|].result, audit[|trail|].decision)
      else GuardGate(DeskOf(start, events, id))(trail, tc)
  }

  /** The answers any ticket gets under interference are those of a policy gate, */
  lemma ThreadGateIsAPolicyGate(start: System, events: seq<Event>, id: nat)
    requires Initial(start) && id in start.threads && id in Run(start, events).threads
    requires forall k :: 0 <= k < |events| ==> LookupsAreRecords(events[k])
    ensures var confidence := Run(start, events).threads[id].session.confidence;
      PolicyGate(ThreadGate(start, events, id), Prices(start.world), confidence)
  {
    hide Run, Judged, GuardGate, Met, Prices, Lines;
    var d, th := DeskOf(start, events, id), Run(start, events).threads[id];
    forall trail, i: nat ensures LookupShape(d.weather(trail)(i)) {
      MetAreRecords(start, events, id, |trail|);
    }
    GuardGateIsAPolicyGate(d);
    forall trail, tc
      ensures Judged(Prices(start.world), th.session.confidence, trail, tc, ThreadGate(start, events, id)(trail, tc))
    {
      if AnsweredNext(th.audit, trail, tc) {
        AnswerIsJudged(start, events, id, trail, tc);
      } else {
        assert ThreadGate(start, events, id)(trail, tc) == GuardGate(d)(trail, tc);
      }
    }
  }

  lemma AnswerIsJudged(start: System, events: seq<Event>, id: nat, trail: seq<TrailEntry>, tc: Resolver.ToolCall)
    requires Initial(start) && id in start.threads && id in Run(start, events).threads
    requires forall k :: 0 <= k < |events| ==> LookupsAreRecords(events[k])
    requires AnsweredNext(Run(start, events).threads[id].audit, trail, tc)
    ensures var th := Run(start, events).threads[id]; var e := th.audit[|trail|];
      Judged(Prices(start.world), th.session.confidence, trail, tc, Resolver.Answer(e.result, e.decision))
  {
    EveryAnswerIsJudged(start, events, id, |trail|);
    hide Run, LookupsAreRecords, Judge, Honest, ResolverFacts.Shaped, HistoryOf, Prices;
    var audit := Run(start, events).threads[id].audit;
    assert Lines(audit)[..|trail|] == Lines(audit[..|trail|]);
  }

  /** and its terminal calls go through exactly if guard() lets them through. */
  lemma ThreadGateGuardsTerminals(start: System, events: seq<Event>, id: nat)
    requires Initial(start) && id in start.threads && id in Run(start, events).threads
    ensures TerminalsGuarded(ThreadGate(start, events, id), WeatherOf(start, events, id))
  {
    hide Run, TerminalGuarded, GuardGate, WeatherOf, Lines, FromGuard;
    var d, th, weather := DeskOf(start, events, id), Run(start, events).threads[id], WeatherOf(start, events, id);
    GuardGateIsFromGuard(d);
    GuardGuardsTerminals(GuardGate(d), weather);
    forall trail, tc: Resolver.ToolCall | Resolver.IsTerminal(tc.tool)
      ensures TerminalGuarded(ThreadGate(start, events, id)(trail, tc), tc, weather(trail))
    {
      if AnsweredNext(th.audit, trail, tc) {
        TerminalLine(start, events, id, trail, tc);
      } else {
        assert ThreadGate(start, events, id)(trail, tc) == GuardGate(d)(trail, tc);
      }
    }
  }

  lemma TerminalLine(start: System, events: seq<Event>, id: nat, trail: seq<TrailEntry>, tc: Resolver.ToolCall)
    requires Initial(start) && id in start.threads && id in Run(start, events).threads && Resolver.IsTerminal(tc.tool)
    requires AnsweredNext(Run(start, events).threads[id].audit, trail, tc)
    ensures var e := Run(start, events).threads[id].audit[|trail|];
      TerminalGuarded(Resolver.Answer(e.result, e.decision), tc, WeatherOf(start, events, id)(trail))
  {
    InvariantOverRuns(start, events);
    RunsMeetFairly(start, events, id);
    hide Run, Met, Deliverable, AllFail, SomeSpared, WeatherOf, Lines, PhaseFair, LedgerOk, OriginsOk, ParkingsOk,
      ItemsOk, Prices, ThreadFaithful, PhaseJustified, Evaluate;
    var th := Run(start, events).threads[id];
    assert ThreadJustified(th);
    assert EntryJustified(th, |trail|);
    DefaultVerdicts(tc.tool, tc.args, Before(th, |trail|));
    assert LineFair(th.audit[|trail|], Met(start, events, id, |trail|));
    WeatherIsMet(start, events, id, trail);
  }

  // ── a ticket driven by a model ──

  /** The ticket so far made the calls its model asks for, given the answers it got. */
  ghost predicate DrivenBy(llm: Resolver.Llm, gate: Resolver.Gate, audit: seq<AuditEntry>) {
    var trail := Resolver.Rounds(llm, gate, Resolver.START, Resolver.MAX_ITER).trail;
    |audit| <= |trail| && forall i :: 0 <= i < |audit| ==> CallsFor(trail[i], audit[i])
  }

  predicate CallsFor(line: TrailEntry, e: AuditEntry) {
    line.Called? && line.entry.tool == e.tool && line.entry.args == e.args
  }

  /** And there is nothing left for it to do, except to note that the model failed. */
  ghost predicate DoneBy(llm: Resolver.Llm, gate: Resolver.Gate, audit: seq<AuditEntry>) {
    var trail := Resolver.Rounds(llm, gate, Resolver.START, Resolver.MAX_ITER).trail;
    DrivenBy(llm, gate, audit) && forall i :: |audit| <= i < |trail| ==> trail[i].LlmError?
  }

  lemma {:induction false} SameLines(start: System, events: seq<Event>, id: nat, trail: seq<TrailEntry>, n: nat)
    requires id in Run(start, events).threads
    requires ResolverFacts.TrailAnswered(ThreadGate(start, events, id), trail)
    requires var audit := Run(start, events).threads[id].audit;
      n <= |audit| <= |trail| && forall i :: 0 <= i < |audit| ==> CallsFor(trail[i], audit[i])
    ensures trail[..n] == Lines(Run(start, events).threads[id].audit[..n])
  {
    hide Run, GuardGate, DeskOf;
    if n > 0 {
      SameLines(start, events, id, trail, n - 1);
      var audit, gate := Run(start, events).threads[id].audit, ThreadGate(start, events, id);
      assert ResolverFacts.Answered(gate, trail, n - 1);
      var callId: string :| ResolverFacts.AnsweredAs(gate, trail, n - 1, callId);
      var tc := Resolver.ToolCall(callId, audit[n - 1].tool, audit[n - 1].args);
      assert CallsFor(trail[n - 1], audit[n - 1]);
      assert AnsweredNext(audit, trail[..n - 1], tc);
      assert gate(trail[..n - 1], tc) == Resolver.Answer(audit[n - 1].result, audit[n - 1].decision);
      assert trail[n - 1] == Called(audit[n - 1]);
      assert trail[..n] == trail[..n - 1] + [trail[n - 1]];
      assert Lines(audit[..n]) == Lines(audit[..n - 1]) + [Called(audit[n - 1])];
    }
  }

  lemma OnlyTheLastFails(llm: Resolver.Llm, gate: Resolver.Gate)
    ensures var trail := Resolver.Rounds(llm, gate, Resolver.START, Resolver.MAX_ITER).trail;
      forall i :: 0 <= i < |trail| - 1 ==> trail[i].Called?
  {
    ResolverFacts.LoopOutcome(llm, gate);
    hide Resolver.Rounds, ResolverFacts.Count, ResolverFacts.TerminalOnlyLast;
  }

  lemma NothingButAFailure(done: nat, trail: seq<TrailEntry>)
    requires done <= |trail| && forall i :: 0 <= i < |trail| - 1 ==> trail[i].Called?
    ensures (forall i :: done <= i < |trail| ==> trail[i].LlmError?) ==>
      trail == trail[..done] || trail == trail[..done] + [LlmError]
  {
    if done + 1 < |trail| {
      assert trail[|trail| - 2].Called?;
    }
  }

  /** A ticket of any interleaved run that is driven by a model has taken the first steps of the resolver's
      loop for that model behind its gate; when it is done, it has taken them all. */
  lemma ThreadsRunTheLoop(start: System, events: seq<Event>, id: nat, llm: Resolver.Llm)
    requires id in Run(start, events).threads
    ensures var gate, audit := ThreadGate(start, events, id), Run(start, events).threads[id].audit;
      var trail := Resolver.Rounds(llm, gate, Resolver.START, Resolver.MAX_ITER).trail;
      && (DrivenBy(llm, gate, audit) ==> Lines(audit) <= trail)
      && (DoneBy(llm, gate, audit) ==> trail == Lines(audit) || trail == Lines(audit) + [LlmError])
  {
    var gate, audit := ThreadGate(start, events, id), Run(start, events).threads[id].audit;
    ResolverFacts.RunsAreAnswered(llm, gate, Resolver.START, Resolver.MAX_ITER);
    OnlyTheLastFails(llm, gate);
    hide Run, Resolver.Rounds, ResolverFacts.TrailAnswered, ThreadGate, Lines;
    var trail := Resolver.Rounds(llm, gate, Resolver.START, Resolver.MAX_ITER).trail;
    if DrivenBy(llm, gate, audit) {
      SameLines(start, events, id, trail, |audit|);
      assert audit[..|audit|] == audit;
      NothingButAFailure(|audit|, trail);
      assert trail[..|audit|] == Lines(audit) && Lines(audit) <= trail;
    }
  }

  // ── so the resolver's guarantees hold of it ──

  ghost predicate DeliveredCall(start: System, events: seq<Event>, id: nat, at: nat, tool: Tool)
    requires id in Run(start, events).threads && at < |Run(start, events).threads[id].audit|
  {
    var e := Run(start, events).threads[id].audit[at];
    e.tool == tool && Deliverable(tool, e.args) && SomeSpared(Met(start, events, id, at))
  }

  lemma FinishedIffDeliveredCall(start: System, events: seq<Event>, id: nat, at: nat, tool: Tool)
    requires Initial(start) && id in start.threads && id in Run(start, events).threads && Resolver.IsTerminal(tool)
    requires at < |Run(start, events).threads[id].audit|
    ensures Resolver.Finished(Called(Run(start, events).threads[id].audit[at]), tool)
            <==> DeliveredCall(start, events, id, at, tool)
  {
    InvariantOverRuns(start, events);
    RunsMeetFairly(start, events, id);
    hide Run, Met, Deliverable, SomeSpared, PhaseFair, LedgerOk, OriginsOk, ParkingsOk, ItemsOk,
      Prices, ThreadFaithful, PhaseJustified, Evaluate;
    var th := Run(start, events).threads[id];
    assert ThreadJustified(th);
    assert EntryJustified(th, at);
    var e := th.audit[at];
    DefaultVerdicts(e.tool, e.args, Before(th, at));
    assert LineFair(e, Met(start, events, id, at));
  }

  /** The status of any ticket of any interleaved run, from the calls it made and the failures they met there,
      whether or not the model failed at the end. */
  lemma TicketStatusIff(start: System, events: seq<Event>, id: nat, trail: seq<TrailEntry>)
    requires Initial(start) && id in start.threads && id in Run(start, events).threads
    requires var lines := Lines(Run(start, events).threads[id].audit); trail == lines || trail == lines + [LlmError]
    ensures var n := |Run(start, events).threads[id].audit|;
      var escalated := exists at :: 0 <= at < n && DeliveredCall(start, events, id, at, Escalate);
      var replied := exists at :: 0 <= at < n && DeliveredCall(start, events, id, at, SendReply);
      && (Resolver.StatusOf(trail) == Resolver.Escalated <==> escalated)
      && (Resolver.StatusOf(trail) == Resolver.Resolved <==> replied && !escalated)
      && (Resolver.StatusOf(trail) == Resolver.Incomplete <==> !replied && !escalated)
  {
    var audit := Run(start, events).threads[id].audit;
    forall at | 0 <= at < |audit|
      ensures Resolver.Finished(trail[at], Escalate) <==> DeliveredCall(start, events, id, at, Escalate)
      ensures Resolver.Finished(trail[at], SendReply) <==> DeliveredCall(start, events, id, at, SendReply)
    {
      assert trail[at] == Called(audit[at]);
      FinishedIffDeliveredCall(start, events, id, at, Escalate);
      FinishedIffDeliveredCall(start, events, id, at, SendReply);
    }
    hide Run, DeliveredCall;
  }

  lemma {:induction false} EveryLineIsACall(audit: seq<AuditEntry>)
    ensures ResolverFacts.Count(ResolverFacts.IsCalled, Lines(audit)) == |audit|
  {
    if audit != [] {
      var last := |audit| - 1;
      EveryLineIsACall(audit[..last]);
      assert Lines(audit) == Lines(audit[..last]) + [Called(audit[last])];
      ResolverFacts.CountGrows(Lines(audit[..last]), Called(audit[last]));
    }
  }

  /** A ticket driven by a model stops as the loop does: its calls are all that was counted, within the cap. */
  lemma TicketOutcome(start: System, events: seq<Event>, id: nat, llm: Resolver.Llm)
    requires id in Run(start, events).threads
    requires DoneBy(llm, ThreadGate(start, events, id), Run(start, events).threads[id].audit)
    ensures var audit := Run(start, events).threads[id].audit;
      var s := Resolver.Rounds(llm, ThreadGate(start, events, id), Resolver.START, Resolver.MAX_ITER);
      && s.calls == |audit| && s.rounds <= Resolver.MAX_ITER
      && (s.terminal <==> ResolverFacts.HasTerminal(Lines(audit)))
      && (s.terminal || s.trail == Lines(audit) + [LlmError] || |audit| >= 3 || s.rounds == Resolver.MAX_ITER)
  {
    ThreadsRunTheLoop(start, events, id, llm);
    ResolverFacts.LoopOutcome(llm, ThreadGate(start, events, id));
    hide Run, Resolver.Rounds, ThreadGate, ResolverFacts.Count, ResolverFacts.HasTerminal, DrivenBy,
      ResolverFacts.TerminalOnlyLast;
    var audit := Run(start, events).threads[id].audit;
    EveryLineIsACall(audit);
    ResolverFacts.CountGrows(Lines(audit), LlmError);
    ResolverFacts.TerminalGrows(Lines(audit), LlmError);
  }

  /** However its calls are interleaved with other tickets', the refund the scripted agent proposes is denied
      exactly when the order's price is not positive. */
  lemma ScriptedTicketsAreDeniedIff(start: System, events: seq<Event>, id: nat, ctx: Context)
    requires Initial(start) && id in start.threads && id in Run(start, events).threads
    requires forall k :: 0 <= k < |events| ==> LookupsAreRecords(events[k])
    requires DrivenBy(Scripted(ctx), ThreadGate(start, events, id), Run(start, events).threads[id].audit)
    ensures var s := Resolver.Rounds(Scripted(ctx), ThreadGate(start, events, id), Resolver.START, Resolver.MAX_ITER);
      RefundsJudged(Prices(start.world), OrderId(ctx, Scan(s.messages).results),
                    Lines(Run(start, events).threads[id].audit))
  {
    var gate, th := ThreadGate(start, events, id), Run(start, events).threads[id];
    ThreadGateIsAPolicyGate(start, events, id);
    ThreadsRunTheLoop(start, events, id, Scripted(ctx));
    hide Run, Resolver.Rounds, ThreadGate, PolicyGate, Prices, Scan, OrderId, DrivenBy, Lines;
    ScriptedRefundsAreDeniedIff(ctx, Prices(start.world), th.session.confidence, gate);
  }
}
