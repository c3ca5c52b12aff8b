/** The resolver's loop behind guard() is one of the runs of the refund protocol. */
module LoopRun {
  import opened Schemas
  import opened Audit
  import opened Tools
  import opened Resilient
  import opened Engine
  import opened Protocol
  import opened ProtocolSafety
  import opened ProtocolGate
  import opened ProtocolWitnesses
  import opened ScriptedRefund
  import opened GuardedRun
  import opened ThreadRun
  import opened ScriptedRun
  import Resolver
  import ResolverFacts

  // ── the calls of a trail, one after the other ──

  function Schedule(d: Desk, id: nat, trail: seq<TrailEntry>): seq<Event> {
    if trail == [] then []
    else
      var before, last := trail[..|trail| - 1], trail[|trail| - 1];
      Schedule(d, id, before)
      + if last.Called? then GuardSchedule(id, last.entry.tool, last.entry.args, d.weather(before)) else []
  }

  function EntriesOf(trail: seq<TrailEntry>): seq<AuditEntry> {
    if trail == [] then []
    else
      var last := trail[|trail| - 1];
      EntriesOf(trail[..|trail| - 1]) + if last.Called? then [last.entry] else []
  }

  /** The ticket that sits at this desk when the process starts. */
  predicate SitsAt(start: System, id: nat, d: Desk) {
    && Initial(start) && id in start.threads && start.world == d.world && start.hitl == d.hitl
    && start.threads[id].ticketId == d.ticketId && start.threads[id].session.confidence == d.confidence
  }

  /** After those calls the system is where the desk is. */
  ghost predicate Follows(start: System, id: nat, d: Desk, trail: seq<TrailEntry>) {
    var s := Run(start, Schedule(d, id, trail));
    && s.world == After(d, trail).world && s.hitl == After(d, trail).hitl
    && s.threads == start.threads[id :=
      Thread(d.ticketId, Session(d.confidence, HistoryOf(trail)), EntriesOf(trail), Idle)]
  }

  lemma OneMoreCall(start: System, id: nat, d: Desk, before: seq<TrailEntry>, e: AuditEntry)
    requires Follows(start, id, d, before)
    requires var out := GuardedAt(d, before, e.tool, e.args); e.result == out.result && e.decision == out.decision
    requires GuardedAt(d, before, e.tool, e.args).calls == HistoryOf(before + [Called(e)])
    ensures Follows(start, id, d, before + [Called(e)])
  {
    AfterOneCall(d, before, e);
    hide Run, GuardSchedule, Guarded, HistoryOf, After;
    var trail := before + [Called(e)];
    assert trail[..|trail| - 1] == before;
    var s, env := Run(start, Schedule(d, id, before)), d.weather(before);
    RunAppend(start, Schedule(d, id, before), GuardSchedule(id, e.tool, e.args, env));
    GuardIsARun(s, id, e.tool, e.args, env, d.base);
  }

  lemma AfterOneCall(d: Desk, before: seq<TrailEntry>, e: AuditEntry)
    ensures var out := GuardedAt(d, before, e.tool, e.args);
      After(d, before + [Called(e)]) == After(d, before).(world := out.world, hitl := out.hitl)
  {
    hide GuardedAt;
    var trail := before + [Called(e)];
    assert trail[..|trail| - 1] == before;
  }

  lemma ModelFailureFollows(start: System, id: nat, d: Desk, before: seq<TrailEntry>)
    requires Follows(start, id, d, before)
    ensures Follows(start, id, d, before + [LlmError])
  {
    var trail := before + [LlmError];
    assert trail[..|trail| - 1] == before;
    hide Run, Guarded;
    assert Schedule(d, id, trail) == Schedule(d, id, before) + [] == Schedule(d, id, before);
    assert HistoryOf(trail) == HistoryOf(before) + [] == HistoryOf(before);
    assert EntriesOf(trail) == EntriesOf(before) + [] == EntriesOf(before);
    assert After(d, trail) == After(d, before);
  }

  lemma {:induction false} ScheduleFollows(start: System, id: nat, d: Desk, trail: seq<TrailEntry>, n: nat)
    requires SitsAt(start, id, d) && n <= |trail| && ResolverFacts.TrailAnswered(GuardGate(d), trail)
    requires forall before, tool, args ::
      var out := GuardedAt(d, before, tool, args);
      out.calls == HistoryOf(before + [Called(AuditEntry(tool, args, out.result, out.decision))])
    ensures Follows(start, id, d, trail[..n])
  {
    hide GuardedAt, HistoryOf, GuardSchedule, Follows;
    if n == 0 {
      NothingFollows(start, id, d);
      assert trail[..0] == [];
    } else {
      ScheduleFollows(start, id, d, trail, n - 1);
      var before := trail[..n - 1];
      assert trail[..n] == before + [trail[n - 1]];
      if trail[n - 1].LlmError? {
        ModelFailureFollows(start, id, d, before);
      } else {
        var e := trail[n - 1].entry;
        assert ResolverFacts.Answered(GuardGate(d), trail, n - 1);
        var out := GuardedAt(d, before, e.tool, e.args);
        assert e == AuditEntry(e.tool, e.args, out.result, out.decision);
        OneMoreCall(start, id, d, before, e);
      }
    }
  }

  lemma NothingFollows(start: System, id: nat, d: Desk)
    requires SitsAt(start, id, d)
    ensures Follows(start, id, d, [])
  {
    var th := start.threads[id];
    assert th == Thread(d.ticketId, Session(d.confidence, []), [], Idle);
  }

  // ── gates that agree where a run passes make the same run ──

  /** They answer the calls of this trail alike. */
  ghost predicate Agree(g: Resolver.Gate, h: Resolver.Gate, trail: seq<TrailEntry>) {
    forall i, tc: Resolver.ToolCall :: 0 <= i < |trail| && Makes(trail[i], tc) ==>
      g(trail[..i], tc) == h(trail[..i], tc)
  }

  predicate Makes(line: TrailEntry, tc: Resolver.ToolCall) {
    line.Called? && line.entry.tool == tc.tool && line.entry.args == tc.args
  }

  lemma {:induction false} SameCalls(g: Resolver.Gate, h: Resolver.Gate, s: Resolver.Loop, tcs: seq<Resolver.ToolCall>,
                                     trail: seq<TrailEntry>)
    requires Agree(g, h, trail) && Resolver.AllCalls(g, s, tcs).trail <= trail
    ensures Resolver.AllCalls(h, s, tcs) == Resolver.AllCalls(g, s, tcs)
    decreases |tcs|
  {
    if tcs != [] {
      var next := Resolver.OneCall(g, s, tcs[0]);
      ResolverFacts.AllCallsAppend(g, next, tcs[1..]);
      assert trail[..|s.trail|] == s.trail;
      assert trail[|s.trail|] == next.trail[|s.trail|];
      assert Makes(trail[|s.trail|], tcs[0]);
      SameCalls(g, h, next, tcs[1..], trail);
    }
  }

  lemma SameRound(llm: Resolver.Llm, g: Resolver.Gate, h: Resolver.Gate, s: Resolver.Loop, trail: seq<TrailEntry>)
    requires Agree(g, h, trail) && Resolver.OneRound(llm, g, s).0.trail <= trail
    ensures Resolver.OneRound(llm, h, s) == Resolver.OneRound(llm, g, s)
  {
    var reply := llm(s.messages);
    if reply.Calls? && reply.calls != [] {
      var messages := s.messages + [Resolver.AssistantCalls(reply.calls)];
      SameCalls(g, h, s.(rounds := s.rounds + 1, messages := messages), reply.calls, trail);
    }
  }

  lemma RoundAppends(llm: Resolver.Llm, g: Resolver.Gate, s: Resolver.Loop)
    ensures s.trail <= Resolver.OneRound(llm, g, s).0.trail
  {
    var reply := llm(s.messages);
    if reply.Calls? && reply.calls != [] {
      var messages := s.messages + [Resolver.AssistantCalls(reply.calls)];
      ResolverFacts.AllCallsAppend(g, s.(rounds := s.rounds + 1, messages := messages), reply.calls);
    }
  }

  lemma {:induction false} RoundsAppend(llm: Resolver.Llm, g: Resolver.Gate, s: Resolver.Loop, left: nat)
    ensures s.trail <= Resolver.Rounds(llm, g, s, left).trail
    decreases left
  {
    hide Resolver.OneRound, Resolver.Rounds;
    if left == 0 {
      NoRounds(llm, g, s);
    } else {
      var (next, stop) := Resolver.OneRound(llm, g, s);
      RoundsUnroll(llm, g, s, left, next, stop);
      RoundAppends(llm, g, s);
      if !stop {
        RoundsAppend(llm, g, next, left - 1);
      }
    }
  }

  lemma NoRounds(llm: Resolver.Llm, g: Resolver.Gate, s: Resolver.Loop)
    ensures Resolver.Rounds(llm, g, s, 0) == s
  {
  }

  lemma {:induction false} SameRun(llm: Resolver.Llm, g: Resolver.Gate, h: Resolver.Gate, s: Resolver.Loop, left: nat,
                                   trail: seq<TrailEntry>)
    requires Agree(g, h, trail) && Resolver.Rounds(llm, g, s, left).trail <= trail
    ensures Resolver.Rounds(llm, h, s, left) == Resolver.Rounds(llm, g, s, left)
    decreases left
  {
    hide Resolver.OneRound, Resolver.Rounds, Agree;
    if left == 0 {
      NoRounds(llm, g, s);
      NoRounds(llm, h, s);
    } else {
      var (next, stop) := Resolver.OneRound(llm, g, s);
      RoundsUnroll(llm, g, s, left, next, stop);
      if !stop {
        RoundsAppend(llm, g, next, left - 1);
      }
      SameRound(llm, g, h, s, trail);
      RoundsUnroll(llm, h, s, left, next, stop);
      if !stop {
        SameRun(llm, g, h, next, left - 1, trail);
      }
    }
  }

  // ── the loop as a run ──

  ghost predicate AllRecords(events: seq<Event>) {
    forall k :: 0 <= k < |events| ==> LookupsAreRecords(events[k])
  }

  lemma {:induction false} AttemptsLookUpRecords(id: nat, env: nat -> Env, n: nat)
    requires forall i: nat :: LookupShape(env(i))
    ensures AllRecords(Attempting(id, env, n))
  {
    if n > 0 {
      AttemptsLookUpRecords(id, env, n - 1);
    }
  }

  lemma {:induction false} ScheduleLooksUpRecords(d: Desk, id: nat, trail: seq<TrailEntry>)
    requires forall trail, i: nat :: LookupShape(d.weather(trail)(i))
    ensures AllRecords(Schedule(d, id, trail))
  {
    if trail != [] {
      var before, last := trail[..|trail| - 1], trail[|trail| - 1];
      ScheduleLooksUpRecords(d, id, before);
      AttemptsLookUpRecords(id, d.weather(before), TOOL_MAX_RETRIES + 1);
    }
  }

  lemma {:induction false} LinesOfEntries(trail: seq<TrailEntry>)
    requires forall i :: 0 <= i < |trail| - 1 ==> trail[i].Called?
    ensures trail == Lines(EntriesOf(trail)) || trail == Lines(EntriesOf(trail)) + [LlmError]
  {
    if trail != [] {
      var before, last := trail[..|trail| - 1], trail[|trail| - 1];
      LinesOfEntries(before);
      assert before == Lines(EntriesOf(before)) by {
        if before != [] {
          assert before[|before| - 1] == trail[|before| - 1];
        }
      }
      assert trail == before + [last];
    }
  }

  /** A ticket's gate answers along the ticket's own trail what guard() at its desk does. */
  lemma GateAgrees(start: System, events: seq<Event>, id: nat, d: Desk, trail: seq<TrailEntry>)
    requires id in Run(start, events).threads && ResolverFacts.TrailAnswered(GuardGate(d), trail)
    requires var lines := Lines(Run(start, events).threads[id].audit); trail == lines || trail == lines + [LlmError]
    ensures Agree(GuardGate(d), ThreadGate(start, events, id), trail)
  {
    hide Run, GuardedAt, DeskOf;
    var audit, h := Run(start, events).threads[id].audit, ThreadGate(start, events, id);
    forall i, tc: Resolver.ToolCall | 0 <= i < |trail| && Makes(trail[i], tc)
      ensures GuardGate(d)(trail[..i], tc) == h(trail[..i], tc)
    {
      assert ResolverFacts.Answered(GuardGate(d), trail, i);
      assert trail[i] == Called(audit[i]);
      assert trail[..i] == Lines(audit[..i]);
      assert AnsweredNext(audit, trail[..i], tc);
    }
  }

  /** Every run of the loop behind guard(), for any model, any ledger and any failures, is a run of the
      protocol: it leaves the same ledger, queue and audit trail, and the ticket there is driven by that model
      to its end. So what is proved of all runs of the protocol is proved of the loop. */
  lemma LoopsAreRuns(start: System, id: nat, d: Desk, llm: Resolver.Llm)
    requires SitsAt(start, id, d) && forall trail, i: nat :: LookupShape(d.weather(trail)(i))
    ensures var s := Resolver.Rounds(llm, GuardGate(d), Resolver.START, Resolver.MAX_ITER);
      var events := Schedule(d, id, s.trail);
      var end, left := Run(start, events), After(d, s.trail);
      && end.world == left.world && end.hitl == left.hitl && id in end.threads
      && AllRecords(events)
      && (var lines := Lines(end.threads[id].audit); s.trail == lines || s.trail == lines + [LlmError])
      && Resolver.Rounds(llm, ThreadGate(start, events, id), Resolver.START, Resolver.MAX_ITER) == s
      && DoneBy(llm, ThreadGate(start, events, id), end.threads[id].audit)
  {
    hide Run, Resolver.Rounds, Schedule, ThreadGate, GuardGate, AllRecords, After, Lines, DoneBy, SitsAt;
    LoopIsScheduled(start, id, d, llm);
    ScheduleLooksUpRecords(d, id, Resolver.Rounds(llm, GuardGate(d), Resolver.START, Resolver.MAX_ITER).trail);
    LoopIsDriven(start, id, d, llm);
  }

  lemma LoopIsDriven(start: System, id: nat, d: Desk, llm: Resolver.Llm)
    requires SitsAt(start, id, d) && forall trail, i: nat :: LookupShape(d.weather(trail)(i))
    ensures var s := Resolver.Rounds(llm, GuardGate(d), Resolver.START, Resolver.MAX_ITER);
      var events := Schedule(d, id, s.trail);
      && id in Run(start, events).threads
      && Resolver.Rounds(llm, ThreadGate(start, events, id), Resolver.START, Resolver.MAX_ITER) == s
      && DoneBy(llm, ThreadGate(start, events, id), Run(start, events).threads[id].audit)
  {
    ResolverFacts.RunsAreAnswered(llm, GuardGate(d), Resolver.START, Resolver.MAX_ITER);
    hide Run, Resolver.Rounds, Schedule, ThreadGate, Agree, GuardGate, After, Lines, SitsAt,
      ResolverFacts.TrailAnswered;
    var s := Resolver.Rounds(llm, GuardGate(d), Resolver.START, Resolver.MAX_ITER);
    var trail, events := s.trail, Schedule(d, id, s.trail);
    LoopIsScheduled(start, id, d, llm);
    GateAgrees(start, events, id, d, trail);
    SameRun(llm, GuardGate(d), ThreadGate(start, events, id), Resolver.START, Resolver.MAX_ITER, trail);
    LinesAreCalled(trail, Run(start, events).threads[id].audit);
  }

  lemma LoopIsScheduled(start: System, id: nat, d: Desk, llm: Resolver.Llm)
    requires SitsAt(start, id, d) && forall trail, i: nat :: LookupShape(d.weather(trail)(i))
    ensures var trail := Resolver.Rounds(llm, GuardGate(d), Resolver.START, Resolver.MAX_ITER).trail;
      var end, left := Run(start, Schedule(d, id, trail)), After(d, trail);
      && end.world == left.world && end.hitl == left.hitl && id in end.threads
      && (var lines := Lines(end.threads[id].audit); trail == lines || trail == lines + [LlmError])
  {
    var gate := GuardGate(d);
    GuardGateIsAPolicyGate(d);
    ResolverFacts.RunsAreAnswered(llm, gate, Resolver.START, Resolver.MAX_ITER);
    hide Run, Resolver.Rounds, GuardedAt, HistoryOf, Schedule, PolicyGate, GuardGate, After, Lines, EntriesOf,
      ResolverFacts.TrailAnswered;
    var trail := Resolver.Rounds(llm, gate, Resolver.START, Resolver.MAX_ITER).trail;
    ScheduleFollows(start, id, d, trail, |trail|);
    assert trail[..|trail|] == trail;
    OnlyTheLastFails(llm, gate);
    LinesOfEntries(trail);
  }

  lemma LinesAreCalled(trail: seq<TrailEntry>, audit: seq<AuditEntry>)
    requires trail == Lines(audit) || trail == Lines(audit) + [LlmError]
    ensures |audit| <= |trail|
    ensures forall i :: 0 <= i < |audit| ==> CallsFor(trail[i], audit[i])
    ensures forall i :: |audit| <= i < |trail| ==> trail[i].LlmError?
  {
  }
}
