/** How the monitor's iteration cap relates to the rounds a run takes (monitoring/health.py, agents/resolver.py). */
module IterationCap {
  import opened Schemas
  import opened Audit
  import opened Resolver
  import opened ResolverFacts
  import opened Health
  import opened GuardedRun
  import opened ScriptedRun

  // ── rounds, nudges and replies ──

  function Nudges(messages: seq<Message>): nat {
    if messages == [] then 0
    else Nudges(messages[..|messages| - 1]) + if messages[|messages| - 1].Nudge? then 1 else 0
  }

  function Replies(messages: seq<Message>): nat {
    if messages == [] then 0
    else Replies(messages[..|messages| - 1]) + if messages[|messages| - 1].AssistantCalls? then 1 else 0
  }

  lemma CountsAppend(messages: seq<Message>, m: Message)
    ensures Nudges(messages + [m]) == Nudges(messages) + if m.Nudge? then 1 else 0
    ensures Replies(messages + [m]) == Replies(messages) + if m.AssistantCalls? then 1 else 0
  {
    assert (messages + [m])[..|messages + [m]| - 1] == messages;
  }

  lemma {:induction false} AllCallsCount(gate: Gate, s: Loop, tcs: seq<ToolCall>)
    ensures var s' := AllCalls(gate, s, tcs);
      && Nudges(s'.messages) == Nudges(s.messages) && Replies(s'.messages) == Replies(s.messages)
      && s'.calls == s.calls + |tcs| && s'.rounds == s.rounds
    decreases |tcs|
  {
    hide Nudges, Replies;
    if tcs != [] {
      var next := OneCall(gate, s, tcs[0]);
      CountsAppend(s.messages, next.messages[|s.messages|]);
      AllCallsCount(gate, next, tcs[1..]);
    }
  }

  /** Each round so far ended in a nudge or made at least one call. */
  ghost predicate Paced(s: Loop) {
    s.rounds == Nudges(s.messages) + Replies(s.messages) && Replies(s.messages) <= s.calls
  }

  /** Or all but the last did, in which the model failed or fell silent for good. */
  ghost predicate LastRoundLost(s: Loop) {
    s.rounds > 0 && Paced(s.(rounds := s.rounds - 1))
  }

  lemma OneRoundIsPaced(llm: Llm, gate: Gate, s: Loop)
    requires Paced(s) && !s.terminal
    ensures var (next, stop) := OneRound(llm, gate, s);
      && (Paced(next) || (stop && !next.terminal && LastRoundLost(next)))
      && (!stop ==> !next.terminal)
  {
    hide Nudges, Replies, AllCalls;
    var reply := llm(s.messages);
    if reply.Calls? && reply.calls != [] {
      CountsAppend(s.messages, AssistantCalls(reply.calls));
      var asked := s.(rounds := s.rounds + 1, messages := s.messages + [AssistantCalls(reply.calls)]);
      AllCallsCount(gate, asked, reply.calls);
    } else if !reply.Raised? && s.calls < 3 {
      CountsAppend(s.messages, AssistantText);
      CountsAppend(s.messages + [AssistantText], Nudge);
      assert s.messages + [AssistantText, Nudge] == s.messages + [AssistantText] + [Nudge];
    } else {
      var next := OneRound(llm, gate, s).0;
      assert next.messages == s.messages && next.calls == s.calls && next.rounds == s.rounds + 1;
    }
  }

  lemma {:induction false} RoundsArePaced(llm: Llm, gate: Gate, s: Loop, left: nat)
    requires Paced(s) && !s.terminal
    ensures var end := Rounds(llm, gate, s, left); Paced(end) || (!end.terminal && LastRoundLost(end))
    decreases left
  {
    hide Paced, LastRoundLost, OneRound;
    if left > 0 {
      OneRoundIsPaced(llm, gate, s);
      var (next, stop) := OneRound(llm, gate, s);
      if !stop {
        RoundsArePaced(llm, gate, next, left - 1);
      }
    }
  }

  // ── the cap counts calls ──

  /** A run that used up its rounds is meant to be degraded. It escapes exactly when it is complete, made
      fewer than twelve calls, few of them failing, and still scores; and then it was nudged at least once. */
  lemma CapIsEscapedIff(confidence: real, llm: Llm, gate: Gate)
    requires ShapedGate(gate)
    requires Rounds(llm, gate, START, MAX_ITER).rounds == MAX_ITER
    ensures var s := Rounds(llm, gate, START, MAX_ITER); var healthy := !Degraded(ResolutionOf(confidence, s));
      && (healthy <==>
            && StatusOf(s.trail) != Incomplete && s.calls < MAX_TOOL_ITERATIONS
            && !TooManyErrors(Count(ShowsError, s.trail), s.calls)
            && RawConfidence(confidence, true, s.calls, s.errors, |s.blocked|) >= 0.5995)
      && (healthy ==> s.terminal && Nudges(s.messages) > 0)
  {
    StatusMeansTerminal(llm, gate);
    hide Rounds, StatusOf, Count, TooManyErrors, RawConfidence, Nudges, ShapedGate, Degraded;
    var s := Rounds(llm, gate, START, MAX_ITER);
    HealthyIff(confidence, s);
    if s.terminal && s.calls < MAX_TOOL_ITERATIONS {
      SlowRunsAreNudged(llm, gate);
    }
  }

  lemma HealthyIff(confidence: real, s: Loop)
    ensures !Degraded(ResolutionOf(confidence, s)) <==>
      && StatusOf(s.trail) != Incomplete && s.calls < MAX_TOOL_ITERATIONS
      && !TooManyErrors(Count(ShowsError, s.trail), s.calls)
      && RawConfidence(confidence, s.terminal, s.calls, s.errors, |s.blocked|) >= 0.5995
  {
    hide StatusOf, Count, TooManyErrors, SelfConfidence, RawConfidence;
    ScoreIsLowIff(confidence, s.terminal, s.calls, s.errors, |s.blocked|);
  }

  lemma SlowIsNudged(s: Loop)
    requires (Paced(s) || (!s.terminal && LastRoundLost(s))) && s.terminal && s.calls < s.rounds
    ensures Nudges(s.messages) > 0
  {
  }

  lemma RunsArePaced(llm: Llm, gate: Gate)
    ensures var s := Rounds(llm, gate, START, MAX_ITER); Paced(s) || (!s.terminal && LastRoundLost(s))
  {
    StartIsPaced();
    hide Paced, LastRoundLost, Rounds;
    RoundsArePaced(llm, gate, START, MAX_ITER);
  }

  lemma SlowRunsAreNudged(llm: Llm, gate: Gate)
    requires var s := Rounds(llm, gate, START, MAX_ITER); s.terminal && s.calls < s.rounds
    ensures Nudges(Rounds(llm, gate, START, MAX_ITER).messages) > 0
  {
    hide Paced, LastRoundLost, Rounds, Nudges;
    RunsArePaced(llm, gate);
    SlowIsNudged(Rounds(llm, gate, START, MAX_ITER));
  }

  lemma StartIsPaced()
    ensures Paced(START)
  {
    CountsAppend([], SystemPrompt);
    CountsAppend([SystemPrompt], TicketPrompt);
    assert [] + [SystemPrompt] == [SystemPrompt] && [SystemPrompt] + [TicketPrompt] == START.messages;
  }

  // ── a run of twelve rounds that is not flagged ──

  /** A model that says nothing for eleven rounds and replies in the twelfth. */
  function Dawdling(d: Desk): Llm {
    (messages: seq<Message>) => if |messages| < 24 then Silent else Calls([ReplyCall(d.ticketId, Text("parked"))])
  }

  ghost predicate Dawdled(s: Loop, k: nat) {
    && s.trail == [] && s.blocked == [] && s.calls == 0 && s.errors == 0 && !s.terminal
    && s.rounds == k && |s.messages| == 2 + 2 * k
  }

  lemma {:induction false} DawdlesOn(d: Desk, s: Loop, k: nat) returns (late: Loop)
    requires Dawdled(s, k) && k <= 11
    ensures Dawdled(late, 11)
    ensures Rounds(Dawdling(d), GuardGate(d), s, MAX_ITER - k) == Rounds(Dawdling(d), GuardGate(d), late, 1)
    decreases 11 - k
  {
    hide GuardGate, Rounds;
    if k == 11 {
      late := s;
    } else {
      var (next, stop) := OneRound(Dawdling(d), GuardGate(d), s);
      RoundsUnroll(Dawdling(d), GuardGate(d), s, MAX_ITER - k, next, stop);
      late := DawdlesOn(d, next, k + 1);
    }
  }

  /** It uses all its rounds, makes a single call, and is healthy from a triage confidence of 0.5995 on. */
  lemma DawdlingIsHealthyIff(d: Desk)
    requires Calm(d)
    ensures var s := Rounds(Dawdling(d), GuardGate(d), START, MAX_ITER);
      && s.rounds == MAX_ITER && s.calls == 1
      && (!Degraded(ResolutionOf(d.confidence, s)) <==> d.confidence >= 0.5995)
  {
    var llm, gate, tc := Dawdling(d), GuardGate(d), ReplyCall(d.ticketId, Text("parked"));
    var late := DawdlesOn(d, START, 0);
    ReplyAnswer(d, []);
    hide GuardGate, Rounds, OneRound, StatusOf, RawConfidence, Count, TooManyErrors, Calm, Degraded;
    RoundEffect(llm, gate, late, tc);
    var (s, stop) := OneRound(llm, gate, late);
    RoundsUnroll(llm, gate, late, 1, s, stop);
    OneMoreRound(llm, gate, late);
    LastReplyResolves(s.trail);
    assert Count(ShowsError, s.trail) == 0 by {
      NoErrorShown(s.trail);
    }
    NoErrorsAreNotTooMany(1);
    HealthyIff(d.confidence, s);
    CleanScore(d.confidence, 1, 0);
  }

  lemma OneMoreRound(llm: Llm, gate: Gate, s: Loop)
    ensures OneRound(llm, gate, s).0.rounds == s.rounds + 1
  {
    hide AllCalls, Nudges, Replies;
    var reply := llm(s.messages);
    if reply.Calls? {
      var asked := s.(rounds := s.rounds + 1, messages := s.messages + [AssistantCalls(reply.calls)]);
      AllCallsCount(gate, asked, reply.calls);
    }
  }

  lemma LastReplyResolves(trail: seq<TrailEntry>)
    requires |trail| == 1 && trail[0].Called? && trail[0].entry.tool == SendReply && !IsError(trail[0].entry.result)
    ensures StatusOf(trail) == Resolved
  {
    assert Finished(trail[0], SendReply);
  }

  lemma NoErrorShown(trail: seq<TrailEntry>)
    requires |trail| == 1 && trail[0].Called? && !IsError(trail[0].entry.result)
    ensures Count(ShowsError, trail) == 0
  {
    assert trail[..0] == [];
    assert Count(ShowsError, []) == 0;
  }

  // ── and one of a single round that is ──

  /** A model that makes twelve calls in its first reply. */
  function Hasty(ticketId: string): Llm {
    (messages: seq<Message>) => Calls(seq(12, i => ReplyCall(ticketId, Text("parked"))))
  }

  lemma HastyIsDegraded(confidence: real, ticketId: string, gate: Gate)
    requires ShapedGate(gate)
    ensures var s := Rounds(Hasty(ticketId), gate, START, MAX_ITER);
      s.rounds == 1 && s.terminal && s.calls >= MAX_TOOL_ITERATIONS && Degraded(ResolutionOf(confidence, s))
  {
    var llm, tcs := Hasty(ticketId), seq(12, i => ReplyCall(ticketId, Text("parked")));
    var asked := START.(rounds := 1, messages := START.messages + [AssistantCalls(tcs)]);
    assert llm(START.messages) == Calls(tcs);
    AllCallsCount(gate, asked, tcs);
    FirstReplyIsTerminal(gate, asked, tcs);
    hide Rounds, AllCalls;
    RoundsUnroll(llm, gate, START, MAX_ITER, AllCalls(gate, asked, tcs), true);
  }

  lemma FirstReplyIsTerminal(gate: Gate, s: Loop, tcs: seq<ToolCall>)
    requires ShapedGate(gate) && tcs != [] && IsTerminal(tcs[0].tool)
    ensures AllCalls(gate, s, tcs).terminal
  {
    assert Shaped(gate(s.trail, tcs[0]), tcs[0].tool);
    TerminalStays(gate, OneCall(gate, s, tcs[0]), tcs[1..]);
  }

  lemma {:induction false} TerminalStays(gate: Gate, s: Loop, tcs: seq<ToolCall>)
    requires s.terminal
    ensures AllCalls(gate, s, tcs).terminal
    decreases |tcs|
  {
    if tcs != [] {
      TerminalStays(gate, OneCall(gate, s, tcs[0]), tcs[1..]);
    }
  }
}
