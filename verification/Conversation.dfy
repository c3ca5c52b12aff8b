/** The conversation the resolver's loop keeps with any model (agents/resolver.py). */
module Conversation {
  import opened Schemas
  import opened Audit
  import opened Resolver

  // ── every call is answered, once and in order ──

  /** The reply at this place is followed by one answer for each of its calls, under the call's own id. */
  ghost predicate RepliedTo(messages: seq<Message>, i: nat)
    requires i < |messages|
  {
    messages[i].AssistantCalls? ==>
      && i + |messages[i].calls| < |messages|
      && forall k :: 0 <= k < |messages[i].calls| ==> Replies(messages[i + 1 + k], messages[i].calls[k])
  }

  predicate Replies(m: Message, tc: ToolCall) {
    m.ToolAnswer? && m.id == tc.id
  }

  ghost predicate Complete(messages: seq<Message>) {
    forall i :: 0 <= i < |messages| ==> RepliedTo(messages, i)
  }

  lemma {:induction false} CallsAreReplied(gate: Gate, s: Loop, tcs: seq<ToolCall>)
    ensures var after := AllCalls(gate, s, tcs).messages;
      && |after| == |s.messages| + |tcs| && s.messages <= after
      && forall k :: 0 <= k < |tcs| ==> Replies(after[|s.messages| + k], tcs[k])
    decreases |tcs|
  {
    if tcs != [] {
      var next := OneCall(gate, s, tcs[0]);
      CallsAreReplied(gate, next, tcs[1..]);
      var after := AllCalls(gate, s, tcs).messages;
      forall k | 0 <= k < |tcs| ensures Replies(after[|s.messages| + k], tcs[k]) {
        if k > 0 {
          assert Replies(after[|next.messages| + (k - 1)], tcs[1..][k - 1]);
        } else {
          assert after[|s.messages|] == next.messages[|s.messages|];
        }
      }
    }
  }

  lemma CompleteGrows(before: seq<Message>, tcs: seq<ToolCall>, after: seq<Message>)
    requires Complete(before)
    requires |after| == |before| + 1 + |tcs| && before + [AssistantCalls(tcs)] <= after
    requires forall k :: 0 <= k < |tcs| ==> Replies(after[|before| + 1 + k], tcs[k])
    ensures Complete(after)
  {
    forall i | 0 <= i < |after| ensures RepliedTo(after, i) {
      if i < |before| {
        assert after[i] == (before + [AssistantCalls(tcs)])[i] == before[i];
        assert RepliedTo(before, i);
        if before[i].AssistantCalls? {
          forall k | 0 <= k < |before[i].calls| ensures Replies(after[i + 1 + k], after[i].calls[k]) {
            assert Replies(before[i + 1 + k], before[i].calls[k]);
            assert after[i + 1 + k] == (before + [AssistantCalls(tcs)])[i + 1 + k] == before[i + 1 + k];
          }
        }
      } else if i == |before| {
        assert after[i] == (before + [AssistantCalls(tcs)])[i];
      } else {
        assert Replies(after[|before| + 1 + (i - |before| - 1)], tcs[i - |before| - 1]);
      }
    }
  }

  lemma NudgeKeepsComplete(before: seq<Message>)
    requires Complete(before)
    ensures Complete(before + [AssistantText, Nudge])
  {
    var after := before + [AssistantText, Nudge];
    forall i | 0 <= i < |after| ensures RepliedTo(after, i) {
      if i < |before| {
        assert RepliedTo(before, i);
        if before[i].AssistantCalls? {
          forall k | 0 <= k < |before[i].calls| ensures Replies(after[i + 1 + k], after[i].calls[k]) {
            assert Replies(before[i + 1 + k], before[i].calls[k]);
          }
        }
      }
    }
  }

  // ── and its answers are the lines of the trail ──

  function Answers(messages: seq<Message>): seq<ToolResult> {
    if messages == [] then []
    else
      var last := messages[|messages| - 1];
      Answers(messages[..|messages| - 1]) + if last.ToolAnswer? then [last.result] else []
  }

  function Shown(trail: seq<TrailEntry>): seq<ToolResult> {
    if trail == [] then []
    else
      var last := trail[|trail| - 1];
      Shown(trail[..|trail| - 1]) + if last.Called? then [last.entry.result] else []
  }

  lemma AnswersGrow(messages: seq<Message>, m: Message)
    ensures Answers(messages + [m]) == Answers(messages) + if m.ToolAnswer? then [m.result] else []
  {
    assert (messages + [m])[..|messages + [m]| - 1] == messages;
  }

  lemma ShownGrows(trail: seq<TrailEntry>, e: TrailEntry)
    ensures Shown(trail + [e]) == Shown(trail) + if e.Called? then [e.entry.result] else []
  {
    assert (trail + [e])[..|trail + [e]| - 1] == trail;
  }

  /** The model has been told what the trail shows, and as often as calls were counted. */
  ghost predicate Mirrored(s: Loop) {
    Answers(s.messages) == Shown(s.trail) && |Answers(s.messages)| == s.calls
  }

  lemma {:induction false} CallsAreMirrored(gate: Gate, s: Loop, tcs: seq<ToolCall>)
    requires Mirrored(s)
    ensures Mirrored(AllCalls(gate, s, tcs))
    decreases |tcs|
  {
    if tcs != [] {
      var next := OneCall(gate, s, tcs[0]);
      AnswersGrow(s.messages, next.messages[|s.messages|]);
      ShownGrows(s.trail, next.trail[|s.trail|]);
      CallsAreMirrored(gate, next, tcs[1..]);
    }
  }

  // ── nudges come before the third call ──

  ghost predicate Early(messages: seq<Message>) {
    forall i :: 0 <= i < |messages| && messages[i].Nudge? ==> |Answers(messages[..i])| < 3
  }

  lemma EarlyGrows(before: seq<Message>, after: seq<Message>)
    requires Early(before) && before <= after && |Answers(before)| == |Answers(after[..|before|])|
    requires forall i :: |before| <= i < |after| && after[i].Nudge? ==> |Answers(after[..i])| < 3
    ensures Early(after)
  {
    forall i | 0 <= i < |after| && after[i].Nudge? ensures |Answers(after[..i])| < 3 {
      if i < |before| {
        assert after[..i] == before[..i];
      }
    }
  }

  ghost predicate Orderly(s: Loop) {
    Complete(s.messages) && Mirrored(s) && Early(s.messages)
  }

  lemma CallingRound(gate: Gate, s: Loop, tcs: seq<ToolCall>)
    requires Orderly(s)
    ensures Orderly(AllCalls(gate, s.(rounds := s.rounds + 1, messages := s.messages + [AssistantCalls(tcs)]), tcs))
  {
    hide Answers, Shown, RepliedTo;
    var asked := s.(rounds := s.rounds + 1, messages := s.messages + [AssistantCalls(tcs)]);
    AnswersGrow(s.messages, AssistantCalls(tcs));
    CallsAreReplied(gate, asked, tcs);
    CallsAreMirrored(gate, asked, tcs);
    var after := AllCalls(gate, asked, tcs).messages;
    CompleteGrows(s.messages, tcs, after);
    assert s.messages <= after && after[..|s.messages|] == s.messages;
    assert after[|s.messages|] == asked.messages[|s.messages|];
    AnswersAreNoNudges(after, |asked.messages|, tcs);
    hide Complete, Replies, AllCalls;
    EarlyGrows(s.messages, after);
  }

  lemma AnswersAreNoNudges(messages: seq<Message>, from: nat, tcs: seq<ToolCall>)
    requires from + |tcs| == |messages|
    requires forall k :: 0 <= k < |tcs| ==> Replies(messages[from + k], tcs[k])
    ensures forall i :: from <= i < |messages| ==> !messages[i].Nudge?
  {
    forall i | from <= i < |messages| ensures !messages[i].Nudge? {
      assert Replies(messages[from + (i - from)], tcs[i - from]);
    }
  }

  lemma NudgingRound(s: Loop)
    requires Orderly(s) && s.calls < 3
    ensures Orderly(s.(rounds := s.rounds + 1, messages := s.messages + [AssistantText, Nudge]))
  {
    hide Answers, Shown, RepliedTo;
    NudgeKeepsComplete(s.messages);
    AnswersGrow(s.messages, AssistantText);
    AnswersGrow(s.messages + [AssistantText], Nudge);
    var after := s.messages + [AssistantText, Nudge];
    assert after == s.messages + [AssistantText] + [Nudge];
    assert after[..|s.messages|] == s.messages && after[..|s.messages| + 1] == s.messages + [AssistantText];
    EarlyGrows(s.messages, after);
  }

  lemma RoundStaysOrderly(llm: Llm, gate: Gate, s: Loop)
    requires Orderly(s)
    ensures Orderly(OneRound(llm, gate, s).0)
  {
    hide Answers, Shown, Complete, Early, AllCalls;
    var reply := llm(s.messages);
    if reply.Raised? {
      ShownGrows(s.trail, LlmError);
    } else if reply.Calls? && reply.calls != [] {
      CallingRound(gate, s, reply.calls);
    } else if !s.terminal && s.calls < 3 {
      NudgingRound(s);
    }
  }

  lemma {:induction false} RoundsStayOrderly(llm: Llm, gate: Gate, s: Loop, left: nat)
    requires Orderly(s)
    ensures Orderly(Rounds(llm, gate, s, left))
    decreases left
  {
    hide Orderly, OneRound;
    if left > 0 {
      RoundStaysOrderly(llm, gate, s);
      var (next, stop) := OneRound(llm, gate, s);
      if !stop {
        RoundsStayOrderly(llm, gate, next, left - 1);
      }
    }
  }

  /** With any model and any guard: each tool call is answered right after the reply that made it, once, in order
      and under its own id; the answers are the results that the trail shows; and the model is nudged only
      while it has made fewer than three calls. */
  lemma ConversationsAreOrderly(llm: Llm, gate: Gate)
    ensures var s := Rounds(llm, gate, START, MAX_ITER);
      && Complete(s.messages) && Answers(s.messages) == Shown(s.trail) && |Answers(s.messages)| == s.calls
      && forall i :: 0 <= i < |s.messages| && s.messages[i].Nudge? ==> |Answers(s.messages[..i])| < 3
  {
    assert Answers([SystemPrompt, TicketPrompt][..1]) == [];
    assert Answers(START.messages) == [];
    assert Orderly(START);
    RoundsStayOrderly(llm, gate, START, MAX_ITER);
    hide Rounds, Answers, Shown;
  }
}
