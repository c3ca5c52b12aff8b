/** The reply and escalation logs after a run of the loop behind guard(). */
module ActionLogs {
  import opened Schemas
  import opened Audit
  import opened Texts
  import opened Rules
  import opened Tools
  import opened Resilient
  import opened Retries
  import opened Evaluation
  import opened Hitl
  import opened Engine
  import opened Resolver
  import opened ResolverFacts
  import opened ProtocolInvariants
  import opened ScriptedRefund
  import opened GuardedRun
  import LoopRun

  /** The replies that the lines of a trail report as sent, in order. */
  function RepliesOf(trail: seq<TrailEntry>): seq<Tools.Reply> {
    if trail == [] then []
    else RepliesOf(trail[..|trail| - 1]) + ReplyOf(trail[|trail| - 1])
  }

  function ReplyOf(e: TrailEntry): seq<Tools.Reply> {
    if e.Called? && e.entry.tool == SendReply && e.entry.result.error == None
    then [Tools.Reply(Get(e.entry.args, TicketIdKey), Get(e.entry.args, MessageKey))] else []
  }

  /** And the escalations, an unknown priority read as medium. */
  function EscalationsOf(trail: seq<TrailEntry>): seq<Escalation> {
    if trail == [] then []
    else EscalationsOf(trail[..|trail| - 1]) + EscalationOf(trail[|trail| - 1])
  }

  function EscalationOf(e: TrailEntry): seq<Escalation> {
    if e.Called? && e.entry.tool == Escalate && e.entry.result.error == None
    then
      var args := e.entry.args;
      [Escalation(Get(args, TicketIdKey), Get(args, SummaryKey), Urgency(Get(args, PriorityKey)))]
    else []
  }

  /** The logs of a world are those of another with these lines added. */
  ghost predicate Logged(before: World, after: World, replies: seq<Tools.Reply>, escalations: seq<Escalation>) {
    after.replyLog == before.replyLog + replies && after.escalationLog == before.escalationLog + escalations
  }

  lemma AttemptLogs(w: World, tool: Tool, args: Args, env: Env, decision: Decision)
    ensures var (w', r) := ExecuteTool(w, tool, args, env); var e := Called(AuditEntry(tool, args, r, decision));
      Logged(w, w', ReplyOf(e), EscalationOf(e))
  {
    TerminalCallsAreLogged(w, tool, args, env);
    if IsTerminal(tool) {
      SuccessIsNoError(w, tool, args, env);
    }
    hide ExecuteTool;
  }

  lemma SuccessIsNoError(w: World, tool: Tool, args: Args, env: Env)
    requires IsTerminal(tool)
    ensures var r := ExecuteTool(w, tool, args, env).1; r.success == Some(true) <==> r.error == None
  {
    hide AmountText, NotFoundText, AlreadyRefundedText, Str, Name, BadArgumentsText, UnavailableText, IsBlank, Lower;
  }

  lemma CallLogs(ticketId: string, s: Session, hitl: seq<HitlItem>, w: World, tool: Tool, args: Args,
                 env: nat -> Env, base: real)
    ensures var out := Guarded(DefaultRules(), ticketId, s, hitl, w, tool, args, env, base);
      var e := Called(AuditEntry(tool, args, out.result, out.decision));
      Logged(w, out.world, ReplyOf(e), EscalationOf(e))
  {
    hide Evaluate, Resiliently, ExecuteTool, ReplyOf, EscalationOf;
    DefaultVerdicts(tool, args, s);
    var decision := Judge(tool, args, s);
    if decision.verdict == Allow {
      AllowedIsPayable(tool, args, s);
      RetryBudget(w, tool, args, env, TOOL_MAX_RETRIES, base);
      AttemptLogs(w, tool, args, env(Resiliently(w, tool, args, env, TOOL_MAX_RETRIES, base).attempts - 1), decision);
    } else {
      OnlyTerminalCallsLog(tool, args, decision);
    }
  }

  lemma OnlyTerminalCallsLog(tool: Tool, args: Args, decision: Decision)
    requires tool == IssueRefund
    ensures forall r :: ReplyOf(Called(AuditEntry(tool, args, r, decision))) == []
    ensures forall r :: EscalationOf(Called(AuditEntry(tool, args, r, decision))) == []
  {
  }

  /** After any part of a run behind guard(), the customers have been sent exactly the replies, and the
      specialists exactly the escalations, that the trail so far reports as done, in that order. */
  lemma {:induction false} LogsAreTheTrail(d: Desk, trail: seq<TrailEntry>, n: nat)
    requires TrailAnswered(GuardGate(d), trail) && n <= |trail|
    ensures Logged(d.world, After(d, trail[..n]).world, RepliesOf(trail[..n]), EscalationsOf(trail[..n]))
  {
    hide GuardedAt, Guarded, HistoryOf, ReplyOf, EscalationOf;
    if n > 0 {
      LogsAreTheTrail(d, trail, n - 1);
      var before, last := trail[..n - 1], trail[n - 1];
      assert trail[..n] == before + [last];
      assert trail[..n][..n - 1] == before;
      if last.Called? {
        var e := last.entry;
        assert Answered(GuardGate(d), trail, n - 1);
        LoopRun.AfterOneCall(d, before, e);
        OneMoreLogged(d, before, e);
      } else {
        NothingLogged(d, before);
      }
    }
  }

  lemma NothingLogged(d: Desk, before: seq<TrailEntry>)
    ensures After(d, before + [LlmError]) == After(d, before)
    ensures ReplyOf(LlmError) == [] && EscalationOf(LlmError) == []
  {
    assert (before + [LlmError])[..|before|] == before;
  }

  lemma OneMoreLogged(d: Desk, before: seq<TrailEntry>, e: AuditEntry)
    requires var out := GuardedAt(d, before, e.tool, e.args); e.result == out.result && e.decision == out.decision
    ensures var out := GuardedAt(d, before, e.tool, e.args);
      Logged(After(d, before).world, out.world, ReplyOf(Called(e)), EscalationOf(Called(e)))
  {
    hide Guarded, HistoryOf, After;
    var now := After(d, before);
    CallLogs(d.ticketId, Session(d.confidence, HistoryOf(before)), now.hitl, now.world, e.tool, e.args,
             d.weather(before), d.base);
  }

  lemma RunsLogTheirTrail(d: Desk, llm: Llm)
    ensures var trail := Rounds(llm, GuardGate(d), START, MAX_ITER).trail;
      Logged(d.world, After(d, trail).world, RepliesOf(trail), EscalationsOf(trail))
  {
    RunsAreAnswered(llm, GuardGate(d), START, MAX_ITER);
    hide Rounds, GuardGate, After, TrailAnswered;
    var trail := Rounds(llm, GuardGate(d), START, MAX_ITER).trail;
    LogsAreTheTrail(d, trail, |trail|);
    assert trail[..|trail|] == trail;
  }
}
