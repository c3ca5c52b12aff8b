/** PolicyEngine.guard: execute, refuse or park a proposed call (policy/engine.py). */
module Engine {
  import opened Schemas
  import opened Rules
  import opened Tools
  import opened Resilient
  import opened Evaluation
  import opened Hitl

  /** What a refused call returns to the model. */
  const BLOCKED := ErrorResult("blocked_by_policy")

  /** What the history keeps of a parked call; the model is told only that it is pending. */
  const DEFERRED := ErrorResult("deferred_to_human")

  datatype GuardOutcome = GuardOutcome(
    result: ToolResult, decision: Decision, calls: seq<ToolCallRecord>, hitl: seq<HitlItem>, world: World)

  /** guard() run on its own, from the history, queue and ledger it finds. */
  function Guarded(rules: seq<Rule>, ticketId: string, s: Session, hitl: seq<HitlItem>, w: World,
                   tool: Tool, args: Args, env: nat -> Env, base: real): GuardOutcome {
    var decision := Evaluate(rules, tool, args, s);
    match decision.verdict
    case Allow =>
      var run := Resiliently(w, tool, args, env, TOOL_MAX_RETRIES, base);
      GuardOutcome(run.result, decision, s.calls + [MakeRecord(tool, args, run.result)], hitl, run.world)
    case RequireHuman =>
      GuardOutcome(PLAIN, decision, s.calls + [MakeRecord(tool, args, DEFERRED)],
                   hitl + [HitlItem(ticketId, |hitl| + 1, tool, args, decision.rule)], w)
    case Deny =>
      GuardOutcome(BLOCKED, decision, s.calls + [MakeRecord(tool, args, BLOCKED)], hitl, w)
  }

  class PolicyEngine {
    const rules: seq<Rule>
    const hitl: HITLQueue

    constructor (rules: seq<Rule>, hitl: HITLQueue)
      ensures this.rules == rules && this.hitl == hitl
    {
      this.rules, this.hitl := rules, hitl;
    }

    method Guard(tool: Tool, args: Args, state: TicketState, backend: Backend, env: nat -> Env, base: real)
      returns (result: ToolResult, decision: Decision)
      modifies state, hitl, backend
      ensures GuardOutcome(result, decision, state.toolCalls, hitl.items, backend.View())
              == Guarded(rules, state.ticketId, old(state.View()), old(hitl.items), old(backend.View()),
                         tool, args, env, base)
    {
      hide Evaluate, Resiliently;
      decision := Evaluate(rules, tool, args, state.View());
      if decision.verdict == Allow {
        var attempts, waits;
        result, attempts, waits := ResilientExecute(backend, tool, args, env, TOOL_MAX_RETRIES, base);
        var _ := state.Record(tool, args, result);
        return;
      }
      if decision.verdict == RequireHuman {
        var item := hitl.Enqueue(state.ticketId, tool, args, decision, []);
        result := PLAIN;
        var _ := state.Record(tool, args, DEFERRED);
        return;
      }
      result := BLOCKED;
      var _ := state.Record(tool, args, result);
    }
  }
}
