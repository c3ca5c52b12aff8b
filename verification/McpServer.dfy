/** The MCP adapter: write tools are guarded, the others run directly but are recorded (mcp_server/server.py). */
module McpServer {
  import opened Schemas
  import opened Rules
  import opened Tools
  import opened Resilient
  import opened Evaluation
  import opened Engine

  const BASE := 0.4

  predicate IsWriteTool(tool: Tool) {
    tool in {IssueRefund, SendReply, Escalate}
  }

  class Server {
    const engine: PolicyEngine
    const state: TicketState
    const backend: Backend

    constructor (engine: PolicyEngine, state: TicketState, backend: Backend)
      ensures this.engine == engine && this.state == state && this.backend == backend
    {
      this.engine, this.state, this.backend := engine, state, backend;
    }

    /** For every tool, reads included, a call leaves the result, history, queue and ledger that guard() leaves. */
    method Call(tool: Tool, args: Args, env: nat -> Env) returns (result: ToolResult)
      requires engine.rules == DefaultRules()
      modifies state, engine.hitl, backend
      ensures var out := Guarded(DefaultRules(), state.ticketId, old(state.View()), old(engine.hitl.items),
                                 old(backend.View()), tool, args, env, BASE);
        && result == out.result && state.toolCalls == out.calls
        && engine.hitl.items == out.hitl && backend.View() == out.world
    {
      if IsWriteTool(tool) {
        var decision;
        result, decision := engine.Guard(tool, args, state, backend, env, BASE);
        return;
      }
      DefaultVerdicts(tool, args, state.View());
      var attempts, waits;
      result, attempts, waits := ResilientExecute(backend, tool, args, env, TOOL_MAX_RETRIES, BASE);
      var _ := state.Record(tool, args, result);
    }
  }
}
