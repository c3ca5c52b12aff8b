/** The resolver's audit trail (agents/resolver.py). */
module Audit {
  import opened Schemas

  /** A guarded call as the trail shows it. */
  datatype AuditEntry = AuditEntry(tool: Tool, args: Args, result: ToolResult, decision: Decision)

  /** The trail also holds the failure of the model itself, an entry without a tool. */
  datatype TrailEntry = LlmError | Called(entry: AuditEntry)
}
