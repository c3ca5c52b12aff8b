/** Retry with exponential backoff around a tool call (tools/resilient.py). */
module Resilient {
  import opened Schemas
  import opened Texts
  import opened Tools

  const TOOL_MAX_RETRIES := 2

  predicate HasMarker(text: string) {
    || Contains(text, "temporarily unavailable")
    || Contains(text, "timeout")
    || Contains(text, "timed out")
    || Contains(text, "please retry")
    || Contains(text, "rate limit")
  }

  predicate IsTransient(result: ToolResult) {
    result.error.Some? && HasMarker(result.error.value)
  }

  function Pow2(n: nat): nat {
    if n == 0 then 1 else 2 * Pow2(n - 1)
  }

  /** What a call leaves, how many attempts it made, and how long it slept before each further one. */
  datatype Outcome = Outcome(world: World, result: ToolResult, attempts: nat, waits: seq<real>)

  function NoAttempt(tool: Tool): ToolResult {
    ErrorResult("tool '" + Name(tool) + "' failed before any attempt.")
  }

  /** One numbered attempt of a fixed call. */
  type Executor = (World, nat) -> (World, ToolResult)

  function Calling(tool: Tool, args: Args, env: nat -> Env): Executor {
    (w: World, attempt: nat) => ExecuteTool(w, tool, args, env(attempt))
  }

  /** The attempts from number `attempt` on; `last` is the most recent transient answer. */
  function Attempts(w: World, execute: Executor, retries: int, base: real, attempt: nat, last: ToolResult): Outcome
    decreases retries + 1 - attempt
  {
    if attempt > retries then Outcome(w, last, attempt, [])
    else
      var (next, result) := execute(w, attempt);
      if !IsTransient(result) then Outcome(next, result, attempt + 1, [])
      else
        var rest := Attempts(next, execute, retries, base, attempt + 1, result);
        if attempt < retries then rest.(waits := [base * Pow2(attempt) as real] + rest.waits) else rest
  }

  /** The whole budget, with no other thread in between. */
  function Resiliently(w: World, tool: Tool, args: Args, env: nat -> Env, retries: int, base: real): Outcome {
    Attempts(w, Calling(tool, args, env), retries, base, 0, NoAttempt(tool))
  }

  method ResilientExecute(backend: Backend, tool: Tool, args: Args, env: nat -> Env, retries: int, base: real)
    returns (result: ToolResult, attempts: nat, waits: seq<real>)
    modifies backend
    ensures Outcome(backend.View(), result, attempts, waits)
            == Resiliently(old(backend.View()), tool, args, env, retries, base)
  {
    hide ExecuteTool, HasMarker, NoAttempt;
    result, attempts, waits := NoAttempt(tool), 0, [];
    ghost var execute := Calling(tool, args, env);
    ghost var whole := Resiliently(backend.View(), tool, args, env, retries, base);
    while attempts <= retries
      invariant var rest := Attempts(backend.View(), execute, retries, base, attempts, result);
        whole == rest.(waits := waits + rest.waits)
      decreases retries + 1 - attempts
    {
      var attempt := attempts;
      result := backend.Execute(tool, args, env(attempt));
      attempts := attempts + 1;
      if !IsTransient(result) {
        return;
      }
      if attempt < retries {
        waits := waits + [base * Pow2(attempt) as real];
      }
    }
  }

  lemma UnavailableIsTransient(tool: Tool)
    ensures IsTransient(ErrorResult(UnavailableText(tool)))
  {
    var before := "[" + Name(tool) + "] service temporarily unavailable. ";
    ContainsMiddle(before, "please retry", ".");
    assert UnavailableText(tool) == before + "please retry" + ".";
  }
}
