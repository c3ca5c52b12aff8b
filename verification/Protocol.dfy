/**
 The refund protocol as a transition system: any number of ticket threads share one ledger and one
 approval queue, and every thread's calls are chosen freely. A guarded call is split where another
 thread may run: evaluation, each execution attempt, reading the queue length, appending, recording.
 */
module Protocol {
  import opened Schemas
  import opened Audit
  import opened Tools
  import opened Resilient
  import opened Evaluation
  import opened Hitl
  import opened Engine

  datatype Call = Call(tool: Tool, args: Args, decision: Decision)

  datatype Phase =
    | Idle
    | Executing(call: Call, attempt: nat)
    | Executed(call: Call, result: ToolResult)
    | Refusing(call: Call)
    | Deferring(call: Call)
    | Appending(call: Call, number: nat)
    | Parked(call: Call)

  datatype Thread = Thread(ticketId: string, session: Session, audit: seq<AuditEntry>, phase: Phase)

  /** A call of a thread, by its number. */
  datatype Origin = Origin(thread: nat, at: nat)

  /** The model alone keeps which call wrote each refund (origins) and which parked each item (parkings). */
  datatype System = System(
    world: World, origins: seq<Origin>, hitl: seq<HitlItem>, parkings: seq<Origin>, threads: map<nat, Thread>)

  datatype Action =
    | Propose(tool: Tool, args: Args)
    | Attempt(env: Env)
    | ReadLength
    | Append
    | Record

  /** An event names the thread that moves; a thread that cannot make the move waits. */
  datatype Event = Event(thread: nat, action: Action)

  function SetPhase(s: System, id: nat, phase: Phase): System
    requires id in s.threads
  {
    s.(threads := s.threads[id := s.threads[id].(phase := phase)])
  }

  function EvaluateStep(th: Thread, tool: Tool, args: Args): Phase {
    var decision := Judge(tool, args, th.session);
    var call := Call(tool, args, decision);
    match decision.verdict
    case Allow => Executing(call, 0)
    case Deny => Refusing(call)
    case RequireHuman => Deferring(call)
  }

  function AttemptStep(s: System, id: nat, call: Call, attempt: nat, env: Env): System
    requires id in s.threads
  {
    var (next, result) := ExecuteTool(s.world, call.tool, call.args, env);
    var again := IsTransient(result) && attempt < TOOL_MAX_RETRIES;
    var phase := if again then Executing(call, attempt + 1) else Executed(call, result);
    var made := if next.refundLog == s.world.refundLog then [] else [Origin(id, |s.threads[id].session.calls|)];
    var origins := s.origins + made;
    SetPhase(s.(world := next, origins := origins), id, phase)
  }

  /** What the history keeps and what the audit trail keeps, once the call is over. */
  function RecordStep(th: Thread, call: Call, kept: ToolResult, shown: ToolResult): Thread {
    Thread(th.ticketId,
           th.session.(calls := th.session.calls + [MakeRecord(call.tool, call.args, kept)]),
           th.audit + [AuditEntry(call.tool, call.args, shown, call.decision)],
           Idle)
  }

  function Step(s: System, e: Event): System {
    if e.thread !in s.threads then s
    else
      var id := e.thread;
      var th := s.threads[id];
      match (e.action, th.phase)
      case (Propose(tool, args), Idle) => SetPhase(s, id, EvaluateStep(th, tool, args))
      case (Attempt(env), Executing(call, attempt)) => AttemptStep(s, id, call, attempt, env)
      case (ReadLength, Deferring(call)) => SetPhase(s, id, Appending(call, |s.hitl| + 1))
      case (Append, Appending(call, number)) =>
        var item := HitlItem(th.ticketId, number, call.tool, call.args, call.decision.rule);
        var origin := Origin(id, |th.session.calls|);
        SetPhase(s.(hitl := s.hitl + [item], parkings := s.parkings + [origin]), id, Parked(call))
      case (Record, Executed(call, result)) => s.(threads := s.threads[id := RecordStep(th, call, result, result)])
      case (Record, Refusing(call)) => s.(threads := s.threads[id := RecordStep(th, call, BLOCKED, BLOCKED)])
      case (Record, Parked(call)) => s.(threads := s.threads[id := RecordStep(th, call, DEFERRED, PLAIN)])
      case _ => s
  }

  /** A run under any scheduler and any models: any list of events. */
  function Run(s: System, events: seq<Event>): System {
    if events == [] then s else Step(Run(s, events[..|events| - 1]), events[|events| - 1])
  }

  /** Process start: an arbitrary order table, empty logs, fresh tickets of arbitrary confidence. */
  predicate Initial(s: System) {
    && s.world.refundLog == [] && s.origins == [] && s.hitl == [] && s.parkings == []
    && forall id :: id in s.threads ==>
      s.threads[id].session.calls == [] && s.threads[id].audit == [] && s.threads[id].phase == Idle
  }
}
