/** Who wrote each refund, and which call parked each approval item. */
module ProtocolAccounts {
  import opened Schemas
  import opened Audit
  import opened Tools
  import opened Retries
  import opened Evaluation
  import opened Hitl
  import opened Engine
  import opened Protocol
  import opened ProtocolInvariants

  // ── refunds and the calls that made them ──

  ghost predicate Paid(tool: Tool, args: Args, result: ToolResult, refund: Refund) {
    && tool == IssueRefund && result.success == Some(true)
    && args == map[OrderIdKey := Text(refund.orderId), AmountKey := Number(refund.amount)]
  }

  /** Call number `at` of the thread, recorded or about to be, reports this refund as made. */
  ghost predicate Reports(th: Thread, at: nat, refund: Refund) {
    || (at < |th.audit| && Paid(th.audit[at].tool, th.audit[at].args, th.audit[at].result, refund))
    || (at == |th.audit| && th.phase.Executed? && Paid(th.phase.call.tool, th.phase.call.args, th.phase.result, refund))
  }

  ghost predicate Succeeds(tool: Tool, result: ToolResult) {
    tool == IssueRefund && result.success == Some(true)
  }

  ghost predicate ReportsSome(th: Thread, at: nat) {
    || (at < |th.audit| && Succeeds(th.audit[at].tool, th.audit[at].result))
    || (at == |th.audit| && th.phase.Executed? && Succeeds(th.phase.call.tool, th.phase.result))
  }

  /** Log lines and reported refunds are in one-to-one correspondence. */
  ghost predicate OriginsOk(s: System) {
    && |s.origins| == |s.world.refundLog|
    && (forall k :: 0 <= k < |s.origins| ==>
          && s.origins[k].thread in s.threads
          && Reports(s.threads[s.origins[k].thread], s.origins[k].at, s.world.refundLog[k]))
    && (forall j, k :: 0 <= j < k < |s.origins| ==> s.origins[j] != s.origins[k])
    && (forall id, at: nat :: id in s.threads && ReportsSome(s.threads[id], at) ==> Origin(id, at) in s.origins)
  }

  lemma AttemptKeepsOrigins(s: System, id: nat, call: Call, attempt: nat, env: Env)
    requires OriginsOk(s)
    requires id in s.threads && s.threads[id].phase == Executing(call, attempt)
    requires |s.threads[id].audit| == |s.threads[id].session.calls|
    requires !UnpayableRefund(call.tool, call.args)
    ensures OriginsOk(AttemptStep(s, id, call, attempt, env))
  {
    var s' := AttemptStep(s, id, call, attempt, env);
    var (next, result) := ExecuteTool(s.world, call.tool, call.args, env);
    LedgerFrame(s.world, call.tool, call.args, env);
    var th, th' := s.threads[id], s'.threads[id];
    var n := |th.audit|;
    forall other, at: nat, refund | other in s.threads && Reports(s.threads[other], at, refund)
      ensures Reports(s'.threads[other], at, refund)
    {
    }
    if next.refundLog != s.world.refundLog {
      assert call.tool == IssueRefund && result.success == Some(true);
      var refund := Refund(call.args[OrderIdKey].text, call.args[AmountKey].number);
      assert next.refundLog == s.world.refundLog + [refund];
      assert s'.threads[id].phase == Executed(call, result);
      assert Paid(call.tool, call.args, result, refund);
      assert Reports(th', n, refund);
      forall k | 0 <= k < |s.origins| ensures s.origins[k] != Origin(id, n) {
        assert Reports(s.threads[s.origins[k].thread], s.origins[k].at, s.world.refundLog[k]);
      }
    }
    forall other, at: nat | other in s'.threads && ReportsSome(s'.threads[other], at)
      ensures Origin(other, at) in s'.origins
    {
      if ReportsSome(s.threads[other], at) {
        assert Origin(other, at) in s.origins;
      } else {
        assert other == id && at == n && Succeeds(call.tool, result);
        assert s'.origins[|s.origins|] == Origin(id, n);
      }
    }
  }

  lemma OtherStepKeepsOrigins(s: System, s': System, id: nat)
    requires OriginsOk(s)
    requires id in s.threads && s'.threads.Keys == s.threads.Keys
    requires s'.world == s.world && s'.origins == s.origins
    requires forall other :: other in s.threads && other != id ==> s'.threads[other] == s.threads[other]
    requires forall at: nat, refund :: Reports(s.threads[id], at, refund) ==> Reports(s'.threads[id], at, refund)
    requires forall at: nat :: ReportsSome(s'.threads[id], at) ==> ReportsSome(s.threads[id], at)
    ensures OriginsOk(s')
  {
  }

  lemma RecordReportsTheSame(th: Thread, call: Call, kept: ToolResult, shown: ToolResult)
    requires |th.audit| == |th.session.calls|
    requires th.phase == Executed(call, shown) || (!th.phase.Executed? && (shown == BLOCKED || shown == PLAIN))
    ensures forall at: nat, refund :: Reports(th, at, refund) ==> Reports(RecordStep(th, call, kept, shown), at, refund)
    ensures forall at: nat :: ReportsSome(RecordStep(th, call, kept, shown), at) ==> ReportsSome(th, at)
  {
  }

  lemma QuietStepReportsTheSame(s: System, e: Event)
    requires e.thread in s.threads && ThreadJustified(s.threads[e.thread])
    requires !(e.action.Attempt? && s.threads[e.thread].phase.Executing?)
    ensures var s' := Step(s, e);
      && s'.world == s.world && s'.origins == s.origins && s'.threads.Keys == s.threads.Keys
      && (forall other :: other in s.threads && other != e.thread ==> s'.threads[other] == s.threads[other])
      && (forall at: nat, refund :: Reports(s.threads[e.thread], at, refund) ==>
        Reports(s'.threads[e.thread], at, refund))
      && (forall at: nat :: ReportsSome(s'.threads[e.thread], at) ==> ReportsSome(s.threads[e.thread], at))
  {
    var th := s.threads[e.thread];
    if e.action == Record {
      match th.phase {
        case Executed(call, result) => RecordReportsTheSame(th, call, result, result);
        case Refusing(call) => RecordReportsTheSame(th, call, BLOCKED, BLOCKED);
        case Parked(call) => RecordReportsTheSame(th, call, DEFERRED, PLAIN);
        case _ =>
      }
    }
  }

  lemma StepKeepsOrigins(s: System, e: Event)
    requires OriginsOk(s)
    requires forall id :: id in s.threads ==> ThreadJustified(s.threads[id])
    ensures OriginsOk(Step(s, e))
  {
    var id := e.thread;
    if id in s.threads {
      var th := s.threads[id];
      assert ThreadJustified(th);
      if e.action.Attempt? && th.phase.Executing? {
        AllowedIsPayable(th.phase.call.tool, th.phase.call.args, th.session);
        AttemptKeepsOrigins(s, id, th.phase.call, th.phase.attempt, e.action.env);
      } else {
        QuietStepReportsTheSame(s, e);
        OtherStepKeepsOrigins(s, Step(s, e), id);
      }
    }
  }

  // ── parked approvals and the calls that parked them ──

  ghost predicate Holds(th: Thread, call: Call, item: HitlItem) {
    item.ticketId == th.ticketId && item.tool == call.tool && item.args == call.args && item.rule == call.decision.rule
  }

  /** Call number `at` of the thread, recorded or about to be, was parked as this item. */
  ghost predicate ParkedAs(th: Thread, at: nat, item: HitlItem) {
    || (at < |th.audit| && th.audit[at].decision.verdict == RequireHuman
        && Holds(th, Call(th.audit[at].tool, th.audit[at].args, th.audit[at].decision), item))
    || (at == |th.audit| && th.phase.Parked? && Holds(th, th.phase.call, item))
  }

  ghost predicate ParksSome(th: Thread, at: nat) {
    || (at < |th.audit| && th.audit[at].decision.verdict == RequireHuman)
    || (at == |th.audit| && th.phase.Parked?)
  }

  /** Queue items and parked calls are in one-to-one correspondence. */
  ghost predicate ParkingsOk(s: System) {
    && |s.parkings| == |s.hitl|
    && (forall k :: 0 <= k < |s.parkings| ==>
          && s.parkings[k].thread in s.threads
          && ParkedAs(s.threads[s.parkings[k].thread], s.parkings[k].at, s.hitl[k]))
    && (forall j, k :: 0 <= j < k < |s.parkings| ==> s.parkings[j] != s.parkings[k])
    && (forall id, at: nat :: id in s.threads && ParksSome(s.threads[id], at) ==> Origin(id, at) in s.parkings)
  }

  /** What a step does to the thread that takes it, as far as the queue is concerned: nothing, or it parks
      the call in flight as the one new item. */
  ghost predicate ParkingStep(before: Thread, after: Thread, id: nat, s: System, s': System) {
    && (forall at: nat, item :: ParkedAs(before, at, item) ==> ParkedAs(after, at, item))
    && (|| (&& s'.hitl == s.hitl && s'.parkings == s.parkings
            && forall at: nat :: ParksSome(after, at) ==> ParksSome(before, at))
        || (&& |s'.hitl| == |s.hitl| + 1 && s'.hitl == s.hitl + [s'.hitl[|s.hitl|]]
            && s'.parkings == s.parkings + [Origin(id, |before.audit|)]
            && ParkedAs(after, |before.audit|, s'.hitl[|s.hitl|]) && !ParksSome(before, |before.audit|)
            && forall at: nat :: ParksSome(after, at) ==> ParksSome(before, at) || at == |before.audit|))
  }

  lemma RecordParksTheSame(th: Thread, call: Call, kept: ToolResult, shown: ToolResult)
    requires if th.phase.Parked? then th.phase.call == call && call.decision.verdict == RequireHuman
             else call.decision.verdict != RequireHuman
    ensures forall at: nat, item :: ParkedAs(th, at, item) ==> ParkedAs(RecordStep(th, call, kept, shown), at, item)
    ensures forall at: nat :: ParksSome(RecordStep(th, call, kept, shown), at) ==> ParksSome(th, at)
  {
  }

  lemma RecordIsNoParking(s: System, e: Event)
    requires e.thread in s.threads && ThreadJustified(s.threads[e.thread]) && e.action.Record?
    ensures ParkingStep(s.threads[e.thread], Step(s, e).threads[e.thread], e.thread, s, Step(s, e))
  {
    hide Judge, EntryJustified, RecordStep, ParkedAs, ParksSome;
    var th := s.threads[e.thread];
    match th.phase {
      case Executed(call, result) => RecordParksTheSame(th, call, result, result);
      case Refusing(call) => RecordParksTheSame(th, call, BLOCKED, BLOCKED);
      case Parked(call) => RecordParksTheSame(th, call, DEFERRED, PLAIN);
      case _ =>
    }
  }

  lemma OtherMoveParks(s: System, e: Event)
    requires e.thread in s.threads && ThreadJustified(s.threads[e.thread]) && !e.action.Record?
    ensures ParkingStep(s.threads[e.thread], Step(s, e).threads[e.thread], e.thread, s, Step(s, e))
  {
    hide Judge, ExecuteTool, EntryJustified;
  }

  lemma ParkingFrame(s: System, e: Event)
    requires e.thread in s.threads && ThreadJustified(s.threads[e.thread])
    ensures var s', id := Step(s, e), e.thread;
      && s'.threads.Keys == s.threads.Keys
      && (forall other :: other in s.threads && other != id ==> s'.threads[other] == s.threads[other])
      && ParkingStep(s.threads[id], s'.threads[id], id, s, s')
  {
    QueueFrame(s, e);
    hide Step, ParkingStep, ThreadJustified;
    if e.action.Record? {
      RecordIsNoParking(s, e);
    } else {
      OtherMoveParks(s, e);
    }
  }

  lemma StepKeepsParkings(s: System, e: Event)
    requires ParkingsOk(s)
    requires forall id :: id in s.threads ==> ThreadJustified(s.threads[id])
    ensures ParkingsOk(Step(s, e))
  {
    hide Step, ThreadJustified, ParkingStep;
    if e.thread !in s.threads {
      NoThreadNoStep(s, e);
    } else {
      ParkingFrame(s, e);
      ParkingsGrow(s, Step(s, e), e.thread);
    }
  }

  lemma ParkingsGrow(s: System, s': System, id: nat)
    requires ParkingsOk(s) && id in s.threads && s'.threads.Keys == s.threads.Keys
    requires forall other :: other in s.threads && other != id ==> s'.threads[other] == s.threads[other]
    requires ParkingStep(s.threads[id], s'.threads[id], id, s, s')
    ensures ParkingsOk(s')
  {
    var n := |s.parkings|;
    forall k | 0 <= k < n
      ensures s.parkings[k] in s'.parkings && ParksSome(s.threads[s.parkings[k].thread], s.parkings[k].at)
    {
      assert ParkedAs(s.threads[s.parkings[k].thread], s.parkings[k].at, s.hitl[k]);
      assert s'.parkings[k] == s.parkings[k];
    }
    hide ParkedAs, ParksSome;
    forall other, at: nat | other in s'.threads && ParksSome(s'.threads[other], at)
      ensures Origin(other, at) in s'.parkings
    {
      if ParksSome(s.threads[other], at) {
        assert Origin(other, at) in s.parkings;
      } else {
        assert s'.parkings[n] == Origin(other, at);
      }
    }
  }

  lemma NoThreadNoStep(s: System, e: Event)
    requires e.thread !in s.threads
    ensures Step(s, e) == s
  {
  }

  // ── and how many of them there are ──

  function CountParked(parkings: seq<Origin>, id: nat): nat {
    if parkings == [] then 0
    else CountParked(parkings[..|parkings| - 1], id) + (if parkings[|parkings| - 1].thread == id then 1 else 0)
  }

  function CountItems(items: seq<HitlItem>, id: string): nat {
    if items == [] then 0
    else CountItems(items[..|items| - 1], id) + (if items[|items| - 1].ticketId == id then 1 else 0)
  }

  function CountVerdicts(audit: seq<AuditEntry>, v: Verdict): nat {
    if audit == [] then 0
    else CountVerdicts(audit[..|audit| - 1], v) + (if audit[|audit| - 1].decision.verdict == v then 1 else 0)
  }

  /** A thread has parked as many items as there are REQUIRE_HUMAN lines in its trail, one in flight apart. */
  ghost predicate ItemsOk(s: System) {
    forall id :: id in s.threads ==>
      CountParked(s.parkings, id)
      == CountVerdicts(s.threads[id].audit, RequireHuman) + (if s.threads[id].phase.Parked? then 1 else 0)
  }

  lemma TrailFrame(s: System, e: Event)
    requires e.thread in s.threads && ThreadJustified(s.threads[e.thread])
    ensures var s', id := Step(s, e), e.thread; var th, th' := s.threads[id], s'.threads[id];
      && (s'.parkings == s.parkings || (s'.parkings == s.parkings + [Origin(id, |th.audit|)] && !th.phase.Parked?))
      && (|| (th'.audit == th.audit && (th'.phase.Parked? <==> th.phase.Parked? || s'.parkings != s.parkings))
          || (&& |th'.audit| == |th.audit| + 1 && th'.audit[..|th.audit|] == th.audit && th'.phase == Idle
              && s'.parkings == s.parkings
              && (th'.audit[|th.audit|].decision.verdict == RequireHuman <==> th.phase.Parked?)))
  {
    hide Judge, ExecuteTool, EntryJustified;
  }

  lemma StepKeepsItems(s: System, e: Event)
    requires ItemsOk(s)
    requires forall id :: id in s.threads ==> ThreadJustified(s.threads[id])
    ensures ItemsOk(Step(s, e))
  {
    hide Step, ThreadJustified;
    var s', id := Step(s, e), e.thread;
    if id !in s.threads {
      NoThreadNoStep(s, e);
    } else {
      TrailFrame(s, e);
      ParkingFrame(s, e);
      hide ParkingStep;
      if s'.parkings != s.parkings {
        assert s'.parkings[..|s.parkings|] == s.parkings;
      }
    }
  }

  // ── the numbers of a ticket's items ──

  /** No two threads are about to append an item for the same ticket. */
  ghost predicate Apart(s: System) {
    forall i, j :: i in s.threads && j in s.threads && i != j
                   && s.threads[i].phase.Appending? && s.threads[j].phase.Appending? ==>
      s.threads[i].ticketId != s.threads[j].ticketId
  }

  /** Numbers grow along each ticket's own items, never run ahead of the queue, and a number already
      read but not yet appended is still above every item of its ticket. */
  ghost predicate NumbersOk(s: System) {
    && (forall i :: 0 <= i < |s.hitl| ==> 1 <= s.hitl[i].number <= i + 1)
    && (forall i, j :: 0 <= i < j < |s.hitl| && s.hitl[i].ticketId == s.hitl[j].ticketId ==>
          s.hitl[i].number < s.hitl[j].number)
    && (forall id :: id in s.threads && s.threads[id].phase.Appending? ==> PendingNumberOk(s.hitl, s.threads[id]))
  }

  ghost predicate PendingNumberOk(hitl: seq<HitlItem>, th: Thread)
    requires th.phase.Appending?
  {
    && 1 <= th.phase.number <= |hitl| + 1
    && forall i :: 0 <= i < |hitl| && hitl[i].ticketId == th.ticketId ==> hitl[i].number < th.phase.number
  }

  /** Only Append touches the queue, and only reading the length starts an append. */
  lemma QueueFrame(s: System, e: Event)
    requires e.thread in s.threads
    ensures var s', id := Step(s, e), e.thread; var th := s.threads[id];
      && id in s'.threads && s'.threads.Keys == s.threads.Keys
      && (forall other :: other in s.threads && other != id ==> s'.threads[other] == s.threads[other])
      && s'.threads[id].ticketId == th.ticketId
      && (s'.hitl == s.hitl || (
            && th.phase.Appending? && s'.threads[id] == th.(phase := Parked(th.phase.call))
            && var call := th.phase.call;
               s'.hitl == s.hitl + [HitlItem(th.ticketId, th.phase.number, call.tool, call.args, call.decision.rule)]))
      && (s'.threads[id].phase.Appending? ==>
            s'.hitl == s.hitl && (s'.threads[id].phase == th.phase || s'.threads[id].phase.number == |s.hitl| + 1))
  {
    hide Judge, ExecuteTool;
  }

  lemma AppendKeepsNumbers(s: System, s': System, id: nat, item: HitlItem)
    requires NumbersOk(s) && Apart(s)
    requires id in s.threads && s.threads[id].phase.Appending?
    requires item.ticketId == s.threads[id].ticketId && item.number == s.threads[id].phase.number
    requires s'.hitl == s.hitl + [item] && s'.threads.Keys == s.threads.Keys && !s'.threads[id].phase.Appending?
    requires forall other :: other in s.threads && other != id ==> s'.threads[other] == s.threads[other]
    ensures NumbersOk(s')
  {
    forall other | other in s'.threads && s'.threads[other].phase.Appending?
      ensures PendingNumberOk(s'.hitl, s'.threads[other])
    {
      assert PendingNumberOk(s.hitl, s.threads[other]);
    }
    assert PendingNumberOk(s.hitl, s.threads[id]);
  }

  lemma StepKeepsNumbers(s: System, e: Event)
    requires NumbersOk(s) && Apart(s)
    ensures NumbersOk(Step(s, e))
  {
    hide Step;
    var s', id := Step(s, e), e.thread;
    if id !in s.threads {
      NoThreadNoStep(s, e);
    } else {
      QueueFrame(s, e);
      if s'.hitl != s.hitl {
        AppendKeepsNumbers(s, s', id, s'.hitl[|s.hitl|]);
      } else {
        forall other | other in s'.threads && s'.threads[other].phase.Appending?
          ensures PendingNumberOk(s'.hitl, s'.threads[other])
        {
          if other != id || s'.threads[id].phase == s.threads[id].phase {
            assert PendingNumberOk(s.hitl, s.threads[other]);
          }
        }
      }
    }
  }
}
