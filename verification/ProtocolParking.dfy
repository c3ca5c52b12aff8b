/** Which threads can park a refund at all, and when their approval references are distinct. */
module ProtocolParking {
  import opened Schemas
  import opened Rules
  import opened Tools
  import opened Evaluation
  import opened Hitl
  import opened Engine
  import opened Protocol
  import opened ProtocolInvariants
  import opened ProtocolAccounts
  import opened ProtocolSafety

  /** A check of this order says eligible, and the rules take its id for one. */
  predicate Open(w: World, orderId: string) {
    orderId != "" && EligibilityCheck(w, Text(orderId)).eligible == Some(true)
  }

  /** Some refund of this order is handed to a human when this thread proposes it after a check: any at
      low confidence, and otherwise one above 200 that is still within a cent of the price. */
  predicate Parkable(w: World, th: Thread, orderId: string) {
    && Open(w, orderId) && orderId in w.orders
    && (th.session.confidence < 0.6 || w.orders[orderId].amount + 0.01 > 200.0)
  }

  ghost predicate CanPark(w: World, th: Thread) {
    exists orderId :: Parkable(w, th, orderId)
  }

  /** No two threads that can park anything share a ticket. */
  ghost predicate ParkersApart(start: System) {
    forall i, j :: i in start.threads && j in start.threads && i != j
                   && CanPark(start.world, start.threads[i]) && CanPark(start.world, start.threads[j]) ==>
      start.threads[i].ticketId != start.threads[j].ticketId
  }

  // ── what was eligible at any time was eligible at the start ──

  ghost predicate Foreseen(start: World, tool: Tool, args: Args, result: ToolResult) {
    tool == CheckRefundEligibility && result.eligible == Some(true) ==>
      EligibilityCheck(start, Get(args, OrderIdKey)).eligible == Some(true)
  }

  ghost predicate ThreadForeseen(start: World, th: Thread) {
    && (forall i :: 0 <= i < |th.session.calls| ==>
          Foreseen(start, th.session.calls[i].tool, th.session.calls[i].args, th.session.calls[i].result))
    && (th.phase.Executed? ==> Foreseen(start, th.phase.call.tool, th.phase.call.args, th.phase.result))
  }

  ghost predicate SameThread(start: Thread, th: Thread) {
    th.ticketId == start.ticketId && th.session.confidence == start.session.confidence
  }

  ghost predicate ForeseenInv(start: System, s: System) {
    && s.world.products == start.world.products && s.world.today == start.world.today
    && s.threads.Keys == start.threads.Keys
    && (forall id :: id in s.threads ==> SameThread(start.threads[id], s.threads[id]))
    && (forall id :: id in s.threads ==> ThreadForeseen(start.world, s.threads[id]))
  }

  lemma EligibleFromTheStart(start: World, w: World, orderId: Value)
    requires LedgerOk(start, w) && w.products == start.products && w.today == start.today
    requires EligibilityCheck(w, orderId).eligible == Some(true)
    ensures EligibilityCheck(start, orderId).eligible == Some(true)
  {
    var now, then_ := w.orders[orderId.text], start.orders[orderId.text];
    assert now == then_.(refunded := then_.refunded || Logged(w, orderId.text));
    hide Logged;
    assert BarredByNotes(w, now) == BarredByNotes(start, then_);
  }

  lemma ExecutionIsForeseen(start: World, w: World, tool: Tool, args: Args, env: Env)
    requires LedgerOk(start, w) && w.products == start.products && w.today == start.today
    ensures Foreseen(start, tool, args, ExecuteTool(w, tool, args, env).1)
  {
    if tool == CheckRefundEligibility && Binds(tool, args) && !env.fails {
      if EligibilityCheck(w, args[OrderIdKey]).eligible == Some(true) {
        EligibleFromTheStart(start, w, args[OrderIdKey]);
      }
    }
  }

  lemma RecordKeepsForeseen(start: World, th: Thread, call: Call, kept: ToolResult, shown: ToolResult)
    requires ThreadForeseen(start, th) && Foreseen(start, call.tool, call.args, kept)
    ensures ThreadForeseen(start, RecordStep(th, call, kept, shown))
  {
    hide Foreseen;
  }

  lemma AttemptKeepsForeseen(start: World, s: System, id: nat, call: Call, attempt: nat, env: Env)
    requires id in s.threads && ThreadForeseen(start, s.threads[id])
    requires LedgerOk(start, s.world) && s.world.products == start.products && s.world.today == start.today
    ensures var s' := AttemptStep(s, id, call, attempt, env);
      && ThreadForeseen(start, s'.threads[id])
      && s'.world.products == start.products && s'.world.today == start.today
  {
    ExecutionIsForeseen(start, s.world, call.tool, call.args, env);
    LedgerFrame(s.world, call.tool, call.args, env);
    hide ExecuteTool, Foreseen, LedgerOk;
  }

  lemma StepKeepsForeseen(start: System, s: System, e: Event)
    requires Inv(start, s) && ForeseenInv(start, s)
    ensures ForeseenInv(start, Step(s, e))
  {
    hide Judge, Inv, Foreseen, AttemptStep, RecordStep, LedgerOk;
    assert LedgerOk(start.world, s.world) by {
      InvHasLedger(start, s);
    }
    var id := e.thread;
    StepIsLocal(s, e);
    if id in s.threads {
      var th := s.threads[id];
      assert ThreadForeseen(start.world, th);
      match (e.action, th.phase) {
        case (Attempt(env), Executing(call, attempt)) => AttemptKeepsForeseen(start.world, s, id, call, attempt, env);
        case (Record, Executed(call, result)) => RecordKeepsForeseen(start.world, th, call, result, result);
        case (Record, Refusing(call)) =>
          ErrorIsForeseen(start.world, call, BLOCKED);
          RecordKeepsForeseen(start.world, th, call, BLOCKED, BLOCKED);
        case (Record, Parked(call)) =>
          ErrorIsForeseen(start.world, call, DEFERRED);
          RecordKeepsForeseen(start.world, th, call, DEFERRED, PLAIN);
        case _ =>
      }
    }
  }

  lemma InvHasLedger(start: System, s: System)
    requires Inv(start, s)
    ensures LedgerOk(start.world, s.world)
  {
  }

  lemma ErrorIsForeseen(start: World, call: Call, result: ToolResult)
    requires result.eligible == None
    ensures Foreseen(start, call.tool, call.args, result)
  {
  }

  lemma StepIsLocal(s: System, e: Event)
    ensures Step(s, e).threads.Keys == s.threads.Keys
    ensures forall id :: id in s.threads ==> SameThread(s.threads[id], Step(s, e).threads[id])
    ensures forall id :: id in s.threads && id != e.thread ==> Step(s, e).threads[id] == s.threads[id]
    ensures !e.action.Attempt? ==> Step(s, e).world == s.world
  {
    hide EvaluateStep, ExecuteTool;
  }

  // ── who appends can park ──

  lemma ParkedRefundIsParkable(start: World, s: System, th: Thread, call: Call) returns (orderId: string)
    requires ThreadFaithful(Prices(s.world), th) && ThreadForeseen(start, th)
    requires Prices(s.world) == Prices(start)
    requires CallJudged(th, call, RequireHuman)
    ensures Parkable(start, th, orderId)
  {
    DefaultVerdicts(call.tool, call.args, th.session);
    var id := OrderOf(call.args);
    EligibilityIsLatestCheck(th.session.calls, id);
    var check := EligibilityResult(th.session.calls, id).value;
    var i :| 0 <= i < |th.session.calls| && IsCheckFor(th.session.calls[i], id) && th.session.calls[i].result == check;
    assert Foreseen(start, CheckRefundEligibility, th.session.calls[i].args, check);
    assert Faithful(Prices(s.world), CheckRefundEligibility, th.session.calls[i].args, check);
    hide EligibilityCheck, EligibilityResult, Judge;
    orderId := id.text;
  }

  lemma AppendersAreApart(start: System, s: System)
    requires ParkersApart(start) && Inv(start, s) && ForeseenInv(start, s)
    ensures Apart(s)
  {
    hide Prices;
    forall id | id in s.threads && s.threads[id].phase.Appending?
      ensures CanPark(start.world, start.threads[id])
    {
      AppenderCanPark(start, s, id);
    }
    hide CanPark, Inv;
    forall i, j | i in s.threads && j in s.threads && i != j
                  && s.threads[i].phase.Appending? && s.threads[j].phase.Appending?
      ensures s.threads[i].ticketId != s.threads[j].ticketId
    {
      assert SameThread(start.threads[i], s.threads[i]) && SameThread(start.threads[j], s.threads[j]);
    }
  }

  lemma AppenderCanPark(start: System, s: System, id: nat)
    requires Inv(start, s) && ForeseenInv(start, s) && id in s.threads && s.threads[id].phase.Appending?
    ensures CanPark(start.world, start.threads[id])
  {
    var th := s.threads[id];
    assert ThreadJustified(th) && ThreadFaithful(Prices(s.world), th) && ThreadForeseen(start.world, th);
    assert SameThread(start.threads[id], th);
    hide ThreadFaithful, ThreadForeseen, EntryJustified, Open, Prices;
    var orderId := ParkedRefundIsParkable(start.world, s, th, th.phase.call);
    assert Parkable(start.world, start.threads[id], orderId);
  }

  lemma {:induction false} NumbersOverRuns(start: System, events: seq<Event>)
    requires Initial(start) && ParkersApart(start)
    ensures ForeseenInv(start, Run(start, events)) && NumbersOk(Run(start, events))
  {
    if events != [] {
      var before, e := events[..|events| - 1], events[|events| - 1];
      NumbersOverRuns(start, before);
      InvariantOverRuns(start, before);
      hide Inv, ForeseenInv, NumbersOk, ParkersApart, Step, Apart;
      StepKeepsForeseen(start, Run(start, before), e);
      AppendersAreApart(start, Run(start, before));
      StepKeepsNumbers(Run(start, before), e);
    }
  }

  ghost predicate DistinctReferences(hitl: seq<HitlItem>) {
    forall i, j :: 0 <= i < j < |hitl| ==>
        ItemId(hitl[i].ticketId, hitl[i].number) != ItemId(hitl[j].ticketId, hitl[j].number)
  }

  /** If no two threads that can park share a ticket, references to parked approvals are pairwise different
      although the length is read outside the lock, and the numbers of each ticket's items grow. */
  lemma ApprovalReferencesAreUnique(start: System, events: seq<Event>)
    requires Initial(start) && ParkersApart(start)
    ensures var s := Run(start, events);
      && DistinctReferences(s.hitl)
      && (forall i, j :: 0 <= i < j < |s.hitl| && s.hitl[i].ticketId == s.hitl[j].ticketId ==>
            s.hitl[i].number < s.hitl[j].number)
  {
    NumbersOverRuns(start, events);
    var s := Run(start, events);
    hide Run, ForeseenInv, ItemId;
    forall i, j | 0 <= i < j < |s.hitl|
      ensures ItemId(s.hitl[i].ticketId, s.hitl[i].number) != ItemId(s.hitl[j].ticketId, s.hitl[j].number)
    {
      ItemIdInjective(s.hitl[i].ticketId, s.hitl[i].number, s.hitl[j].ticketId, s.hitl[j].number);
    }
  }

  // ── the queue by tickets ──

  /** No two threads work on the same ticket. */
  ghost predicate OwnTickets(s: System) {
    forall i, j :: i in s.threads && j in s.threads && i != j ==> s.threads[i].ticketId != s.threads[j].ticketId
  }

  lemma {:induction false} ItemsOfTheTicket(threads: map<nat, Thread>, parkings: seq<Origin>, hitl: seq<HitlItem>,
                                            id: nat)
    requires id in threads && |parkings| == |hitl|
    requires forall k :: 0 <= k < |hitl| ==>
      && parkings[k].thread in threads && hitl[k].ticketId == threads[parkings[k].thread].ticketId
      && (threads[parkings[k].thread].ticketId == threads[id].ticketId ==> parkings[k].thread == id)
    ensures CountItems(hitl, threads[id].ticketId) == CountParked(parkings, id)
  {
    if hitl != [] {
      ItemsOfTheTicket(threads, parkings[..|hitl| - 1], hitl[..|hitl| - 1], id);
    }
  }

  /** With one thread a ticket, a ticket has as many items as its trail has REQUIRE_HUMAN lines, one in
      flight apart. */
  lemma TicketItemsAreItsVerdicts(start: System, events: seq<Event>, id: nat)
    requires Initial(start) && OwnTickets(start) && id in start.threads
    ensures var s := Run(start, events);
      && id in s.threads
      && CountItems(s.hitl, s.threads[id].ticketId)
         == CountVerdicts(s.threads[id].audit, RequireHuman) + (if s.threads[id].phase.Parked? then 1 else 0)
  {
    ApprovalsAreAccountedFor(start, events);
    var s := Run(start, events);
    assert ForeseenInv(start, s) by {
      NumbersOverRuns(start, events);
    }
    hide Run, ParksSome;
    forall k | 0 <= k < |s.hitl|
      ensures s.hitl[k].ticketId == s.threads[s.parkings[k].thread].ticketId
      ensures s.threads[s.parkings[k].thread].ticketId == s.threads[id].ticketId ==> s.parkings[k].thread == id
    {
      assert ParkedAs(s.threads[s.parkings[k].thread], s.parkings[k].at, s.hitl[k]);
      assert SameThread(start.threads[id], s.threads[id]);
      assert SameThread(start.threads[s.parkings[k].thread], s.threads[s.parkings[k].thread]);
    }
    ItemsOfTheTicket(s.threads, s.parkings, s.hitl, id);
  }
}
