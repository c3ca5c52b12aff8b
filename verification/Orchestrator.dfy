/** One run over a batch of tickets, and its bookkeeping (app/orchestrator.py). */
module Orchestrator {
  import opened Schemas
  import opened Audit
  import Resolver
  import ResolverFacts
  import Health

  /** How a ticket ends: as its resolution says, or in a crash. */
  datatype Outcome = Ended(status: Resolver.Status) | Failed

  const RESOLVED := Ended(Resolver.Resolved)
  const ESCALATED := Ended(Resolver.Escalated)
  const INCOMPLETE := Ended(Resolver.Incomplete)

  datatype TicketResult = TicketResult(ticketId: string, status: Outcome, degraded: bool, needsReview: bool,
                                       toolCalls: nat)

  /** What is left of a ticket after reading and classifying it: a run of the resolver, or an exception. */
  datatype Job = Crashes | Resolves(confidence: real, llm: Resolver.Llm, gate: Resolver.Gate)

  datatype Ticket = Ticket(id: string, job: Job)

  function ResolutionFor(confidence: real, llm: Resolver.Llm, gate: Resolver.Gate): Resolver.Resolution {
    Resolver.ResolutionOf(confidence, Resolver.Rounds(llm, gate, Resolver.START, Resolver.MAX_ITER))
  }

  function ResultFor(ticket: Ticket): TicketResult {
    match ticket.job
    case Crashes => TicketResult(ticket.id, Failed, false, false, 0)
    case Resolves(confidence, llm, gate) =>
      var res := ResolutionFor(confidence, llm, gate);
      var degraded := Health.Degraded(res);
      TicketResult(ticket.id, Ended(res.status), degraded, degraded || res.blocked != [], res.toolCalls)
  }

  function ResultsFor(tickets: seq<Ticket>): seq<TicketResult> {
    seq(|tickets|, i requires 0 <= i < |tickets| => ResultFor(tickets[i]))
  }

  datatype Summary = Summary(
    total: nat, resolved: nat, escalated: nat, incomplete: nat, failed: nat, degraded: nat, deadLetter: nat)

  function WithStatus(results: map<string, TicketResult>, status: Outcome): set<string> {
    set id | id in results && results[id].status == status
  }

  function DegradedOnes(results: map<string, TicketResult>): set<string> {
    set id | id in results && results[id].degraded
  }

  /** The results, ticket table and dead letters of a run, given the tickets with their outcomes in the
      order in which they happen to complete. */
  function ResultsOf(completions: seq<TicketResult>): map<string, TicketResult> {
    if completions == [] then map[]
    else
      var last := completions[|completions| - 1];
      ResultsOf(completions[..|completions| - 1])[last.ticketId := last]
  }

  function StoreAfter(store: map<string, Outcome>, completions: seq<TicketResult>): map<string, Outcome> {
    if completions == [] then store
    else
      var last := completions[|completions| - 1];
      StoreAfter(store, completions[..|completions| - 1])[last.ticketId := last.status]
  }

  function DeadLettersOf(completions: seq<TicketResult>): seq<string> {
    if completions == [] then []
    else
      var last := completions[|completions| - 1];
      DeadLettersOf(completions[..|completions| - 1]) + if last.status == Failed then [last.ticketId] else []
  }

  ghost predicate DistinctIds(completions: seq<TicketResult>) {
    forall i, j :: 0 <= i < j < |completions| ==> completions[i].ticketId != completions[j].ticketId
  }

  lemma DisjointSum(a: set<string>, b: set<string>)
    requires a !! b
    ensures |a + b| == |a| + |b|
  {
  }

  lemma OutcomeIsOneOfFour(o: Outcome)
    ensures o in {RESOLVED, ESCALATED, INCOMPLETE, Failed}
  {
    match o {
      case Failed =>
      case Ended(status) =>
        match status {
          case Resolved => assert o == RESOLVED;
          case Escalated => assert o == ESCALATED;
          case Incomplete => assert o == INCOMPLETE;
        }
    }
  }

  lemma StatusesPartition(results: map<string, TicketResult>)
    ensures |WithStatus(results, RESOLVED)| + |WithStatus(results, ESCALATED)|
            + |WithStatus(results, INCOMPLETE)| + |WithStatus(results, Failed)| == |results|
  {
    var a, b := WithStatus(results, RESOLVED), WithStatus(results, ESCALATED);
    var c, d := WithStatus(results, INCOMPLETE), WithStatus(results, Failed);
    DisjointSum(a, b);
    DisjointSum(a + b, c);
    DisjointSum(a + b + c, d);
    forall id | id in results ensures id in a + b + c + d {
      OutcomeIsOneOfFour(results[id].status);
    }
    assert results.Keys == a + b + c + d;
    assert |results.Keys| == |results|;
  }

  lemma FreshKey<V>(m: map<string, V>, id: string, v: V)
    requires id !in m
    ensures |m[id := v]| == |m| + 1
  {
    assert m[id := v].Keys == m.Keys + {id};
    assert |m[id := v].Keys| == |m.Keys| + 1;
  }

  lemma FreshStatus(results: map<string, TicketResult>, r: TicketResult, status: Outcome)
    requires r.ticketId !in results
    ensures |WithStatus(results[r.ticketId := r], status)|
            == |WithStatus(results, status)| + if r.status == status then 1 else 0
  {
    var before, after := WithStatus(results, status), WithStatus(results[r.ticketId := r], status);
    if r.status == status {
      assert after == before + {r.ticketId};
    } else {
      assert after == before;
    }
  }

  lemma {:induction false} ResultIds(completions: seq<TicketResult>)
    ensures forall id ::
      id in ResultsOf(completions) <==> exists i :: 0 <= i < |completions| && completions[i].ticketId == id
  {
    if completions != [] {
      var before := completions[..|completions| - 1];
      ResultIds(before);
      forall i | 0 <= i < |before| ensures before[i] == completions[i] {}
    }
  }

  lemma LastIsFresh(completions: seq<TicketResult>)
    requires DistinctIds(completions) && completions != []
    ensures DistinctIds(completions[..|completions| - 1])
    ensures completions[|completions| - 1].ticketId !in ResultsOf(completions[..|completions| - 1])
  {
    ResultIds(completions[..|completions| - 1]);
  }

  lemma {:induction false} CountsConserved(completions: seq<TicketResult>)
    requires DistinctIds(completions)
    ensures |ResultsOf(completions)| == |completions|
    ensures |DeadLettersOf(completions)| == |WithStatus(ResultsOf(completions), Failed)|
  {
    if completions == [] {
      assert WithStatus(map[], Failed) == {};
    } else {
      var before, last := completions[..|completions| - 1], completions[|completions| - 1];
      LastIsFresh(completions);
      CountsConserved(before);
      FreshKey(ResultsOf(before), last.ticketId, last);
      FreshStatus(ResultsOf(before), last, Failed);
    }
  }

  lemma {:induction false} OwnResults(store: map<string, Outcome>, completions: seq<TicketResult>)
    requires DistinctIds(completions)
    ensures forall i :: 0 <= i < |completions| ==>
      && completions[i].ticketId in ResultsOf(completions)
      && ResultsOf(completions)[completions[i].ticketId] == completions[i]
      && completions[i].ticketId in StoreAfter(store, completions)
      && StoreAfter(store, completions)[completions[i].ticketId] == completions[i].status
  {
    if completions != [] {
      var before := completions[..|completions| - 1];
      OwnResults(store, before);
      forall i | 0 <= i < |before| ensures before[i] == completions[i] {}
    }
  }

  /** Conservation: for distinct tickets, whatever the completion order, each ticket has its own result,
      the four statuses add up to the batch, and there are exactly as many dead letters as failed results.
      (Repeated ids would share one result, while every failure still leaves its dead letter.) */
  lemma RunConserves(store: map<string, Outcome>, completions: seq<TicketResult>)
    requires DistinctIds(completions)
    ensures var results := ResultsOf(completions);
      && |WithStatus(results, RESOLVED)| + |WithStatus(results, ESCALATED)|
         + |WithStatus(results, INCOMPLETE)| + |WithStatus(results, Failed)| == |completions|
      && |DeadLettersOf(completions)| == |WithStatus(results, Failed)|
      && (forall i :: 0 <= i < |completions| ==>
            && completions[i].ticketId in results && results[completions[i].ticketId] == completions[i]
            && completions[i].ticketId in StoreAfter(store, completions)
            && StoreAfter(store, completions)[completions[i].ticketId] == completions[i].status)
  {
    StatusesPartition(ResultsOf(completions));
    CountsConserved(completions);
    OwnResults(store, completions);
  }

  function SummaryOf(results: map<string, TicketResult>, deadLetters: seq<string>): Summary {
    Summary(|results|, |WithStatus(results, RESOLVED)|, |WithStatus(results, ESCALATED)|,
            |WithStatus(results, INCOMPLETE)|, |WithStatus(results, Failed)|, |DegradedOnes(results)|, |deadLetters|)
  }

  // ── what the summary says of the batch ──

  ghost function Ending(completions: seq<TicketResult>, status: Outcome): set<int> {
    set i | 0 <= i < |completions| && completions[i].status == status
  }

  ghost function EndingDegraded(completions: seq<TicketResult>): set<int> {
    set i | 0 <= i < |completions| && completions[i].degraded
  }

  lemma FreshDegraded(results: map<string, TicketResult>, r: TicketResult)
    requires r.ticketId !in results
    ensures |DegradedOnes(results[r.ticketId := r])| == |DegradedOnes(results)| + if r.degraded then 1 else 0
  {
    var before, after := DegradedOnes(results), DegradedOnes(results[r.ticketId := r]);
    assert after == if r.degraded then before + {r.ticketId} else before;
  }

  lemma OneMoreEnding(completions: seq<TicketResult>, status: Outcome)
    requires completions != []
    ensures var before, last := completions[..|completions| - 1], completions[|completions| - 1];
      |Ending(completions, status)| == |Ending(before, status)| + if last.status == status then 1 else 0
  {
    var n := |completions| - 1;
    var before := Ending(completions[..n], status);
    assert n !in before;
    assert Ending(completions, status) == if completions[n].status == status then before + {n} else before;
  }

  lemma OneMoreDegraded(completions: seq<TicketResult>)
    requires completions != []
    ensures var before, last := completions[..|completions| - 1], completions[|completions| - 1];
      |EndingDegraded(completions)| == |EndingDegraded(before)| + if last.degraded then 1 else 0
  {
    var n := |completions| - 1;
    var before := EndingDegraded(completions[..n]);
    assert n !in before;
    assert EndingDegraded(completions) == if completions[n].degraded then before + {n} else before;
  }

  lemma {:induction false} EndingsAreCounted(completions: seq<TicketResult>, status: Outcome)
    requires DistinctIds(completions)
    ensures |WithStatus(ResultsOf(completions), status)| == |Ending(completions, status)|
    ensures |DegradedOnes(ResultsOf(completions))| == |EndingDegraded(completions)|
  {
    if completions == [] {
      assert WithStatus(map[], status) == {} && DegradedOnes(map[]) == {};
    } else {
      var before, last := completions[..|completions| - 1], completions[|completions| - 1];
      LastIsFresh(completions);
      EndingsAreCounted(before, status);
      FreshStatus(ResultsOf(before), last, status);
      FreshDegraded(ResultsOf(before), last);
      OneMoreEnding(completions, status);
      OneMoreDegraded(completions);
    }
  }

  /** The summary counts the tickets of the batch by how each of them ended. */
  lemma SummaryCountsTheBatch(completions: seq<TicketResult>, deadLetters: seq<string>)
    requires DistinctIds(completions)
    ensures var s := SummaryOf(ResultsOf(completions), deadLetters);
      && s.total == |completions| && s.deadLetter == |deadLetters|
      && s.resolved == |Ending(completions, Ended(Resolver.Resolved))|
      && s.escalated == |Ending(completions, Ended(Resolver.Escalated))|
      && s.incomplete == |Ending(completions, Ended(Resolver.Incomplete))|
      && s.failed == |Ending(completions, Failed)|
      && s.degraded == |EndingDegraded(completions)|
  {
    CountsConserved(completions);
    EndingsAreCounted(completions, Ended(Resolver.Resolved));
    EndingsAreCounted(completions, Ended(Resolver.Escalated));
    EndingsAreCounted(completions, Ended(Resolver.Incomplete));
    EndingsAreCounted(completions, Failed);
  }

  /** A ticket fails exactly when reading, classifying or resolving it raised; otherwise it ends as the lines of
      its run say: escalated if an escalation went through, else resolved if a reply did, else incomplete and
      degraded. It is to be reviewed if it is degraded or the policy refused or parked a call. */
  lemma ResultSaysHowTheRunEnded(ticket: Ticket)
    ensures var r := ResultFor(ticket);
      && r.ticketId == ticket.id && (r.status == Failed <==> ticket.job.Crashes?)
      && (ticket.job.Crashes? ==> !r.degraded && !r.needsReview && r.toolCalls == 0)
      && (ticket.job.Resolves? ==>
            var s := Resolver.Rounds(ticket.job.llm, ticket.job.gate, Resolver.START, Resolver.MAX_ITER);
            && (r.status == Ended(Resolver.Escalated) <==> SomeWent(s.trail, Escalate))
            && (r.status == Ended(Resolver.Resolved) <==> SomeWent(s.trail, SendReply) && !SomeWent(s.trail, Escalate))
            && (r.status == Ended(Resolver.Incomplete) ==> r.degraded)
            && (r.needsReview <==> r.degraded || s.blocked != [])
            && r.toolCalls == s.calls)
  {
    hide Resolver.Rounds, Resolver.SelfConfidence, Health.TooManyErrors, ResolverFacts.Count, Resolver.StatusOf,
      SomeWent;
    if ticket.job.Resolves? {
      var trail := Resolver.Rounds(ticket.job.llm, ticket.job.gate, Resolver.START, Resolver.MAX_ITER).trail;
      StatusSays(trail);
      assert ResultFor(ticket).status == Ended(Resolver.StatusOf(trail));
    }
  }

  lemma StatusSays(trail: seq<TrailEntry>)
    ensures Resolver.StatusOf(trail) == Resolver.Escalated <==> SomeWent(trail, Escalate)
    ensures Resolver.StatusOf(trail) == Resolver.Resolved <==> SomeWent(trail, SendReply) && !SomeWent(trail, Escalate)
  {
    forall i, tool | 0 <= i < |trail| ensures WentThrough(trail[i], tool) <==> Resolver.Finished(trail[i], tool) {
    }
    hide WentThrough, Resolver.Finished;
  }

  predicate WentThrough(line: TrailEntry, tool: Tool) {
    match line
    case LlmError => false
    case Called(e) => e.tool == tool && e.result.error == None
  }

  /** A terminal call of this tool came back without an error. */
  ghost predicate SomeWent(trail: seq<TrailEntry>, tool: Tool) {
    exists i :: 0 <= i < |trail| && WentThrough(trail[i], tool)
  }

  lemma NothingCompleted(store: map<string, Outcome>)
    ensures ResultsOf([]) == map[] && StoreAfter(store, []) == store && DeadLettersOf([]) == []
  {
  }

  lemma OneMoreCompleted(store: map<string, Outcome>, completions: seq<TicketResult>, k: nat)
    requires k < |completions|
    ensures var r, before, after := completions[k], completions[..k], completions[..k + 1];
      && ResultsOf(after) == ResultsOf(before)[r.ticketId := r]
      && StoreAfter(store, after) == StoreAfter(store, before)[r.ticketId := r.status]
      && DeadLettersOf(after) == DeadLettersOf(before) + if r.status == Failed then [r.ticketId] else []
  {
    assert completions[..k + 1][..k] == completions[..k];
  }

  class Orchestrator {
    var results: map<string, TicketResult>
    var running: bool
    var store: map<string, Outcome>
    var deadLetters: seq<string>

    constructor ()
      ensures results == map[] && !running && store == map[] && deadLetters == []
    {
      results, running, store, deadLetters := map[], false, map[], [];
    }

    /** One ticket through the resolver and the health monitor; a crash goes to the dead-letter queue
        instead of vanishing. */
    method ProcessOne(ticket: Ticket) returns (r: TicketResult)
      modifies this`store, this`deadLetters
      ensures r == ResultFor(ticket) && r.ticketId == ticket.id
      ensures store == old(store)[ticket.id := r.status]
      ensures deadLetters == if r.status == Failed then old(deadLetters) + [ticket.id] else old(deadLetters)
    {
      match ticket.job {
        case Crashes =>
          deadLetters := deadLetters + [ticket.id];
          store := store[ticket.id := Failed];
          r := TicketResult(ticket.id, Failed, false, false, 0);
        case Resolves(confidence, llm, gate) =>
          var res := Resolver.Run(confidence, llm, gate);
          var v := Health.Assess(res);
          store := store[ticket.id := Ended(res.status)];
          r := TicketResult(ticket.id, Ended(res.status), v.degraded, v.needsReview, res.toolCalls);
      }
    }

    method Summarise() returns (s: Summary)
      ensures s == SummaryOf(results, deadLetters)
      ensures s.resolved + s.escalated + s.incomplete + s.failed == s.total
    {
      StatusesPartition(results);
      s := SummaryOf(results, deadLetters);
    }

    /** A run over the batch, its tickets listed as they complete; asked for while another is under way, it
        changes nothing. */
    method RunAll(tickets: seq<Ticket>) returns (summary: Option<Summary>)
      modifies this
      ensures old(running) ==>
        && summary == None && running
        && results == old(results) && store == old(store) && deadLetters == old(deadLetters)
      ensures !old(running) ==>
        && !running
        && results == ResultsOf(ResultsFor(tickets))
        && store == StoreAfter(old(store), ResultsFor(tickets))
        && deadLetters == old(deadLetters) + DeadLettersOf(ResultsFor(tickets))
        && summary == Some(SummaryOf(results, deadLetters))
    {
      hide ResultFor, SummaryOf, ResultsOf, StoreAfter, DeadLettersOf;
      if running {
        return None;
      }
      running := true;
      results := map[];
      ghost var completions := ResultsFor(tickets);
      NothingCompleted(store);
      for k := 0 to |tickets|
        invariant running
        invariant results == ResultsOf(completions[..k])
        invariant store == StoreAfter(old(store), completions[..k])
        invariant deadLetters == old(deadLetters) + DeadLettersOf(completions[..k])
      {
        OneMoreCompleted(old(store), completions, k);
        var r := ProcessOne(tickets[k]);
        assert r == completions[k];
        results := results[r.ticketId := r];
      }
      assert completions[..|completions|] == completions;
      var s := Summarise();
      running := false;
      summary := Some(s);
    }
  }
}
