/** What the self-assessed confidence measures, and what that makes of a whole run (agents/resolver.py). */
module Score {
  import opened Audit
  import opened Reals
  import opened Resolver
  import opened ResolverFacts
  import opened Health
  import opened IterationCap

  // ── before rounding ──

  lemma CleanTimes(x: real, calls: nat, errors: nat)
    requires calls > 0
    ensures Clean(x, calls, errors) * (2.0 * calls as real) == x * (2.0 * calls as real - errors as real)
  {
    var n, q := calls as real, errors as real / calls as real;
    var factor, half := 1.0 - 0.5 * q, 0.5 * q;
    assert factor * (2.0 * n) == 2.0 * n - errors as real by {
      Quotient(errors as real, n);
      Distribute(1.0, half, 2.0 * n);
      HalfTimesTwo(q, n);
    }
    Associate(x, factor, 2.0 * n);
  }

  lemma HalfTimesTwo(q: real, n: real)
    ensures 0.5 * q * (2.0 * n) == q * n
  {
    Associate(0.5 * q, 2.0, n);
  }

  /** What the terminal action and the policy leave of the triage confidence. */
  function Reached(base: real, terminal: bool): real {
    if terminal then base else base / 2.0
  }

  function Kept(x: real, blocks: nat): real {
    if blocks > 0 then x * 7.0 / 10.0 else x
  }

  /** The score is proportional to the calls that did not fail, a failed one counting half. */
  lemma ScoreInClosedForm(base: real, terminal: bool, calls: nat, errors: nat, blocks: nat)
    ensures calls == 0 ==> RawConfidence(base, terminal, calls, errors, blocks) == Kept(Reached(base, terminal), blocks)
    ensures calls > 0 ==>
      RawConfidence(base, terminal, calls, errors, blocks) * (2.0 * calls as real)
      == Kept(Reached(base, terminal) * (2.0 * calls as real - errors as real), blocks)
  {
    if calls > 0 {
      var reached := if terminal then base else base * 0.5;
      var clean, twice := Clean(reached, calls, errors), 2.0 * calls as real;
      CleanTimes(reached, calls, errors);
      assert RawConfidence(base, terminal, calls, errors, blocks) == if blocks > 0 then clean * 0.7 else clean;
      assert reached == Reached(base, terminal);
      Commute(clean, 0.7);
      Associate(0.7, clean, twice);
    }
  }

  /** Each further error takes the same share: the error-free score divided by twice the calls. A trace that
      failed throughout keeps half. */
  lemma ErrorsCostEvenly(base: real, terminal: bool, calls: nat, errors: nat, blocks: nat)
    requires calls > 0
    ensures var clean := RawConfidence(base, terminal, calls, 0, blocks);
      && RawConfidence(base, terminal, calls, errors, blocks) - RawConfidence(base, terminal, calls, errors + 1, blocks)
         == clean / (2.0 * calls as real)
      && RawConfidence(base, terminal, calls, calls, blocks) == clean / 2.0
  {
    hide RawConfidence;
    var n, k := calls as real, Kept(Reached(base, terminal), blocks);
    forall e: nat ensures RawConfidence(base, terminal, calls, e, blocks) * (2.0 * n) == k * (2.0 * n - e as real) {
      ScoreInClosedForm(base, terminal, calls, e, blocks);
      KeptScales(Reached(base, terminal), 2.0 * n - e as real, blocks);
    }
    var clean := RawConfidence(base, terminal, calls, 0, blocks);
    Cancel(clean, k, 2.0 * n);
    OneShare(RawConfidence(base, terminal, calls, errors, blocks),
             RawConfidence(base, terminal, calls, errors + 1, blocks), k, 2.0 * n, errors as real);
    HalfShare(RawConfidence(base, terminal, calls, calls, blocks), k, n);
  }

  lemma OneShare(fewer: real, more: real, k: real, twice: real, e: real)
    requires twice > 0.0 && fewer * twice == k * (twice - e) && more * twice == k * (twice - (e + 1.0))
    ensures fewer - more == k / twice
  {
    Distribute(fewer, more, twice);
    Distribute(twice - e, twice - (e + 1.0), k);
    Commute(k, twice - e);
    Commute(k, twice - (e + 1.0));
    Quotient(k, twice);
    Cancel(fewer - more, k / twice, twice);
  }

  lemma HalfShare(worst: real, k: real, n: real)
    requires n > 0.0 && worst * (2.0 * n) == k * (2.0 * n - n)
    ensures worst == k / 2.0
  {
    Associate(k / 2.0, 2.0, n);
    Cancel(worst, k / 2.0, 2.0 * n);
  }

  lemma Cancel(x: real, y: real, k: real)
    requires k > 0.0 && x * k == y * k
    ensures x == y
  {
    Through(x, y, k);
    Through(y, x, k);
  }

  lemma KeptScales(x: real, k: real, blocks: nat)
    ensures Kept(x * k, blocks) == Kept(x, blocks) * k
  {
    Commute(x, k);
    Associate(0.7, x, k);
  }

  // ── after rounding ──

  /** Between its limits the score is that within half a thousandth; beyond them it is the limit. */
  lemma ScoreTracksRaw(base: real, terminal: bool, calls: nat, errors: nat, blocks: nat)
    ensures var raw, score := RawConfidence(base, terminal, calls, errors, blocks),
                              SelfConfidence(base, terminal, calls, errors, blocks);
      && (raw <= 0.05 ==> score == 0.05)
      && (raw >= 0.99 ==> score == 0.99)
      && (0.05 <= raw <= 0.99 ==> raw - 0.0005 <= score <= raw + 0.0005)
  {
    hide RawConfidence;
    assert Round3(0.05) == 0.05 && Round3(0.99) == 0.99;
  }

  // ── whole runs ──

  /** The share of the calls that did not fail, a failed one counting half, leaves enough of the confidence. */
  predicate StaysConfident(confidence: real, calls: nat, errors: nat, blocks: nat) {
    Kept(confidence * (2 * calls - errors) as real, blocks) >= 1.199 * calls as real
  }

  lemma ScoreReachesIff(base: real, calls: nat, errors: nat, blocks: nat)
    requires calls > 0
    ensures RawConfidence(base, true, calls, errors, blocks) >= 0.5995
            <==> StaysConfident(base, calls, errors, blocks)
  {
    hide RawConfidence;
    ScoreInClosedForm(base, true, calls, errors, blocks);
    var raw := RawConfidence(base, true, calls, errors, blocks);
    assert 2.0 * calls as real - errors as real == (2 * calls - errors) as real;
    Through(0.5995, raw, 2.0 * calls as real);
  }

  lemma ErrorRateIff(errors: nat, calls: nat)
    requires calls > 0
    ensures TooManyErrors(errors, calls) <==> 50 * errors > 17 * calls
  {
    Divide(errors as real, 0.34, calls as real);
  }

  /** When the monitor calls a run healthy, from what the loop counted: it finished, made fewer than twelve calls,
      at most 34% of them failed, and the triage confidence outweighs the failures and the blocks. */
  lemma HealthyRunIff(confidence: real, llm: Llm, gate: Gate)
    requires ShapedGate(gate)
    ensures var s := Rounds(llm, gate, START, MAX_ITER);
      !Degraded(ResolutionOf(confidence, s)) <==>
        && StatusOf(s.trail) != Incomplete && s.calls < 12
        && 50 * Count(ShowsError, s.trail) <= 17 * s.calls
        && StaysConfident(confidence, s.calls, s.errors, |s.blocked|)
  {
    hide Rounds, StatusOf, Count, TooManyErrors, RawConfidence, ShapedGate, Degraded, StaysConfident,
      ResolutionOf;
    FinishedRunsCall(llm, gate);
    var s := Rounds(llm, gate, START, MAX_ITER);
    HealthyIff(confidence, s);
    if StatusOf(s.trail) != Incomplete {
      ScoreReachesIff(confidence, s.calls, s.errors, |s.blocked|);
      ErrorRateIff(Count(ShowsError, s.trail), s.calls);
    }
  }

  lemma FinishedRunsCall(llm: Llm, gate: Gate)
    requires ShapedGate(gate)
    ensures var s := Rounds(llm, gate, START, MAX_ITER); StatusOf(s.trail) != Incomplete ==> s.terminal && s.calls > 0
  {
    StatusMeansTerminal(llm, gate);
    LoopOutcome(llm, gate);
    hide Rounds, Count, TerminalOnlyLast, StatusOf;
    var s := Rounds(llm, gate, START, MAX_ITER);
    if s.terminal {
      var i :| 0 <= i < |s.trail| && IsTerminalCall(s.trail[i]);
      CalledAreCounted(s.trail, i);
    }
  }

  lemma {:induction false} CalledAreCounted(trail: seq<TrailEntry>, i: nat)
    requires i < |trail| && trail[i].Called?
    ensures Count(IsCalled, trail) > 0
  {
    if i < |trail| - 1 {
      CalledAreCounted(trail[..|trail| - 1], i);
    }
  }
}
