/** Self-confidence and the health monitor that acts on it (agents/resolver.py, monitoring/health.py). */
module Health {
  import opened Audit
  import opened Reals
  import opened Resolver
  import opened ResolverFacts

  // ── self-confidence ──

  ghost predicate NearestThousandth(x: real, k: int) {
    Abs(x * 1000.0 - k as real) <= 0.5 && (Abs(x * 1000.0 - k as real) == 0.5 ==> k % 2 == 0)
  }

  /** round(x, 3) is a whole number of thousandths, none is nearer, and of two equally near it is the even one. */
  lemma RoundsToNearestEven(x: real)
    ensures exists k: int :: NearestThousandth(x, k) && Round3(x) == k as real / 1000.0
  {
    assert NearestThousandth(x, RoundToInt(x * 1000.0));
  }

  lemma RoundingIsMonotone(x: real, y: real)
    requires x <= y
    ensures Round3(x) <= Round3(y)
  {
    assert RoundToInt(x * 1000.0) <= RoundToInt(y * 1000.0);
  }

  /** The part of a tool trace that did not fail, halved towards one half. */
  lemma ErrorFactor(calls: nat, errors: nat)
    requires calls > 0 && errors <= calls + 1
    ensures 0.0 <= 1.0 - 0.5 * (errors as real / calls as real) <= 1.0
  {
    Divide(errors as real, 2.0, calls as real);
    Divide(errors as real, 0.0, calls as real);
  }

  lemma CleanBounds(x: real, calls: nat, errors: nat)
    requires x >= 0.0 && errors <= calls + 1
    ensures 0.0 <= Clean(x, calls, errors) <= x
  {
    if calls > 0 {
      var factor := 1.0 - 0.5 * (errors as real / calls as real);
      var product := x * factor;
      assert 0.0 <= product <= x by {
        ErrorFactor(calls, errors);
        ScaledDown(x, factor);
      }
    }
  }

  lemma ScaledDown(x: real, factor: real)
    requires x >= 0.0 && 0.0 <= factor <= 1.0
    ensures 0.0 <= x * factor <= x
  {
    Commute(x, factor);
    Monotone(factor, 1.0, x);
    NonNegative(x, factor);
  }

  lemma RawConfidenceBounds(base: real, terminal: bool, calls: nat, errors: nat, blocks: nat)
    requires 0.0 <= base <= 1.0 && errors <= calls + 1
    ensures 0.0 <= RawConfidence(base, terminal, calls, errors, blocks) <= base
  {
    var reached := if terminal then base else base * 0.5;
    var clean := Clean(reached, calls, errors);
    assert 0.0 <= clean <= base by {
      CleanBounds(reached, calls, errors);
    }
  }

  /** Whatever the loop counted, the score stays within [0.05, 0.99] and, before rounding, below the
      triage confidence or 0.05. */
  lemma SelfConfidenceBounds(base: real, terminal: bool, calls: nat, errors: nat, blocks: nat)
    requires 0.0 <= base <= 1.0 && errors <= calls + 1
    ensures 0.05 <= SelfConfidence(base, terminal, calls, errors, blocks) <= 0.99
    ensures SelfConfidence(base, terminal, calls, errors, blocks) <= Round3(Max(0.05, base))
  {
    var clamped := Max(0.05, Min(0.99, RawConfidence(base, terminal, calls, errors, blocks)));
    RawConfidenceBounds(base, terminal, calls, errors, blocks);
    RoundingIsMonotone(0.05, clamped);
    RoundingIsMonotone(clamped, 0.99);
    RoundingIsMonotone(clamped, Max(0.05, base));
    assert Round3(0.05) == 0.05 && Round3(0.99) == 0.99;
  }

  lemma FewerErrorsMoreClean(x: real, calls: nat, errors: nat, more: nat)
    requires x >= 0.0 && calls > 0 && errors <= more
    ensures x * (1.0 - 0.5 * (more as real / calls as real)) <= x * (1.0 - 0.5 * (errors as real / calls as real))
  {
    var low, high := 1.0 - 0.5 * (more as real / calls as real), 1.0 - 0.5 * (errors as real / calls as real);
    var perCall := errors as real / calls as real;
    Quotient(errors as real, calls as real);
    Divide(more as real, perCall, calls as real);
    assert low <= high;
    Monotone(low, high, x);
    Commute(low, x);
    Commute(high, x);
  }

  /** More errors, more policy interventions or a missing terminal action never raise the score, whether or
      not the run it is compared with reached its terminal action. */
  lemma SelfConfidenceAntitone(base: real, calls: nat, errors: nat, more: nat, blocks: nat, moreBlocks: nat)
    requires 0.0 <= base <= 1.0 && errors <= more <= calls + 1 && blocks <= moreBlocks
    ensures forall worse: bool, better: bool :: (worse ==> better) ==>
      SelfConfidence(base, worse, calls, more, moreBlocks) <= SelfConfidence(base, better, calls, errors, blocks)
  {
    hide RawConfidence, Round3;
    forall worse: bool, better: bool | worse ==> better
      ensures SelfConfidence(base, worse, calls, more, moreBlocks)
           <= SelfConfidence(base, better, calls, errors, blocks)
    {
      var low := RawConfidence(base, worse, calls, more, moreBlocks);
      var high := RawConfidence(base, better, calls, errors, blocks);
      RawAntitone(base, worse, better, calls, errors, more, blocks, moreBlocks);
      RoundingIsMonotone(Max(0.05, Min(0.99, low)), Max(0.05, Min(0.99, high)));
    }
  }

  lemma CleanMonotone(x: real, y: real, calls: nat, errors: nat, more: nat)
    requires 0.0 <= x <= y && errors <= more <= calls + 1
    ensures 0.0 <= Clean(x, calls, more) <= Clean(y, calls, errors)
  {
    CleanBounds(x, calls, more);
    if calls > 0 {
      var factor := 1.0 - 0.5 * (more as real / calls as real);
      var low, middle, high := x * factor, y * factor, y * (1.0 - 0.5 * (errors as real / calls as real));
      assert low <= middle by {
        ErrorFactor(calls, more);
        Monotone(x, y, factor);
      }
      assert middle <= high by {
        FewerErrorsMoreClean(y, calls, errors, more);
      }
    }
  }

  lemma RawAntitone(base: real, worse: bool, better: bool, calls: nat, errors: nat, more: nat,
                    blocks: nat, moreBlocks: nat)
    requires 0.0 <= base <= 1.0 && errors <= more <= calls + 1 && blocks <= moreBlocks && (worse ==> better)
    ensures RawConfidence(base, worse, calls, more, moreBlocks) <= RawConfidence(base, better, calls, errors, blocks)
  {
    var less, reached := if worse then base else base * 0.5, if better then base else base * 0.5;
    CleanMonotone(less, reached, calls, errors, more);
    var low, high := Clean(less, calls, more), Clean(reached, calls, errors);
    hide Clean;
    assert RawConfidence(base, worse, calls, more, moreBlocks) == if moreBlocks > 0 then low * 0.7 else low;
    assert RawConfidence(base, better, calls, errors, blocks) == if blocks > 0 then high * 0.7 else high;
  }

  // ── the monitor ──

  const LOW_CONFIDENCE := 0.6
  const HIGH_ERROR_RATE := 0.34
  const MAX_TOOL_ITERATIONS := 12

  datatype Reason = NoTerminalAction | LowSelfConfidence | HighErrorRate | IterationCap | PolicyIntervened

  datatype HealthVerdict = HealthVerdict(degraded: bool, needsReview: bool, reasons: seq<Reason>)

  predicate ShowsError(e: TrailEntry) { e.Called? && e.entry.result.error.Some? }

  predicate TooManyErrors(errors: nat, calls: nat) {
    calls > 0 && errors as real / calls as real > HIGH_ERROR_RATE
  }

  /** A quality signal trips. */
  predicate Degraded(res: Resolution) {
    || res.status == Incomplete
    || res.selfConfidence < LOW_CONFIDENCE
    || TooManyErrors(Count(ShowsError, res.trail), res.toolCalls)
    || res.toolCalls >= MAX_TOOL_ITERATIONS
  }

  method CountErrors(trail: seq<TrailEntry>) returns (errors: nat)
    ensures errors == Count(ShowsError, trail)
  {
    errors := 0;
    for i := 0 to |trail|
      invariant errors == Count(ShowsError, trail[..i])
    {
      assert trail[..i + 1][..i] == trail[..i];
      if trail[i].Called? && trail[i].entry.result.error.Some? {
        errors := errors + 1;
      }
    }
    assert trail[..|trail|] == trail;
  }

  method Assess(res: Resolution) returns (v: HealthVerdict)
    ensures v.degraded <==> Degraded(res)
    ensures v.needsReview <==> Degraded(res) || res.blocked != []
    ensures NoTerminalAction in v.reasons <==> res.status == Incomplete
    ensures LowSelfConfidence in v.reasons <==> res.selfConfidence < LOW_CONFIDENCE
    ensures HighErrorRate in v.reasons <==> TooManyErrors(Count(ShowsError, res.trail), res.toolCalls)
    ensures IterationCap in v.reasons <==> res.toolCalls >= MAX_TOOL_ITERATIONS
    ensures PolicyIntervened in v.reasons <==> res.blocked != []
  {
    var reasons: seq<Reason> := [];
    var errors := CountErrors(res.trail);
    var errorRate := if res.toolCalls > 0 then errors as real / res.toolCalls as real else 0.0;
    if res.status == Incomplete {
      reasons := reasons + [NoTerminalAction];
    }
    if res.selfConfidence < LOW_CONFIDENCE {
      reasons := reasons + [LowSelfConfidence];
    }
    if errorRate > HIGH_ERROR_RATE {
      reasons := reasons + [HighErrorRate];
    }
    if res.toolCalls >= MAX_TOOL_ITERATIONS {
      reasons := reasons + [IterationCap];
    }
    var tripped := reasons != [];
    if res.blocked != [] {
      reasons := reasons + [PolicyIntervened];
    }
    v := HealthVerdict(tripped, reasons != [], reasons);
  }

  lemma {:induction false} SameCount(p: TrailEntry -> bool, q: TrailEntry -> bool, trail: seq<TrailEntry>)
    requires forall i :: 0 <= i < |trail| ==> p(trail[i]) == q(trail[i])
    ensures Count(p, trail) == Count(q, trail)
  {
    if trail != [] {
      SameCount(p, q, trail[..|trail| - 1]);
    }
  }

  /** The monitor counts the loop's errors, except the failure of the model itself. */
  lemma MonitorCountsLoopErrors(llm: Llm, gate: Gate)
    requires ShapedGate(gate)
    ensures var s := Rounds(llm, gate, START, MAX_ITER);
      s.errors == Count(ShowsError, s.trail) + if EndsInLlmError(s.trail) then 1 else 0
  {
    LoopOutcome(llm, gate);
    RoundsKeepShape(llm, gate, START, MAX_ITER);
    SameCount(IsFailed, ShowsError, Rounds(llm, gate, START, MAX_ITER).trail);
  }

  /** Every way out of the loop without an allowed terminal call (the model failed, fell silent after
      three calls, or used up its rounds) ends incomplete, scores within [0.05, 0.99], and is degraded. */
  lemma UnfinishedRunsAreFlagged(confidence: real, llm: Llm, gate: Gate)
    requires ShapedGate(gate) && 0.0 <= confidence <= 1.0
    ensures var s := Rounds(llm, gate, START, MAX_ITER); var res := ResolutionOf(confidence, s);
      && 0.05 <= res.selfConfidence <= 0.99
      && (!s.terminal ==> res.status == Incomplete && Degraded(res))
      && (!s.terminal && s.rounds < MAX_ITER ==> EndsInLlmError(s.trail) || s.calls >= 3)
  {
    var s := Rounds(llm, gate, START, MAX_ITER);
    LoopOutcome(llm, gate);
    StatusMeansTerminal(llm, gate);
    SelfConfidenceBounds(confidence, s.terminal, s.calls, s.errors, |s.blocked|);
  }

  lemma {:induction false} NoneCounted(p: TrailEntry -> bool, trail: seq<TrailEntry>)
    requires Count(p, trail) == 0
    ensures forall i :: 0 <= i < |trail| ==> !p(trail[i])
  {
    if trail != [] {
      NoneCounted(p, trail[..|trail| - 1]);
      forall i | 0 <= i < |trail| - 1 ensures !p(trail[i]) {
        assert trail[i] == trail[..|trail| - 1][i];
      }
    }
  }

  /** The score falls below the monitor's threshold exactly when it would round below it. */
  lemma ScoreIsLowIff(base: real, terminal: bool, calls: nat, errors: nat, blocks: nat)
    ensures SelfConfidence(base, terminal, calls, errors, blocks) < LOW_CONFIDENCE
            <==> RawConfidence(base, terminal, calls, errors, blocks) < 0.5995
  {
    hide RawConfidence;
    var raw := RawConfidence(base, terminal, calls, errors, blocks);
    var clamped := Max(0.05, Min(0.99, raw));
    if raw >= 0.5995 {
      RoundingIsMonotone(0.5995, clamped);
      assert Round3(0.5995) == 0.6;
    } else {
      assert RoundToInt(clamped * 1000.0) < 600;
    }
  }

  lemma CleanScore(base: real, calls: nat, blocks: nat)
    ensures RawConfidence(base, true, calls, 0, blocks) == if blocks > 0 then base * 0.7 else base
  {
    assert calls > 0 ==> 0 as real / calls as real == 0.0;
  }

  /** A run without errors that reached its terminal call is complete, also in the monitor's eyes. */
  lemma CleanRunIsComplete(llm: Llm, gate: Gate)
    requires ShapedGate(gate)
    requires var s := Rounds(llm, gate, START, MAX_ITER); s.terminal && s.errors == 0
    ensures var trail := Rounds(llm, gate, START, MAX_ITER).trail;
      Count(ShowsError, trail) == 0 && StatusOf(trail) != Incomplete
  {
    LoopOutcome(llm, gate);
    MonitorCountsLoopErrors(llm, gate);
    StatusMeansTerminal(llm, gate);
    hide Rounds, StatusOf, Count, ShapedGate;
    var s := Rounds(llm, gate, START, MAX_ITER);
    NoneCounted(ShowsError, s.trail);
    var i :| 0 <= i < |s.trail| && IsTerminalCall(s.trail[i]);
    assert !ShowsError(s.trail[i]);
  }

  /** A policy block is meant to flag for review only. A run that made no error and reached its terminal
      call, but had a call parked, is degraded as well, exactly when the triage confidence is below
      0.5995 / 0.7 (about 0.856). */
  lemma CleanBlockedRunIsHealthyIff(confidence: real, llm: Llm, gate: Gate)
    requires ShapedGate(gate) && 0.0 <= confidence <= 1.0
    requires
      var s := Rounds(llm, gate, START, MAX_ITER);
      s.terminal && s.errors == 0 && s.blocked != [] && s.calls < MAX_TOOL_ITERATIONS
    ensures !Degraded(ResolutionOf(confidence, Rounds(llm, gate, START, MAX_ITER))) <==> confidence * 0.7 >= 0.5995
  {
    CleanRunIsComplete(llm, gate);
    hide Rounds, SelfConfidence, RawConfidence, StatusOf, Count, TooManyErrors, ShapedGate;
    var s := Rounds(llm, gate, START, MAX_ITER);
    ScoreIsLowIff(confidence, true, s.calls, 0, |s.blocked|);
    CleanScore(confidence, s.calls, |s.blocked|);
    NoErrorsAreNotTooMany(s.calls);
  }

  lemma NoErrorsAreNotTooMany(calls: nat)
    ensures !TooManyErrors(0, calls)
  {
  }
}
