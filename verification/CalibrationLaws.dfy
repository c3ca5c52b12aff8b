/** What the figures of a calibration report mean (monitoring/calibration.py). */
module CalibrationLaws {
  import opened Schemas
  import opened Reals
  import opened Calibration

  // ── buckets ──

  /** A confidence belongs to the bucket its multiple of the bucket count rounds down to; 1 to the last. */
  lemma BucketIsFloor(c: real, b: nat, k: nat)
    requires 0.0 <= c <= 1.0 && b < k
    ensures InBucket(c, b, k) <==> b == if c == 1.0 then k - 1 else (c * k as real).Floor
  {
    Divide(b as real, c, k as real);
    Divide((b + 1) as real, c, k as real);
    if c < 1.0 {
      Strict(c, 1.0, k as real);
    }
  }

  lemma {:induction false} OnlyBucket(pairs: seq<Pair>)
    requires Probabilities(pairs)
    ensures Members(pairs, 0, 1) == pairs
  {
    if pairs != [] {
      var before, last := pairs[..|pairs| - 1], pairs[|pairs| - 1];
      OnlyBucket(before);
      BucketIsFloor(last.confidence, 0, 1);
      assert before + [last] == pairs;
    }
  }

  /** With one bucket the calibration error is the gap between mean confidence and accuracy. */
  lemma OneBucketError(pairs: seq<Pair>)
    requires Probabilities(pairs) && pairs != []
    ensures Ece(pairs, 1) == Abs(Mean(Confidence, pairs) - Mean(Hit, pairs))
  {
    OnlyBucket(pairs);
    var n := |pairs| as real;
    Quotient(n, n);
    assert n / n == 1.0;
    assert Shares(pairs, 1)(0) == Share(pairs, pairs);
    assert SumTo(Shares(pairs, 1), 1) == SumTo(Shares(pairs, 1), 0) + Shares(pairs, 1)(0);
    hide Mean;
  }

  // ── rows ──

  function One(p: Pair): real { 1.0 }

  lemma {:induction false} SumOfOnes(pairs: seq<Pair>)
    ensures Sum(One, pairs) == |pairs| as real
  {
    if pairs != [] {
      SumOfOnes(pairs[..|pairs| - 1]);
    }
  }

  function RowAt(pairs: seq<Pair>, k: nat, b: nat): Bucket {
    if b < k then Row(Members(pairs, b, k)) else Bucket(0, None, None)
  }

  /** A row's share of a figure: its count times the mean it shows. */
  function Part(row: Bucket, mean: Option<real>): real {
    match mean
    case None => 0.0
    case Some(x) => x * row.count as real
  }

  function Counts(pairs: seq<Pair>, k: nat): nat -> real {
    (b: nat) => RowAt(pairs, k, b).count as real
  }

  function Confidences(pairs: seq<Pair>, k: nat): nat -> real {
    (b: nat) => Part(RowAt(pairs, k, b), RowAt(pairs, k, b).avgConfidence)
  }

  function Hits(pairs: seq<Pair>, k: nat): nat -> real {
    (b: nat) => Part(RowAt(pairs, k, b), RowAt(pairs, k, b).accuracy)
  }

  lemma RowIsSums(members: seq<Pair>)
    ensures var row := Row(members);
      && row.count as real == Sum(One, members)
      && Part(row, row.avgConfidence) == Sum(Confidence, members)
      && Part(row, row.accuracy) == Sum(Hit, members)
  {
    SumOfOnes(members);
    if members != [] {
      Quotient(Sum(Confidence, members), |members| as real);
      Quotient(Sum(Hit, members), |members| as real);
    }
  }

  ghost predicate Same(f: nat -> real, g: nat -> real, b: nat) { f(b) == g(b) }

  lemma {:induction false} SameSums(f: nat -> real, g: nat -> real, k: nat)
    requires forall b: nat :: b < k ==> Same(f, g, b)
    ensures SumTo(f, k) == SumTo(g, k)
  {
    if k > 0 {
      SameSums(f, g, k - 1);
      assert Same(f, g, k - 1);
    }
  }

  /** The rows of a report together give back the sample: its size, its confidence and its correct answers. */
  lemma RowsRecoverTheSample(pairs: seq<Pair>, k: nat)
    requires Probabilities(pairs) && k > 0
    ensures SumTo(Counts(pairs, k), k) == |pairs| as real
    ensures SumTo(Confidences(pairs, k), k) == Sum(Confidence, pairs)
    ensures SumTo(Hits(pairs, k), k) == Sum(Hit, pairs)
  {
    forall b: nat | b < k
      ensures Same(Counts(pairs, k), BucketSums(One, pairs, k), b)
      ensures Same(Confidences(pairs, k), BucketSums(Confidence, pairs, k), b)
      ensures Same(Hits(pairs, k), BucketSums(Hit, pairs, k), b)
    {
      RowIsSums(Members(pairs, b, k));
    }
    SameSums(Counts(pairs, k), BucketSums(One, pairs, k), k);
    SameSums(Confidences(pairs, k), BucketSums(Confidence, pairs, k), k);
    SameSums(Hits(pairs, k), BucketSums(Hit, pairs, k), k);
    BucketsPartitionTheSample(One, pairs, k);
    BucketsPartitionTheSample(Confidence, pairs, k);
    BucketsPartitionTheSample(Hit, pairs, k);
    SumOfOnes(pairs);
  }

  // ── outcomes and the Brier score ──

  ghost function CorrectOnes(pairs: seq<Pair>): set<int> {
    set i | 0 <= i < |pairs| && pairs[i].correct
  }

  lemma {:induction false} HitsAreCounted(pairs: seq<Pair>)
    ensures Sum(Hit, pairs) == |CorrectOnes(pairs)| as real
  {
    if pairs != [] {
      var before := pairs[..|pairs| - 1];
      HitsAreCounted(before);
      assert |pairs| - 1 !in CorrectOnes(before);
      assert CorrectOnes(pairs)
          == if pairs[|pairs| - 1].correct then CorrectOnes(before) + {|pairs| - 1} else CorrectOnes(before);
    }
  }

  ghost predicate AlwaysSays(pairs: seq<Pair>, c: real) {
    forall i :: 0 <= i < |pairs| ==> pairs[i].confidence == c
  }

  lemma SquaredGapOf(p: Pair)
    ensures var c := p.confidence; SquaredGap(p) == c * c + (1.0 - 2.0 * c) * Outcome(p)
  {
    var c := p.confidence;
    if p.correct {
      Binomial(c, 1.0);
    }
  }

  lemma OneMore(x: real, n: real)
    ensures x * n + x == x * (n + 1.0)
  {
    Commute(x, n + 1.0);
    Distribute(n, 1.0, x);
    Commute(n, x);
  }

  lemma {:induction false} ConstantConfidence(pairs: seq<Pair>, c: real)
    requires AlwaysSays(pairs, c)
    ensures Sum(Confidence, pairs) == c * |pairs| as real
  {
    if pairs != [] {
      ConstantConfidence(pairs[..|pairs| - 1], c);
      OneMore(c, (|pairs| - 1) as real);
    }
  }

  lemma {:induction false} ConstantSquares(pairs: seq<Pair>, c: real)
    requires AlwaysSays(pairs, c)
    ensures Sum(SquaredGap, pairs) == c * c * |pairs| as real + (1.0 - 2.0 * c) * Sum(Hit, pairs)
  {
    if pairs != [] {
      var before, last := pairs[..|pairs| - 1], pairs[|pairs| - 1];
      ConstantSquares(before, c);
      SquaredGapOf(last);
      var s, h, w := Sum(Hit, before), Outcome(last), 1.0 - 2.0 * c;
      Commute(w, s + h);
      Distribute(s, h, w);
      Commute(s, w);
      Commute(h, w);
      OneMore(c * c, |before| as real);
    }
  }

  lemma DividedSum(x: real, w: real, s: real, n: real)
    requires n > 0.0
    ensures (x * n + w * s) / n == x + w * (s / n)
  {
    var a := s / n;
    Quotient(s, n);
    Associate(w, a, n);
    Distribute(x, w * a, n);
    assert (x + w * a) * n == x * n + w * s;
    Quotient(x * n + w * s, n);
    Through((x * n + w * s) / n, x + w * a, n);
    Through(x + w * a, (x * n + w * s) / n, n);
  }

  /** Always saying the same costs its distance from the accuracy, squared, and what the accuracy leaves open:
      the least for saying the accuracy itself. */
  lemma ConstantForecast(pairs: seq<Pair>, c: real)
    requires AlwaysSays(pairs, c) && pairs != []
    ensures var a := Mean(Hit, pairs);
      && Mean(Confidence, pairs) == c
      && Mean(SquaredGap, pairs) == (c - a) * (c - a) + a * (1.0 - a)
  {
    hide Sum, SquaredGap, Hit, Confidence;
    var n, s, w := |pairs| as real, Sum(Hit, pairs), 1.0 - 2.0 * c;
    var a := s / n;
    ConstantConfidence(pairs, c);
    ConstantSquares(pairs, c);
    DividedSum(c * c, w, s, n);
    DividedSum(c, 0.0, s, n);
    Decomposed(c, a);
  }

  lemma Decomposed(c: real, a: real)
    ensures c * c + (1.0 - 2.0 * c) * a == (c - a) * (c - a) + a * (1.0 - a)
  {
    Binomial(c, a);
    Distribute(1.0, 2.0 * c, a);
    Associate(2.0, c, a);
    Commute(a, 1.0 - a);
    Distribute(1.0, a, a);
  }

  lemma NothingNegative(x: real, y: real)
    requires x >= 0.0 && y >= 0.0
    ensures x + y == 0.0 <==> x == 0.0 && y == 0.0
  {
  }

  /** The product of two factors of the same sign. */
  lemma ProductIsZeroIff(x: real, y: real, product: real)
    requires product == x * y && (x > 0.0 <==> y > 0.0) && (x < 0.0 <==> y < 0.0)
    ensures product >= 0.0
    ensures product == 0.0 <==> x == 0.0
  {
    if x > 0.0 {
      Positive(x, y);
    } else if x < 0.0 {
      var a, b := -x, -y;
      Positive(a, b);
      assert a * b == x * y;
    }
  }

  predicate Certain(p: Pair) {
    p.confidence == if p.correct then 1.0 else 0.0
  }

  lemma NoGapHere(p: Pair)
    ensures SquaredGap(p) >= 0.0
    ensures SquaredGap(p) == 0.0 <==> Certain(p)
  {
    var gap := Gap(p);
    ProductIsZeroIff(gap, gap, SquaredGap(p));
  }

  lemma {:induction false} NoGapIff(pairs: seq<Pair>)
    ensures Sum(SquaredGap, pairs) >= 0.0
    ensures Sum(SquaredGap, pairs) == 0.0 <==> forall i :: 0 <= i < |pairs| ==> Certain(pairs[i])
  {
    if pairs != [] {
      var before, last := pairs[..|pairs| - 1], pairs[|pairs| - 1];
      NoGapIff(before);
      NoGapHere(last);
      NothingNegative(Sum(SquaredGap, before), SquaredGap(last));
      hide SquaredGap, Certain;
      forall i | 0 <= i < |before| ensures before[i] == pairs[i] {}
    }
  }

  /** The Brier score is 0 exactly when every answer was called with certainty, and rightly. */
  lemma PerfectBrierIff(pairs: seq<Pair>)
    requires pairs != []
    ensures Mean(SquaredGap, pairs) == 0.0
            <==> forall i :: 0 <= i < |pairs| ==> Certain(pairs[i])
  {
    NoGapIff(pairs);
    Quotient(Sum(SquaredGap, pairs), |pairs| as real);
  }
}
