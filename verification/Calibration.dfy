/** Expected calibration error and Brier score, before rounding (monitoring/calibration.py). */
module Calibration {
  import opened Schemas
  import opened Reals

  datatype Pair = Pair(confidence: real, correct: bool)

  function Outcome(p: Pair): real {
    if p.correct then 1.0 else 0.0
  }

  /** Sum of a weight over the sample. */
  function Sum(weight: Pair -> real, pairs: seq<Pair>): real {
    if pairs == [] then 0.0 else Sum(weight, pairs[..|pairs| - 1]) + weight(pairs[|pairs| - 1])
  }

  function Confidence(p: Pair): real { p.confidence }

  function Hit(p: Pair): real { Outcome(p) }

  function Gap(p: Pair): real { p.confidence - Outcome(p) }

  function AbsGap(p: Pair): real { Abs(Gap(p)) }

  function SquaredGap(p: Pair): real { Gap(p) * Gap(p) }

  predicate InBucket(c: real, b: nat, k: nat)
    requires b < k
  {
    (b as real / k as real <= c < (b + 1) as real / k as real) || (b == k - 1 && c == 1.0)
  }

  function Members(pairs: seq<Pair>, b: nat, k: nat): seq<Pair>
    requires b < k
  {
    if pairs == [] then []
    else
      var last := pairs[|pairs| - 1];
      Members(pairs[..|pairs| - 1], b, k) + if InBucket(last.confidence, b, k) then [last] else []
  }

  function Mean(weight: Pair -> real, pairs: seq<Pair>): real
    requires pairs != []
  {
    Sum(weight, pairs) / |pairs| as real
  }

  function SumTo(f: nat -> real, n: nat): real {
    if n == 0 then 0.0 else SumTo(f, n - 1) + f(n - 1)
  }

  /** A bucket's share of the calibration error; an empty bucket has none. */
  function Share(pairs: seq<Pair>, members: seq<Pair>): real
    requires pairs != []
  {
    if members == [] then 0.0
    else |members| as real / |pairs| as real * Abs(Mean(Confidence, members) - Mean(Hit, members))
  }

  function Shares(pairs: seq<Pair>, k: nat): nat -> real
    requires pairs != []
  {
    (b: nat) => if b < k then Share(pairs, Members(pairs, b, k)) else 0.0
  }

  function Ece(pairs: seq<Pair>, k: nat): real
    requires pairs != []
  {
    SumTo(Shares(pairs, k), k)
  }

  datatype Bucket = Bucket(count: nat, avgConfidence: Option<real>, accuracy: Option<real>)

  datatype Report = Report(n: nat, ece: Option<real>, brier: Option<real>, buckets: seq<Bucket>)

  function Row(members: seq<Pair>): Bucket {
    if members == [] then Bucket(0, None, None)
    else Bucket(|members|, Some(Mean(Confidence, members)), Some(Mean(Hit, members)))
  }

  method CalibrationReport(pairs: seq<Pair>, nBuckets: int) returns (report: Report)
    ensures pairs == [] ==> report == Report(0, None, None, [])
    ensures pairs != [] ==> report.n == |pairs| && report.brier == Some(Mean(SquaredGap, pairs))
    ensures pairs != [] && nBuckets <= 0 ==> report.ece == Some(0.0) && report.buckets == []
    ensures pairs != [] && nBuckets > 0 ==>
      && report.ece == Some(Ece(pairs, nBuckets)) && |report.buckets| == nBuckets
      && forall b :: 0 <= b < nBuckets ==> report.buckets[b] == Row(Members(pairs, b, nBuckets))
  {
    if pairs == [] {
      return Report(0, None, None, []);
    }
    var brier := Sum(SquaredGap, pairs) / |pairs| as real;
    var buckets: seq<Bucket> := [];
    var ece := 0.0;
    ghost var shares := if nBuckets > 0 then Shares(pairs, nBuckets) else (b: nat) => 0.0;
    for b := 0 to if nBuckets > 0 then nBuckets else 0
      invariant |buckets| == b
      invariant ece == SumTo(shares, b)
      invariant forall i :: 0 <= i < b ==> buckets[i] == Row(Members(pairs, i, nBuckets))
    {
      var members := Members(pairs, b, nBuckets);
      if members == [] {
        buckets := buckets + [Bucket(0, None, None)];
        assert shares(b) == 0.0;
      } else {
        var average := Sum(Confidence, members) / |members| as real;
        var accuracy := Sum(Hit, members) / |members| as real;
        var share := |members| as real / |pairs| as real * Abs(average - accuracy);
        assert share == shares(b);
        ece := ece + share;
        buckets := buckets + [Bucket(|members|, Some(average), Some(accuracy))];
      }
    }
    report := Report(|pairs|, Some(ece), Some(brier), buckets);
  }

  // ── every confidence lies in exactly one bucket ──

  ghost predicate Probabilities(pairs: seq<Pair>) {
    forall i :: 0 <= i < |pairs| ==> 0.0 <= pairs[i].confidence <= 1.0
  }

  /** Position `scaled` of a confidence on a scale of k buckets falls in bucket b. */
  predicate Holds(scaled: real, b: nat, k: nat)
    requires b < k
  {
    (b as real <= scaled < (b + 1) as real) || (b == k - 1 && scaled == k as real)
  }

  lemma HoldsIff(c: real, scaled: real, b: nat, k: nat)
    requires b < k && scaled == c * k as real && (c == 1.0 <==> scaled == k as real)
    ensures InBucket(c, b, k) <==> Holds(scaled, b, k)
  {
    Divide(b as real, c, k as real);
    Divide((b + 1) as real, c, k as real);
  }

  lemma Scaled(c: real, k: nat) returns (scaled: real)
    requires 0.0 <= c <= 1.0 && k > 0
    ensures 0.0 <= scaled <= k as real
    ensures forall b: nat :: b < k ==> (InBucket(c, b, k) <==> Holds(scaled, b, k))
  {
    scaled := c * k as real;
    Monotone(0.0, c, k as real);
    Monotone(c, 1.0, k as real);
    if c < 1.0 {
      Strict(c, 1.0, k as real);
    }
    forall b: nat | b < k ensures InBucket(c, b, k) <==> Holds(scaled, b, k) {
      HoldsIff(c, scaled, b, k);
    }
  }

  lemma OnePlace(scaled: real, k: nat) returns (b: nat)
    requires 0.0 <= scaled <= k as real && k > 0
    ensures b < k && Holds(scaled, b, k)
    ensures forall other: nat :: other < k && Holds(scaled, other, k) ==> other == b
  {
    b := if scaled < k as real then scaled.Floor else k - 1;
  }

  lemma ExactlyOneBucket(c: real, k: nat) returns (b: nat)
    requires 0.0 <= c <= 1.0 && k > 0
    ensures b < k && InBucket(c, b, k)
    ensures forall other: nat :: other < k && InBucket(c, other, k) ==> other == b
  {
    var scaled := Scaled(c, k);
    b := OnePlace(scaled, k);
  }

  // ── so bucket sums add up to sample sums ──

  function BucketSums(weight: Pair -> real, pairs: seq<Pair>, k: nat): nat -> real {
    (b: nat) => if b < k then Sum(weight, Members(pairs, b, k)) else 0.0
  }

  lemma MembersAppend(weight: Pair -> real, pairs: seq<Pair>, p: Pair, b: nat, k: nat)
    requires b < k
    ensures Sum(weight, Members(pairs + [p], b, k))
            == Sum(weight, Members(pairs, b, k)) + if InBucket(p.confidence, b, k) then weight(p) else 0.0
  {
    assert (pairs + [p])[..|pairs + [p]| - 1] == pairs;
    var members := Members(pairs, b, k);
    assert (members + [p])[..|members + [p]| - 1] == members;
    assert members + [] == members;
  }

  lemma {:induction false} BucketSumAppend(weight: Pair -> real, pairs: seq<Pair>, p: Pair, home: nat, k: nat,
                                           upTo: nat)
    requires upTo <= k && home < k
    requires forall b: nat :: b < k ==> (InBucket(p.confidence, b, k) <==> b == home)
    ensures SumTo(BucketSums(weight, pairs + [p], k), upTo)
            == SumTo(BucketSums(weight, pairs, k), upTo) + if home < upTo then weight(p) else 0.0
  {
    if upTo > 0 {
      BucketSumAppend(weight, pairs, p, home, k, upTo - 1);
      MembersAppend(weight, pairs, p, upTo - 1, k);
    }
  }

  /** Whatever is summed, the buckets together sum the whole sample: none is lost and none counted twice. */
  lemma {:induction false} BucketsPartitionTheSample(weight: Pair -> real, pairs: seq<Pair>, k: nat)
    requires Probabilities(pairs) && k > 0
    ensures SumTo(BucketSums(weight, pairs, k), k) == Sum(weight, pairs)
  {
    if pairs == [] {
      EmptyBuckets(weight, k, k);
    } else {
      var before, last := pairs[..|pairs| - 1], pairs[|pairs| - 1];
      BucketsPartitionTheSample(weight, before, k);
      var home := ExactlyOneBucket(last.confidence, k);
      BucketSumAppend(weight, before, last, home, k, k);
      assert before + [last] == pairs;
    }
  }

  lemma {:induction false} EmptyBuckets(weight: Pair -> real, k: nat, upTo: nat)
    requires upTo <= k
    ensures SumTo(BucketSums(weight, [], k), upTo) == 0.0
  {
    if upTo > 0 {
      EmptyBuckets(weight, k, upTo - 1);
    }
  }

  // ── the calibration error between its bounds ──

  lemma {:induction false} GapIsDifference(pairs: seq<Pair>)
    ensures Sum(Gap, pairs) == Sum(Confidence, pairs) - Sum(Hit, pairs)
    ensures Abs(Sum(Gap, pairs)) <= Sum(AbsGap, pairs)
  {
    if pairs != [] {
      GapIsDifference(pairs[..|pairs| - 1]);
    }
  }

  /** A bucket's share, scaled by the sample, is the absolute sum of its gaps. */
  lemma ShareIsAbsoluteGap(pairs: seq<Pair>, members: seq<Pair>)
    requires pairs != []
    ensures Share(pairs, members) * |pairs| as real == Abs(Sum(Gap, members))
  {
    if members == [] {
      assert Share(pairs, members) == 0.0;
    } else {
      var conf, hit, m, n := Sum(Confidence, members), Sum(Hit, members), |members| as real, |pairs| as real;
      assert Share(pairs, members) == m / n * Abs(conf / m - hit / m);
      ShareScaled(conf, hit, m, n);
      GapIsDifference(members);
    }
  }

  ghost predicate Scales(share: nat -> real, scaled: nat -> real, n: real, b: nat) {
    share(b) * n == scaled(b)
  }

  lemma {:induction false} SumScaled(share: nat -> real, scaled: nat -> real, n: real, k: nat)
    requires forall b: nat :: b < k ==> Scales(share, scaled, n, b)
    ensures SumTo(share, k) * n == SumTo(scaled, k)
  {
    if k > 0 {
      SumScaled(share, scaled, n, k - 1);
      assert Scales(share, scaled, n, k - 1);
      Distribute(SumTo(share, k - 1), share(k - 1), n);
    }
  }

  lemma {:induction false} SumsBetween(gap: nat -> real, size: nat -> real, bound: nat -> real, k: nat)
    requires forall b: nat :: b < k ==> Abs(gap(b)) == size(b) <= bound(b)
    ensures Abs(SumTo(gap, k)) <= SumTo(size, k) <= SumTo(bound, k)
  {
    if k > 0 {
      SumsBetween(gap, size, bound, k - 1);
    }
  }

  function AbsOf(f: nat -> real): nat -> real {
    (b: nat) => Abs(f(b))
  }

  lemma ShareScales(pairs: seq<Pair>, k: nat, b: nat)
    requires pairs != [] && b < k
    ensures Scales(Shares(pairs, k), AbsOf(BucketSums(Gap, pairs, k)), |pairs| as real, b)
  {
    ShareIsAbsoluteGap(pairs, Members(pairs, b, k));
  }

  lemma EceScaled(pairs: seq<Pair>, k: nat)
    requires pairs != []
    ensures Ece(pairs, k) * |pairs| as real == SumTo(AbsOf(BucketSums(Gap, pairs, k)), k)
  {
    var share, scaled, n := Shares(pairs, k), AbsOf(BucketSums(Gap, pairs, k)), |pairs| as real;
    forall b: nat | b < k ensures Scales(share, scaled, n, b) {
      ShareScales(pairs, k, b);
    }
    SumScaled(share, scaled, n, k);
  }

  lemma EceBetween(pairs: seq<Pair>, k: nat)
    requires Probabilities(pairs) && pairs != [] && k > 0
    ensures Abs(Sum(Gap, pairs)) <= Ece(pairs, k) * |pairs| as real <= Sum(AbsGap, pairs)
  {
    var gap, bound := BucketSums(Gap, pairs, k), BucketSums(AbsGap, pairs, k);
    forall b: nat | b < k ensures Abs(gap(b)) == AbsOf(gap)(b) <= bound(b) {
      GapIsDifference(Members(pairs, b, k));
    }
    SumsBetween(gap, AbsOf(gap), bound, k);
    EceScaled(pairs, k);
    BucketsPartitionTheSample(Gap, pairs, k);
    BucketsPartitionTheSample(AbsGap, pairs, k);
  }

  lemma {:induction false} SquareOfSum(pairs: seq<Pair>)
    ensures Sum(AbsGap, pairs) >= 0.0
    ensures Sum(AbsGap, pairs) * Sum(AbsGap, pairs) <= |pairs| as real * Sum(SquaredGap, pairs)
  {
    if pairs != [] {
      var before, last := pairs[..|pairs| - 1], pairs[|pairs| - 1];
      SquareOfSum(before);
      var s, q, x := Sum(AbsGap, before), Sum(SquaredGap, before), AbsGap(last);
      AbsSquare(Gap(last));
      if before == [] {
        assert s == 0.0 && q == 0.0;
      } else {
        CauchyStep(s, q, x, |before| as real);
        assert |pairs| as real == |before| as real + 1.0;
      }
    }
  }

  lemma {:induction false} SquaresAtMostOne(pairs: seq<Pair>)
    requires Probabilities(pairs)
    ensures Sum(SquaredGap, pairs) <= |pairs| as real
  {
    if pairs != [] {
      var last := pairs[|pairs| - 1];
      SquaresAtMostOne(pairs[..|pairs| - 1]);
      AbsSquare(Gap(last));
      SquareMonotone(AbsGap(last), 1.0);
    }
  }

  lemma MeansAround(pairs: seq<Pair>, middle: real)
    requires pairs != []
    requires Abs(Sum(Gap, pairs)) <= middle * |pairs| as real <= Sum(AbsGap, pairs)
    ensures Abs(Mean(Confidence, pairs) - Mean(Hit, pairs)) <= middle <= Mean(AbsGap, pairs)
  {
    GapIsDifference(pairs);
    MeansBetween(Sum(Confidence, pairs), Sum(Hit, pairs), Sum(AbsGap, pairs), middle, |pairs| as real);
  }

  /** |mean confidence - accuracy| <= ECE <= mean |confidence - outcome|, whatever the buckets. */
  lemma EceBounds(pairs: seq<Pair>, k: nat)
    requires Probabilities(pairs) && pairs != [] && k > 0
    ensures Abs(Mean(Confidence, pairs) - Mean(Hit, pairs)) <= Ece(pairs, k) <= Mean(AbsGap, pairs)
  {
    hide *;
    EceBetween(pairs, k);
    MeansAround(pairs, Ece(pairs, k));
  }

  lemma BelowBrier(pairs: seq<Pair>, ece: real)
    requires Probabilities(pairs) && pairs != [] && 0.0 <= ece <= Mean(AbsGap, pairs)
    ensures ece * ece <= Mean(SquaredGap, pairs) <= 1.0
  {
    SquareMonotone(ece, Mean(AbsGap, pairs));
    SquareOfSum(pairs);
    MeanSquare(Sum(AbsGap, pairs), Sum(SquaredGap, pairs), |pairs| as real);
    SquaresAtMostOne(pairs);
    Divide(Sum(SquaredGap, pairs), 1.0, |pairs| as real);
  }

  /** ECE^2 <= Brier <= 1. */
  lemma EceWithinBrier(pairs: seq<Pair>, k: nat)
    requires Probabilities(pairs) && pairs != [] && k > 0
    ensures 0.0 <= Ece(pairs, k)
    ensures Ece(pairs, k) * Ece(pairs, k) <= Mean(SquaredGap, pairs) <= 1.0
  {
    EceBounds(pairs, k);
    BelowBrier(pairs, Ece(pairs, k));
  }
}
