/** What precision, recall and F1 mean of two label lists (evals/metrics.py). */
module ClassificationLaws {
  import opened Reals
  import opened Classification

  // ── the counts ──

  ghost function Positions(yTrue: seq<Label>, yPred: seq<Label>, c: Label, truth: bool, predicted: bool, n: nat)
    : set<int>
    requires n <= |yTrue| && n <= |yPred|
  {
    set i | 0 <= i < n && (yTrue[i] == c <==> truth) && (yPred[i] == c <==> predicted)
  }

  lemma PositionsGrow(yTrue: seq<Label>, yPred: seq<Label>, c: Label, truth: bool, predicted: bool, n: nat)
    requires n < |yTrue| && n < |yPred|
    ensures var before := Positions(yTrue, yPred, c, truth, predicted, n);
      && n !in before
      && Positions(yTrue, yPred, c, truth, predicted, n + 1)
         == if (yTrue[n] == c <==> truth) && (yPred[n] == c <==> predicted) then before + {n} else before
  {
  }

  /** The counting pass counts these positions. */
  lemma {:induction false} CountIsCardinality(yTrue: seq<Label>, yPred: seq<Label>, c: Label, truth: bool,
                                              predicted: bool, n: nat)
    requires n <= |yTrue| && n <= |yPred|
    ensures CountWhere(yTrue, yPred, c, truth, predicted, n) == |Positions(yTrue, yPred, c, truth, predicted, n)|
  {
    if n > 0 {
      CountIsCardinality(yTrue, yPred, c, truth, predicted, n - 1);
      PositionsGrow(yTrue, yPred, c, truth, predicted, n - 1);
      hide Positions;
    }
  }

  lemma {:induction false} CountSwaps(yTrue: seq<Label>, yPred: seq<Label>, c: Label, truth: bool, predicted: bool,
                                      n: nat)
    requires n <= |yTrue| && n <= |yPred|
    ensures CountWhere(yTrue, yPred, c, truth, predicted, n) == CountWhere(yPred, yTrue, c, predicted, truth, n)
  {
    if n > 0 {
      CountSwaps(yTrue, yPred, c, truth, predicted, n - 1);
    }
  }

  /** Precision is recall with truth and prediction exchanged, and F1 does not tell them apart. */
  lemma PrecisionIsSwappedRecall(yTrue: seq<Label>, yPred: seq<Label>, c: Label)
    ensures Precision(yTrue, yPred, c) == Recall(yPred, yTrue, c)
    ensures F1(yTrue, yPred, c) == F1(yPred, yTrue, c)
  {
    var n := Zipped(yTrue, yPred);
    CountSwaps(yTrue, yPred, c, true, true, n);
    CountSwaps(yTrue, yPred, c, false, true, n);
    CountSwaps(yTrue, yPred, c, true, false, n);
    var p, r := Precision(yTrue, yPred, c), Recall(yTrue, yPred, c);
    assert p == Recall(yPred, yTrue, c) && r == Precision(yPred, yTrue, c);
    SameProduct(p, r);
  }

  lemma SameProduct(p: real, r: real)
    ensures Harmonic(p, r) == Harmonic(r, p)
  {
    Associate(2.0, p, r);
    Associate(2.0, r, p);
    Commute(p, r);
  }

  /** Precision is the share of a class's predictions that hit, and recall that of its occurrences, among the
      positions that have both. */
  lemma SharesOfHits(yTrue: seq<Label>, yPred: seq<Label>, c: Label)
    ensures var n := Zipped(yTrue, yPred); var hits := TruePositives(yTrue, yPred, c) as real;
      && Precision(yTrue, yPred, c) * Occurrences(yPred[..n], c) as real == hits
      && Recall(yTrue, yPred, c) * Occurrences(yTrue[..n], c) as real == hits
  {
    PredictedSplit(yTrue, yPred, c);
    hide TruePositives, FalsePositives, FalseNegatives, Occurrences, AtLeastOne;
    var hits := TruePositives(yTrue, yPred, c);
    QuotientTimes(hits, hits + FalsePositives(yTrue, yPred, c));
    QuotientTimes(hits, hits + FalseNegatives(yTrue, yPred, c));
  }

  lemma PredictedSplit(yTrue: seq<Label>, yPred: seq<Label>, c: Label)
    ensures var n, hits := Zipped(yTrue, yPred), TruePositives(yTrue, yPred, c);
      && hits + FalsePositives(yTrue, yPred, c) == Occurrences(yPred[..n], c)
      && hits + FalseNegatives(yTrue, yPred, c) == Occurrences(yTrue[..n], c)
  {
    var n := Zipped(yTrue, yPred);
    TruthSplits(yTrue, yPred, c, n);
    TruthSplits(yPred, yTrue, c, n);
    CountSwaps(yTrue, yPred, c, true, true, n);
    CountSwaps(yTrue, yPred, c, false, true, n);
  }

  // ── F1 in counts ──

  /** p * a == r * b == hits makes 2 p r (a + b) == 2 hits (p + r). */
  lemma TwoShares(p: real, r: real, a: real, b: real, hits: real)
    requires p * a == hits && r * b == hits
    ensures 2.0 * p * r * (a + b) == 2.0 * hits * (p + r)
  {
    assert p * r * a == hits * r by {
      Associate(p, r, a);
      Commute(r, a);
      Associate(p, a, r);
    }
    assert p * r * b == hits * p by {
      Associate(p, r, b);
      Commute(p, hits);
    }
    var pr := p * r;
    Associate(2.0, p, r);
    assert 2.0 * p * r == 2.0 * pr;
    Commute(pr, a + b);
    Distribute(a, b, pr);
    Commute(a, pr);
    Commute(b, pr);
    Commute(hits, p + r);
    Distribute(p, r, hits);
    Commute(hits, p);
    Commute(hits, r);
    Associate(2.0, pr, a + b);
    Associate(2.0, hits, p + r);
  }

  lemma Cancel(x: real, y: real, k: real)
    requires k != 0.0
    ensures x * k == y * k <==> x == y
  {
    if x * k == y * k {
      Distribute(x, y, k);
      assert (x - y) * k == 0.0;
      assert x - y == 0.0;
    }
  }

  /** Dividing by anything but p + r misses the count form. */
  lemma DiceIff(p: real, r: real, a: real, b: real, hits: real, d: real)
    requires p * a == hits && r * b == hits && hits > 0.0 && d > 0.0
    ensures 2.0 * p * r / d * (a + b) == 2.0 * hits <==> p + r == d
  {
    var f := 2.0 * p * r / d;
    TwoShares(p, r, a, b, hits);
    Quotient(2.0 * p * r, d);
    assert f * (a + b) * d == 2.0 * hits * (p + r) by {
      Associate(f, a + b, d);
      Commute(a + b, d);
      Associate(f, d, a + b);
    }
    Cancel(f * (a + b), 2.0 * hits, d);
    Commute(2.0 * hits, p + r);
    Commute(2.0 * hits, d);
    Cancel(p + r, d, 2.0 * hits);
  }

  lemma SharesAreShares(hits: nat, others: nat)
    requires hits > 0
    ensures var p := hits as real / AtLeastOne(hits + others); p > 0.0 && p * (hits + others) as real == hits as real
  {
    QuotientTimes(hits, hits + others);
  }

  /** F1 is twice the hits over twice the hits plus all misses, exactly as long as precision and recall together
      stay above the guard against division by zero (or nothing is hit). */
  lemma F1InCountsIff(yTrue: seq<Label>, yPred: seq<Label>, c: Label)
    ensures var hits, misses := TruePositives(yTrue, yPred, c),
                                FalsePositives(yTrue, yPred, c) + FalseNegatives(yTrue, yPred, c);
      F1(yTrue, yPred, c) * (2 * hits + misses) as real == 2.0 * hits as real
      <==> hits == 0 || Precision(yTrue, yPred, c) + Recall(yTrue, yPred, c) >= 0.000000001
  {
    var hits := TruePositives(yTrue, yPred, c);
    var fp, fn := FalsePositives(yTrue, yPred, c), FalseNegatives(yTrue, yPred, c);
    hide TruePositives, FalsePositives, FalseNegatives;
    HarmonicInCountsIff(hits, fp, fn);
    assert 2 * hits + (fp + fn) == 2 * hits + fp + fn;
    hide AtLeastOne, Harmonic;
  }

  lemma HarmonicInCountsIff(hits: nat, fp: nat, fn: nat)
    ensures var p, r := hits as real / AtLeastOne(hits + fp), hits as real / AtLeastOne(hits + fn);
      Harmonic(p, r) * (2 * hits + fp + fn) as real == 2.0 * hits as real <==> hits == 0 || p + r >= 0.000000001
  {
    var p, r := hits as real / AtLeastOne(hits + fp), hits as real / AtLeastOne(hits + fn);
    if hits == 0 {
      QuotientTimes(0, fp);
      QuotientTimes(0, fn);
      NothingToShare(2 * hits + fp + fn);
    } else {
      SharesAreShares(hits, fp);
      SharesAreShares(hits, fn);
      hide AtLeastOne;
      var a, b, d := (hits + fp) as real, (hits + fn) as real, Max(p + r, 0.000000001);
      assert (2 * hits + fp + fn) as real == a + b;
      DiceIff(p, r, a, b, hits as real, d);
    }
  }

  lemma NothingToShare(n: nat)
    ensures Harmonic(0.0, 0.0) * n as real == 0.0
  {
    assert Harmonic(0.0, 0.0) == 0.0;
  }

  // ── perfect predictions ──

  lemma {:induction false} EqualListsNeverMiss(ys: seq<Label>, c: Label, n: nat)
    requires n <= |ys|
    ensures CountWhere(ys, ys, c, true, false, n) == 0 && CountWhere(ys, ys, c, false, true, n) == 0
    ensures Matches(ys, ys, n) == n
    ensures (exists i :: 0 <= i < n && ys[i] == c) ==> CountWhere(ys, ys, c, true, true, n) > 0
  {
    if n > 0 {
      EqualListsNeverMiss(ys, c, n - 1);
    }
  }

  lemma PerfectClass(ys: seq<Label>, c: Label)
    requires c in ys
    ensures Precision(ys, ys, c) == 1.0 && Recall(ys, ys, c) == 1.0 && F1(ys, ys, c) == 1.0
  {
    EqualListsNeverMiss(ys, c, |ys|);
    var i :| 0 <= i < |ys| && ys[i] == c;
    var hits := TruePositives(ys, ys, c) as real;
    assert hits / hits == 1.0 by {
      Quotient(hits, hits);
    }
    assert Precision(ys, ys, c) == 1.0 && Recall(ys, ys, c) == 1.0;
    assert Harmonic(1.0, 1.0) == 1.0;
    hide CountWhere, Precision, Recall, TruePositives;
  }

  lemma PerfectMetric(metric: Metric, ys: seq<Label>)
    requires ys != [] && forall c :: c in ys ==> metric(ys, ys, c) == 1.0
    ensures Weighted(metric, ys, ys) == 1.0
  {
    PerfectSum(metric, ys);
    hide SumOver, Weigh, Classes;
    var n := |ys| as real;
    assert Weighted(metric, ys, ys) == n / n;
    assert n / n == 1.0 by {
      Quotient(n, n);
    }
  }

  lemma PerfectSum(metric: Metric, ys: seq<Label>)
    requires forall c :: c in ys ==> metric(ys, ys, c) == 1.0
    ensures SumOver(Weigh(metric, ys, ys), Classes(ys, ys)) == |ys| as real
  {
    var f, g, s := Weigh(metric, ys, ys), OccursIn(ys), Classes(ys, ys);
    forall c | c in s ensures Agrees(f, g, c) {
      var n := Occurrences(ys, c) as real;
      assert metric(ys, ys, c) == 1.0;
      assert f(c) == 1.0 * n && g(c) == n;
    }
    SumOverAgree(f, g, s);
    OccurrencesAddUp(ys, s);
  }

  /** Predictions equal to the truth score 1 throughout. */
  lemma PerfectPredictions(ys: seq<Label>)
    requires ys != []
    ensures Accuracy(ys, ys) == 1.0 && Weighted(Precision, ys, ys) == 1.0
    ensures Weighted(Recall, ys, ys) == 1.0 && Weighted(F1, ys, ys) == 1.0
  {
    EqualListsNeverMiss(ys, ys[0], |ys|);
    forall c | c in ys ensures Precision(ys, ys, c) == 1.0 && Recall(ys, ys, c) == 1.0 && F1(ys, ys, c) == 1.0 {
      PerfectClass(ys, c);
    }
    assert Accuracy(ys, ys) == |ys| as real / |ys| as real;
    Quotient(|ys| as real, |ys| as real);
    assert Accuracy(ys, ys) == 1.0;
    hide Weighted, Precision, Recall, F1, Accuracy, Matches, CountWhere;
    PerfectMetric(Precision, ys);
    PerfectMetric(Recall, ys);
    PerfectMetric(F1, ys);
  }
}
