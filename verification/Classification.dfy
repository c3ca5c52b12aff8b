/** Weighted multi-class precision, recall and F1, before rounding (evals/metrics.py). */
module Classification {
  import opened Reals

  type Label = string

  /** zip(..., strict=False): the shorter list decides. */
  function Zipped(yTrue: seq<Label>, yPred: seq<Label>): nat {
    if |yTrue| <= |yPred| then |yTrue| else |yPred|
  }

  /** Positions below n where the truth is c (if wanted) and the prediction is c (if wanted). */
  function CountWhere(yTrue: seq<Label>, yPred: seq<Label>, c: Label, truth: bool, predicted: bool, n: nat): nat
    requires n <= |yTrue| && n <= |yPred|
  {
    if n == 0 then 0
    else CountWhere(yTrue, yPred, c, truth, predicted, n - 1)
         + if (yTrue[n - 1] == c) == truth && (yPred[n - 1] == c) == predicted then 1 else 0
  }

  function TruePositives(yTrue: seq<Label>, yPred: seq<Label>, c: Label): nat {
    CountWhere(yTrue, yPred, c, true, true, Zipped(yTrue, yPred))
  }

  function FalsePositives(yTrue: seq<Label>, yPred: seq<Label>, c: Label): nat {
    CountWhere(yTrue, yPred, c, false, true, Zipped(yTrue, yPred))
  }

  function FalseNegatives(yTrue: seq<Label>, yPred: seq<Label>, c: Label): nat {
    CountWhere(yTrue, yPred, c, true, false, Zipped(yTrue, yPred))
  }

  /** y_true.count(c) */
  function Occurrences(ys: seq<Label>, c: Label): nat {
    if ys == [] then 0 else Occurrences(ys[..|ys| - 1], c) + if ys[|ys| - 1] == c then 1 else 0
  }

  function Matches(yTrue: seq<Label>, yPred: seq<Label>, n: nat): nat
    requires n <= |yTrue| && n <= |yPred|
  {
    if n == 0 then 0 else Matches(yTrue, yPred, n - 1) + if yTrue[n - 1] == yPred[n - 1] then 1 else 0
  }

  function AtLeastOne(n: nat): (r: real)
    ensures r >= 1.0
  {
    if n == 0 then 1.0 else n as real
  }

  function Precision(yTrue: seq<Label>, yPred: seq<Label>, c: Label): real {
    var hits := TruePositives(yTrue, yPred, c);
    hits as real / AtLeastOne(hits + FalsePositives(yTrue, yPred, c))
  }

  function Recall(yTrue: seq<Label>, yPred: seq<Label>, c: Label): real {
    var hits := TruePositives(yTrue, yPred, c);
    hits as real / AtLeastOne(hits + FalseNegatives(yTrue, yPred, c))
  }

  function Harmonic(p: real, r: real): real {
    2.0 * p * r / Max(p + r, 0.000000001)
  }

  function F1(yTrue: seq<Label>, yPred: seq<Label>, c: Label): real {
    Harmonic(Precision(yTrue, yPred, c), Recall(yTrue, yPred, c))
  }

  function Classes(yTrue: seq<Label>, yPred: seq<Label>): set<Label> {
    (set y | y in yTrue) + (set y | y in yPred)
  }

  // ── sums over a set of classes, in whatever order it is visited ──

  ghost function SumOver(f: Label -> real, s: set<Label>): real {
    if s == {} then 0.0
    else
      var c :| c in s;
      f(c) + SumOver(f, s - {c})
  }

  lemma {:induction false} SumOverPick(f: Label -> real, s: set<Label>, c: Label)
    requires c in s
    ensures SumOver(f, s) == f(c) + SumOver(f, s - {c})
    decreases s
  {
    var first :| first in s && SumOver(f, s) == f(first) + SumOver(f, s - {first});
    if first != c {
      SumOverPick(f, s - {first}, c);
      SumOverPick(f, s - {c}, first);
      assert s - {first} - {c} == s - {c} - {first};
    }
  }

  ghost predicate Agrees(f: Label -> real, g: Label -> real, c: Label) { f(c) == g(c) }

  lemma {:induction false} SumOverAgree(f: Label -> real, g: Label -> real, s: set<Label>)
    requires forall c :: c in s ==> Agrees(f, g, c)
    ensures SumOver(f, s) == SumOver(g, s)
    decreases s
  {
    if s != {} {
      var c :| c in s;
      SumOverPick(f, s, c);
      SumOverPick(g, s, c);
      assert Agrees(f, g, c);
      SumOverAgree(f, g, s - {c});
    }
  }

  /** Raising one summand raises the sum by as much. */
  lemma SumOverBump(f: Label -> real, g: Label -> real, s: set<Label>, c: Label, by_: real)
    requires c in s && f(c) == g(c) + by_
    requires forall d :: d in s && d != c ==> Agrees(f, g, d)
    ensures SumOver(f, s) == SumOver(g, s) + by_
  {
    SumOverPick(f, s, c);
    SumOverPick(g, s, c);
    SumOverAgree(f, g, s - {c});
  }

  ghost predicate Dominated(f: Label -> real, g: Label -> real, c: Label) { 0.0 <= f(c) <= g(c) }

  lemma {:induction false} SumOverDominated(f: Label -> real, g: Label -> real, s: set<Label>)
    requires forall c :: c in s ==> Dominated(f, g, c)
    ensures 0.0 <= SumOver(f, s) <= SumOver(g, s)
    decreases s
  {
    if s != {} {
      var c :| c in s;
      SumOverPick(f, s, c);
      SumOverPick(g, s, c);
      assert Dominated(f, g, c);
      SumOverDominated(f, g, s - {c});
    }
  }

  // ── double counting ──

  function HitsBelow(yTrue: seq<Label>, yPred: seq<Label>, n: nat): Label -> real
    requires n <= |yTrue| && n <= |yPred|
  {
    (c: Label) => CountWhere(yTrue, yPred, c, true, true, n) as real
  }

  function OccursIn(ys: seq<Label>): Label -> real {
    (c: Label) => Occurrences(ys, c) as real
  }

  function Zero(): Label -> real {
    (c: Label) => 0.0
  }

  lemma {:induction false} SumOfZero(s: set<Label>)
    ensures SumOver(Zero(), s) == 0.0
    decreases s
  {
    if s != {} {
      var c :| c in s;
      SumOverPick(Zero(), s, c);
      SumOfZero(s - {c});
    }
  }

  /** Every matching position is a true positive of exactly one class. */
  lemma {:induction false} HitsAreMatches(yTrue: seq<Label>, yPred: seq<Label>, n: nat, s: set<Label>)
    requires n <= |yTrue| && n <= |yPred| && Classes(yTrue, yPred) <= s
    ensures SumOver(HitsBelow(yTrue, yPred, n), s) == Matches(yTrue, yPred, n) as real
  {
    var f := HitsBelow(yTrue, yPred, n);
    if n == 0 {
      forall c | c in s ensures Agrees(f, Zero(), c) {}
      SumOverAgree(f, Zero(), s);
      SumOfZero(s);
    } else {
      var g := HitsBelow(yTrue, yPred, n - 1);
      HitsAreMatches(yTrue, yPred, n - 1, s);
      var c := yTrue[n - 1];
      forall d | d in s && d != c ensures Agrees(f, g, d) {}
      SumOverBump(f, g, s, c, if c == yPred[n - 1] then 1.0 else 0.0);
    }
  }

  lemma {:induction false} OccurrencesAddUp(ys: seq<Label>, s: set<Label>)
    requires forall y :: y in ys ==> y in s
    ensures SumOver(OccursIn(ys), s) == |ys| as real
  {
    var f := OccursIn(ys);
    if ys == [] {
      forall c | c in s ensures Agrees(f, Zero(), c) {}
      SumOverAgree(f, Zero(), s);
      SumOfZero(s);
    } else {
      var before, c := ys[..|ys| - 1], ys[|ys| - 1];
      var g := OccursIn(before);
      OccurrencesAddUp(before, s);
      forall d | d in s && d != c ensures Agrees(f, g, d) {}
      SumOverBump(f, g, s, c, 1.0);
    }
  }

  // ── the statistics ──

  datatype Stats = Stats(accuracy: real, precision: real, recall: real, f1: real)

  type Metric = (seq<Label>, seq<Label>, Label) -> real

  function Weigh(metric: Metric, yTrue: seq<Label>, yPred: seq<Label>): Label -> real {
    (c: Label) => metric(yTrue, yPred, c) * Occurrences(yTrue, c) as real
  }

  ghost function Weighted(metric: Metric, yTrue: seq<Label>, yPred: seq<Label>): real {
    SumOver(Weigh(metric, yTrue, yPred), Classes(yTrue, yPred)) / AtLeastOne(|yTrue|)
  }

  function Accuracy(yTrue: seq<Label>, yPred: seq<Label>): real {
    Matches(yTrue, yPred, Zipped(yTrue, yPred)) as real / AtLeastOne(|yTrue|)
  }

  lemma SumOverRest(f: Label -> real, all: set<Label>, rest: set<Label>, c: Label)
    requires c in rest && rest <= all
    ensures SumOver(f, all - (rest - {c})) == SumOver(f, all - rest) + f(c)
  {
    SumOverPick(f, all - (rest - {c}), c);
    assert all - (rest - {c}) - {c} == all - rest;
  }

  /** The row of one class: its three metrics, and its weight. */
  method ClassRow(yTrue: seq<Label>, yPred: seq<Label>, c: Label) returns (p: real, r: real, f: real, w: nat)
    ensures p == Precision(yTrue, yPred, c) && r == Recall(yTrue, yPred, c) && f == F1(yTrue, yPred, c)
    ensures w == Occurrences(yTrue, c)
  {
    var tp, fp, fn := 0, 0, 0;
    w := Occurrences(yTrue, c);
    for i := 0 to Zipped(yTrue, yPred)
      invariant tp == CountWhere(yTrue, yPred, c, true, true, i)
      invariant fp == CountWhere(yTrue, yPred, c, false, true, i)
      invariant fn == CountWhere(yTrue, yPred, c, true, false, i)
    {
      if yTrue[i] == c && yPred[i] == c {
        tp := tp + 1;
      } else if yPred[i] == c {
        fp := fp + 1;
      } else if yTrue[i] == c {
        fn := fn + 1;
      }
    }
    p := tp as real / AtLeastOne(tp + fp);
    r := tp as real / AtLeastOne(tp + fn);
    f := Harmonic(p, r);
  }

  /** What one class adds to a weighted sum. */
  method Contribution(x: real, w: nat, ghost metric: Metric, ghost yTrue: seq<Label>, ghost yPred: seq<Label>,
                      ghost c: Label)
    returns (weighed: real)
    requires x == metric(yTrue, yPred, c) && w == Occurrences(yTrue, c)
    ensures weighed == Weigh(metric, yTrue, yPred)(c)
  {
    weighed := x * w as real;
  }

  method WeightedSums(yTrue: seq<Label>, yPred: seq<Label>, ghost wp: Label -> real, ghost wr: Label -> real,
                      ghost wf: Label -> real)
    returns (sumP: real, sumR: real, sumF: real, total: nat)
    requires wp == Weigh(Precision, yTrue, yPred) && wr == Weigh(Recall, yTrue, yPred) && wf == Weigh(F1, yTrue, yPred)
    ensures var s := Classes(yTrue, yPred); sumP == SumOver(wp, s) && sumR == SumOver(wr, s) && sumF == SumOver(wf, s)
    ensures total == |yTrue|
  {
    var classes := Classes(yTrue, yPred);
    ghost var occurs := OccursIn(yTrue);
    var rest := classes;
    sumP, sumR, sumF, total := 0.0, 0.0, 0.0, 0;
    while rest != {}
      invariant rest <= classes
      invariant total as real == SumOver(occurs, classes - rest)
      invariant sumP == SumOver(wp, classes - rest)
      invariant sumR == SumOver(wr, classes - rest)
      invariant sumF == SumOver(wf, classes - rest)
      decreases rest
    {
      var c :| c in rest;
      var p, r, f, w := ClassRow(yTrue, yPred, c);
      p := Contribution(p, w, Precision, yTrue, yPred, c);
      r := Contribution(r, w, Recall, yTrue, yPred, c);
      f := Contribution(f, w, F1, yTrue, yPred, c);
      SumOverRest(occurs, classes, rest, c);
      SumOverRest(wp, classes, rest, c);
      SumOverRest(wr, classes, rest, c);
      SumOverRest(wf, classes, rest, c);
      sumP, sumR, sumF, total := sumP + p, sumR + r, sumF + f, total + w;
      rest := rest - {c};
    }
    assert classes - {} == classes;
    OccurrencesAddUp(yTrue, classes);
  }

  method ClassificationStats(yTrue: seq<Label>, yPred: seq<Label>) returns (stats: Stats)
    ensures yTrue == [] && yPred == [] ==> stats == Stats(0.0, 0.0, 0.0, 0.0)
    ensures stats == Stats(Accuracy(yTrue, yPred), Weighted(Precision, yTrue, yPred),
                           Weighted(Recall, yTrue, yPred), Weighted(F1, yTrue, yPred))
  {
    if yTrue == [] && yPred == [] {
      assert Classes(yTrue, yPred) == {};
      return Stats(0.0, 0.0, 0.0, 0.0);
    }
    var sumP, sumR, sumF, total := WeightedSums(yTrue, yPred, Weigh(Precision, yTrue, yPred),
                                                Weigh(Recall, yTrue, yPred), Weigh(F1, yTrue, yPred));
    var matches := Matches(yTrue, yPred, Zipped(yTrue, yPred));
    stats := Stats(matches as real / AtLeastOne(|yTrue|), sumP / AtLeastOne(total), sumR / AtLeastOne(total),
                   sumF / AtLeastOne(total));
  }

  lemma {:induction false} TruthSplits(yTrue: seq<Label>, yPred: seq<Label>, c: Label, n: nat)
    requires n <= |yTrue| && n <= |yPred|
    ensures CountWhere(yTrue, yPred, c, true, true, n) + CountWhere(yTrue, yPred, c, true, false, n)
            == Occurrences(yTrue[..n], c)
  {
    if n > 0 {
      TruthSplits(yTrue, yPred, c, n - 1);
      assert yTrue[..n][..n - 1] == yTrue[..n - 1];
    }
  }

  lemma QuotientTimes(x: nat, n: nat)
    requires x <= n
    ensures x as real / AtLeastOne(n) * n as real == x as real
    ensures 0.0 <= x as real / AtLeastOne(n) <= 1.0
  {
    if n > 0 {
      Quotient(x as real, n as real);
      Divide(x as real, 1.0, n as real);
      Divide(x as real, 0.0, n as real);
    }
  }

  /** Weighted recall is accuracy whenever every true label has a prediction. */
  lemma RecallIsAccuracy(yTrue: seq<Label>, yPred: seq<Label>)
    requires |yTrue| <= |yPred|
    ensures Weighted(Recall, yTrue, yPred) == Accuracy(yTrue, yPred)
  {
    var f, g, s := Weigh(Recall, yTrue, yPred), HitsBelow(yTrue, yPred, |yTrue|), Classes(yTrue, yPred);
    assert yTrue[..|yTrue|] == yTrue;
    forall c | c in s ensures Agrees(f, g, c) {
      TruthSplits(yTrue, yPred, c, |yTrue|);
      QuotientTimes(TruePositives(yTrue, yPred, c), Occurrences(yTrue, c));
    }
    SumOverAgree(f, g, s);
    HitsAreMatches(yTrue, yPred, |yTrue|, s);
  }

  // ── and exactly when, if some true labels have no prediction ──

  lemma {:induction false} OccurrencesBeyond(ys: seq<Label>, k: nat, c: Label)
    requires k <= |ys|
    ensures Occurrences(ys[..k], c) <= Occurrences(ys, c)
    ensures Occurrences(ys[..k], c) == Occurrences(ys, c) <==> c !in ys[k..]
  {
    if k == |ys| {
      assert ys[..k] == ys;
    } else {
      var before, last := ys[..|ys| - 1], ys[|ys| - 1];
      OccurrencesBeyond(before, k, c);
      assert before[..k] == ys[..k];
      assert ys[k..] == before[k..] + [last];
    }
  }

  lemma {:induction false} SumOverTight(f: Label -> real, g: Label -> real, s: set<Label>)
    requires forall c :: c in s ==> Dominated(f, g, c)
    ensures SumOver(f, s) == SumOver(g, s) <==> forall c :: c in s ==> Agrees(f, g, c)
    decreases s
  {
    if forall c :: c in s ==> Agrees(f, g, c) {
      SumOverAgree(f, g, s);
    } else {
      var c :| c in s && !Agrees(f, g, c);
      SumOverPick(f, s, c);
      SumOverPick(g, s, c);
      assert Dominated(f, g, c);
      SumOverDominated(f, g, s - {c});
    }
  }

  /** hits / seen * all against hits, for hits <= seen <= all. */
  lemma ScaledUp(hits: real, seen: real, all: real)
    requires 0.0 <= hits <= seen <= all && seen > 0.0
    ensures hits <= hits / seen * all
    ensures hits == hits / seen * all <==> hits == 0.0 || seen == all
  {
    var q := hits / seen;
    assert q * seen == hits && 0.0 <= q by {
      Quotient(hits, seen);
      Divide(hits, 0.0, seen);
    }
    Commute(q, seen);
    Commute(q, all);
    Monotone(seen, all, q);
    if hits != 0.0 && seen != all {
      assert q > 0.0;
      Strict(seen, all, q);
    }
  }

  function Share(hits: nat, seen: nat, all: nat): real {
    hits as real / AtLeastOne(seen) * all as real
  }

  lemma ShareIsAtLeastHits(hits: nat, seen: nat, all: nat)
    requires hits <= seen <= all
    ensures hits as real <= Share(hits, seen, all)
    ensures hits as real == Share(hits, seen, all) <==> hits == 0 || seen == all
  {
    if hits == 0 {
      QuotientTimes(0, seen);
    } else {
      ScaledUp(hits as real, seen as real, all as real);
    }
  }

  lemma SeenOrMissed(yTrue: seq<Label>, yPred: seq<Label>, c: Label)
    requires |yPred| <= |yTrue|
    ensures TruePositives(yTrue, yPred, c) + FalseNegatives(yTrue, yPred, c) == Occurrences(yTrue[..|yPred|], c)
  {
    TruthSplits(yTrue, yPred, c, |yPred|);
  }

  lemma SeenAndHit(yTrue: seq<Label>, yPred: seq<Label>, c: Label)
    requires |yPred| <= |yTrue|
    ensures var hits, seen := TruePositives(yTrue, yPred, c), Occurrences(yTrue[..|yPred|], c);
      hits <= seen && Weigh(Recall, yTrue, yPred)(c) == Share(hits, seen, Occurrences(yTrue, c))
  {
    hide TruePositives, FalseNegatives, Occurrences, AtLeastOne;
    SeenOrMissed(yTrue, yPred, c);
    var hits, missed := TruePositives(yTrue, yPred, c), FalseNegatives(yTrue, yPred, c);
    var rate, all := hits as real / AtLeastOne(hits + missed), Occurrences(yTrue, c) as real;
    assert Recall(yTrue, yPred, c) == rate;
    hide Recall;
    assert Weigh(Recall, yTrue, yPred)(c) == rate * all;
  }

  /** What a class adds to weighted recall is at least its hits, and more exactly if it was hit somewhere
      and also occurs where nothing was predicted. */
  lemma ClassShare(yTrue: seq<Label>, yPred: seq<Label>, c: Label)
    requires |yPred| <= |yTrue|
    ensures var f, g := Weigh(Recall, yTrue, yPred), HitsBelow(yTrue, yPred, |yPred|);
      && Dominated(g, f, c)
      && (Agrees(g, f, c) <==> TruePositives(yTrue, yPred, c) == 0 || c !in yTrue[|yPred|..])
  {
    var hits, seen := TruePositives(yTrue, yPred, c), Occurrences(yTrue[..|yPred|], c);
    assert HitsBelow(yTrue, yPred, |yPred|)(c) == hits as real;
    hide Weigh, HitsBelow, TruePositives, Share, Occurrences;
    SeenAndHit(yTrue, yPred, c);
    OccurrencesBeyond(yTrue, |yPred|, c);
    ShareIsAtLeastHits(hits, seen, Occurrences(yTrue, c));
  }

  ghost predicate RecallMatchesAccuracy(yTrue: seq<Label>, yPred: seq<Label>) {
    Weighted(Recall, yTrue, yPred) == Accuracy(yTrue, yPred)
  }

  /** No label that was ever hit also stands where nothing was predicted. */
  predicate UnpredictedAreMissed(yTrue: seq<Label>, yPred: seq<Label>) {
    forall i :: |yPred| <= i < |yTrue| ==> TruePositives(yTrue, yPred, yTrue[i]) == 0
  }

  /** Exactly which lists meet the law. */
  lemma RecallIsAccuracyIff(yTrue: seq<Label>, yPred: seq<Label>)
    ensures RecallMatchesAccuracy(yTrue, yPred) <==> UnpredictedAreMissed(yTrue, yPred)
  {
    if |yTrue| <= |yPred| {
      RecallIsAccuracy(yTrue, yPred);
    } else {
      var f, g, s := Weigh(Recall, yTrue, yPred), HitsBelow(yTrue, yPred, |yPred|), Classes(yTrue, yPred);
      var n := |yTrue| as real;
      forall c | c in s ensures Dominated(g, f, c) {
        ClassShare(yTrue, yPred, c);
      }
      SumOverTight(g, f, s);
      HitsAreMatches(yTrue, yPred, |yPred|, s);
      SameQuotient(SumOver(f, s), SumOver(g, s), n);
      assert RecallMatchesAccuracy(yTrue, yPred) <==> SumOver(f, s) == SumOver(g, s);
      AgreementIsMissing(yTrue, yPred);
    }
  }

  lemma SameQuotient(x: real, y: real, n: real)
    requires n > 0.0
    ensures x / n == y / n <==> x == y
  {
    Quotient(x, n);
    Quotient(y, n);
  }

  lemma AgreementIsMissing(yTrue: seq<Label>, yPred: seq<Label>)
    requires |yPred| <= |yTrue|
    ensures (forall c :: c in Classes(yTrue, yPred) ==>
               Agrees(HitsBelow(yTrue, yPred, |yPred|), Weigh(Recall, yTrue, yPred), c))
            <==> UnpredictedAreMissed(yTrue, yPred)
  {
    var f, g, s := Weigh(Recall, yTrue, yPred), HitsBelow(yTrue, yPred, |yPred|), Classes(yTrue, yPred);
    forall c ensures Agrees(g, f, c) <==> TruePositives(yTrue, yPred, c) == 0 || c !in yTrue[|yPred|..] {
      ClassShare(yTrue, yPred, c);
    }
    hide Agrees, TruePositives, Weigh, HitsBelow;
    forall i | |yPred| <= i < |yTrue| ensures yTrue[i] in yTrue[|yPred|..] && yTrue[i] in s {
      assert yTrue[|yPred|..][i - |yPred|] == yTrue[i];
    }
  }

  function Repeat(c: Label, n: nat): seq<Label> {
    seq(n, _ => c)
  }

  lemma {:induction false} RepeatIsHit(c: Label, m: nat, k: nat, n: nat)
    requires n <= m && n <= k
    ensures CountWhere(Repeat(c, m), Repeat(c, k), c, true, true, n) == n
  {
    if n > 0 {
      RepeatIsHit(c, m, k, n - 1);
    }
  }

  /** For lists of given lengths the law holds of all of them exactly when no true label is left
      without a prediction, or none has one. */
  lemma RecallIsAccuracyForLengthsIff(m: nat, k: nat)
    ensures (forall yTrue, yPred :: |yTrue| == m && |yPred| == k ==> RecallMatchesAccuracy(yTrue, yPred))
            <==> m <= k || k == 0
  {
    if m <= k || k == 0 {
      forall yTrue: seq<Label>, yPred: seq<Label> | |yTrue| == m && |yPred| == k
        ensures RecallMatchesAccuracy(yTrue, yPred)
      {
        RecallIsAccuracyIff(yTrue, yPred);
      }
    } else {
      var yTrue, yPred := Repeat("a", m), Repeat("a", k);
      RepeatIsHit("a", m, k, k);
      assert TruePositives(yTrue, yPred, yTrue[k]) == k;
      RecallIsAccuracyIff(yTrue, yPred);
      assert !RecallMatchesAccuracy(yTrue, yPred);
    }
  }

  // ── every statistic is a proportion ──

  lemma ProductBelow(p: real, r: real)
    requires 0.0 <= p <= 1.0 && 0.0 <= r <= 1.0
    ensures 0.0 <= p * r <= p && p * r <= r
  {
    Part(p, r);
    Part(r, p);
    Commute(p, r);
  }

  lemma DoubledProduct(p: real, r: real)
    requires 0.0 <= p <= 1.0 && 0.0 <= r <= 1.0
    ensures 0.0 <= 2.0 * p * r <= p + r
  {
    var product, doubled := p * r, 2.0 * p * r;
    assert doubled == 2.0 * product;
    assert 0.0 <= product <= p && product <= r by {
      ProductBelow(p, r);
    }
  }

  lemma HarmonicIsProportion(p: real, r: real)
    requires 0.0 <= p <= 1.0 && 0.0 <= r <= 1.0
    ensures 0.0 <= Harmonic(p, r) <= 1.0
  {
    DoubledProduct(p, r);
    Fraction(2.0 * p * r, Max(p + r, 0.000000001));
  }

  lemma Fraction(x: real, y: real)
    requires 0.0 <= x <= y && y > 0.0
    ensures 0.0 <= x / y <= 1.0
  {
    Divide(x, 1.0, y);
    Divide(x, 0.0, y);
  }

  lemma Part(x: real, n: real)
    requires 0.0 <= x <= 1.0 && n >= 0.0
    ensures 0.0 <= x * n <= n
  {
    Monotone(x, 1.0, n);
    NonNegative(x, n);
  }

  ghost predicate Proportion(metric: Metric, yTrue: seq<Label>, yPred: seq<Label>, c: Label) {
    0.0 <= metric(yTrue, yPred, c) <= 1.0
  }

  lemma WeightedIsProportion(metric: Metric, yTrue: seq<Label>, yPred: seq<Label>)
    requires forall c :: Proportion(metric, yTrue, yPred, c)
    ensures 0.0 <= Weighted(metric, yTrue, yPred) <= 1.0
  {
    var f, g, s := Weigh(metric, yTrue, yPred), OccursIn(yTrue), Classes(yTrue, yPred);
    forall c | c in s ensures Dominated(f, g, c) {
      assert Proportion(metric, yTrue, yPred, c);
      var x, n := metric(yTrue, yPred, c), Occurrences(yTrue, c) as real;
      Part(x, n);
      assert f(c) == x * n && g(c) == n;
    }
    SumOverDominated(f, g, s);
    OccurrencesAddUp(yTrue, s);
    Fraction(SumOver(f, s), AtLeastOne(|yTrue|));
  }

  lemma StatisticsAreProportions(yTrue: seq<Label>, yPred: seq<Label>)
    ensures 0.0 <= Weighted(Precision, yTrue, yPred) <= 1.0
    ensures 0.0 <= Weighted(Recall, yTrue, yPred) <= 1.0
    ensures 0.0 <= Weighted(F1, yTrue, yPred) <= 1.0
  {
    forall c: Label
      ensures Proportion(Precision, yTrue, yPred, c) && Proportion(Recall, yTrue, yPred, c)
          && Proportion(F1, yTrue, yPred, c)
    {
      var tp := TruePositives(yTrue, yPred, c);
      QuotientTimes(tp, tp + FalsePositives(yTrue, yPred, c));
      QuotientTimes(tp, tp + FalseNegatives(yTrue, yPred, c));
      HarmonicIsProportion(Precision(yTrue, yPred, c), Recall(yTrue, yPred, c));
    }
    WeightedIsProportion(Precision, yTrue, yPred);
    WeightedIsProportion(Recall, yTrue, yPred);
    WeightedIsProportion(F1, yTrue, yPred);
  }
}
