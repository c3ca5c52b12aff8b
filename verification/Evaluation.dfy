/** PolicyEngine.evaluate: the strongest objection, or ALLOW (policy/engine.py). */
module Evaluation {
  import opened Schemas
  import opened Rules

  function Precedence(v: Verdict): nat {
    match v
    case Deny => 3
    case RequireHuman => 2
    case Allow => 1
  }

  function Objections(rules: seq<Rule>, tool: Tool, args: Args, s: Session): seq<Decision> {
    if rules == [] then []
    else
      var rest := Objections(rules[1..], tool, args, s);
      match rules[0](tool, args, s)
      case Some(d) => [d] + rest
      case None => rest
  }

  /** max(..., key=precedence), which keeps the first of several maxima. */
  function Strongest(ds: seq<Decision>): Decision
    requires ds != []
  {
    if |ds| == 1 then ds[0]
    else
      var last := |ds| - 1;
      var best := Strongest(ds[..last]);
      if Precedence(ds[last].verdict) > Precedence(best.verdict) then ds[last] else best
  }

  function Evaluate(rules: seq<Rule>, tool: Tool, args: Args, s: Session): Decision {
    var objections := Objections(rules, tool, args, s);
    if objections == [] then Decision(Allow, DefaultAllow) else Strongest(objections)
  }

  lemma {:induction false} StrongestIsFirstMaximum(ds: seq<Decision>) returns (k: nat)
    requires ds != []
    ensures k < |ds| && Strongest(ds) == ds[k]
    ensures forall i :: 0 <= i < |ds| ==> Precedence(ds[i].verdict) <= Precedence(ds[k].verdict)
    ensures forall i :: 0 <= i < k ==> Precedence(ds[i].verdict) < Precedence(ds[k].verdict)
  {
    if |ds| == 1 {
      k := 0;
    } else {
      var init := ds[..|ds| - 1];
      k := StrongestIsFirstMaximum(init);
      forall i | 0 <= i < |init| ensures ds[i] == init[i] {}
      if Precedence(ds[|ds| - 1].verdict) > Precedence(ds[k].verdict) {
        k := |ds| - 1;
      }
    }
  }

  ghost predicate Objects(rules: seq<Rule>, i: nat, tool: Tool, args: Args, s: Session, d: Decision) {
    i < |rules| && rules[i](tool, args, s) == Some(d)
  }

  lemma {:induction false} ObjectionsAreTheRules(rules: seq<Rule>, tool: Tool, args: Args, s: Session, d: Decision)
    ensures d in Objections(rules, tool, args, s) <==> exists i: nat :: Objects(rules, i, tool, args, s, d)
  {
    if rules != [] {
      var rest := rules[1..];
      ObjectionsAreTheRules(rest, tool, args, s, d);
      if i: nat :| Objects(rest, i, tool, args, s, d) {
        assert Objects(rules, i + 1, tool, args, s, d);
      }
      if i: nat :| Objects(rules, i, tool, args, s, d) {
        if i == 0 {
          assert Objections(rules, tool, args, s)[0] == d;
        } else {
          assert Objects(rest, i - 1, tool, args, s, d);
        }
      }
      if d in Objections(rules, tool, args, s) && d !in Objections(rest, tool, args, s) {
        assert Objects(rules, 0, tool, args, s, d);
      }
    }
  }

  /** Some rule objects with exactly this verdict. */
  ghost predicate SomeRule(rules: seq<Rule>, tool: Tool, args: Args, s: Session, v: Verdict) {
    exists i: nat, d: Decision :: Objects(rules, i, tool, args, s, d) && d.verdict == v
  }

  /** The verdict depends only on which verdicts the rules raise, not on their order or number. */
  lemma VerdictByExistence(rules: seq<Rule>, tool: Tool, args: Args, s: Session)
    ensures var v := Evaluate(rules, tool, args, s).verdict;
      && (v == Deny <==> SomeRule(rules, tool, args, s, Deny))
      && (v == RequireHuman <==> SomeRule(rules, tool, args, s, RequireHuman) && !SomeRule(rules, tool, args, s, Deny))
  {
    var ds := Objections(rules, tool, args, s);
    if ds != [] {
      var k := StrongestIsFirstMaximum(ds);
      ObjectionsAreTheRules(rules, tool, args, s, ds[k]);
    }
    forall i: nat, d: Decision | Objects(rules, i, tool, args, s, d)
      ensures d in ds
    {
      ObjectionsAreTheRules(rules, tool, args, s, d);
    }
  }

  /** Every rule of one list occurs in the other. */
  ghost predicate Covered(rules: seq<Rule>, more: seq<Rule>) {
    forall i :: 0 <= i < |rules| ==> exists j :: 0 <= j < |more| && more[j] == rules[i]
  }

  lemma CoveredRulesStillRaise(rules: seq<Rule>, more: seq<Rule>, tool: Tool, args: Args, s: Session, v: Verdict)
    requires Covered(rules, more) && SomeRule(rules, tool, args, s, v)
    ensures SomeRule(more, tool, args, s, v)
  {
    var i: nat, d: Decision :| Objects(rules, i, tool, args, s, d) && d.verdict == v;
    var j :| 0 <= j < |more| && more[j] == rules[i];
    assert Objects(more, j, tool, args, s, d);
  }

  /** Adding rules never weakens the verdict; reordering or repeating them keeps it. */
  lemma MoreRulesNeverWeaken(rules: seq<Rule>, more: seq<Rule>, tool: Tool, args: Args, s: Session)
    requires Covered(rules, more)
    ensures Precedence(Evaluate(rules, tool, args, s).verdict) <= Precedence(Evaluate(more, tool, args, s).verdict)
    ensures Covered(more, rules) ==> Evaluate(rules, tool, args, s).verdict == Evaluate(more, tool, args, s).verdict
  {
    hide SomeRule, Evaluate, Covered;
    VerdictByExistence(rules, tool, args, s);
    VerdictByExistence(more, tool, args, s);
    forall v | SomeRule(rules, tool, args, s, v) ensures SomeRule(more, tool, args, s, v) {
      CoveredRulesStillRaise(rules, more, tool, args, s, v);
    }
    if Covered(more, rules) {
      forall v | SomeRule(more, tool, args, s, v) ensures SomeRule(rules, tool, args, s, v) {
        CoveredRulesStillRaise(more, rules, tool, args, s, v);
      }
    }
  }

  // ── the default rules in closed form ──

  /** The history vouches for the order, and the amount is within what it vouches for. */
  predicate Admissible(args: Args, s: Session) {
    && Truthy(OrderOf(args))
    && AmountOf(args).Some? && !AmountOf(args).value.AtMost(Finite(0.0))
    && match EligibilityResult(s.calls, OrderOf(args))
       case None => false
       case Some(check) =>
         && check.eligible == Some(true)
         && (check.refundable.Some? ==> !AmountOf(args).value.Greater(check.refundable.value.Plus(0.01)))
  }

  predicate SmallAndSure(args: Args, s: Session) {
    && !(AmountOf(args).Some? && AmountOf(args).value.Greater(Finite(200.0)))
    && s.confidence >= 0.6
  }

  function Judge(tool: Tool, args: Args, s: Session): Decision {
    Evaluate(DefaultRules(), tool, args, s)
  }

  predicate Raises(objection: Option<Decision>, v: Verdict) {
    objection.Some? && objection.value.verdict == v
  }

  lemma SomeRuleRaises(rules: seq<Rule>, tool: Tool, args: Args, s: Session, v: Verdict)
    ensures SomeRule(rules, tool, args, s, v) <==> exists i: nat :: i < |rules| && Raises(rules[i](tool, args, s), v)
  {
    if i: nat :| i < |rules| && Raises(rules[i](tool, args, s), v) {
      assert Objects(rules, i, tool, args, s, rules[i](tool, args, s).value);
    }
  }

  lemma SomeDefaultRule(tool: Tool, args: Args, s: Session, v: Verdict)
    ensures SomeRule(DefaultRules(), tool, args, s, v) <==>
      || Raises(RequiresEligibility(tool, args, s), v) || Raises(MustBeEligible(tool, args, s), v)
      || Raises(WithinEligible(tool, args, s), v) || Raises(Positive(tool, args, s), v)
      || Raises(LargeNeedsHuman(tool, args, s), v) || Raises(LowConfidence(tool, args, s), v)
  {
    hide SomeRule, Raises, RequiresEligibility, MustBeEligible, WithinEligible, Positive, LargeNeedsHuman,
      LowConfidence;
    var rules := DefaultRules();
    SomeRuleRaises(rules, tool, args, s, v);
    assert rules[0] == RequiresEligibility && rules[1] == MustBeEligible && rules[2] == WithinEligible;
    assert rules[3] == Positive && rules[4] == LargeNeedsHuman && rules[5] == LowConfidence;
  }

  lemma DefaultObjections(tool: Tool, args: Args, s: Session)
    ensures SomeRule(DefaultRules(), tool, args, s, Deny) <==> tool == IssueRefund && !Admissible(args, s)
    ensures SomeRule(DefaultRules(), tool, args, s, RequireHuman) <==> tool == IssueRefund && !SmallAndSure(args, s)
  {
    hide SomeRule, DefaultRules, EligibilityResult;
    SomeDefaultRule(tool, args, s, Deny);
    SomeDefaultRule(tool, args, s, RequireHuman);
  }

  /** Everything but issue_refund passes; a refund passes, is parked or is refused by one closed-form
      condition on the history, the arguments and the confidence. */
  lemma DefaultVerdicts(tool: Tool, args: Args, s: Session)
    ensures var v := Judge(tool, args, s).verdict;
      && (v == Allow <==> tool != IssueRefund || (Admissible(args, s) && SmallAndSure(args, s)))
      && (v == Deny <==> tool == IssueRefund && !Admissible(args, s))
      && (v == RequireHuman <==> tool == IssueRefund && Admissible(args, s) && !SmallAndSure(args, s))
  {
    VerdictByExistence(DefaultRules(), tool, args, s);
    DefaultObjections(tool, args, s);
  }

  // ── the default rules as a cascade ──

  function FirstObjection(rules: seq<Rule>, tool: Tool, args: Args, s: Session): Option<Decision> {
    if rules == [] then None
    else if rules[0](tool, args, s).Some? then rules[0](tool, args, s)
    else FirstObjection(rules[1..], tool, args, s)
  }

  lemma {:induction false} FirstObjectionIsFirst(rules: seq<Rule>, tool: Tool, args: Args, s: Session)
    ensures var ds := Objections(rules, tool, args, s);
      FirstObjection(rules, tool, args, s) == if ds == [] then None else Some(ds[0])
  {
    if rules != [] {
      FirstObjectionIsFirst(rules[1..], tool, args, s);
    }
  }

  lemma FirstObjectionWins(rules: seq<Rule>, tool: Tool, args: Args, s: Session, d: Decision)
    requires FirstObjection(rules, tool, args, s) == Some(d)
    requires d.verdict == Deny || (d.verdict == RequireHuman && !SomeRule(rules, tool, args, s, Deny))
    ensures Evaluate(rules, tool, args, s) == d
  {
    var ds := Objections(rules, tool, args, s);
    FirstObjectionIsFirst(rules, tool, args, s);
    var k := StrongestIsFirstMaximum(ds);
    ObjectionsAreTheRules(rules, tool, args, s, ds[k]);
    assert Precedence(ds[0].verdict) == Precedence(ds[k].verdict);
  }

  lemma SkipOrStop(rule: Rule, rest: seq<Rule>, tool: Tool, args: Args, s: Session)
    ensures FirstObjection([rule] + rest, tool, args, s)
            == if rule(tool, args, s).Some? then rule(tool, args, s) else FirstObjection(rest, tool, args, s)
  {
    assert ([rule] + rest)[1..] == rest;
  }

  /** One question after the other, the first failing one decides. */
  function Cascade(tool: Tool, args: Args, s: Session): Decision {
    if tool != IssueRefund then Decision(Allow, DefaultAllow)
    else
      var amount, check := AmountOf(args), CheckOf(args, s);
      if check == None then Decision(Deny, RefundRequiresEligibility)
      else if check.value.eligible != Some(true) then Decision(Deny, RefundMustBeEligible)
      else if amount.Some? && check.value.refundable.Some?
        && amount.value.Greater(check.value.refundable.value.Plus(0.01))
      then Decision(Deny, RefundAmountWithinEligible)
      else if amount == None || amount.value.AtMost(Finite(0.0)) then Decision(Deny, RefundAmountPositive)
      else if amount.value.Greater(Finite(200.0)) then Decision(RequireHuman, LargeRefundNeedsHuman)
      else if s.confidence < 0.6 then Decision(RequireHuman, LowConfidenceBlocksIrreversible)
      else Decision(Allow, DefaultAllow)
  }

  lemma DefaultFirstObjection(tool: Tool, args: Args, s: Session)
    ensures FirstObjection(DefaultRules(), tool, args, s)
            == if Cascade(tool, args, s).verdict == Allow then None else Some(Cascade(tool, args, s))
  {
    hide EligibilityResult;
    var last: seq<Rule> := [LowConfidence];
    var human := [LargeNeedsHuman] + last;
    var positive := [Positive] + human;
    var within := [WithinEligible] + positive;
    var eligible := [MustBeEligible] + within;
    assert DefaultRules() == [RequiresEligibility] + eligible;
    SkipOrStop(RequiresEligibility, eligible, tool, args, s);
    SkipOrStop(MustBeEligible, within, tool, args, s);
    SkipOrStop(WithinEligible, positive, tool, args, s);
    SkipOrStop(Positive, human, tool, args, s);
    SkipOrStop(LargeNeedsHuman, last, tool, args, s);
    SkipOrStop(LowConfidence, [], tool, args, s);
    assert [LowConfidence] + [] == last;
  }

  /** Taking the strongest of all objections comes to asking the six questions in order and stopping at
      the first failure, down to the rule that is named: every denying rule stands before every rule that asks
      for a human. */
  lemma DefaultRulesAreACascade(tool: Tool, args: Args, s: Session)
    ensures Judge(tool, args, s) == Cascade(tool, args, s)
  {
    DefaultFirstObjection(tool, args, s);
    FirstObjectionIsFirst(DefaultRules(), tool, args, s);
    DefaultObjections(tool, args, s);
    var d := Cascade(tool, args, s);
    assert d.verdict == RequireHuman ==> Admissible(args, s);
    hide Objections, FirstObjection, DefaultRules, Cascade, SomeRule, Admissible;
    if d.verdict != Allow {
      FirstObjectionWins(DefaultRules(), tool, args, s, d);
    }
  }

  /** A refund that passes is within the limits promised for it exactly when its amount is a number:
      NaN fails every comparison, so no rule objects to it. */
  lemma AllowedAmountIsBoundedIff(args: Args, s: Session)
    requires Judge(IssueRefund, args, s).verdict == Allow
    ensures AmountOf(args).Some?
    ensures AmountOf(args).value != NaN <==>
            AmountOf(args).value.Finite? && 0.0 < AmountOf(args).value.value <= 200.0
    ensures EligibilityResult(s.calls, OrderOf(args)).Some?
    ensures match EligibilityResult(s.calls, OrderOf(args)).value.refundable
            case Some(Finite(allowed)) => AmountOf(args).value != NaN ==> AmountOf(args).value.value <= allowed + 0.01
            case _ => true
  {
    DefaultVerdicts(IssueRefund, args, s);
  }

  /** Whatever the price of the order, NaN is paid for it as soon as any amount could be. */
  lemma NaNRefundPassesIff(orderId: Value, s: Session)
    ensures
      var args := map[OrderIdKey := orderId, AmountKey := Number(NaN)];
      Judge(IssueRefund, args, s).verdict == Allow <==>
        && Truthy(orderId) && s.confidence >= 0.6
        && EligibilityResult(s.calls, orderId).Some?
        && EligibilityResult(s.calls, orderId).value.eligible == Some(true)
  {
    var args := map[OrderIdKey := orderId, AmountKey := Number(NaN)];
    assert OrderOf(args) == orderId && AmountOf(args) == Some(NaN);
    DefaultVerdicts(IssueRefund, args, s);
  }

  /** An infinite amount is never paid, nor parked once an eligible check has named a price: too much is above
      what is eligible, and less than nothing is not positive, whatever the check says. */
  lemma InfiniteRefundIsDenied(args: Args, s: Session)
    requires AmountOf(args).Some? && AmountOf(args).value.Infinite?
    ensures var d := Judge(IssueRefund, args, s); var up := AmountOf(args).value.positive;
      && d.verdict != Allow
      && (!up ==> d.verdict == Deny)
      && match CheckOf(args, s)
         case None => d == Decision(Deny, RefundRequiresEligibility)
         case Some(check) =>
           && (check.eligible != Some(true) ==> d == Decision(Deny, RefundMustBeEligible))
           && (check.eligible == Some(true) && check.refundable.Some? && check.refundable.value.Finite? ==>
                 d == Decision(Deny, if up then RefundAmountWithinEligible else RefundAmountPositive))
  {
    DefaultRulesAreACascade(IssueRefund, args, s);
    hide Judge;
  }

  /** A refund that names no order (null, the empty text, the number 0) is refused for want of a check, even if
      an earlier check answered for just that. */
  lemma NamelessRefundIsDenied(args: Args, s: Session)
    requires Get(args, OrderIdKey) in [Null, Text(""), Number(Finite(0.0))]
    ensures Judge(IssueRefund, args, s) == Decision(Deny, RefundRequiresEligibility)
  {
    DefaultRulesAreACascade(IssueRefund, args, s);
    hide Judge;
  }
}
