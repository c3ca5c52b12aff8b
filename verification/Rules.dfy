/** The deterministic refund invariants (policy/rules.py). */
module Rules {
  import opened Schemas

  const REFUND_HITL_THRESHOLD := 200.0
  const LOW_CONFIDENCE_THRESHOLD := 0.6
  const AMOUNT_TOLERANCE := 0.01

  type Rule = (Tool, Args, Session) -> Option<Decision>

  function OrderOf(args: Args): Value {
    Get(args, OrderIdKey)
  }

  function AmountOf(args: Args): Option<Money> {
    Float(Get(args, AmountKey))
  }

  function CheckOf(args: Args, s: Session): Option<ToolResult> {
    if Truthy(OrderOf(args)) then EligibilityResult(s.calls, OrderOf(args)) else None
  }

  function RequiresEligibility(tool: Tool, args: Args, s: Session): Option<Decision> {
    if tool == IssueRefund && (!Truthy(OrderOf(args)) || EligibilityResult(s.calls, OrderOf(args)).None?)
    then Some(Decision(Deny, RefundRequiresEligibility)) else None
  }

  function MustBeEligible(tool: Tool, args: Args, s: Session): Option<Decision> {
    if tool == IssueRefund && CheckOf(args, s).Some? && CheckOf(args, s).value.eligible != Some(true)
    then Some(Decision(Deny, RefundMustBeEligible)) else None
  }

  function WithinEligible(tool: Tool, args: Args, s: Session): Option<Decision> {
    if tool != IssueRefund || CheckOf(args, s).None? then None
    else
      var amount, allowed := AmountOf(args), CheckOf(args, s).value.refundable;
      if amount.Some? && allowed.Some? && amount.value.Greater(allowed.value.Plus(AMOUNT_TOLERANCE))
      then Some(Decision(Deny, RefundAmountWithinEligible)) else None
  }

  function Positive(tool: Tool, args: Args, s: Session): Option<Decision> {
    if tool == IssueRefund && (AmountOf(args).None? || AmountOf(args).value.AtMost(Finite(0.0)))
    then Some(Decision(Deny, RefundAmountPositive)) else None
  }

  function LargeNeedsHuman(tool: Tool, args: Args, s: Session): Option<Decision> {
    if tool == IssueRefund && AmountOf(args).Some? && AmountOf(args).value.Greater(Finite(REFUND_HITL_THRESHOLD))
    then Some(Decision(RequireHuman, LargeRefundNeedsHuman)) else None
  }

  function LowConfidence(tool: Tool, args: Args, s: Session): Option<Decision> {
    if tool == IssueRefund && s.confidence < LOW_CONFIDENCE_THRESHOLD
    then Some(Decision(RequireHuman, LowConfidenceBlocksIrreversible)) else None
  }

  function DefaultRules(): seq<Rule> {
    [RequiresEligibility, MustBeEligible, WithinEligible, Positive, LargeNeedsHuman, LowConfidence]
  }
}
