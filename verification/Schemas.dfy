/** The shapes that flow through the system (core/schemas.py). */
module Schemas {

  datatype Option<+T> = None | Some(value: T)

  /** A Python float, rounding aside. Comparisons with NaN are false. */
  datatype Money = NaN | Infinite(positive: bool) | Finite(value: real) {

    predicate Greater(that: Money) {
      match (this, that)
      case (Finite(a), Finite(b)) => a > b
      case (Finite(_), Infinite(up)) => !up
      case (Infinite(up), Finite(_)) => up
      case (Infinite(up), Infinite(thatUp)) => up && !thatUp
      case _ => false
    }

    predicate AtMost(that: Money) {
      this != NaN && that != NaN && !Greater(that)
    }

    function Plus(slack: real): Money {
      match this
      case Finite(a) => Finite(a + slack)
      case _ => this
    }
  }

  /** Numbers apart from NaN, the infinities among them, are totally ordered; NaN is neither above nor below. */
  lemma MoneyIsOrdered(a: Money, b: Money, c: Money)
    ensures a != NaN && b != NaN ==> a.Greater(b) || b.Greater(a) || a == b
    ensures a.Greater(b) ==> !b.Greater(a) && a != b && a != NaN && b != NaN
    ensures a.Greater(b) && b.Greater(c) ==> a.Greater(c)
  {
  }

  /** Argument names the tools declare; anything else is an OtherKey. */
  datatype Key =
    | OrderIdKey | AmountKey | TicketIdKey | MessageKey | SummaryKey | PriorityKey
    | EmailKey | ProductIdKey | QueryKey | OtherKey(name: string)

  /** An untrusted argument. A numeral given as text for an amount is written as the Number it denotes. */
  datatype Value = Null | Text(text: string) | Number(number: Money)

  type Args = map<Key, Value>

  /** dict.get */
  function Get(args: Args, key: Key): Value {
    if key in args then args[key] else Null
  }

  predicate Truthy(v: Value) {
    match v
    case Null => false
    case Text(s) => s != ""
    case Number(n) => n != Finite(0.0)
  }

  /** float(x), None when it raises. */
  function Float(v: Value): Option<Money> {
    match v
    case Number(n) => Some(n)
    case _ => None
  }

  datatype Tool =
    | GetOrder | GetCustomer | GetProduct | SearchKnowledgeBase | CheckRefundEligibility
    | IssueRefund | SendReply | Escalate | Unregistered(name: string)

  /** The keys of a tool result that any decision reads; None stands for an absent key. */
  datatype ToolResult = ToolResult(
    error: Option<string>,
    success: Option<bool>,
    eligible: Option<bool>,
    refundable: Option<Money>,
    warrantyActive: bool,
    amount: Option<Money>,
    firstOrder: Option<string>)

  /** A result with none of those keys, such as the "pending_human_review" answer. */
  const PLAIN := ToolResult(None, None, None, None, false, None, None)

  predicate IsError(result: ToolResult) {
    result.error.Some? || result.success == Some(false)
  }

  datatype ToolCallRecord = ToolCallRecord(tool: Tool, args: Args, result: ToolResult, ok: bool)

  function MakeRecord(tool: Tool, args: Args, result: ToolResult): ToolCallRecord {
    ToolCallRecord(tool, args, result, !IsError(result))
  }

  datatype Verdict = Allow | Deny | RequireHuman

  datatype RuleName =
    | DefaultAllow | RefundRequiresEligibility | RefundMustBeEligible | RefundAmountWithinEligible
    | RefundAmountPositive | LargeRefundNeedsHuman | LowConfidenceBlocksIrreversible | CustomRule(name: string)

  datatype Decision = Decision(verdict: Verdict, rule: RuleName)

  /** What the rules see of a ticket. */
  datatype Session = Session(confidence: real, calls: seq<ToolCallRecord>)

  predicate IsCheckFor(call: ToolCallRecord, orderId: Value) {
    call.tool == CheckRefundEligibility && call.ok && Get(call.args, OrderIdKey) == orderId
  }

  /** The result of the most recent successful eligibility check for `orderId`. */
  function EligibilityResult(calls: seq<ToolCallRecord>, orderId: Value): Option<ToolResult> {
    if calls == [] then None
    else
      var last := |calls| - 1;
      if IsCheckFor(calls[last], orderId) then Some(calls[last].result)
      else EligibilityResult(calls[..last], orderId)
  }

  lemma {:induction false} EligibilityIsLatestCheck(calls: seq<ToolCallRecord>, orderId: Value)
    ensures EligibilityResult(calls, orderId) == None
            <==> forall i :: 0 <= i < |calls| ==> !IsCheckFor(calls[i], orderId)
    ensures forall r :: EligibilityResult(calls, orderId) == Some(r) <==>
      exists i :: 0 <= i < |calls| && IsCheckFor(calls[i], orderId) && calls[i].result == r
                  && forall j :: i < j < |calls| ==> !IsCheckFor(calls[j], orderId)
  {
    if calls != [] {
      var last := |calls| - 1;
      if !IsCheckFor(calls[last], orderId) {
        var init := calls[..last];
        EligibilityIsLatestCheck(init, orderId);
        forall r ensures EligibilityResult(calls, orderId) == Some(r) <==>
            exists i :: 0 <= i < |calls| && IsCheckFor(calls[i], orderId) && calls[i].result == r
                        && forall j :: i < j < |calls| ==> !IsCheckFor(calls[j], orderId)
        {
          if EligibilityResult(calls, orderId) == Some(r) {
            var i :| 0 <= i < |init| && IsCheckFor(init[i], orderId) && init[i].result == r
                     && forall j :: i < j < |init| ==> !IsCheckFor(init[j], orderId);
            assert calls[i] == init[i];
            forall j | i < j < |calls| ensures !IsCheckFor(calls[j], orderId) {
              if j < last { assert calls[j] == init[j]; }
            }
          }
          if i :| 0 <= i < |calls| && IsCheckFor(calls[i], orderId) && calls[i].result == r
                  && forall j :: i < j < |calls| ==> !IsCheckFor(calls[j], orderId) {
            assert init[i] == calls[i];
            forall j | i < j < |init| ensures !IsCheckFor(init[j], orderId) { assert init[j] == calls[j]; }
          }
        }
      }
    }
  }

  class TicketState {
    const ticketId: string
    const confidence: real
    var toolCalls: seq<ToolCallRecord>

    constructor (ticketId: string, confidence: real)
      ensures this.ticketId == ticketId && this.confidence == confidence && toolCalls == []
    {
      this.ticketId, this.confidence, toolCalls := ticketId, confidence, [];
    }

    function View(): Session
      reads this
    {
      Session(confidence, toolCalls)
    }

    method Record(tool: Tool, args: Args, result: ToolResult) returns (rec: ToolCallRecord)
      modifies this
      ensures rec == ToolCallRecord(tool, args, result, result.error == None && result.success != Some(false))
      ensures toolCalls == old(toolCalls) + [rec]
    {
      rec := ToolCallRecord(tool, args, result, !IsError(result));
      toolCalls := toolCalls + [rec];
    }

    /** The backwards scan over the history. */
    method FindEligibility(orderId: Value) returns (found: Option<ToolResult>)
      ensures found == EligibilityResult(toolCalls, orderId)
    {
      var i := |toolCalls|;
      assert toolCalls[..i] == toolCalls;
      while i > 0
        invariant 0 <= i <= |toolCalls|
        invariant EligibilityResult(toolCalls, orderId) == EligibilityResult(toolCalls[..i], orderId)
      {
        i := i - 1;
        assert toolCalls[..i + 1][..i] == toolCalls[..i];
        var call := toolCalls[i];
        if call.tool == CheckRefundEligibility && call.ok && Get(call.args, OrderIdKey) == orderId {
          return Some(call.result);
        }
      }
      return None;
    }
  }
}
