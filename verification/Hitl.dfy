/** The human-in-the-loop queue (policy/hitl.py). */
module Hitl {
  import opened Schemas

  datatype HitlItem = HitlItem(ticketId: string, number: nat, tool: Tool, args: Args, rule: RuleName)

  function Digit(n: nat): char
    requires n < 10
  {
    '0' + n as char
  }

  function Decimal(n: nat): string {
    if n < 10 then [Digit(n)] else Decimal(n / 10) + [Digit(n % 10)]
  }

  /** f"HITL-{ticket_id}-{n}" */
  function ItemId(ticketId: string, number: nat): string {
    "HITL-" + ticketId + "-" + Decimal(number)
  }

  /** What a string of digits denotes. */
  function ValueOf(digits: string): int {
    if digits == "" then 0 else 10 * ValueOf(digits[..|digits| - 1]) + (digits[|digits| - 1] as int - '0' as int)
  }

  /** The numeral denotes its number, in digits only, and never begins with a 0 but for 0 itself. */
  lemma {:induction false} DecimalDenotes(n: nat)
    ensures ValueOf(Decimal(n)) == n
    ensures Decimal(n) != "" && (Decimal(n)[0] == '0' ==> n == 0)
    ensures forall c :: c in Decimal(n) ==> '0' <= c <= '9'
  {
    if n >= 10 {
      DecimalDenotes(n / 10);
      var digits := Decimal(n);
      assert digits[..|digits| - 1] == Decimal(n / 10);
    }
  }

  lemma DecimalInjective(a: nat, b: nat)
    requires Decimal(a) == Decimal(b)
    ensures a == b
  {
    DecimalDenotes(a);
    DecimalDenotes(b);
  }

  lemma OnlyDash(left: string, digits: string, text: string)
    requires text == left + ['-'] + digits && '-' !in digits
    ensures text[|left|] == '-' && forall k :: |left| < k < |text| ==> text[k] != '-'
    ensures left == text[..|left|] && digits == text[|left| + 1..]
  {
  }

  /** The rendered reference determines both the ticket and the number, whatever characters a ticket id holds. */
  lemma ItemIdInjective(ticketA: string, a: nat, ticketB: string, b: nat)
    ensures ItemId(ticketA, a) == ItemId(ticketB, b) <==> ticketA == ticketB && a == b
  {
    if ItemId(ticketA, a) == ItemId(ticketB, b) {
      DecimalDenotes(a);
      DecimalDenotes(b);
      var text := ItemId(ticketA, a);
      OnlyDash("HITL-" + ticketA, Decimal(a), text);
      OnlyDash("HITL-" + ticketB, Decimal(b), text);
      assert ticketA == ("HITL-" + ticketA)[5..] == ("HITL-" + ticketB)[5..] == ticketB;
      DecimalInjective(a, b);
    }
  }

  class HITLQueue {
    var items: seq<HitlItem>

    constructor ()
      ensures items == []
    {
      items := [];
    }

    /** The length is read before the lock is taken; `others` is what other threads append in between. */
    method Enqueue(ticketId: string, tool: Tool, args: Args, decision: Decision, others: seq<HitlItem>)
      returns (item: HitlItem)
      modifies this
      ensures item == HitlItem(ticketId, |old(items)| + 1, tool, args, decision.rule)
      ensures items == old(items) + others + [item]
    {
      item := HitlItem(ticketId, |items| + 1, tool, args, decision.rule);
      items := items + others;
      items := items + [item];
    }
  }
}
