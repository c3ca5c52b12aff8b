/** The backend tools and their shared ledger (tools/impls.py). */
module Tools {
  import opened Schemas
  import opened Texts

  datatype Product = Product(warrantyMonths: int, notes: string)

  datatype Order = Order(
    productId: string,
    amount: real,
    status: string,
    returnDeadline: Option<int>,
    notes: string,
    refunded: bool)

  datatype Refund = Refund(orderId: string, amount: Money)

  datatype Reply = Reply(ticketId: Value, message: Value)

  datatype Escalation = Escalation(ticketId: Value, summary: Value, priority: Value)

  /** The module-level tables and logs; days are counted as integers. */
  datatype World = World(
    orders: map<string, Order>,
    products: map<string, Product>,
    today: int,
    refundLog: seq<Refund>,
    replyLog: seq<Reply>,
    escalationLog: seq<Escalation>)

  /** What one attempt cannot know beforehand: the injected failure, the answer of the plain lookups, and
      which of several unexpected arguments the call lists first. */
  datatype Env = Env(fails: bool, lookup: ToolResult, first: Key)

  function Name(tool: Tool): string {
    match tool
    case GetOrder => "get_order"
    case GetCustomer => "get_customer"
    case GetProduct => "get_product"
    case SearchKnowledgeBase => "search_knowledge_base"
    case CheckRefundEligibility => "check_refund_eligibility"
    case IssueRefund => "issue_refund"
    case SendReply => "send_reply"
    case Escalate => "escalate"
    case Unregistered(name) => Lower(name)
  }

  // Error texts, in the lower case in which they are searched.

  function UnavailableText(tool: Tool): string {
    "[" + Name(tool) + "] service temporarily unavailable. please retry."
  }

  /** str(v), the digits of a number left out. */
  function Str(v: Value): string {
    match v
    case Null => "None"
    case Text(s) => s
    case Number(n) => if n == NaN then "nan" else if n.Infinite? then "inf" else "0"
  }

  function NotFoundText(orderId: string): string {
    "order '" + Lower(orderId) + "' not found."
  }

  function AlreadyRefundedText(orderId: string): string {
    "order " + Lower(orderId) + " was already refunded."
  }

  function TypeErrorText(): string {
    "float() argument must be a string " + "or a real number, not 'nonetype'"
  }

  function ValueErrorText(s: string): string {
    "could not convert string to float: " + Lower(Repr(s))
  }

  /** The text for an amount that float() rejects: a ValueError quotes the amount, a TypeError does not. */
  function AmountText(amount: Value): string {
    match amount
    case Text(s) => "tool 'issue_refund' crashed: " + ValueErrorText(s)
    case _ => "bad arguments for 'issue_refund': " + TypeErrorText()
  }

  function ErrorResult(text: string): ToolResult {
    PLAIN.(error := Some(text))
  }

  function FailureResult(text: string): ToolResult {
    PLAIN.(error := Some(text), success := Some(false))
  }

  function Find(w: World, orderId: Value): Option<Order> {
    if orderId.Text? && orderId.text in w.orders then Some(w.orders[orderId.text]) else None
  }

  // ── read tools ──

  function IsBlank(v: Value): bool {
    match v
    case Text(s) => forall i :: 0 <= i < |s| ==> s[i] in [' ', '\t', '\n', '\r']
    case _ => !Truthy(v)
  }

  /** A text is blank exactly when all its characters are white space. */
  lemma BlankJoins(a: string, b: string)
    ensures IsBlank(Text(a + b)) <==> IsBlank(Text(a)) && IsBlank(Text(b))
    ensures IsBlank(Text(""))
    ensures forall c: char :: IsBlank(Text([c])) <==> c == ' ' || c == '\t' || c == '\n' || c == '\r'
  {
    if IsBlank(Text(a + b)) {
      forall i | 0 <= i < |a| ensures (a + b)[i] == a[i] {}
      forall i | 0 <= i < |b| ensures (a + b)[|a| + i] == b[i] {}
    }
    forall c: char ensures IsBlank(Text([c])) <==> c == ' ' || c == '\t' || c == '\n' || c == '\r' {
      assert [c][0] == c;
    }
  }

  function GetOrderResult(w: World, orderId: Value): ToolResult {
    if !orderId.Text? || IsBlank(orderId) then ErrorResult("order_id must be a non-empty string.")
    else match Find(w, orderId)
      case Some(order) => PLAIN.(amount := Some(Finite(order.amount)))
      case None => ErrorResult("order '" + Lower(orderId.text) + "' not found in the system.")
  }

  /** An order is quoted at its own price, or the answer is an error: an unknown id, or a blank one even
      if the table knows it. */
  lemma GetOrderAnswers(w: World, orderId: Value)
    ensures var r := GetOrderResult(w, orderId);
      && (IsError(r) <==> r.amount == None)
      && forall price :: r.amount == Some(Finite(price)) <==>
           Find(w, orderId).Some? && Find(w, orderId).value.amount == price && !IsBlank(orderId)
  {
  }

  predicate BarredByNotes(w: World, order: Order) {
    order.productId in w.products
    && var notes := Lower(order.notes + " " + w.products[order.productId].notes);
       Contains(notes, "non-returnable") || Contains(notes, "registered online")
  }

  predicate WithinWindow(w: World, order: Order) {
    order.returnDeadline.Some? && w.today <= order.returnDeadline.value
  }

  function Ineligible(): ToolResult {
    PLAIN.(eligible := Some(false))
  }

  function EligibleFor(order: Order): ToolResult {
    PLAIN.(eligible := Some(true), refundable := Some(Finite(order.amount)))
  }

  function EligibilityCheck(w: World, orderId: Value): ToolResult {
    match Find(w, orderId)
    case None => Ineligible()
    case Some(order) =>
      if order.refunded then Ineligible()
      else if order.status == "processing" then EligibleFor(order)
      else if order.status == "shipped" then Ineligible()
      else if WithinWindow(w, order) then
        if BarredByNotes(w, order) then Ineligible() else EligibleFor(order)
      else
        var warranty := order.productId in w.products && w.products[order.productId].warrantyMonths > 0;
        Ineligible().(warrantyActive := warranty)
  }

  /** The order's notes, a space and its product's notes, in lower case; empty if the product is unknown. */
  function NotesOf(w: World, order: Order): string {
    if order.productId in w.products then Lower(order.notes + " " + w.products[order.productId].notes) else ""
  }

  /** An "eligible" answer vouches for one unrefunded order of the table at exactly its own amount: one still
      processing, or else one not in transit, on a day up to its deadline, without a note that bars returns.
      Every other answer names no amount, and none is an error. The warranty is mentioned exactly when no
      deadline lies ahead and the product still has one. */
  lemma EligibleAnswers(w: World, orderId: Value)
    ensures var r := EligibilityCheck(w, orderId);
      && !IsError(r) && r.eligible.Some?
      && (r.eligible == Some(true) <==> r.refundable.Some?)
      && (r.warrantyActive <==>
            && orderId.Text? && orderId.text in w.orders
            && var order := w.orders[orderId.text];
               && !order.refunded && order.status != "processing" && order.status != "shipped"
               && (forall day :: order.returnDeadline == Some(day) ==> day < w.today)
               && order.productId in w.products && w.products[order.productId].warrantyMonths > 0)
      && (r.eligible == Some(true) <==>
            && orderId.Text? && orderId.text in w.orders
            && var order := w.orders[orderId.text];
               && !order.refunded
               && r.refundable == Some(Finite(order.amount))
               && (order.status == "processing"
                   || (&& order.status != "shipped"
                       && (exists day :: order.returnDeadline == Some(day) && w.today <= day)
                       && !Contains(NotesOf(w, order), "non-returnable")
                       && !Contains(NotesOf(w, order), "registered online"))))
  {
    hide Contains, Lower;
    assert !Contains("", "non-returnable") && !Contains("", "registered online") by {
      NothingContained();
    }
    var found := Find(w, orderId);
    assert found.Some? && found.value.returnDeadline.Some? ==>
      found.value.returnDeadline == Some(found.value.returnDeadline.value);
  }

  lemma NothingContained()
    ensures !Contains("", "non-returnable") && !Contains("", "registered online")
  {
  }

  /** A delivered order that its notes do not bar can be refunded up to and on the day of its deadline, and on
      no later one. */
  lemma EligibilityExpires(w: World, id: string, deadline: int, day: int)
    requires id in w.orders && !w.orders[id].refunded && w.orders[id].status == "delivered"
    requires w.orders[id].returnDeadline == Some(deadline)
    requires !Contains(NotesOf(w, w.orders[id]), "non-returnable")
    requires !Contains(NotesOf(w, w.orders[id]), "registered online")
    ensures EligibilityCheck(w.(today := day), Text(id)).eligible == Some(true) <==> day <= deadline
  {
    var there := w.(today := day);
    assert NotesOf(there, there.orders[id]) == NotesOf(w, w.orders[id]);
    hide Contains, Lower;
    EligibleAnswers(there, Text(id));
  }

  // ── write tools ──

  function MarkRefunded(w: World, orderId: string): World
    requires orderId in w.orders
  {
    w.(orders := w.orders[orderId := w.orders[orderId].(refunded := true)])
  }

  /** float(amount) is evaluated after the order has been marked; when it raises, the mark stays. */
  function RefundStep(w: World, orderId: Value, amount: Value): (World, ToolResult) {
    match Find(w, orderId)
    case None =>
      (w, FailureResult(NotFoundText(Str(orderId))))
    case Some(order) =>
      if order.refunded then (w, FailureResult(AlreadyRefundedText(orderId.text)))
      else
        var marked := MarkRefunded(w, orderId.text);
        match Float(amount)
        case None => (marked, ErrorResult(AmountText(amount)))
        case Some(money) =>
          (marked.(refundLog := w.refundLog + [Refund(orderId.text, money)]),
           PLAIN.(success := Some(true), amount := Some(money)))
  }

  function ReplyStep(w: World, ticketId: Value, message: Value): (World, ToolResult) {
    if IsBlank(message) then (w, FailureResult("reply message must not be empty."))
    else (w.(replyLog := w.replyLog + [Reply(ticketId, message)]), PLAIN.(success := Some(true)))
  }

  function EscalateStep(w: World, ticketId: Value, summary: Value, priority: Value): (World, ToolResult) {
    var known := priority in [Text("low"), Text("medium"), Text("high"), Text("urgent")];
    var used := if known then priority else Text("medium");
    (w.(escalationLog := w.escalationLog + [Escalation(ticketId, summary, used)]), PLAIN.(success := Some(true)))
  }

  // ── dispatch ──

  /** fn(**args) binds: exactly the declared parameters, the optional one apart. */
  predicate Binds(tool: Tool, args: Args) {
    match tool
    case GetOrder => args.Keys == {OrderIdKey}
    case GetCustomer => args.Keys == {EmailKey}
    case GetProduct => args.Keys == {ProductIdKey}
    case SearchKnowledgeBase => args.Keys == {QueryKey}
    case CheckRefundEligibility => args.Keys == {OrderIdKey}
    case IssueRefund => args.Keys == {OrderIdKey, AmountKey}
    case SendReply => args.Keys == {TicketIdKey, MessageKey}
    case Escalate => args.Keys - {PriorityKey} == {TicketIdKey, SummaryKey}
    case Unregistered(_) => false
  }

  function Required(tool: Tool): seq<Key> {
    match tool
    case GetOrder => [OrderIdKey]
    case GetCustomer => [EmailKey]
    case GetProduct => [ProductIdKey]
    case SearchKnowledgeBase => [QueryKey]
    case CheckRefundEligibility => [OrderIdKey]
    case IssueRefund => [OrderIdKey, AmountKey]
    case SendReply => [TicketIdKey, MessageKey]
    case Escalate => [TicketIdKey, SummaryKey]
    case Unregistered(_) => []
  }

  function Unexpected(tool: Tool, args: Args): set<Key> {
    set key | key in args && key !in Required(tool) && !(tool == Escalate && key == PriorityKey)
  }

  function Missing(keys: seq<Key>, args: Args): seq<Key> {
    if keys == [] then []
    else (if keys[0] in args then [] else [keys[0]]) + Missing(keys[1..], args)
  }

  lemma MissingIff(keys: seq<Key>, args: Args)
    ensures Missing(keys, args) == [] <==> forall key :: key in keys ==> key in args
    ensures |Missing(keys, args)| <= |keys| && forall key :: key in Missing(keys, args) ==> key in keys
  {
    if keys != [] {
      MissingIff(keys[1..], args);
      assert keys == [keys[0]] + keys[1..];
    }
  }

  /** A call binds exactly if no argument is unexpected and no required one missing. */
  lemma BindsIff(tool: Tool, args: Args)
    requires !tool.Unregistered?
    ensures Binds(tool, args) <==> Unexpected(tool, args) == {} && Missing(Required(tool), args) == []
  {
    var keys := Required(tool);
    MissingIff(keys, args);
    assert Missing(keys, args) == [] <==> forall key :: key in keys ==> key in args;
    if Binds(tool, args) {
      forall key | key in args ensures key in keys || (tool == Escalate && key == PriorityKey) {
        assert key in args.Keys && (key != PriorityKey ==> key in args.Keys - {PriorityKey});
      }
      forall key | key in keys ensures key in args {
        assert key in args.Keys - {PriorityKey};
      }
    }
    if Unexpected(tool, args) == {} && Missing(keys, args) == [] {
      forall key | key in args ensures key in keys || (tool == Escalate && key == PriorityKey) {
        assert key !in Unexpected(tool, args);
      }
      assert keys[0] in args && keys[|keys| - 1] in args;
      assert args.Keys - {PriorityKey} == {keys[0], keys[|keys| - 1]};
      assert tool != Escalate ==> args.Keys == {keys[0], keys[|keys| - 1]};
    }
  }

  function KeyName(key: Key): string {
    match key
    case OrderIdKey => "order_id"
    case AmountKey => "amount"
    case TicketIdKey => "ticket_id"
    case MessageKey => "message"
    case SummaryKey => "summary"
    case PriorityKey => "priority"
    case EmailKey => "email"
    case ProductIdKey => "product_id"
    case QueryKey => "query"
    case OtherKey(name) => Lower(name)
  }

  /** What the TypeError of a call that does not bind says of it: the first unexpected argument, or else
      the missing ones. */
  function BindText(tool: Tool, args: Args, first: Key): string {
    var missing := Missing(Required(tool), args);
    if Unexpected(tool, args) != {} then ") got an unexpected keyword argument '" + KeyName(first) + "'"
    else if |missing| == 1 then ") missing 1 required positional argument: '" + KeyName(missing[0]) + "'"
    else if |missing| == 2 then
      ") missing 2 required positional arguments: '" + KeyName(missing[0]) + "' and '" + KeyName(missing[1]) + "'"
    else ""
  }

  function BadArgumentsText(tool: Tool, args: Args, first: Key): string {
    "bad arguments for '" + Name(tool) + "': " + Name(tool) + "(" + BindText(tool, args, first)
  }

  /** One raw dispatch; an injected failure is the exception text the resilient wrapper makes of it. */
  function ExecuteTool(w: World, tool: Tool, args: Args, env: Env): (World, ToolResult) {
    if tool.Unregistered? then (w, ErrorResult("unknown tool '" + Lower(tool.name) + "'."))
    else if !Binds(tool, args) then (w, ErrorResult(BadArgumentsText(tool, args, env.first)))
    else if env.fails then (w, ErrorResult(UnavailableText(tool)))
    else match tool
      case GetOrder => (w, GetOrderResult(w, args[OrderIdKey]))
      case CheckRefundEligibility => (w, EligibilityCheck(w, args[OrderIdKey]))
      case IssueRefund => RefundStep(w, args[OrderIdKey], args[AmountKey])
      case SendReply => ReplyStep(w, args[TicketIdKey], args[MessageKey])
      case Escalate =>
        var priority := if PriorityKey in args then args[PriorityKey] else Text("medium");
        EscalateStep(w, args[TicketIdKey], args[SummaryKey], priority)
      case _ => (w, env.lookup)
  }

  /** Plain lookups answer with records, which carry no "success" key. */
  predicate LookupShape(env: Env) {
    env.lookup.success == None
  }

  /** Every way a tool reports failure carries an "error" key. */
  lemma FailureCarriesError(w: World, tool: Tool, args: Args, env: Env)
    requires LookupShape(env)
    ensures IsError(ExecuteTool(w, tool, args, env).1) <==> ExecuteTool(w, tool, args, env).1.error.Some?
  {
  }

  /** Only a refund that reports success writes to the refund log, and only issue_refund touches the
      order table; a refund leaves every other order alone. */
  lemma LedgerFrame(w: World, tool: Tool, args: Args, env: Env)
    ensures var (w', r) := ExecuteTool(w, tool, args, env);
      && w'.products == w.products && w'.today == w.today
      && w'.orders.Keys == w.orders.Keys
      && (tool != IssueRefund ==> w'.orders == w.orders && w'.refundLog == w.refundLog)
      && (tool == IssueRefund && r.success != Some(true) ==> w'.refundLog == w.refundLog)
      && (tool == IssueRefund && r.success == Some(true) ==>
            && Binds(tool, args) && args[OrderIdKey].Text? && args[AmountKey].Number?
            && var id := args[OrderIdKey].text;
               && id in w.orders && !w.orders[id].refunded
               && w'.orders == w.orders[id := w.orders[id].(refunded := true)]
               && w'.refundLog == w.refundLog + [Refund(id, args[AmountKey].number)]
               && r.amount == Some(args[AmountKey].number) && r.error == None)
  {
    hide AmountText, NotFoundText, AlreadyRefundedText, Str, Name, BadArgumentsText, UnavailableText;
  }

  /** The urgency an escalation is logged with. */
  function Urgency(priority: Value): Value {
    match priority
    case Text("low") => priority
    case Text("high") => priority
    case Text("urgent") => priority
    case _ => Text("medium")
  }

  /** A reply and an escalation are logged exactly when they report success, each as one line that says what the
      call said, an unknown priority read as medium; no other tool writes to these logs. */
  lemma TerminalCallsAreLogged(w: World, tool: Tool, args: Args, env: Env)
    ensures var (w', r) := ExecuteTool(w, tool, args, env); var done := r.success == Some(true);
      && (tool == SendReply && done ==>
            w'.replyLog == w.replyLog + [Reply(Get(args, TicketIdKey), Get(args, MessageKey))])
      && (tool != SendReply || !done ==> w'.replyLog == w.replyLog)
      && (tool == Escalate && done ==>
            var line := Escalation(Get(args, TicketIdKey), Get(args, SummaryKey), Urgency(Get(args, PriorityKey)));
            w'.escalationLog == w.escalationLog + [line])
      && (tool != Escalate || !done ==> w'.escalationLog == w.escalationLog)
  {
    hide AmountText, NotFoundText, AlreadyRefundedText, Str, Name, BadArgumentsText, UnavailableText, IsBlank,
      GetOrderResult, EligibilityCheck, Lower;
  }

  /** Marking and logging happen together, or not at all, exactly when the amount is numeric or the
      order cannot be refunded anyway. */
  lemma RefundIsAtomicIff(w: World, orderId: Value, amount: Value)
    ensures var (w', _) := RefundStep(w, orderId, amount);
      (w'.orders == w.orders <==> w'.refundLog == w.refundLog)
      <==> (Float(amount).Some? || Find(w, orderId) == None || Find(w, orderId).value.refunded)
  {
    hide AmountText, NotFoundText, AlreadyRefundedText, Str;
    var (w', _) := RefundStep(w, orderId, amount);
    if Find(w, orderId).Some? && !Find(w, orderId).value.refunded {
      assert w'.orders[orderId.text].refunded;
      assert w'.orders != w.orders;
      if Float(amount).Some? {
        assert |w'.refundLog| == |w.refundLog| + 1;
      }
    }
  }

  /** The process-wide tables and logs, mutated by the write tools. */
  class Backend {
    var orders: map<string, Order>
    const products: map<string, Product>
    const today: int
    var refundLog: seq<Refund>
    var replyLog: seq<Reply>
    var escalationLog: seq<Escalation>

    constructor (orders: map<string, Order>, products: map<string, Product>, today: int)
      ensures View() == World(orders, products, today, [], [], [])
    {
      this.orders, this.products, this.today := orders, products, today;
      refundLog, replyLog, escalationLog := [], [], [];
    }

    function View(): World
      reads this
    {
      World(orders, products, today, refundLog, replyLog, escalationLog)
    }

    /** The body under the refund lock. */
    method IssueRefundLocked(orderId: Value, amount: Value) returns (result: ToolResult)
      modifies this`orders, this`refundLog
      ensures (View(), result) == RefundStep(old(View()), orderId, amount)
    {
      hide AmountText, NotFoundText, AlreadyRefundedText, Str;
      if !orderId.Text? || orderId.text !in orders {
        return FailureResult(NotFoundText(Str(orderId)));
      }
      var order := orders[orderId.text];
      if order.refunded {
        return FailureResult(AlreadyRefundedText(orderId.text));
      }
      orders := orders[orderId.text := order.(refunded := true)];
      var money := Float(amount);
      if money.None? {
        return ErrorResult(AmountText(amount));
      }
      refundLog := refundLog + [Refund(orderId.text, money.value)];
      result := PLAIN.(success := Some(true), amount := money);
    }

    method Execute(tool: Tool, args: Args, env: Env) returns (result: ToolResult)
      modifies this
      ensures (View(), result) == ExecuteTool(old(View()), tool, args, env)
    {
      if tool.Unregistered? {
        return ErrorResult("unknown tool '" + Lower(tool.name) + "'.");
      }
      if !Binds(tool, args) {
        return ErrorResult(BadArgumentsText(tool, args, env.first));
      }
      if env.fails {
        return ErrorResult(UnavailableText(tool));
      }
      match tool {
        case GetOrder => result := GetOrderResult(View(), args[OrderIdKey]);
        case CheckRefundEligibility => result := EligibilityCheck(View(), args[OrderIdKey]);
        case IssueRefund => result := IssueRefundLocked(args[OrderIdKey], args[AmountKey]);
        case SendReply =>
          if IsBlank(args[MessageKey]) {
            return FailureResult("reply message must not be empty.");
          }
          replyLog := replyLog + [Reply(args[TicketIdKey], args[MessageKey])];
          result := PLAIN.(success := Some(true));
        case Escalate =>
          var priority := if PriorityKey in args then args[PriorityKey] else Text("medium");
          if priority !in [Text("low"), Text("medium"), Text("high"), Text("urgent")] {
            priority := Text("medium");
          }
          escalationLog := escalationLog + [Escalation(args[TicketIdKey], args[SummaryKey], priority)];
          result := PLAIN.(success := Some(true));
        case _ => result := env.lookup;
      }
    }
  }
}
