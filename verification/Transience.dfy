/** Which answers are taken for transient and retried (tools/resilient.py, tools/impls.py). */
module Transience {
  import opened Schemas
  import opened Texts
  import opened Tools
  import opened Resilient

  /** No marker can begin inside this text. */
  predicate ClearStart(text: string) {
    && NoStart(text, "temporarily unavailable") && NoStart(text, "timeout") && NoStart(text, "timed out")
    && NoStart(text, "please retry") && NoStart(text, "rate limit")
  }

  /** No marker can end inside this text. */
  predicate ClearEnd(text: string) {
    && NoEnd(text, "temporarily unavailable") && NoEnd(text, "timeout") && NoEnd(text, "timed out")
    && NoEnd(text, "please retry") && NoEnd(text, "rate limit")
  }

  lemma MarkerIsInside(left: string, text: string, right: string)
    requires ClearStart(left) && ClearEnd(right)
    ensures HasMarker(left + text + right) <==> HasMarker(text)
  {
    hide NoStart, NoEnd, Contains;
    ContainsFramed(left, text, right, "temporarily unavailable");
    ContainsFramed(left, text, right, "timeout");
    ContainsFramed(left, text, right, "timed out");
    ContainsFramed(left, text, right, "please retry");
    ContainsFramed(left, text, right, "rate limit");
  }

  lemma EmptyHasNoMarker()
    ensures !HasMarker("")
  {
    assert forall needle, i: nat :: OccursAt("", needle, i) ==> needle == "";
  }

  lemma FixedTextIsPermanent(first: string, second: string)
    requires ClearStart(first) && ClearStart(second)
    ensures !HasMarker(first + second)
  {
    hide ClearStart, HasMarker;
    assert ClearEnd("");
    MarkerIsInside(first, second, "");
    MarkerIsInside(second, "", "");
    EmptyHasNoMarker();
    assert first + second + "" == first + second && second + "" + "" == second;
  }

  lemma ClearJoin(a: string, b: string)
    requires ClearStart(a) && ClearStart(b)
    ensures ClearStart(a + b)
  {
    hide NoStart;
    NoStartJoin(a, b, "temporarily unavailable");
    NoStartJoin(a, b, "timeout");
    NoStartJoin(a, b, "timed out");
    NoStartJoin(a, b, "please retry");
    NoStartJoin(a, b, "rate limit");
  }

  lemma ParenthesisIsClear(text: string)
    requires ClearStart(text + "'")
    ensures ClearStart(text + "(")
  {
    hide NoStart;
    assert text + "'" == text + ['\''] && text + "(" == text + ['('];
    NoStartSwap(text, '\'', '(', "temporarily unavailable");
    NoStartSwap(text, '\'', '(', "timeout");
    NoStartSwap(text, '\'', '(', "timed out");
    NoStartSwap(text, '\'', '(', "please retry");
    NoStartSwap(text, '\'', '(', "rate limit");
  }

  // ── the wording of the errors ──

  lemma OrderOpeningsAreClear()
    ensures ClearStart("order '") && ClearStart("order ")
  {
  }

  lemma OtherOpeningsAreClear()
    ensures ClearStart("unknown tool '") && ClearStart("bad arguments for '")
  {
  }

  lemma QuotedClosingsAreClear()
    ensures ClearEnd("' not found.") && ClearEnd("' not found in the system.") && ClearEnd("'.") && ClearEnd("'")
  {
  }

  lemma RefundedClosingIsClear()
    ensures ClearEnd(" was already refunded.")
  {
  }

  lemma ReplyWordsAreClear()
    ensures ClearStart("reply message ") && ClearStart("must not be empty.")
  {
  }

  lemma EmptyReplyIsPermanent()
    ensures !HasMarker("reply message must not be empty.")
  {
    hide ClearStart, HasMarker;
    ReplyWordsAreClear();
    FixedTextIsPermanent("reply message ", "must not be empty.");
    assert "reply message " + "must not be empty." == "reply message must not be empty.";
  }

  lemma OrderWordsAreClear()
    ensures ClearStart("order_id must be ") && ClearStart("a non-empty string.")
  {
  }

  lemma BlankOrderIsPermanent()
    ensures !HasMarker("order_id must be a non-empty string.")
  {
    hide ClearStart, HasMarker;
    OrderWordsAreClear();
    FixedTextIsPermanent("order_id must be ", "a non-empty string.");
    assert "order_id must be " + "a non-empty string." == "order_id must be a non-empty string.";
  }

  lemma LookupNamesAreClear()
    ensures ClearStart("get_order'") && ClearStart("get_customer'") && ClearStart("get_product'")
  {
  }

  lemma SearchNameIsClear()
    ensures ClearStart("search_knowledge_base'")
  {
  }

  lemma CheckNameIsClear()
    ensures ClearStart("check_refund_eligibility'")
  {
  }

  lemma WriteNamesAreClear()
    ensures ClearStart("issue_refund'") && ClearStart("send_reply'") && ClearStart("escalate'")
  {
  }

  lemma ToolNameIsClear(tool: Tool)
    requires !tool.Unregistered?
    ensures ClearStart(Name(tool) + "'")
  {
    hide ClearStart;
    LookupNamesAreClear();
    SearchNameIsClear();
    CheckNameIsClear();
    WriteNamesAreClear();
    match tool {
      case GetOrder => assert Name(tool) + "'" == "get_order'";
      case GetCustomer => assert Name(tool) + "'" == "get_customer'";
      case GetProduct => assert Name(tool) + "'" == "get_product'";
      case SearchKnowledgeBase => assert Name(tool) + "'" == "search_knowledge_base'";
      case CheckRefundEligibility => assert Name(tool) + "'" == "check_refund_eligibility'";
      case IssueRefund => assert Name(tool) + "'" == "issue_refund'";
      case SendReply => assert Name(tool) + "'" == "send_reply'";
      case Escalate => assert Name(tool) + "'" == "escalate'";
    }
  }

  lemma ArgumentNamesAreClear()
    ensures ClearStart("order_id'") && ClearStart("amount'") && ClearStart("ticket_id'")
  {
  }

  lemma OtherArgumentNamesAreClear()
    ensures ClearStart("message'") && ClearStart("summary'") && ClearStart("email'") && ClearStart("query'")
  {
  }

  lemma ProductNameIsClear()
    ensures ClearStart("product_id'")
  {
  }

  lemma RequiredNameIsClear(tool: Tool, key: Key)
    requires key in Required(tool)
    ensures ClearStart(KeyName(key) + "'")
  {
    hide ClearStart;
    ArgumentNamesAreClear();
    OtherArgumentNamesAreClear();
    ProductNameIsClear();
    match key {
      case OrderIdKey => assert KeyName(key) + "'" == "order_id'";
      case AmountKey => assert KeyName(key) + "'" == "amount'";
      case TicketIdKey => assert KeyName(key) + "'" == "ticket_id'";
      case MessageKey => assert KeyName(key) + "'" == "message'";
      case SummaryKey => assert KeyName(key) + "'" == "summary'";
      case EmailKey => assert KeyName(key) + "'" == "email'";
      case ProductIdKey => assert KeyName(key) + "'" == "product_id'";
      case QueryKey => assert KeyName(key) + "'" == "query'";
    }
  }

  /** "bad arguments for 'f': f(" */
  lemma CallOpeningIsClear(tool: Tool)
    requires !tool.Unregistered?
    ensures ClearStart("bad arguments for '" + Name(tool) + "': " + Name(tool) + "(")
  {
    hide ClearStart, Name;
    var name := Name(tool);
    OtherOpeningsAreClear();
    ToolNameIsClear(tool);
    ParenthesisIsClear(name);
    ColonIsClear();
    ClearJoin("bad arguments for '", name + "'");
    ClearJoin("bad arguments for '" + (name + "'"), ": ");
    ClearJoin("bad arguments for '" + (name + "'") + ": ", name + "(");
    assert "bad arguments for '" + (name + "'") + ": " + (name + "(")
        == "bad arguments for '" + name + "': " + name + "(";
  }

  lemma ColonIsClear()
    ensures ClearStart(": ")
  {
  }

  lemma UnexpectedWordsAreClear()
    ensures ClearStart(") got an ") && ClearStart("unexpected keyword ") && ClearStart("argument '")
  {
  }

  lemma UnexpectedOpeningIsClear()
    ensures ClearStart(") got an unexpected keyword argument '")
  {
    hide ClearStart;
    UnexpectedWordsAreClear();
    var a := ") got an " + "unexpected keyword ";
    ClearJoin(") got an ", "unexpected keyword ");
    ClearJoin(a, "argument '");
    assert a + "argument '" == ") got an unexpected keyword argument '";
  }

  lemma MissingWordsAreClear()
    ensures ClearStart(") missing 1 required ") && ClearStart(") missing 2 required ")
  {
  }

  lemma PositionalWordsAreClear()
    ensures ClearStart("positional argumen") && ClearStart("t: '") && ClearStart("ts: '") && ClearStart(" and '")
  {
  }

  lemma OneMissingIsClear(key: string)
    requires ClearStart(key + "'")
    ensures ClearStart(") missing 1 required positional argument: '" + key + "'")
  {
    hide ClearStart;
    MissingWordsAreClear();
    PositionalWordsAreClear();
    var a := ") missing 1 required " + "positional argumen";
    ClearJoin(") missing 1 required ", "positional argumen");
    ClearJoin(a, "t: '");
    ClearJoin(a + "t: '", key + "'");
    assert a + "t: '" == ") missing 1 required positional argument: '";
    assert a + "t: '" + (key + "'") == ") missing 1 required positional argument: '" + key + "'";
  }

  lemma TwoMissingAreClear(first: string, second: string)
    requires ClearStart(first + "'") && ClearStart(second + "'")
    ensures ClearStart(") missing 2 required positional arguments: '" + first + "' and '" + second + "'")
  {
    hide ClearStart;
    MissingWordsAreClear();
    PositionalWordsAreClear();
    var a := ") missing 2 required " + "positional argumen";
    var b := a + "ts: '" + (first + "'");
    ClearJoin(") missing 2 required ", "positional argumen");
    ClearJoin(a, "ts: '");
    ClearJoin(a + "ts: '", first + "'");
    ClearJoin(b, " and '");
    ClearJoin(b + " and '", second + "'");
    assert a + "ts: '" == ") missing 2 required positional arguments: '";
    assert b + " and '" + (second + "'")
        == ") missing 2 required positional arguments: '" + first + "' and '" + second + "'";
  }

  lemma CrashIsClear()
    ensures ClearStart("tool 'issue_refund' ") && ClearStart("crashed: ")
  {
  }

  lemma ConversionWordsAreClear()
    ensures ClearStart("could not convert ") && ClearStart("string to float: ")
  {
  }

  /** What stands before the quoted amount. */
  lemma RejectionIsClear()
    ensures ClearStart("tool 'issue_refund' crashed: " + "could not convert string to float: ")
  {
    hide ClearStart;
    CrashIsClear();
    ConversionWordsAreClear();
    ClearJoin("tool 'issue_refund' ", "crashed: ");
    ClearJoin("could not convert ", "string to float: ");
    assert "tool 'issue_refund' " + "crashed: " == "tool 'issue_refund' crashed: ";
    assert "could not convert " + "string to float: " == "could not convert string to float: ";
    ClearJoin("tool 'issue_refund' crashed: ", "could not convert string to float: ");
  }

  lemma FloatWordsAreClear()
    ensures ClearStart("float() argument ") && ClearStart("must be a string ")
  {
  }

  lemma RealWordsAreClear()
    ensures ClearStart("or a real number, ") && ClearStart("not 'nonetype'")
  {
  }

  lemma TypeErrorIsClear()
    ensures ClearStart(TypeErrorText())
  {
    hide ClearStart;
    FloatWordsAreClear();
    RealWordsAreClear();
    ClearJoin("float() argument ", "must be a string ");
    ClearJoin("or a real number, ", "not 'nonetype'");
    assert "float() argument " + "must be a string " == "float() argument must be a string ";
    assert "or a real number, " + "not 'nonetype'" == "or a real number, not 'nonetype'";
    ClearJoin("float() argument must be a string ", "or a real number, not 'nonetype'");
  }

  lemma RefundOpeningIsClear()
    ensures ClearStart("bad arguments for 'issue_refund': ")
  {
    hide ClearStart;
    OtherOpeningsAreClear();
    WriteNamesAreClear();
    ColonIsClear();
    var a := "bad arguments for '" + "issue_refund'";
    ClearJoin("bad arguments for '", "issue_refund'");
    ClearJoin(a, ": ");
    assert a + ": " == "bad arguments for 'issue_refund': ";
  }

  lemma NoAmountIsPermanent()
    ensures !HasMarker(AmountText(Null))
  {
    hide ClearStart, HasMarker, TypeErrorText;
    RefundOpeningIsClear();
    TypeErrorIsClear();
    FixedTextIsPermanent("bad arguments for 'issue_refund': ", TypeErrorText());
  }

  // ── the errors documented as permanent ──

  /** A refund of an unknown order is retried exactly when the id itself carries a marker. */
  lemma NotFoundIsRetriedIff(orderId: string)
    ensures IsTransient(FailureResult(NotFoundText(orderId))) <==> HasMarker(Lower(orderId))
  {
    hide ClearStart, ClearEnd, HasMarker;
    OrderOpeningsAreClear();
    QuotedClosingsAreClear();
    MarkerIsInside("order '", Lower(orderId), "' not found.");
  }

  /** So is a look-up of an unknown order. */
  lemma NoSuchOrderIsRetriedIff(orderId: string)
    ensures HasMarker("order '" + Lower(orderId) + "' not found in the system.") <==> HasMarker(Lower(orderId))
  {
    hide ClearStart, ClearEnd, HasMarker;
    OrderOpeningsAreClear();
    QuotedClosingsAreClear();
    MarkerIsInside("order '", Lower(orderId), "' not found in the system.");
  }

  /** So is a second refund, although nothing delimits the id there. */
  lemma AlreadyRefundedIsRetriedIff(orderId: string)
    ensures IsTransient(FailureResult(AlreadyRefundedText(orderId))) <==> HasMarker(Lower(orderId))
  {
    hide ClearStart, ClearEnd, HasMarker;
    OrderOpeningsAreClear();
    RefundedClosingIsClear();
    MarkerIsInside("order ", Lower(orderId), " was already refunded.");
  }

  /** So is a call of an unknown tool, by its name. */
  lemma UnknownToolIsRetriedIff(name: string)
    ensures HasMarker("unknown tool '" + Lower(name) + "'.") <==> HasMarker(Lower(name))
  {
    hide ClearStart, ClearEnd, HasMarker;
    OtherOpeningsAreClear();
    QuotedClosingsAreClear();
    MarkerIsInside("unknown tool '", Lower(name), "'.");
  }

  /** So is a call with unexpected arguments, by the name of the first of them. */
  lemma UnexpectedIsRetriedIff(tool: Tool, args: Args, first: Key)
    requires !tool.Unregistered? && Unexpected(tool, args) != {}
    ensures HasMarker(BadArgumentsText(tool, args, first)) <==> HasMarker(KeyName(first))
  {
    hide ClearStart, ClearEnd, HasMarker, Name, KeyName, Unexpected;
    var opening := "bad arguments for '" + Name(tool) + "': " + Name(tool) + "(";
    var words := ") got an unexpected keyword argument '";
    CallOpeningIsClear(tool);
    UnexpectedOpeningIsClear();
    QuotedClosingsAreClear();
    ClearJoin(opening, words);
    MarkerIsInside(opening + words, KeyName(first), "'");
    assert opening + words + KeyName(first) + "'" == BadArgumentsText(tool, args, first);
  }

  lemma MissingShape(tool: Tool, args: Args) returns (missing: seq<Key>)
    requires !tool.Unregistered? && !Binds(tool, args) && Unexpected(tool, args) == {}
    ensures missing == Missing(Required(tool), args) && 1 <= |missing| <= 2
    ensures forall key :: key in missing ==> key in Required(tool)
  {
    BindsIff(tool, args);
    MissingIff(Required(tool), args);
    missing := Missing(Required(tool), args);
  }

  lemma MissingTextIsClear(tool: Tool, args: Args, first: Key)
    requires !tool.Unregistered? && !Binds(tool, args) && Unexpected(tool, args) == {}
    ensures ClearStart(BindText(tool, args, first))
  {
    hide ClearStart, KeyName, Unexpected, Missing, Required, Binds;
    var missing := MissingShape(tool, args);
    RequiredNameIsClear(tool, missing[0]);
    if |missing| == 1 {
      OneMissingIsClear(KeyName(missing[0]));
    } else {
      RequiredNameIsClear(tool, missing[1]);
      TwoMissingAreClear(KeyName(missing[0]), KeyName(missing[1]));
    }
  }

  /** A call that merely lacks arguments never is. */
  lemma MissingIsPermanent(tool: Tool, args: Args, first: Key)
    requires !tool.Unregistered? && !Binds(tool, args) && Unexpected(tool, args) == {}
    ensures !HasMarker(BadArgumentsText(tool, args, first))
  {
    hide ClearStart, HasMarker, Name, Unexpected, BindText, Binds;
    CallOpeningIsClear(tool);
    MissingTextIsClear(tool, args, first);
    FixedTextIsPermanent("bad arguments for '" + Name(tool) + "': " + Name(tool) + "(", BindText(tool, args, first));
  }

  /** Each of the five phrases makes an error transient, wherever it stands. */
  lemma PhrasesAreMarkers(before: string, after: string)
    ensures HasMarker(before + "temporarily unavailable" + after)
    ensures HasMarker(before + "timeout" + after) && HasMarker(before + "timed out" + after)
    ensures HasMarker(before + "please retry" + after) && HasMarker(before + "rate limit" + after)
  {
    hide Contains;
    ContainsMiddle(before, "temporarily unavailable", after);
    ContainsMiddle(before, "timeout", after);
    ContainsMiddle(before, "timed out", after);
    ContainsMiddle(before, "please retry", after);
    ContainsMiddle(before, "rate limit", after);
  }

  /** A refund whose amount float() rejects is retried exactly when the amount, as the error quotes it,
      carries a marker. */
  lemma RejectedAmountIsRetriedIff(s: string)
    ensures HasMarker(AmountText(Text(s))) <==> HasMarker(Lower(Repr(s)))
  {
    hide ClearStart, HasMarker, Lower, Repr;
    RejectionIsClear();
    assert ClearEnd("");
    var crash, words, quoted := "tool 'issue_refund' crashed: ", "could not convert string to float: ", Lower(Repr(s));
    MarkerIsInside(crash + words, quoted, "");
    assert crash + words + quoted + "" == crash + (words + quoted);
  }

  predicate MarkedAmount(amount: Value) {
    amount.Text? && HasMarker(Lower(Repr(amount.text)))
  }

  /** For an amount that needs no escaping, that is whether the amount itself carries one. */
  lemma PlainAmountIsMarkedIff(s: string)
    requires Plain(s)
    ensures MarkedAmount(Text(s)) <==> HasMarker(Lower(s))
  {
    PlainRepr(s);
    LowerConcat("'" + s, "'");
    LowerConcat("'", s);
    assert Lower("'") == "'";
    assert ClearStart("'") && ClearEnd("'");
    hide HasMarker;
    MarkerIsInside("'", Lower(s), "'");
  }

  lemma NonTextIsUnmarked(v: Value)
    requires !v.Text?
    ensures !HasMarker(Lower(Str(v)))
  {
    assert |Lower(Str(v))| <= 4;
    TooShortToMark(Lower(Str(v)));
  }

  lemma TooShortToMark(text: string)
    requires |text| < 7
    ensures !HasMarker(text)
  {
  }

  // ── every error ──

  /** The text from outside the program that the error of an attempt repeats, if it repeats any. */
  function Echo(w: World, tool: Tool, args: Args, env: Env): Option<string> {
    if tool.Unregistered? then Some(Lower(tool.name))
    else if !Binds(tool, args) then if Unexpected(tool, args) != {} then Some(KeyName(env.first)) else None
    else if env.fails then None
    else match tool
      case GetOrder =>
        var id := args[OrderIdKey];
        if id.Text? && !IsBlank(id) && Find(w, id) == None then Some(Lower(id.text)) else None
      case IssueRefund =>
        var id := args[OrderIdKey];
        if Find(w, id) == None || Find(w, id).value.refunded then Some(Lower(Str(id)))
        else if args[AmountKey].Text? then Some(Lower(Repr(args[AmountKey].text)))
        else None
      case CheckRefundEligibility => None
      case SendReply => None
      case Escalate => None
      case _ => env.lookup.error
  }

  /** An attempt is retried exactly when its failure was injected or when text from outside, repeated in
      its error, carries a marker. */
  lemma RetriedIff(w: World, tool: Tool, args: Args, env: Env)
    ensures IsTransient(ExecuteTool(w, tool, args, env).1) <==>
      || (!tool.Unregistered? && Binds(tool, args) && env.fails)
      || (Echo(w, tool, args, env).Some? && HasMarker(Echo(w, tool, args, env).value))
  {
    hide HasMarker, Lower, Name, Binds, BadArgumentsText;
    if tool.Unregistered? {
      UnknownToolIsRetriedIff(tool.name);
    } else if !Binds(tool, args) {
      if Unexpected(tool, args) != {} {
        UnexpectedIsRetriedIff(tool, args, env.first);
      } else {
        MissingIsPermanent(tool, args, env.first);
      }
    } else if env.fails {
      UnavailableIsTransient(tool);
    } else {
      BoundAttemptIsRetriedIff(w, tool, args, env);
    }
  }

  lemma BoundAttemptIsRetriedIff(w: World, tool: Tool, args: Args, env: Env)
    requires !tool.Unregistered? && Binds(tool, args) && !env.fails
    ensures IsTransient(ExecuteTool(w, tool, args, env).1)
            <==> Echo(w, tool, args, env).Some? && HasMarker(Echo(w, tool, args, env).value)
  {
    hide HasMarker, Lower, Name, Repr, AmountText;
    if tool == IssueRefund {
      NotFoundIsRetriedIff(Str(args[OrderIdKey]));
      if args[OrderIdKey].Text? {
        AlreadyRefundedIsRetriedIff(args[OrderIdKey].text);
      }
      match args[AmountKey] {
        case Text(s) => RejectedAmountIsRetriedIff(s);
        case Null => NoAmountIsPermanent();
        case Number(_) =>
      }
    } else if tool == GetOrder {
      if args[OrderIdKey].Text? {
        NoSuchOrderIsRetriedIff(args[OrderIdKey].text);
      }
      BlankOrderIsPermanent();
    } else if tool == SendReply {
      EmptyReplyIsPermanent();
    }
  }

  // ── every call ──

  predicate IsLookup(tool: Tool) {
    tool in {GetCustomer, GetProduct, SearchKnowledgeBase}
  }

  /** The call itself contains a marker in some place that an error may repeat. */
  predicate Suspect(tool: Tool, args: Args) {
    if tool.Unregistered? then HasMarker(Lower(tool.name))
    else if !Binds(tool, args) then exists key :: key in Unexpected(tool, args) && HasMarker(KeyName(key))
    else match tool
      case GetOrder =>
        args[OrderIdKey].Text? && !IsBlank(args[OrderIdKey]) && HasMarker(Lower(args[OrderIdKey].text))
      case IssueRefund =>
        args[OrderIdKey].Text? && (HasMarker(Lower(args[OrderIdKey].text)) || MarkedAmount(args[AmountKey]))
      case _ => false
  }

  /** No failure is injected, and the first unexpected argument is one of them. */
  predicate Spared(tool: Tool, args: Args, env: Env) {
    !env.fails && (!tool.Unregistered? && Unexpected(tool, args) != {} ==> env.first in Unexpected(tool, args))
  }

  /** So whether a call can be retried at all without an injected failure, on any ledger, can be read off the
      call: the errors called permanent are permanent exactly for calls without a marker in an order id, an
      unexpected argument's name, a rejected amount or an unknown tool's name. */
  lemma PermanentIff(tool: Tool, args: Args)
    requires !IsLookup(tool) || !Binds(tool, args)
    ensures (forall w, env :: Spared(tool, args, env) ==> !IsTransient(ExecuteTool(w, tool, args, env).1))
            <==> !Suspect(tool, args)
  {
    hide IsTransient, HasMarker, ExecuteTool, KeyName;
    if Suspect(tool, args) {
      SuspectCanBeRetried(tool, args);
    } else {
      forall w, env | Spared(tool, args, env) ensures !IsTransient(ExecuteTool(w, tool, args, env).1) {
        RetriedIff(w, tool, args, env);
        if IsTransient(ExecuteTool(w, tool, args, env).1) {
          EchoIsSuspect(w, tool, args, env);
        }
      }
    }
  }

  lemma EchoIsSuspect(w: World, tool: Tool, args: Args, env: Env)
    requires Spared(tool, args, env) && (!IsLookup(tool) || !Binds(tool, args))
    requires Echo(w, tool, args, env).Some? && HasMarker(Echo(w, tool, args, env).value)
    ensures Suspect(tool, args)
  {
    hide HasMarker, Lower, KeyName;
    if tool == IssueRefund && Binds(tool, args) && !args[OrderIdKey].Text? {
      NonTextIsUnmarked(args[OrderIdKey]);
    }
  }

  lemma SuspectCanBeRetried(tool: Tool, args: Args)
    requires Suspect(tool, args)
    ensures exists w, env :: Spared(tool, args, env) && IsTransient(ExecuteTool(w, tool, args, env).1)
  {
    hide HasMarker, IsTransient, ExecuteTool, Lower, Repr, KeyName;
    var w, env := World(map[], map[], 0, [], [], []), Env(false, PLAIN, OrderIdKey);
    if !tool.Unregistered? && !Binds(tool, args) {
      var key :| key in Unexpected(tool, args) && HasMarker(KeyName(key));
      env := env.(first := key);
    } else if tool == IssueRefund && !HasMarker(Lower(args[OrderIdKey].text)) {
      w := w.(orders := map[args[OrderIdKey].text := Order("", 0.0, "processing", None, "", false)]);
    }
    BindsIffUnless(tool, args);
    RetriedIff(w, tool, args, env);
    assert Spared(tool, args, env) && IsTransient(ExecuteTool(w, tool, args, env).1);
  }

  lemma BindsIffUnless(tool: Tool, args: Args)
    ensures !tool.Unregistered? && Binds(tool, args) ==> Unexpected(tool, args) == {}
  {
    if !tool.Unregistered? {
      BindsIff(tool, args);
    }
  }
}
