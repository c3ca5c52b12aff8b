/** What retrying a call may repeat, and what it costs (tools/resilient.py). */
module Retries {
  import opened Schemas
  import opened Texts
  import opened Tools
  import opened Resilient
  import opened Transience
  import opened Reals

  /** The one way an attempt can both change the ledger and ask to be retried. */
  predicate MarksWithoutLogging(w: World, tool: Tool, args: Args, env: Env) {
    && tool == IssueRefund && Binds(tool, args) && !env.fails
    && Float(args[AmountKey]) == None
    && Find(w, args[OrderIdKey]).Some? && !Find(w, args[OrderIdKey]).value.refunded
  }

  lemma RetriedAttemptChangesNothingIff(w: World, tool: Tool, args: Args, env: Env)
    requires IsTransient(ExecuteTool(w, tool, args, env).1)
    ensures ExecuteTool(w, tool, args, env).0 == w <==> !MarksWithoutLogging(w, tool, args, env)
  {
    if MarksWithoutLogging(w, tool, args, env) {
      assert ExecuteTool(w, tool, args, env).0.orders[args[OrderIdKey].text].refunded;
    }
  }

  /** A refund whose order id is text and whose amount float() rejects. */
  predicate UnpayableRefund(tool: Tool, args: Args) {
    tool == IssueRefund && Binds(tool, args) && args[OrderIdKey].Text? && Float(args[AmountKey]) == None
  }

  /** One whose rejected amount, quoted in the error, makes that error look transient. */
  predicate RepeatedRefund(tool: Tool, args: Args) {
    UnpayableRefund(tool, args) && MarkedAmount(args[AmountKey])
  }

  /** Retrying a call is harmless on every ledger and under every failure pattern, exactly unless the
      call is a refund whose amount float() rejects and whose text carries a transient marker. */
  lemma RetryIsHarmlessIff(tool: Tool, args: Args)
    ensures (forall w, env :: IsTransient(ExecuteTool(w, tool, args, env).1) ==> ExecuteTool(w, tool, args, env).0 == w)
            <==> !RepeatedRefund(tool, args)
  {
    if RepeatedRefund(tool, args) {
      var id := args[OrderIdKey].text;
      var w := World(map[id := Order("", 0.0, "processing", None, "", false)], map[], 0, [], [], []);
      var env := Env(false, PLAIN, OrderIdKey);
      RetriedIff(w, tool, args, env);
      RetriedAttemptChangesNothingIff(w, tool, args, env);
    } else {
      forall w, env | IsTransient(ExecuteTool(w, tool, args, env).1) ensures ExecuteTool(w, tool, args, env).0 == w {
        RetriedChangesNothing(w, tool, args, env);
      }
    }
  }

  lemma RetriedChangesNothing(w: World, tool: Tool, args: Args, env: Env)
    requires !RepeatedRefund(tool, args) && IsTransient(ExecuteTool(w, tool, args, env).1)
    ensures ExecuteTool(w, tool, args, env).0 == w
  {
    RetriedAttemptChangesNothingIff(w, tool, args, env);
    RetriedIff(w, tool, args, env);
    hide IsTransient, HasMarker, Lower, Repr;
  }

  /** What becomes of such a refund of an open order: the second attempt finds the mark of the first, the
      model is told that the order was already refunded, and nothing is logged. */
  lemma RepeatedRefundIsLost(w: World, args: Args, env: nat -> Env, retries: nat, base: real)
    requires RepeatedRefund(IssueRefund, args) && retries >= 1
    requires Find(w, args[OrderIdKey]).Some? && !Find(w, args[OrderIdKey]).value.refunded
    requires !HasMarker(Lower(args[OrderIdKey].text)) && forall i :: !env(i).fails
    ensures var out := Resiliently(w, IssueRefund, args, env, retries, base); var id := args[OrderIdKey].text;
      && out.attempts == 2 && out.result == FailureResult(AlreadyRefundedText(id))
      && out.world == MarkRefunded(w, id) && out.world.refundLog == w.refundLog
  {
    var id, execute := args[OrderIdKey].text, Calling(IssueRefund, args, env);
    var marked, first := MarkRefunded(w, id), ErrorResult(AmountText(args[AmountKey]));
    var again := FailureResult(AlreadyRefundedText(id));
    RetriedIff(w, IssueRefund, args, env(0));
    AlreadyRefundedIsRetriedIff(id);
    hide IsTransient, HasMarker, AmountText, AlreadyRefundedText, Repr;
    assert ExecuteTool(w, IssueRefund, args, env(0)) == (marked, first);
    assert ExecuteTool(marked, IssueRefund, args, env(1)) == (marked, again);
    assert IsTransient(first) && !IsTransient(again);
    hide ExecuteTool, MarkRefunded, Echo;
    TwoAttempts(w, execute, retries, base, NoAttempt(IssueRefund), marked, first, marked, again);
  }

  lemma TwoAttempts(w: World, execute: Executor, retries: nat, base: real, last: ToolResult,
                    w1: World, first: ToolResult, w2: World, second: ToolResult)
    requires retries >= 1
    requires execute(w, 0) == (w1, first) && execute(w1, 1) == (w2, second)
    requires IsTransient(first) && !IsTransient(second)
    ensures var out := Attempts(w, execute, retries, base, 0, last);
      out.world == w2 && out.result == second && out.attempts == 2
  {
    hide IsTransient;
    assert Attempts(w1, execute, retries, base, 1, first) == Outcome(w2, second, 2, []);
  }

  /** "timeout" is such an amount. */
  lemma TimeoutIsMarked()
    ensures MarkedAmount(Text("timeout"))
  {
    PlainAmountIsMarkedIff("timeout");
    assert Lower("timeout") == "timeout";
    ContainsMiddle("", "timeout", "");
    assert "" + "timeout" + "" == "timeout";
  }

  /** And so it is in capitals: the search does not heed the case. */
  lemma CapitalsAreMarked()
    ensures MarkedAmount(Text("TIMEOUT"))
  {
    PlainAmountIsMarkedIff("TIMEOUT");
    assert Lower("TIMEOUT") == "timeout";
    ContainsMiddle("", "timeout", "");
    assert "" + "timeout" + "" == "timeout";
  }

  /** A tab before "imeout" is quoted as a backslash and a t, which makes a marker of text that has none. */
  lemma EscapesCanMark()
    ensures MarkedAmount(Text("\timeout")) && !HasMarker(Lower("\timeout"))
  {
    var s := "\timeout";
    EscapedTab();
    assert Lower(Repr(s)) == "'\\" + "timeout" + "'";
    ContainsMiddle("'\\", "timeout", "'");
    assert Lower(s) == s && |s| == 7;
    forall i: nat ensures !OccursAt(s, "timeout", i) {
      if OccursAt(s, "timeout", i) {
        CharOfOccurrence(s, "timeout", i, 0);
      }
    }
  }

  lemma EscapedTab()
    ensures Repr("\timeout") == "'\\" + "timeout" + "'"
  {
    var s := "\timeout";
    TabNeedsSingleQuotes();
    NothingElseToEscape();
    assert EscapeChar('\t', '\'') == ['\\', 't'];
    hide Escaped, EscapeChar, QuoteOf;
    EscapedFirst(s, '\'');
    assert s[1..] == "imeout";
    assert Escaped(s, '\'') == ['\\', 't'] + "imeout";
  }

  lemma TabNeedsSingleQuotes()
    ensures QuoteOf("\timeout") == '\''
  {
  }

  lemma NothingElseToEscape()
    ensures Escaped("imeout", '\'') == "imeout"
  {
    hide Escaped;
    assert Plain("imeout");
    PlainIsNotEscaped("imeout");
  }

  /** "lots" is not, and neither is a missing one. */
  lemma LotsIsUnmarked()
    ensures !MarkedAmount(Text("lots")) && !MarkedAmount(Null)
  {
    PlainAmountIsMarkedIff("lots");
    assert |Lower("lots")| == 4;
    TooShortToMark(Lower("lots"));
  }

  /** An attempt that asks to be retried leaves the ledger as it was. */
  ghost predicate Harmless(execute: Executor) {
    forall w, i :: IsTransient(execute(w, i).1) ==> execute(w, i).0 == w
  }

  /** The attempts made are the first that does not ask to be retried, or the last of the budget, and
      all of them saw the untouched ledger. */
  lemma {:induction false} RetryIsOneAttempt(w: World, execute: Executor, retries: int, base: real, attempt: nat,
                                             last: ToolResult)
    requires Harmless(execute)
    requires attempt <= retries
    ensures var out := Attempts(w, execute, retries, base, attempt, last);
      && attempt < out.attempts <= retries + 1
      && (forall i :: attempt <= i < out.attempts - 1 ==> IsTransient(execute(w, i).1))
      && (out.world, out.result) == execute(w, out.attempts - 1)
      && (IsTransient(out.result) ==> out.attempts == retries + 1 && out.world == w)
    decreases retries - attempt
  {
    var (next, result) := execute(w, attempt);
    if IsTransient(result) && attempt < retries {
      RetryIsOneAttempt(w, execute, retries, base, attempt + 1, result);
    }
  }

  /** The first wait is the base, and every further one twice the one before. */
  predicate Doubling(waits: seq<real>, base: real) {
    && (waits != [] ==> waits[0] == base)
    && forall i :: 0 <= i < |waits| - 1 ==> waits[i + 1] == 2.0 * waits[i]
  }

  /** There is one wait before each attempt but the first. */
  lemma {:induction false} WaitsDouble(w: World, execute: Executor, retries: int, base: real, attempt: nat,
                                       last: ToolResult)
    requires attempt <= retries
    ensures var out := Attempts(w, execute, retries, base, attempt, last);
      attempt < out.attempts == attempt + 1 + |out.waits| && Doubling(out.waits, base * Pow2(attempt) as real)
    decreases retries - attempt
  {
    var (next, result) := execute(w, attempt);
    if IsTransient(result) && attempt < retries {
      WaitsDouble(next, execute, retries, base, attempt + 1, result);
      var waits := Attempts(next, execute, retries, base, attempt + 1, result).waits;
      TwiceAsLong(base, attempt);
      var all := [base * Pow2(attempt) as real] + waits;
      forall i | 0 <= i < |all| - 1 ensures all[i + 1] == 2.0 * all[i] {
        if i > 0 {
          assert waits[i] == 2.0 * waits[i - 1];
        }
      }
    }
  }

  lemma WaitsFromTheBase(w: World, execute: Executor, retries: nat, base: real, last: ToolResult)
    ensures var out := Attempts(w, execute, retries, base, 0, last);
      out.attempts == 1 + |out.waits| && Doubling(out.waits, base)
  {
    hide Attempts, Doubling;
    var start := base * Pow2(0) as real;
    assert Pow2(0) == 1;
    assert start == base;
    WaitsDouble(w, execute, retries, base, 0, last);
  }

  lemma TwiceAsLong(base: real, n: nat)
    ensures base * Pow2(n + 1) as real == 2.0 * (base * Pow2(n) as real)
  {
    var here := Pow2(n) as real;
    assert Pow2(n + 1) as real == here + here;
    Distribute(here, here, base);
    Commute(here, base);
    Commute(here + here, base);
  }

  function Slept(waits: seq<real>): real {
    if waits == [] then 0.0 else Slept(waits[..|waits| - 1]) + waits[|waits| - 1]
  }

  /** So all waits together are twice the last less the base, and something whenever there was one. */
  lemma {:induction false} SleptInAll(waits: seq<real>, base: real)
    requires Doubling(waits, base)
    ensures waits != [] ==> Slept(waits) == 2.0 * waits[|waits| - 1] - base
    ensures |waits| == 1 ==> Slept(waits) == base
    ensures |waits| == 2 ==> Slept(waits) == 3.0 * base
    ensures base > 0.0 && waits != [] ==> Slept(waits) >= waits[|waits| - 1] >= base
  {
    if waits != [] {
      var before := waits[..|waits| - 1];
      SleptInAll(before, base);
      assert before != [] ==> waits[|before|] == 2.0 * before[|before| - 1];
    }
  }

  /** A whole call has the effect of exactly one attempt, makes at most retries + 1 of them, answers
      with a transient error only once the budget is spent on an untouched ledger, and waits before each
      further attempt, twice as long every time. */
  lemma RetryBudget(w: World, tool: Tool, args: Args, env: nat -> Env, retries: nat, base: real)
    requires !RepeatedRefund(tool, args)
    ensures var out := Resiliently(w, tool, args, env, retries, base);
      && 1 <= out.attempts <= retries + 1
      && (forall i :: 0 <= i < out.attempts - 1 ==> IsTransient(ExecuteTool(w, tool, args, env(i)).1))
      && (out.world, out.result) == ExecuteTool(w, tool, args, env(out.attempts - 1))
      && |out.waits| == out.attempts - 1 && Doubling(out.waits, base)
      && (IsTransient(out.result) ==> out.world == w && out.attempts == retries + 1)
  {
    hide ExecuteTool, IsTransient, Attempts, Doubling;
    var execute := Calling(tool, args, env);
    CallingIsHarmless(tool, args, env);
    RetryIsOneAttempt(w, execute, retries, base, 0, NoAttempt(tool));
    WaitsFromTheBase(w, execute, retries, base, NoAttempt(tool));
    var out := Attempts(w, execute, retries, base, 0, NoAttempt(tool));
    forall i | 0 <= i < out.attempts - 1 ensures IsTransient(ExecuteTool(w, tool, args, env(i)).1) {
      assert IsTransient(execute(w, i).1);
    }
  }

  /** With the budget of the program that is three attempts at most; if all were transient, nothing happened and
      the call slept three times the base. */
  lemma ThreeAttempts(w: World, tool: Tool, args: Args, env: nat -> Env, base: real)
    requires !RepeatedRefund(tool, args)
    ensures var out := Resiliently(w, tool, args, env, TOOL_MAX_RETRIES, base);
      && 1 <= out.attempts <= 3
      && (IsTransient(out.result) ==> out.world == w && out.attempts == 3 && Slept(out.waits) == 3.0 * base)
  {
    hide ExecuteTool, IsTransient, Resiliently, Slept;
    RetryBudget(w, tool, args, env, TOOL_MAX_RETRIES, base);
    SleptInAll(Resiliently(w, tool, args, env, TOOL_MAX_RETRIES, base).waits, base);
  }

  lemma CallingIsHarmless(tool: Tool, args: Args, env: nat -> Env)
    requires !RepeatedRefund(tool, args)
    ensures Harmless(Calling(tool, args, env))
  {
    var execute := Calling(tool, args, env);
    forall w: World, i: nat | IsTransient(execute(w, i).1) ensures execute(w, i).0 == w {
      RetriedChangesNothing(w, tool, args, env(i));
    }
  }
}
