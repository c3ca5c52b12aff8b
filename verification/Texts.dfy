/** Text search, as `needle in haystack` does it. */
module Texts {

  predicate OccursAt(haystack: string, needle: string, i: nat) {
    i + |needle| <= |haystack| && haystack[i..i + |needle|] == needle
  }

  predicate Contains(haystack: string, needle: string) {
    exists i: nat | i <= |haystack| :: OccursAt(haystack, needle, i)
  }

  function LowerChar(c: char): char {
    if 'A' <= c <= 'Z' then c - 'A' + 'a' else c
  }

  /** str.lower() on ASCII letters. */
  function Lower(s: string): string {
    seq(|s|, i requires 0 <= i < |s| => LowerChar(s[i]))
  }

  // ── repr() of a string ──

  function HexDigit(n: nat): char
    requires n < 16
  {
    if n < 10 then '0' + n as char else 'a' + (n - 10) as char
  }

  function EscapeChar(c: char, quote: char): string {
    if c == '\\' || c == quote then ['\\', c]
    else if c == '\n' then "\\n"
    else if c == '\r' then "\\r"
    else if c == '\t' then "\\t"
    else if c < ' ' || c == 127 as char then ['\\', 'x', HexDigit(c as nat / 16), HexDigit(c as nat % 16)]
    else [c]
  }

  function Escaped(s: string, quote: char): string {
    if s == "" then "" else Escaped(s[..|s| - 1], quote) + EscapeChar(s[|s| - 1], quote)
  }

  function QuoteOf(s: string): char {
    if '\'' in s && '"' !in s then '"' else '\''
  }

  /** repr(s), ASCII only: in single quotes unless only double quotes avoid escaping. */
  function Repr(s: string): string {
    [QuoteOf(s)] + Escaped(s, QuoteOf(s)) + [QuoteOf(s)]
  }

  predicate PlainChar(c: char) {
    c != '\\' && c != '\'' && ' ' <= c && c != 127 as char
  }

  /** Nothing in the string needs escaping. */
  predicate Plain(s: string) {
    forall i :: 0 <= i < |s| ==> PlainChar(s[i])
  }

  lemma PlainCharStays(c: char)
    requires PlainChar(c)
    ensures EscapeChar(c, '\'') == [c]
  {
  }

  lemma {:induction false} PlainIsNotEscaped(s: string)
    requires Plain(s)
    ensures Escaped(s, '\'') == s
  {
    hide EscapeChar, PlainChar;
    if s != "" {
      var before, last := s[..|s| - 1], s[|s| - 1];
      PlainIsNotEscaped(before);
      PlainCharStays(last);
      assert before + [last] == s;
    }
  }

  lemma {:induction false} EscapedJoins(a: string, b: string, quote: char)
    ensures Escaped(a + b, quote) == Escaped(a, quote) + Escaped(b, quote)
  {
    hide EscapeChar;
    if b == "" {
      assert a + b == a;
    } else {
      var before, last := b[..|b| - 1], b[|b| - 1];
      EscapedJoins(a, before, quote);
      assert (a + b)[..|a + b| - 1] == a + before;
    }
  }

  // ── a quotation determines what it quotes ──

  lemma HexDigitInjective(a: nat, b: nat)
    requires a < 16 && b < 16
    ensures HexDigit(a) == HexDigit(b) ==> a == b
  {
  }

  /** No escape is the beginning of another. */
  lemma EscapeIsPrefixFree(c: char, x: string, d: char, y: string, quote: char)
    requires EscapeChar(c, quote) + x == EscapeChar(d, quote) + y && quote in ['\'', '"']
    ensures c == d && x == y
  {
    var left, right := EscapeChar(c, quote) + x, EscapeChar(d, quote) + y;
    assert left[0] == right[0];
    if left[0] == '\\' {
      assert left[1] == right[1];
      if left[1] == 'x' {
        assert left[2] == right[2] && left[3] == right[3];
        HexDigitInjective(c as nat / 16, d as nat / 16);
        HexDigitInjective(c as nat % 16, d as nat % 16);
        assert c as nat == 16 * (c as nat / 16) + c as nat % 16;
        assert d as nat == 16 * (d as nat / 16) + d as nat % 16;
      }
    }
    assert c == d;
    var n := |EscapeChar(c, quote)|;
    assert x == left[n..] && y == right[n..];
  }

  lemma EscapedFirst(s: string, quote: char)
    requires s != ""
    ensures Escaped(s, quote) == EscapeChar(s[0], quote) + Escaped(s[1..], quote)
  {
    assert s == s[..1] + s[1..];
    EscapedJoins(s[..1], s[1..], quote);
    assert s[..1][..0] == "";
    assert Escaped(s[..1], quote) == Escaped("", quote) + EscapeChar(s[0], quote);
  }

  lemma {:induction false} EscapedInjective(a: string, b: string, quote: char)
    requires Escaped(a, quote) == Escaped(b, quote) && quote in ['\'', '"']
    ensures a == b
  {
    hide EscapeChar;
    if a != "" && b != "" {
      EscapedFirst(a, quote);
      EscapedFirst(b, quote);
      EscapeIsPrefixFree(a[0], Escaped(a[1..], quote), b[0], Escaped(b[1..], quote), quote);
      EscapedInjective(a[1..], b[1..], quote);
      assert a == [a[0]] + a[1..] && b == [b[0]] + b[1..];
    } else {
      EscapesSomething(a, quote);
      EscapesSomething(b, quote);
    }
  }

  lemma EscapesSomething(s: string, quote: char)
    ensures Escaped(s, quote) == "" <==> s == ""
  {
  }

  /** repr() loses nothing, stands between two like quotes, and takes the double ones exactly if that saves
      escaping. */
  lemma ReprInjective(a: string, b: string)
    ensures Repr(a) == Repr(b) ==> a == b
    ensures var r := Repr(a); |r| >= 2 && r[0] == r[|r| - 1] && r[0] in ['\'', '"']
    ensures Repr(a)[0] == '"' <==> '\'' in a && '"' !in a
  {
    hide Escaped;
    if Repr(a) == Repr(b) {
      assert Repr(a)[0] == QuoteOf(a) && Repr(b)[0] == QuoteOf(b);
      assert Escaped(a, QuoteOf(a)) == Repr(a)[1..|Repr(a)| - 1];
      assert Escaped(b, QuoteOf(b)) == Repr(b)[1..|Repr(b)| - 1];
      EscapedInjective(a, b, QuoteOf(a));
    }
  }

  lemma PlainRepr(s: string)
    requires Plain(s)
    ensures Repr(s) == "'" + s + "'"
  {
    PlainIsNotEscaped(s);
    assert QuoteOf(s) == '\'' by {
      forall i | 0 <= i < |s| ensures s[i] != '\'' {
        assert PlainChar(s[i]);
      }
    }
    hide Escaped, Plain;
  }

  lemma LowerConcat(a: string, b: string)
    ensures Lower(a + b) == Lower(a) + Lower(b)
  {
  }

  lemma ContainsMiddle(before: string, needle: string, after: string)
    ensures Contains(before + needle + after, needle)
  {
    assert OccursAt(before + needle + after, needle, |before|);
  }

  lemma CharOfOccurrence(haystack: string, needle: string, i: nat, j: nat)
    requires OccursAt(haystack, needle, i) && j < |needle|
    ensures haystack[i + j] == needle[j]
  {
    assert haystack[i..i + |needle|][j] == haystack[i + j];
  }

  lemma ContainsWithin(before: string, text: string, after: string, needle: string)
    requires Contains(text, needle)
    ensures Contains(before + text + after, needle)
  {
    var i: nat :| i <= |text| && OccursAt(text, needle, i);
    assert (before + text + after)[|before| + i..|before| + i + |needle|] == text[i..i + |needle|];
    assert OccursAt(before + text + after, needle, |before| + i);
  }

  /** No occurrence of the needle can begin inside this text: at every position one of the next three
      characters differs. */
  predicate NoStart(text: string, needle: string) {
    forall i :: 0 <= i < |text| ==> CannotStart(text, i, needle)
  }

  /** No occurrence of the needle can end inside this text. */
  predicate NoEnd(text: string, needle: string) {
    forall i :: 0 <= i < |text| ==> CannotEnd(text, i, needle)
  }

  predicate CannotStart(text: string, i: int, needle: string) {
    Differs(text, i, needle, 0) || Differs(text, i + 1, needle, 1) || Differs(text, i + 2, needle, 2)
  }

  predicate CannotEnd(text: string, i: int, needle: string) {
    Differs(text, i, needle, |needle| - 1) || Differs(text, i - 1, needle, |needle| - 2)
  }

  predicate Differs(text: string, i: int, needle: string, j: int) {
    0 <= i < |text| && 0 <= j < |needle| && text[i] != needle[j]
  }

  lemma OccurrenceAgrees(before: string, text: string, after: string, needle: string, at: nat, i: int, j: int)
    requires OccursAt(before + text + after, needle, at) && at + j == |before| + i
    ensures !Differs(text, i, needle, j)
  {
    if 0 <= i < |text| && 0 <= j < |needle| {
      CharOfOccurrence(before + text + after, needle, at, j);
    }
  }

  lemma StartsLater(left: string, after: string, needle: string, at: nat)
    requires NoStart(left, needle) && OccursAt(left + after, needle, at)
    ensures at >= |left|
  {
    if at < |left| {
      assert CannotStart(left, at, needle);
      assert left + after == "" + left + after;
      OccurrenceAgrees("", left, after, needle, at, at, 0);
      OccurrenceAgrees("", left, after, needle, at, at + 1, 1);
      OccurrenceAgrees("", left, after, needle, at, at + 2, 2);
    }
  }

  lemma EndsEarlier(before: string, right: string, needle: string, at: nat)
    requires NoEnd(right, needle) && OccursAt(before + right, needle, at)
    ensures at + |needle| <= |before|
  {
    var end := at + |needle| - 1 - |before|;
    if end >= 0 {
      assert CannotEnd(right, end, needle);
      assert before + right == before + right + "";
      OccurrenceAgrees(before, right, "", needle, at, end, |needle| - 1);
      OccurrenceAgrees(before, right, "", needle, at, end - 1, |needle| - 2);
    }
  }

  /** Framed so, a text contains the needle exactly when what is framed does. */
  lemma ContainsFramed(left: string, text: string, right: string, needle: string)
    requires NoStart(left, needle) && NoEnd(right, needle)
    ensures Contains(left + text + right, needle) <==> Contains(text, needle)
  {
    if at: nat :| at <= |left + text + right| && OccursAt(left + text + right, needle, at) {
      assert left + text + right == left + (text + right);
      StartsLater(left, text + right, needle, at);
      EndsEarlier(left + text, right, needle, at);
      var i := at - |left|;
      assert (left + text + right)[at..at + |needle|] == text[i..i + |needle|];
      assert OccursAt(text, needle, i);
    }
    if Contains(text, needle) {
      ContainsWithin(left, text, right, needle);
    }
  }

  lemma NoStartJoin(a: string, b: string, needle: string)
    requires NoStart(a, needle) && NoStart(b, needle)
    ensures NoStart(a + b, needle)
  {
    forall i | 0 <= i < |a + b| ensures CannotStart(a + b, i, needle) {
      if i < |a| {
        assert CannotStart(a, i, needle);
      } else {
        assert CannotStart(b, i - |a|, needle);
      }
    }
  }

  /** The last character may be exchanged for another that the needle lacks. */
  lemma NoStartSwap(text: string, c: char, d: char, needle: string)
    requires NoStart(text + [c], needle) && d !in needle
    ensures NoStart(text + [d], needle)
  {
    forall i | 0 <= i < |text + [d]| ensures CannotStart(text + [d], i, needle) {
      assert CannotStart(text + [c], i, needle);
      assert Differs(text + [d], |text|, needle, |text| - i) || !(0 <= |text| - i < |needle|);
    }
  }
}
