/** When the joined notes of an order and its product bar a return (tools/impls.py). */
module ReturnNotes {
  import opened Texts
  import opened Tools

  /** The needle lies across the separator, its character k on it. */
  predicate Across(a: string, sep: char, b: string, needle: string, k: nat) {
    && k < |needle| && needle[k] == sep
    && k <= |a| && a[|a| - k..] == needle[..k]
    && |needle| - k - 1 <= |b| && b[..|needle| - k - 1] == needle[k + 1..]
  }

  lemma AcrossIsContained(a: string, sep: char, b: string, needle: string, k: nat)
    requires Across(a, sep, b, needle, k)
    ensures Contains(a + [sep] + b, needle)
  {
    var before, after := a[..|a| - k], b[|needle| - k - 1..];
    assert needle == needle[..k] + [sep] + needle[k + 1..];
    assert a + [sep] + b == before + needle + after;
    ContainsMiddle(before, needle, after);
  }

  lemma OccurrenceSplits(a: string, sep: char, b: string, needle: string, at: nat)
    requires OccursAt(a + [sep] + b, needle, at)
    ensures Contains(a, needle) || Contains(b, needle) || exists k: nat :: Across(a, sep, b, needle, k)
  {
    var all := a + [sep] + b;
    if at + |needle| <= |a| {
      assert a[at..at + |needle|] == all[at..at + |needle|];
      assert OccursAt(a, needle, at);
    } else if at > |a| {
      var i := at - |a| - 1;
      assert b[i..i + |needle|] == all[at..at + |needle|];
      assert OccursAt(b, needle, i);
    } else {
      var k := |a| - at;
      var found := all[at..at + |needle|];
      assert found[k] == sep;
      assert a[|a| - k..] == found[..k];
      assert b[..|needle| - k - 1] == found[k + 1..];
      assert Across(a, sep, b, needle, k);
    }
  }

  /** Joined by a separator, two texts contain a phrase exactly when one of them does or it lies across. */
  lemma ContainsJoined(a: string, sep: char, b: string, needle: string)
    ensures Contains(a + [sep] + b, needle)
            <==> Contains(a, needle) || Contains(b, needle) || exists k: nat :: Across(a, sep, b, needle, k)
  {
    var all := a + [sep] + b;
    if at: nat :| at <= |all| && OccursAt(all, needle, at) {
      OccurrenceSplits(a, sep, b, needle, at);
    }
    if Contains(a, needle) {
      ContainsWithin("", a, [sep] + b, needle);
      assert all == "" + a + ([sep] + b);
    }
    if Contains(b, needle) {
      ContainsWithin(a + [sep], b, "", needle);
      assert all == a + [sep] + b + "";
    }
    if k: nat :| Across(a, sep, b, needle, k) {
      AcrossIsContained(a, sep, b, needle, k);
    }
  }

  predicate StartsWith(s: string, start: string) {
    |start| <= |s| && s[..|start|] == start
  }

  predicate EndsWith(s: string, end: string) {
    |end| <= |s| && s[|s| - |end|..] == end
  }

  lemma OneWordStaysTogether(a: string, b: string)
    ensures forall k: nat :: !Across(a, ' ', b, "non-returnable", k)
  {
    assert ' ' !in "non-returnable";
  }

  lemma TwoWordsMayPart(a: string, b: string)
    ensures (exists k: nat :: Across(a, ' ', b, "registered online", k))
            <==> EndsWith(a, "registered") && StartsWith(b, "online")
  {
    var needle := "registered online";
    assert needle[..10] == "registered" && needle[11..] == "online" && |needle| == 17;
    forall k: nat | Across(a, ' ', b, needle, k) ensures k == 10 {
      assert needle[k] == ' ';
    }
    if EndsWith(a, "registered") && StartsWith(b, "online") {
      assert Across(a, ' ', b, needle, 10);
    }
  }

  /** Either note bars a return on its own, whatever the other says, and they bar it together in one more case:
      when the order's ends in "registered" and the product's begins with "online", although neither note says
      that the product was registered online. */
  lemma BarredIff(w: World, order: Order)
    requires order.productId in w.products
    ensures var mine, its := Lower(order.notes), Lower(w.products[order.productId].notes);
      BarredByNotes(w, order) <==>
        || Contains(mine, "non-returnable") || Contains(its, "non-returnable")
        || Contains(mine, "registered online") || Contains(its, "registered online")
        || (EndsWith(mine, "registered") && StartsWith(its, "online"))
  {
    var mine, its := Lower(order.notes), Lower(w.products[order.productId].notes);
    LowerConcat(order.notes + " ", w.products[order.productId].notes);
    LowerConcat(order.notes, " ");
    assert Lower(" ") == [' '];
    hide Lower, Contains, EndsWith, StartsWith, Across;
    ContainsJoined(mine, ' ', its, "non-returnable");
    ContainsJoined(mine, ' ', its, "registered online");
    OneWordStaysTogether(mine, its);
    TwoWordsMayPart(mine, its);
  }
}
