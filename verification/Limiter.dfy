/** Both buckets in a row, as a model call draws on them (core/rate_limiter.py). */
module Limiter {
  import opened Reals
  import opened RateLimiter

  // ── the turns served in a window, as a set ──

  function ServedTurns(marks: seq<Mark>, from: real, to: real): set<nat> {
    set i: nat | i < |marks| && marks[i].served && from <= marks[i].now <= to
  }

  lemma {:induction false} ServedTurnsAreCounted(marks: seq<Mark>, from: real, to: real)
    ensures |ServedTurns(marks, from, to)| == ServedWithin(marks, from, to)
  {
    if marks == [] {
      assert ServedTurns(marks, from, to) == {};
    } else {
      var before, n := marks[..|marks| - 1], |marks| - 1;
      ServedTurnsAreCounted(before, from, to);
      var now := if marks[n].served && from <= marks[n].now <= to then {n} else {};
      assert ServedTurns(marks, from, to) == ServedTurns(before, from, to) + now;
    }
  }

  lemma {:induction false} AllServedIf(marks: seq<Mark>, from: real, to: real)
    ensures ServedWithin(marks, from, to) <= |marks|
    ensures ServedWithin(marks, from, to) == |marks| ==> forall i :: 0 <= i < |marks| ==> marks[i].served
  {
    if marks != [] {
      AllServedIf(marks[..|marks| - 1], from, to);
      forall i | 0 <= i < |marks| - 1 ensures marks[i] == marks[..|marks| - 1][i] {}
    }
  }

  // ── one request, then its tokens ──

  /** Turn j at the token bucket, once served, completes the call that request turn owner[j] began: an
      earlier one, served, and no other's. */
  ghost predicate Sequenced(requests: seq<Mark>, tokens: seq<Mark>, owner: seq<nat>) {
    && |owner| == |tokens|
    && (forall j :: 0 <= j < |tokens| && tokens[j].served ==>
          owner[j] < |requests| && requests[owner[j]].served && requests[owner[j]].now <= tokens[j].now)
    && (forall j, k :: 0 <= j < k < |tokens| && tokens[j].served && tokens[k].served ==> owner[j] != owner[k])
  }

  /** Turn j completed the call of request turn i before this instant. */
  predicate CompletedBefore(tokens: seq<Mark>, owner: seq<nat>, i: nat, j: nat, instant: real)
    requires |owner| == |tokens|
  {
    j < |tokens| && tokens[j].served && owner[j] == i && tokens[j].now < instant
  }

  /** The callers that have their request but not yet their tokens at this instant. */
  ghost function Between(requests: seq<Mark>, tokens: seq<Mark>, owner: seq<nat>, instant: real): set<nat>
    requires |owner| == |tokens|
  {
    set i: nat | i < |requests| && requests[i].served && requests[i].now < instant
                 && forall j: nat :: !CompletedBefore(tokens, owner, i, j, instant)
  }

  lemma {:induction false} ImageIsAsLarge(js: set<nat>, owner: seq<nat>)
    requires forall j :: j in js ==> j < |owner|
    requires forall j, k :: j in js && k in js && j != k ==> owner[j] != owner[k]
    ensures |set j | j in js :: owner[j]| == |js|
    decreases js
  {
    var image := set j | j in js :: owner[j];
    if js == {} {
      assert image == {};
    } else {
      var j :| j in js;
      ImageIsAsLarge(js - {j}, owner);
      assert image == (set k | k in js - {j} :: owner[k]) + {owner[j]};
    }
  }

  lemma {:induction false} SubsetIsNoLarger(a: set<nat>, b: set<nat>)
    requires a <= b
    ensures |a| <= |b|
    decreases a
  {
    if a != {} {
      var x :| x in a;
      SubsetIsNoLarger(a - {x}, b - {x});
    }
  }

  /** Whoever completes in a window got its request there, or was between the buckets when it opened. */
  lemma CompletionsAreAccountedFor(requests: seq<Mark>, tokens: seq<Mark>, owner: seq<nat>, from: real, to: real)
    requires Sequenced(requests, tokens, owner)
    ensures |ServedTurns(tokens, from, to)|
            <= |ServedTurns(requests, from, to)| + |Between(requests, tokens, owner, from)|
  {
    var done, began := ServedTurns(tokens, from, to), ServedTurns(requests, from, to);
    var waiting := Between(requests, tokens, owner, from);
    var owners := set j | j in done :: owner[j];
    ImageIsAsLarge(done, owner);
    forall i | i in owners ensures i in began + waiting {
      var j :| j in done && owner[j] == i;
      if requests[i].now < from {
        assert forall k: nat :: !CompletedBefore(tokens, owner, i, k, from);
      }
    }
    SubsetIsNoLarger(owners, began + waiting);
  }

  /** So at most 2 * rpm calls, plus those held up between the buckets, complete in any 60 seconds. */
  lemma CompletedWindow(rpm: int, start: real, turns: seq<Turn>, tokens: seq<Mark>, owner: seq<nat>, from: real)
    requires rpm >= 1 && Ordered(start, turns) && Single(turns)
    requires Sequenced(Trace(RpmBucket(rpm, start), turns), tokens, owner)
    ensures ServedWithin(tokens, from, from + 60.0)
            <= 2 * rpm + |Between(Trace(RpmBucket(rpm, start), turns), tokens, owner, from)|
  {
    hide RpmBucket, Trace, Sequenced, Between, ServedTurns, ServedWithin;
    var requests := Trace(RpmBucket(rpm, start), turns);
    RpmWindow(rpm, start, turns, from);
    ServedTurnsAreCounted(requests, from, from + 60.0);
    ServedTurnsAreCounted(tokens, from, from + 60.0);
    CompletionsAreAccountedFor(requests, tokens, owner, from, from + 60.0);
  }

  // ── 2 * rpm alone is not enough ──

  lemma ThreeBursts(rpm: int) returns (turns: seq<Turn>)
    requires rpm >= 1
    ensures Ordered(0.0, turns) && Single(turns) && |turns| == 3 * rpm
    ensures forall i :: 0 <= i < |turns| ==> turns[i].now <= 120.0
    ensures Served(RpmBucket(rpm, 0.0), turns, 0.0, 120.0) == 3 * rpm
  {
    var b, limit := RpmBucket(rpm, 0.0), rpm as real;
    var first := [] + Requests(0.0, rpm);
    var second := first + Requests(60.0, rpm);
    turns := second + Requests(120.0, rpm);
    var empty, later := b.(tokens := 0.0), b.(tokens := 0.0, last := 60.0);
    assert Play(b, []) == b && Granted(b, [], 0.0, 120.0) == 0.0 && Level(b, 0.0) == limit;
    assert Ordered(0.0, turns) && Single(turns);
    MinuteRefills(limit);
    AnotherMinuteRefills(limit);
    PerMinute(limit);
    SingleTurnsPayOne(b, turns, 0.0, 120.0);
    hide Granted, Served, Play, Level;
    Burst(b, [], 0.0, rpm, 0.0, 120.0);
    assert Drawn(b, 0.0, rpm) == empty;
    Burst(b, first, 60.0, rpm, 0.0, 120.0);
    assert Drawn(empty, 60.0, rpm) == later;
    Burst(b, second, 120.0, rpm, 0.0, 120.0);
    assert Served(b, turns, 0.0, 120.0) as real == (3 * rpm) as real;
  }

  lemma AnotherMinuteRefills(limit: real)
    requires limit >= 1.0
    ensures Level(Bucket(limit, limit / 60.0, 0.0, 60.0), 120.0) == limit
  {
    PerMinute(limit);
    Commute(limit / 60.0, 60.0);
  }

  lemma TokensAtOnce(tpm: int, n: nat) returns (marks: seq<Mark>)
    requires tpm >= n && tpm >= 1
    ensures marks == Trace(RpmBucket(tpm, 0.0), Requests(120.0, n)) && |marks| == n
    ensures forall j :: 0 <= j < n ==> marks[j].served && marks[j].now == 120.0
  {
    var b, turns := RpmBucket(tpm, 0.0), Requests(120.0, n);
    marks := Trace(b, turns);
    assert Play(b, []) == b && Granted(b, [], 120.0, 180.0) == 0.0 && [] + turns == turns;
    PerMinute(tpm as real);
    LevelInRange(b, 120.0);
    FullStaysFull(b, 120.0);
    SingleTurnsPayOne(b, turns, 120.0, 180.0);
    TraceKeepsInstants(b, turns);
    AllServedIf(marks, 120.0, 180.0);
    hide Granted, Play, Level, ServedWithin;
    Burst(b, [], 120.0, n, 120.0, 180.0);
    assert Served(b, turns, 120.0, 180.0) as real == n as real;
  }

  lemma FullStaysFull(b: Bucket, now: real)
    requires Sound(b) && b.tokens == b.capacity
    ensures Level(b, now) == b.capacity
  {
    if now > b.last {
      NonNegative(now - b.last, b.rate);
    }
  }

  lemma {:induction false} TraceKeepsInstants(b: Bucket, turns: seq<Turn>)
    ensures |Trace(b, turns)| == |turns|
    ensures forall i :: 0 <= i < |turns| ==> Trace(b, turns)[i].now == turns[i].now
  {
    hide Play;
    if turns != [] {
      TraceKeepsInstants(b, turns[..|turns| - 1]);
    }
  }

  /** Callers that got their requests over two minutes may be served their tokens together: for every rpm,
      and any token limit that large, 3 * rpm calls can complete within one minute. */
  lemma CompletionsExceedTwice(rpm: int, tpm: int)
    requires 1 <= rpm && 3 * rpm <= tpm
    ensures exists turns, tokens, owner ::
      && Ordered(0.0, turns) && Single(turns) && Ordered(0.0, tokens)
      && Sequenced(Trace(RpmBucket(rpm, 0.0), turns), Trace(RpmBucket(tpm, 0.0), tokens), owner)
      && ServedWithin(Trace(RpmBucket(tpm, 0.0), tokens), 120.0, 180.0) == 3 * rpm
  {
    var turns := ThreeBursts(rpm);
    var n, tokens := 3 * rpm, Requests(120.0, 3 * rpm);
    var marks := TokensAtOnce(tpm, n);
    var requests, owner := Trace(RpmBucket(rpm, 0.0), turns), seq(n, i => i);
    TraceKeepsInstants(RpmBucket(rpm, 0.0), turns);
    AllServedIf(requests, 0.0, 120.0);
    assert Sequenced(requests, marks, owner);
    assert Ordered(0.0, tokens);
    AllInWindow(marks, 120.0, 180.0);
    hide Sequenced, ServedWithin, Trace, Ordered, Single;
    assert Sequenced(Trace(RpmBucket(rpm, 0.0), turns), Trace(RpmBucket(tpm, 0.0), tokens), owner);
  }

  lemma {:induction false} AllInWindow(marks: seq<Mark>, from: real, to: real)
    requires forall i :: 0 <= i < |marks| ==> marks[i].served && from <= marks[i].now <= to
    ensures ServedWithin(marks, from, to) == |marks|
  {
    if marks != [] {
      AllInWindow(marks[..|marks| - 1], from, to);
    }
  }
}
