/** The token bucket that throttles model calls (core/rate_limiter.py). */
module RateLimiter {
  import opened Schemas
  import opened Reals

  datatype Bucket = Bucket(capacity: real, rate: real, tokens: real, last: real)

  predicate Sound(b: Bucket) {
    0.0 <= b.tokens <= b.capacity && b.rate >= 0.0
  }

  /** The level at an instant, in closed form. */
  function Level(b: Bucket, now: real): real {
    if now > b.last then Min(b.capacity, b.tokens + (now - b.last) * b.rate) else b.tokens
  }

  function Refill(b: Bucket, now: real): Bucket {
    if now > b.last then b.(tokens := Level(b, now), last := now) else b
  }

  /** One turn of the loop in acquire, under the lock: refill, then take the capped amount if it is there. */
  function Try(b: Bucket, now: real, amount: real): (Bucket, bool) {
    var full := Refill(b, now);
    var wanted := Min(amount, b.capacity);
    if full.tokens >= wanted then (full.(tokens := full.tokens - wanted), true) else (full, false)
  }

  lemma TryStaysSound(b: Bucket, now: real, amount: real)
    requires Sound(b) && amount >= 0.0
    ensures Sound(Try(b, now, amount).0)
    ensures !Try(b, now, amount).1 ==> Try(b, now, amount).0 == Refill(b, now)
  {
    LevelInRange(b, now);
  }

  lemma LevelInRange(b: Bucket, now: real)
    requires Sound(b)
    ensures 0.0 <= Level(b, now) <= b.capacity
    ensures b.last <= now ==> Level(b, now) <= b.tokens + b.rate * (now - b.last)
  {
    if now > b.last {
      NonNegative(now - b.last, b.rate);
      Commute(now - b.last, b.rate);
    }
  }

  /** Lazy refill is exact: refilling in between changes nothing. */
  lemma RefillIsExact(b: Bucket, between: real, now: real)
    requires Sound(b) && between <= now
    ensures Refill(Refill(b, between), now) == Refill(b, now)
  {
    if between > b.last {
      NonNegative(between - b.last, b.rate);
      NonNegative(now - between, b.rate);
      Distribute(between - b.last, now - between, b.rate);
    }
  }

  /** Left alone, a waiter that missed some tokens is served exactly from missing / rate later on. */
  lemma WaitIsExact(b: Bucket, now: real, amount: real, later: real)
    requires Sound(b) && b.rate > 0.0 && amount >= 0.0 && b.last <= now <= later
    requires !Try(b, now, amount).1
    ensures var waiting := Try(b, now, amount).0;
      Try(waiting, later, amount).1 <==> later - now >= (Min(amount, b.capacity) - waiting.tokens) / b.rate
  {
    var waiting := Try(b, now, amount).0;
    var missing := Min(amount, b.capacity) - waiting.tokens;
    assert missing > 0.0;
    Divide(missing, later - now, b.rate);
    assert waiting.last == now || waiting.tokens == b.tokens;
  }

  // ── contention ──

  /** A turn taken by some thread. Turns are serialised by the lock and read the clock under it. */
  datatype Turn = Turn(now: real, amount: real)

  predicate Ordered(start: real, turns: seq<Turn>) {
    && (forall i :: 0 <= i < |turns| ==> start <= turns[i].now && turns[i].amount >= 0.0)
    && (forall i, j :: 0 <= i < j < |turns| ==> turns[i].now <= turns[j].now)
  }

  function Play(b: Bucket, turns: seq<Turn>): Bucket {
    if turns == [] then b
    else
      var last := turns[|turns| - 1];
      Try(Play(b, turns[..|turns| - 1]), last.now, last.amount).0
  }

  function Paid(b: Bucket, turn: Turn): real {
    if Try(b, turn.now, turn.amount).1 then Min(turn.amount, b.capacity) else 0.0
  }

  /** What a turn leaves on record: its instant, whether and what it granted, and the level it left. */
  datatype Mark = Mark(now: real, served: bool, paid: real, level: real)

  function MarkOf(b: Bucket, turn: Turn): Mark {
    var (after, served) := Try(b, turn.now, turn.amount);
    Mark(turn.now, served, Paid(b, turn), after.tokens)
  }

  function Trace(b: Bucket, turns: seq<Turn>): seq<Mark> {
    if turns == [] then []
    else
      var before, last := turns[..|turns| - 1], turns[|turns| - 1];
      var s := Play(b, before);
      Trace(b, before) + [MarkOf(s, last)]
  }

  function PaidWithin(marks: seq<Mark>, from: real, to: real): real {
    if marks == [] then 0.0
    else
      var last := marks[|marks| - 1];
      PaidWithin(marks[..|marks| - 1], from, to) + if from <= last.now <= to then last.paid else 0.0
  }

  /** The amount granted at instants in [from, to]. */
  function Granted(b: Bucket, turns: seq<Turn>, from: real, to: real): real {
    PaidWithin(Trace(b, turns), from, to)
  }

  function ServedWithin(marks: seq<Mark>, from: real, to: real): nat {
    if marks == [] then 0
    else
      var last := marks[|marks| - 1];
      ServedWithin(marks[..|marks| - 1], from, to) + if last.served && from <= last.now <= to then 1 else 0
  }

  /** The number of turns served at instants in [from, to]. */
  function Served(b: Bucket, turns: seq<Turn>, from: real, to: real): nat {
    ServedWithin(Trace(b, turns), from, to)
  }

  lemma {:induction false} KeepsCapacity(b: Bucket, turns: seq<Turn>)
    ensures Play(b, turns).capacity == b.capacity && Play(b, turns).rate == b.rate
  {
    if turns != [] {
      KeepsCapacity(b, turns[..|turns| - 1]);
    }
  }

  lemma {:induction false} PlayStaysSound(b: Bucket, turns: seq<Turn>)
    requires Sound(b) && Ordered(b.last, turns)
    ensures var after := Play(b, turns);
      && Sound(after) && after.capacity == b.capacity && after.rate == b.rate
      && after.last == if turns == [] then b.last else turns[|turns| - 1].now
  {
    if turns != [] {
      var before, last := turns[..|turns| - 1], turns[|turns| - 1];
      PlayStaysSound(b, before);
      TryStaysSound(Play(b, before), last.now, last.amount);
    }
  }

  /** One turn neither grants nor keeps more than it found and what has flowed in, nor more than a full bucket. */
  lemma TurnPotential(b: Bucket, turn: Turn)
    requires Sound(b) && b.last <= turn.now && turn.amount >= 0.0
    ensures var kept := Try(b, turn.now, turn.amount).0.tokens;
      && kept >= 0.0 && Paid(b, turn) + kept <= b.capacity
      && Paid(b, turn) + kept <= b.tokens + b.rate * (turn.now - b.last)
  {
    LevelInRange(b, turn.now);
    TryStaysSound(b, turn.now, turn.amount);
  }

  /** What can flow in between two instants: additive and never negative. */
  ghost predicate Additive(inflow: (real, real) -> real) {
    && (forall a, b :: a <= b ==> inflow(a, b) >= 0.0)
    && (forall a, b, c :: a <= b <= c ==> inflow(a, b) + inflow(b, c) == inflow(a, c))
  }

  ghost predicate Linked(first: Mark, second: Mark, inflow: (real, real) -> real) {
    first.now <= second.now && second.paid + second.level <= first.level + inflow(first.now, second.now)
  }

  ghost predicate Chained(marks: seq<Mark>, capacity: real, inflow: (real, real) -> real) {
    && (forall i :: 0 <= i < |marks| ==> marks[i].level >= 0.0 && marks[i].paid + marks[i].level <= capacity)
    && (forall i :: 0 < i < |marks| ==> Linked(marks[i - 1], marks[i], inflow))
  }

  lemma ChainedInit(marks: seq<Mark>, capacity: real, inflow: (real, real) -> real)
    requires Chained(marks, capacity, inflow) && marks != []
    ensures Chained(marks[..|marks| - 1], capacity, inflow)
  {
    var before := marks[..|marks| - 1];
    forall i | 0 < i < |before| ensures Linked(before[i - 1], before[i], inflow) {
      assert Linked(marks[i - 1], marks[i], inflow);
    }
  }

  lemma ChainedAppend(marks: seq<Mark>, last: Mark, capacity: real, inflow: (real, real) -> real)
    requires Chained(marks, capacity, inflow)
    requires last.level >= 0.0 && last.paid + last.level <= capacity
    requires marks != [] ==> Linked(marks[|marks| - 1], last, inflow)
    ensures Chained(marks + [last], capacity, inflow)
  {
    var all := marks + [last];
    forall i | 0 < i < |all| ensures Linked(all[i - 1], all[i], inflow) {
      if i < |marks| {
        assert Linked(marks[i - 1], marks[i], inflow);
      }
    }
  }

  /** The potential argument: inside the window, grants plus the level never exceed a full bucket plus the inflow. */
  lemma {:induction false} Potential(marks: seq<Mark>, capacity: real, inflow: (real, real) -> real, from: real,
                                     to: real)
    requires Additive(inflow) && Chained(marks, capacity, inflow) && marks != []
    ensures var last := marks[|marks| - 1];
      && (last.now < from ==> PaidWithin(marks, from, to) == 0.0)
      && (from <= last.now <= to ==> PaidWithin(marks, from, to) + last.level <= capacity + inflow(from, last.now))
  {
    var before, last := marks[..|marks| - 1], marks[|marks| - 1];
    if before != [] {
      var previous := before[|before| - 1];
      ChainedInit(marks, capacity, inflow);
      assert Linked(marks[|marks| - 2], last, inflow);
      Potential(before, capacity, inflow, from, to);
      if from <= previous.now {
        assert inflow(from, previous.now) + inflow(previous.now, last.now) == inflow(from, last.now);
      }
    }
  }

  lemma {:induction false} PaidIsBounded(marks: seq<Mark>, capacity: real, inflow: (real, real) -> real, from: real,
                                         to: real)
    requires Additive(inflow) && Chained(marks, capacity, inflow) && from <= to && capacity >= 0.0
    ensures PaidWithin(marks, from, to) <= capacity + inflow(from, to)
  {
    if marks != [] {
      var before, last := marks[..|marks| - 1], marks[|marks| - 1];
      if from <= last.now <= to {
        Potential(marks, capacity, inflow, from, to);
        assert inflow(from, last.now) + inflow(last.now, to) == inflow(from, to);
      } else {
        ChainedInit(marks, capacity, inflow);
        PaidIsBounded(before, capacity, inflow, from, to);
      }
    }
  }

  function Inflow(rate: real): (real, real) -> real {
    (a: real, b: real) => rate * (b - a)
  }

  lemma InflowIsAdditive(rate: real)
    requires rate >= 0.0
    ensures Additive(Inflow(rate))
  {
    forall a: real, b: real | a <= b ensures Inflow(rate)(a, b) >= 0.0 {
      NonNegative(rate, b - a);
    }
    forall a: real, b: real, c: real | a <= b <= c
      ensures Inflow(rate)(a, b) + Inflow(rate)(b, c) == Inflow(rate)(a, c)
    {
      Distribute(b - a, c - b, rate);
    }
  }

  lemma TurnMark(b: Bucket, turn: Turn, previous: Mark)
    requires Sound(b) && b.last <= turn.now && turn.amount >= 0.0
    ensures var mark := MarkOf(b, turn);
      && mark.level >= 0.0 && mark.paid + mark.level <= b.capacity
      && (previous.now == b.last && previous.level == b.tokens ==> Linked(previous, mark, Inflow(b.rate)))
  {
    TurnPotential(b, turn);
    assert Inflow(b.rate)(b.last, turn.now) == b.rate * (turn.now - b.last);
  }

  lemma {:induction false} TraceIsChained(b: Bucket, turns: seq<Turn>)
    requires Sound(b) && Ordered(b.last, turns)
    ensures |Trace(b, turns)| == |turns|
    ensures turns != [] ==>
      var last := Trace(b, turns)[|turns| - 1]; last.now == Play(b, turns).last && last.level == Play(b, turns).tokens
    ensures Chained(Trace(b, turns), b.capacity, Inflow(b.rate))
  {
    if turns != [] {
      var before, last := turns[..|turns| - 1], turns[|turns| - 1];
      TraceIsChained(b, before);
      PlayStaysSound(b, before);
      PlayStaysSound(b, turns);
      var marks, mark := Trace(b, before), MarkOf(Play(b, before), last);
      TurnMark(Play(b, before), last, if before == [] then mark else marks[|marks| - 1]);
      ChainedAppend(marks, mark, b.capacity, Inflow(b.rate));
    }
  }

  /** Whatever the contention, no window of a bucket's life sees more than a full bucket plus the inflow. */
  lemma WindowBound(b: Bucket, turns: seq<Turn>, from: real, to: real)
    requires Sound(b) && Ordered(b.last, turns) && from <= to
    ensures Granted(b, turns, from, to) <= b.capacity + b.rate * (to - from)
  {
    var inflow, marks := Inflow(b.rate), Trace(b, turns);
    TraceIsChained(b, turns);
    InflowIsAdditive(b.rate);
    PaidIsBounded(marks, b.capacity, inflow, from, to);
    assert inflow(from, to) == b.rate * (to - from);
  }

  // ── the requests-per-minute bucket ──

  function RpmBucket(rpm: int, now: real): Bucket {
    Bucket(rpm as real, rpm as real / 60.0, rpm as real, now)
  }

  lemma PerMinute(limit: real)
    requires limit >= 0.0
    ensures limit / 60.0 >= 0.0 && limit / 60.0 * 60.0 == limit
  {
  }

  /** Every caller asks for one request. */
  predicate Single(turns: seq<Turn>) {
    forall i :: 0 <= i < |turns| ==> turns[i].amount == 1.0
  }

  lemma CountsAppend(marks: seq<Mark>, mark: Mark, from: real, to: real)
    ensures PaidWithin(marks + [mark], from, to)
            == PaidWithin(marks, from, to) + if from <= mark.now <= to then mark.paid else 0.0
    ensures ServedWithin(marks + [mark], from, to)
            == ServedWithin(marks, from, to) + if mark.served && from <= mark.now <= to then 1 else 0
  {
    assert (marks + [mark])[..|marks + [mark]| - 1] == marks;
  }

  lemma SingleMark(b: Bucket, now: real)
    requires b.capacity >= 1.0
    ensures var mark := MarkOf(b, Turn(now, 1.0)); mark.now == now && mark.paid == if mark.served then 1.0 else 0.0
  {
  }

  /** As long as the bucket holds a whole request, what is charged is the number of requests served. */
  lemma {:induction false} SingleTurnsPayOne(b: Bucket, turns: seq<Turn>, from: real, to: real)
    requires b.capacity >= 1.0 && Single(turns)
    ensures Granted(b, turns, from, to) == Served(b, turns, from, to) as real
  {
    if turns != [] {
      var before, last := turns[..|turns| - 1], turns[|turns| - 1];
      SingleTurnsPayOne(b, before, from, to);
      KeepsCapacity(b, before);
      SingleMark(Play(b, before), last.now);
      assert last == Turn(last.now, 1.0);
      hide Play, MarkOf, PaidWithin, ServedWithin;
      CountsAppend(Trace(b, before), MarkOf(Play(b, before), last), from, to);
    }
  }

  lemma MinuteInflow(limit: real, from: real)
    requires limit >= 0.0
    ensures limit + limit / 60.0 * ((from + 60.0) - from) == 2.0 * limit
  {
    PerMinute(limit);
    assert (from + 60.0) - from == 60.0;
  }

  lemma RpmWindow(rpm: int, start: real, turns: seq<Turn>, from: real)
    requires rpm >= 1 && Ordered(start, turns) && Single(turns)
    ensures Served(RpmBucket(rpm, start), turns, from, from + 60.0) <= 2 * rpm
  {
    var b, limit := RpmBucket(rpm, start), rpm as real;
    hide Served, Granted;
    assert Sound(b) by {
      PerMinute(limit);
    }
    var served := Served(b, turns, from, from + 60.0);
    assert served as real <= 2.0 * limit by {
      WindowBound(b, turns, from, from + 60.0);
      SingleTurnsPayOne(b, turns, from, from + 60.0);
      MinuteInflow(limit, from);
    }
    assert 2.0 * limit == (2 * rpm) as real;
  }

  function Requests(now: real, n: nat): seq<Turn> {
    seq(n, i => Turn(now, 1.0))
  }

  lemma TurnAppends(b: Bucket, turns: seq<Turn>, turn: Turn, from: real, to: real)
    ensures Play(b, turns + [turn]) == Try(Play(b, turns), turn.now, turn.amount).0
    ensures Granted(b, turns + [turn], from, to)
            == Granted(b, turns, from, to) + if from <= turn.now <= to then Paid(Play(b, turns), turn) else 0.0
  {
    hide Try, Paid;
    var all, marks, mark := turns + [turn], Trace(b, turns), MarkOf(Play(b, turns), turn);
    assert all[..|all| - 1] == turns;
    assert Trace(b, all) == marks + [mark];
    assert (marks + [mark])[..|marks + [mark]| - 1] == marks;
  }

  /** The bucket after n single requests at one instant, all of them served. */
  function Drawn(b: Bucket, now: real, n: nat): Bucket {
    if n == 0 then b else b.(tokens := Level(b, now) - n as real, last := now)
  }

  lemma RequestIsServed(b: Bucket, now: real, n: nat)
    requires b.capacity >= 1.0 && b.last <= now && Level(b, now) >= n as real + 1.0
    ensures Try(Drawn(b, now, n), now, 1.0).0 == Drawn(b, now, n + 1)
    ensures Paid(Drawn(b, now, n), Turn(now, 1.0)) == 1.0
  {
    var level := Level(b, now);
    assert (n + 1) as real == n as real + 1.0;
    assert Refill(Drawn(b, now, n), now) == b.(tokens := level - n as real, last := now);
  }

  /** As many single requests as there are whole tokens are all served. */
  lemma {:induction false} Burst(b: Bucket, turns: seq<Turn>, now: real, n: nat, from: real, to: real)
    requires from <= now <= to && Play(b, turns).capacity >= 1.0 && Play(b, turns).last <= now
    requires Level(Play(b, turns), now) >= n as real
    ensures Granted(b, turns + Requests(now, n), from, to) == Granted(b, turns, from, to) + n as real
    ensures Play(b, turns + Requests(now, n)) == Drawn(Play(b, turns), now, n)
  {
    hide Level, Try, Paid, Granted, Play;
    if n == 0 {
      assert turns + Requests(now, 0) == turns;
    } else {
      assert n as real == (n - 1) as real + 1.0;
      Burst(b, turns, now, n - 1, from, to);
      TurnAppends(b, turns + Requests(now, n - 1), Turn(now, 1.0), from, to);
      RequestIsServed(Play(b, turns), now, n - 1);
      assert turns + Requests(now, n) == turns + Requests(now, n - 1) + [Turn(now, 1.0)];
    }
  }

  lemma MinuteRefills(limit: real)
    requires limit >= 1.0
    ensures Level(Bucket(limit, limit / 60.0, 0.0, 0.0), 60.0) == limit
  {
    PerMinute(limit);
    Commute(limit / 60.0, 60.0);
  }

  lemma TwoBursts(rpm: int)
    requires rpm > 0
    ensures Granted(RpmBucket(rpm, 0.0), [] + Requests(0.0, rpm) + Requests(60.0, rpm), 0.0, 60.0) == 2.0 * rpm as real
  {
    var b, limit := RpmBucket(rpm, 0.0), rpm as real;
    var empty := b.(tokens := 0.0);
    assert Play(b, []) == b && Granted(b, [], 0.0, 60.0) == 0.0 && Level(b, 0.0) == limit;
    hide Granted, Play, Level;
    Burst(b, [], 0.0, rpm, 0.0, 60.0);
    assert Drawn(b, 0.0, rpm) == empty;
    MinuteRefills(limit);
    Burst(b, [] + Requests(0.0, rpm), 60.0, rpm, 0.0, 60.0);
  }

  /** The bound is met: 2 * rpm requests do pass within one minute, so the limiter does not keep every
      minute under the provider's rpm. */
  lemma RpmWindowIsTight(rpm: int)
    requires rpm >= 1
    ensures exists turns ::
      Ordered(0.0, turns) && Single(turns) && Served(RpmBucket(rpm, 0.0), turns, 0.0, 60.0) == 2 * rpm
  {
    var b, turns := RpmBucket(rpm, 0.0), [] + Requests(0.0, rpm) + Requests(60.0, rpm);
    TwoBursts(rpm);
    assert Ordered(0.0, turns) && Single(turns);
    PerMinute(rpm as real);
    SingleTurnsPayOne(b, turns, 0.0, 60.0);
    hide Served, Granted;
    assert Served(b, turns, 0.0, 60.0) as real == (2 * rpm) as real;
  }

  lemma OneRequest(rpm: int)
    requires rpm <= 0
    ensures Served(RpmBucket(rpm, 0.0), [Turn(0.0, 1.0)], 0.0, 60.0) == 1
  {
    var b, turn := RpmBucket(rpm, 0.0), Turn(0.0, 1.0);
    assert [turn][..0] == [];
    assert Play(b, []) == b && Trace(b, []) == [];
    var mark := MarkOf(b, turn);
    assert Trace(b, [turn]) == [mark] && mark.served;
    assert [mark][..0] == [];
    assert ServedWithin([], 0.0, 60.0) == 0;
  }

  ghost predicate AtMostTwice(rpm: int, start: real, turns: seq<Turn>, from: real) {
    Served(RpmBucket(rpm, start), turns, from, from + 60.0) <= 2 * rpm
  }

  /** At most 2 * rpm requests pass in every 60 seconds of every contention, exactly when rpm is at least 1. */
  lemma RpmWindowIff(rpm: int)
    ensures (forall start, turns, from :: Ordered(start, turns) && Single(turns) ==>
        AtMostTwice(rpm, start, turns, from))
            <==> rpm >= 1
  {
    if rpm >= 1 {
      forall start, turns, from | Ordered(start, turns) && Single(turns) ensures AtMostTwice(rpm, start, turns, from) {
        RpmWindow(rpm, start, turns, from);
      }
    } else {
      var turns := [Turn(0.0, 1.0)];
      OneRequest(rpm);
      assert Ordered(0.0, turns) && Single(turns) && !AtMostTwice(rpm, 0.0, turns, 0.0);
    }
  }

  predicate Empty(b: Bucket) {
    b.capacity == 0.0 && b.rate == 0.0 && b.tokens == 0.0
  }

  lemma EmptyServes(b: Bucket, now: real)
    requires Empty(b)
    ensures Empty(Try(b, now, 1.0).0) && MarkOf(b, Turn(now, 1.0)).served
  {
  }

  lemma {:induction false} EmptyServesAll(b: Bucket, turns: seq<Turn>)
    requires Empty(b) && Single(turns)
    ensures Empty(Play(b, turns)) && |Trace(b, turns)| == |turns|
    ensures forall i :: 0 <= i < |turns| ==> Trace(b, turns)[i].served
  {
    hide Try, MarkOf, Empty;
    if turns != [] {
      var before, last := turns[..|turns| - 1], turns[|turns| - 1];
      EmptyServesAll(b, before);
      assert last == Turn(last.now, 1.0);
      EmptyServes(Play(b, before), last.now);
    }
  }

  /** A limit of 0 does not stop requests: it lets every one of them through. */
  lemma ZeroLimitServesAll(start: real, turns: seq<Turn>)
    requires Single(turns)
    ensures |Trace(RpmBucket(0, start), turns)| == |turns|
    ensures forall i :: 0 <= i < |turns| ==> Trace(RpmBucket(0, start), turns)[i].served
  {
    assert Empty(RpmBucket(0, start));
    EmptyServesAll(RpmBucket(0, start), turns);
  }

  /** A full bucket grants any request, however far above its capacity, and charges only the capacity. */
  lemma OversizeIsGranted(b: Bucket, now: real, amount: real)
    requires Sound(b) && b.tokens == b.capacity && amount >= b.capacity
    ensures Try(b, now, amount).1 && Try(b, now, amount).0.tokens == 0.0
  {
    TryStaysSound(b, now, amount);
  }

  // ── a caller among others ──

  lemma TryByLevel(b: Bucket, now: real, amount: real)
    ensures Try(b, now, amount).1 <==> Level(b, now) >= Min(amount, b.capacity)
    ensures !Try(b, now, amount).1 ==> Try(b, now, amount).0 == Refill(b, now)
    ensures Refill(b, now).capacity == b.capacity
  {
  }

  /** Everything that has happened at the bucket before the n-th turn of a waiting caller. */
  function History(amount: real, clock: nat -> real, others: nat -> seq<Turn>, n: nat): seq<Turn> {
    if n == 0 then others(0)
    else History(amount, clock, others, n - 1) + [Turn(clock(2 * n - 1), amount)] + others(n)
  }

  lemma {:induction false} PlayConcat(b: Bucket, first: seq<Turn>, second: seq<Turn>)
    ensures Play(b, first + second) == Play(Play(b, first), second)
  {
    if second == [] {
      assert first + second == first;
    } else {
      var init := second[..|second| - 1];
      PlayConcat(b, first, init);
      assert (first + second)[..|first + second| - 1] == first + init;
    }
  }

  lemma HistoryContinues(b: Bucket, amount: real, clock: nat -> real, others: nat -> seq<Turn>, n: nat)
    requires n > 0 ==>
      Level(Play(b, History(amount, clock, others, n - 1)), clock(2 * n - 1)) < Min(amount, b.capacity)
    ensures
      var found :=
        if n == 0 then b else Refill(Play(b, History(amount, clock, others, n - 1)), clock(2 * n - 1));
      Play(b, History(amount, clock, others, n)) == Play(found, others(n))
  {
    if n > 0 {
      var before, own := History(amount, clock, others, n - 1), Turn(clock(2 * n - 1), amount);
      KeepsCapacity(b, before);
      PlayConcat(b, before + [own], others(n));
      PlayConcat(b, before, [own]);
      assert [own][..0] == [];
      assert Play(Play(b, before), [own]) == Try(Play(b, before), own.now, own.amount).0;
    }
  }

  /** A monotonic clock, and the others' turns in the gaps between this caller's. */
  ghost predicate Interleaved(clock: nat -> real, others: nat -> seq<Turn>) {
    && (forall i: nat, j: nat :: i <= j ==> clock(i) <= clock(j))
    && (forall i: nat :: InGap(clock(2 * i), others(i), clock(2 * i + 1)))
  }

  ghost predicate InGap(from: real, turns: seq<Turn>, to: real) {
    Ordered(from, turns) && forall k :: 0 <= k < |turns| ==> turns[k].now <= to
  }

  lemma GapsJoin(from: real, first: seq<Turn>, middle: real, second: seq<Turn>, to: real)
    requires InGap(from, first, middle) && InGap(middle, second, to) && from <= middle <= to
    ensures InGap(from, first + second, to)
  {
  }

  /** What a caller and the others do together is one contention, so the window bound holds of it. */
  lemma {:induction false} HistoryIsOrdered(amount: real, clock: nat -> real, others: nat -> seq<Turn>, n: nat)
    requires amount >= 0.0 && Interleaved(clock, others)
    ensures InGap(clock(0), History(amount, clock, others, n), clock(2 * n + 1))
  {
    assert InGap(clock(2 * n), others(n), clock(2 * n + 1));
    if n > 0 {
      HistoryIsOrdered(amount, clock, others, n - 1);
      var before, own := History(amount, clock, others, n - 1), Turn(clock(2 * n - 1), amount);
      assert 2 * (n - 1) + 1 == 2 * n - 1;
      GapsJoin(clock(0), before, clock(2 * n - 1), [own], clock(2 * n));
      GapsJoin(clock(0), before + [own], clock(2 * n), others(n), clock(2 * n + 1));
    }
  }

  function Nobody(): nat -> seq<Turn> {
    (i: nat) => []
  }

  /** With nobody else there, a waiter finds the level that the closed form gives from the start. */
  lemma {:induction false} AloneIsExact(b: Bucket, amount: real, clock: nat -> real, n: nat, now: real)
    requires Sound(b) && amount >= 0.0 && b.last <= clock(0) && clock(2 * n) <= now
    requires forall i: nat, j: nat :: i <= j ==> clock(i) <= clock(j)
    requires forall i :: 0 <= i < n ==>
      Level(Play(b, History(amount, clock, Nobody(), i)), clock(2 * i + 1)) < Min(amount, b.capacity)
    ensures Level(Play(b, History(amount, clock, Nobody(), n)), now) == Level(b, now)
  {
    hide Play, Level, Refill, History, Sound;
    HistoryContinues(b, amount, clock, Nobody(), n);
    NothingPlayed(b);
    if n > 0 {
      var history, at := History(amount, clock, Nobody(), n - 1), clock(2 * n - 1);
      AloneIsExact(b, amount, clock, n - 1, now);
      assert Sound(Play(b, history)) by {
        HistoryIsOrdered(amount, clock, Nobody(), n - 1);
        PlayStaysSound(b, history);
      }
      NothingPlayed(Refill(Play(b, history), at));
      LevelAfterRefill(Play(b, history), at, now);
    }
  }

  lemma NothingPlayed(b: Bucket)
    ensures forall i: nat :: Play(b, Nobody()(i)) == b
  {
  }

  lemma LevelAfterRefill(b: Bucket, at: real, now: real)
    requires Sound(b) && at <= now
    ensures Level(Refill(b, at), now) == Level(b, now)
  {
    RefillIsExact(b, at, now);
  }

  // ── the object ──

  datatype Reply = Acquired | TimedOut | StillWaiting

  class TokenBucket {
    const capacity: real
    const rate: real
    var tokens: real
    var last: real

    constructor (capacity: real, refillPerSec: real, now: real)
      ensures View() == Bucket(capacity, refillPerSec, capacity, now)
    {
      this.capacity, rate, tokens, last := capacity, refillPerSec, capacity, now;
    }

    function View(): Bucket
      reads this
    {
      Bucket(capacity, rate, tokens, last)
    }

    method RefillLocked(now: real)
      modifies this
      ensures View() == Refill(old(View()), now)
    {
      var elapsed := now - last;
      if elapsed > 0.0 {
        tokens := Min(capacity, tokens + elapsed * rate);
        last := now;
      }
    }

    /** One turn under the lock. */
    method TakeTurn(now: real, amount: real) returns (granted: bool)
      modifies this
      ensures (View(), granted) == Try(old(View()), now, amount)
    {
      RefillLocked(now);
      var wanted := Min(amount, capacity);
      granted := tokens >= wanted;
      if granted {
        tokens := tokens - wanted;
      }
    }

    /** The turns other threads take while this one does not hold the lock. */
    method LetOthers(turns: seq<Turn>)
      modifies this
      ensures View() == Play(old(View()), turns)
    {
      for i := 0 to |turns|
        invariant View() == Play(old(View()), turns[..i])
      {
        assert turns[..i + 1][..i] == turns[..i];
        var _ := TakeTurn(turns[i].now, turns[i].amount);
      }
      assert turns[..|turns|] == turns;
    }

    /** acquire among any other threads: others(i) are the turns they take before the i-th turn of this
        loop, while it waits for the lock or on the condition. clock(0) is read on entry and clock(2i + 1),
        clock(2i + 2) in the i-th turn; `wakes` bounds how often the wait is watched. */
    method Acquire(amount: real, timeout: Option<real>, clock: nat -> real, others: nat -> seq<Turn>, wakes: nat)
      returns (reply: Reply, turns: nat)
      modifies this
      ensures turns <= wakes && (reply == StillWaiting ==> turns == wakes) && (reply != StillWaiting ==> turns > 0)
      ensures forall i :: 0 <= i < (if reply == Acquired then turns - 1 else turns) ==>
        Level(Play(old(View()), History(amount, clock, others, i)), clock(2 * i + 1)) < Min(amount, capacity)
      ensures timeout.Some? ==> forall i :: 0 < i < turns ==> clock(2 * i) < clock(0) + timeout.value
      ensures reply == Acquired ==>
        var found := Play(old(View()), History(amount, clock, others, turns - 1));
        && Level(found, clock(2 * turns - 1)) >= Min(amount, capacity)
        && View() == Try(found, clock(2 * turns - 1), amount).0
      ensures reply != Acquired && turns > 0 ==>
        View() == Refill(Play(old(View()), History(amount, clock, others, turns - 1)), clock(2 * turns - 1))
      ensures reply == TimedOut ==> timeout.Some? && clock(2 * turns) >= clock(0) + timeout.value
    {
      hide Play, History, Level, Try, Refill;
      ghost var start := View();
      turns := 0;
      while turns < wakes
        invariant 0 <= turns <= wakes
        invariant capacity == start.capacity
        invariant View() == if turns == 0 then start
                            else Refill(Play(start, History(amount, clock, others, turns - 1)), clock(2 * turns - 1))
        invariant forall i :: 0 <= i < turns ==>
          Level(Play(start, History(amount, clock, others, i)), clock(2 * i + 1)) < Min(amount, capacity)
        invariant timeout.Some? ==> forall i :: 0 < i <= turns ==> clock(2 * i) < clock(0) + timeout.value
      {
        HistoryContinues(start, amount, clock, others, turns);
        LetOthers(others(turns));
        ghost var found := Play(start, History(amount, clock, others, turns));
        KeepsCapacity(start, History(amount, clock, others, turns));
        TryByLevel(found, clock(2 * turns + 1), amount);
        turns := turns + 1;
        var granted := TakeTurn(clock(2 * turns - 1), amount);
        if granted {
          return Acquired, turns;
        }
        if timeout.Some? {
          var remaining := clock(0) + timeout.value - clock(2 * turns);
          if remaining <= 0.0 {
            return TimedOut, turns;
          }
        }
      }
      return StillWaiting, turns;
    }
  }
}
