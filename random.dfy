/** The random source of the daily game (today-game.js:9-23): the mulberry32
    generator, the stream of draws it produces from a seed, and the three ways
    the game turns one draw into a decision: `getRandomValue`, an index
    `Math.floor(rand * n)`, and a comparison `rand < p`.

    A draw is the value u / 2^32 for an unsigned 32-bit integer u. Every
    product the game forms with it (u / 2^32 times a small integer) is exact in
    double precision, so the model works on u itself, with integers only; the
    lemmas RandomValueIsFloor, BelowIsRealComparison and IndexIsFloor tie each
    integer formula to the real-valued expression the source evaluates. */
module Random {

  /** 2^32: one more than the largest draw. */
  const TwoTo32: int := 0x1_0000_0000

  /** One draw u of the generator; the source sees it as u / 2^32, in [0, 1). */
  type Draw = u: int | 0 <= u < 0x1_0000_0000

  /** The constant the closure adds to its state on every call. */
  const Increment: bv32 := 0x6D2B79F5

  /** What one call of the closure yields: its new state and the draw it returns. */
  datatype Step = Step(seed: bv32, draw: Draw)

  /** The closure state a seed number turns into at the first `seed |= 0`:
      the number modulo 2^32, read as 32 bits. */
  function SeedOf(n: int): bv32
  {
    (n % TwoTo32) as bv32
  }

  /** Seeds that differ by a multiple of 2^32 start the same stream: only the
      low 32 bits of the seed survive `seed |= 0`. */
  lemma SeedOfWraps(n: int, k: int)
    ensures SeedOf(n + k * TwoTo32) == SeedOf(n)
  {
    assert (n + k * TwoTo32) % TwoTo32 == n % TwoTo32;
  }

  /** One call of the function returned by `mulberry32(seed)`: the state
      moves on by Increment and the output is mixed from the new state with
      `Math.imul`, `^` and `>>>`, all of which are 32-bit operations. */
  function Mulberry32(seed: bv32): Step
  {
    var s := seed + Increment;
    var t := (s ^ (s >> 15)) * (1 | s);
    var t2 := t + (t ^ (t >> 7)) * (61 | t);
    Step(s, (t2 ^ (t2 >> 14)) as int)
  }

  /** The draws ds are the next |ds| values the closure returns when it
      starts in state `before`, and `after` is its state once they are
      taken. */
  predicate Consumed(before: bv32, after: bv32, ds: seq<Draw>)
    decreases |ds|, 1
  {
    if |ds| == 0 then after == before else ConsumedFrom(before, after, ds)
  }

  /** The first of ds is the next value, and the rest are consumed from the
      state that call leaves. */
  predicate ConsumedFrom(before: bv32, after: bv32, ds: seq<Draw>)
    requires |ds| > 0
    decreases |ds|, 0
  {
    var step := Mulberry32(before);
    ds[0] == step.draw && Consumed(step.seed, after, ds[1..])
  }

  /** ds are the first draws of a day's stream: `processDailyEvents` seeds
      the generator with the day's seed plus the day number. */
  predicate DayStream(dailySeed: int, day: int, after: bv32, ds: seq<Draw>)
  {
    Consumed(SeedOf(dailySeed + day), after, ds)
  }

  /** Taking draws is one stream: xs from `before` and then ys from the state
      reached are together the next |xs| + |ys| values. */
  lemma {:induction false} ConsumedInTurn(before: bv32, middle: bv32, after: bv32, xs: seq<Draw>, ys: seq<Draw>)
    requires Consumed(before, middle, xs) && Consumed(middle, after, ys)
    ensures Consumed(before, after, xs + ys)
    decreases |xs|
  {
    if |xs| > 0 {
      var step := Mulberry32(before);
      ConsumedInTurn(step.seed, middle, after, xs[1..], ys);
      assert (xs + ys)[1..] == xs[1..] + ys;
    } else {
      assert xs + ys == ys;
    }
  }

  /** A day's stream continues with whatever is drawn next. */
  lemma DayStreamInTurn(dailySeed: int, day: int, middle: bv32, after: bv32, xs: seq<Draw>, ys: seq<Draw>)
    requires DayStream(dailySeed, day, middle, xs) && Consumed(middle, after, ys)
    ensures DayStream(dailySeed, day, after, xs + ys)
  {
    ConsumedInTurn(SeedOf(dailySeed + day), middle, after, xs, ys);
  }

  /** The stream is determined by the state it starts from: two runs that
      take the same number of draws from the same state see the same draws
      and end in the same state. Replaying a day from its seed therefore
      replays every decision of that day. */
  lemma {:induction false} ConsumedDeterministic(before: bv32, after1: bv32, after2: bv32, xs: seq<Draw>, ys: seq<Draw>)
    requires |xs| == |ys|
    requires Consumed(before, after1, xs) && Consumed(before, after2, ys)
    ensures xs == ys && after1 == after2
    decreases |xs|
  {
    if |xs| > 0 {
      var step := Mulberry32(before);
      ConsumedDeterministic(step.seed, after1, after2, xs[1..], ys[1..]);
      assert xs == [xs[0]] + xs[1..] && ys == [ys[0]] + ys[1..];
    }
  }

  /** `getRandomValue(base, variance)` for the draw u:
      `Math.floor(rand * (max - min + 1)) + min`. Every value lies in
      [base - variance, base + variance]. */
  function RandomValueOf(base: int, variance: int, u: Draw): (v: int)
    ensures variance >= 0 ==> base - variance <= v <= base + variance
  {
    var lo := base - variance;
    var hi := base + variance;
    var k := hi - lo + 1;
    if variance >= 0 then
      MulStrict(u, TwoTo32, k);
      DivRange(u * k, k);
      u * k / TwoTo32 + lo
    else
      u * k / TwoTo32 + lo
  }

  /** Multiplying both sides of u < v by a positive k keeps the order. */
  lemma MulStrict(u: int, v: int, k: int)
    requires u < v && k > 0
    ensures u * k < v * k
  {}

  /** A product below 2^32 * k has a quotient by 2^32 below k. */
  lemma DivRange(p: int, k: int)
    requires 0 <= p < TwoTo32 * k
    ensures 0 <= p / TwoTo32 < k
  {}

  /** d * 2^32 <= p < (d + 1) * 2^32 pins p / 2^32 down to d. */
  lemma FloorExact(p: int, d: int)
    requires d * TwoTo32 <= p < d * TwoTo32 + TwoTo32
    ensures p / TwoTo32 == d
  {}

  /** Every value of the range comes out for some draw: the range is tight. */
  lemma RandomValueReachable(base: int, variance: int, v: int)
    requires variance >= 0 && 2 * variance + 1 <= TwoTo32
    requires base - variance <= v <= base + variance
    ensures exists u: Draw :: RandomValueOf(base, variance, u) == v
  {
    var k := 2 * variance + 1;
    var d := v - (base - variance);
    var n := d * TwoTo32 + k - 1;
    var u := n / k;
    var r := n % k;
    assert n == u * k + r && 0 <= r < k;
    // u is the least draw with u * k >= d * 2^32
    assert d * TwoTo32 <= u * k < d * TwoTo32 + k;
    assert 0 <= u;
    MulStrict(d, k, TwoTo32);
    assert u < TwoTo32 by {
      assert n < k * TwoTo32;
      MulLowerBound(u, k, n);
    }
    FloorExact(u * k, d);
    assert RandomValueOf(base, variance, u) == v;
  }

  /** A quotient is below the bound of its dividend: u = n / k and n < k * 2^32. */
  lemma MulLowerBound(u: int, k: int, n: int)
    requires k > 0 && 0 <= n < k * TwoTo32 && u == n / k
    ensures u < TwoTo32
  {
    var r := n % k;
    assert n == u * k + r && 0 <= r;
    assert u * k < k * TwoTo32;
    if TwoTo32 <= u {
      MulMonotone(TwoTo32, u, k);
    }
  }

  /** Multiplying both sides of a <= b by a positive k keeps the order. */
  lemma MulMonotone(a: int, b: int, k: int)
    requires a <= b && k > 0
    ensures a * k <= b * k
  {}

  /** The integer formula is the source's real one: with rand = u / 2^32,
      the random value is floor(rand * (max - min + 1)) + min. */
  lemma RandomValueIsFloor(base: int, variance: int, u: Draw)
    ensures RandomValueOf(base, variance, u)
         == ((u as real / TwoTo32 as real) * ((2 * variance + 1) as real)).Floor + (base - variance)
  {
    FloorOfScaled(u, 2 * variance + 1);
  }

  /** floor(u / 2^32 * k) computed on integers. */
  lemma FloorOfScaled(u: Draw, k: int)
    ensures u * k / TwoTo32 == ((u as real / TwoTo32 as real) * (k as real)).Floor
  {
    var p := u * k;
    var q := p / TwoTo32;
    var r := p % TwoTo32;
    assert p == q * TwoTo32 + r && 0 <= r < TwoTo32;
    var x := (u as real / TwoTo32 as real) * (k as real);
    assert x == p as real / TwoTo32 as real;
    assert x == q as real + r as real / TwoTo32 as real;
    assert q as real <= x < (q + 1) as real;
  }

  /** `rand < num / den`, the test behind a decimal chance such as
      `rand < 0.7`, written on u. */
  predicate Below(u: Draw, num: nat, den: nat)
  {
    u * den < num * TwoTo32
  }

  /** Below is the real comparison of the draw with the fraction num / den. */
  lemma BelowIsRealComparison(u: Draw, num: nat, den: nat)
    requires den > 0
    ensures Below(u, num, den) <==> u as real / TwoTo32 as real < num as real / den as real
  {
    var a := u as real / TwoTo32 as real;
    var b := num as real / den as real;
    var c := (TwoTo32 * den) as real;
    assert a * c == (u * den) as real;
    assert b * c == (num * TwoTo32) as real;
  }

  /** `Math.floor(rand * n)`: the index rand picks in a list of n items. */
  function IndexOf(u: Draw, n: nat): int
  {
    u * n / TwoTo32
  }

  /** A draw always picks a valid index of a non-empty list, and the index is
      the floor of rand * n. */
  lemma IndexIsFloor(u: Draw, n: nat)
    requires n > 0
    ensures 0 <= IndexOf(u, n) < n
    ensures IndexOf(u, n) == ((u as real / TwoTo32 as real) * (n as real)).Floor
  {
    MulStrict(u, TwoTo32, n);
    DivRange(u * n, n);
    FloorOfScaled(u, n);
  }
}
