/**
 * The closed loop of examples/aimd/gencharts/main.go: a limiter against a hidden ceiling. A step
 * above the ceiling is a rate-limit error, any other step a success one millisecond later.
 */
module Convergence {
  import opened Limiter

  const MILLISECOND := 1_000_000

  class FakeClock {
    var t: int

    constructor (start: int)
      ensures t == start
    {
      t := start;
    }

    method Add(d: int)
      modifies this
      ensures t == old(t) + d
    {
      t := t + d;
    }
  }

  datatype Loop = Loop(limiter: State, clock: int)

  function LoopStep(l: Loop, ceiling: real): Loop {
    if l.limiter.current > ceiling then Loop(AfterBackoff(l.limiter, l.clock), l.clock)
    else Loop(AfterSuccess(l.limiter, l.clock + MILLISECOND), l.clock + MILLISECOND)
  }

  function LoopAt(l: Loop, ceiling: real, k: nat): Loop {
    if k == 0 then l else LoopStep(LoopAt(l, ceiling, k - 1), ceiling)
  }

  /** The rates at the first `n` steps from `l`. */
  ghost predicate IsSeries(series: seq<real>, l: Loop, ceiling: real, n: nat) {
    |series| == n && forall k :: 0 <= k < n ==> series[k] == LoopAt(l, ceiling, k).limiter.current
  }

  /** The body of the simulation loop. */
  method SimulateStep(clk: FakeClock, lim: AIMDRateLimiter, trueTPS: real) returns (cur: real)
    requires lim.Valid()
    modifies clk, lim
    ensures lim.Valid() && cur == old(lim.current)
    ensures clk.t == if cur > trueTPS then old(clk.t) else old(clk.t) + 1_000_000
    ensures cur > trueTPS ==> lim.View() == AfterBackoff(old(lim.View()), clk.t)
    ensures cur <= trueTPS ==> lim.View() == AfterSuccess(old(lim.View()), clk.t)
    ensures Loop(lim.View(), clk.t) == LoopStep(old(Loop(lim.View(), clk.t)), trueTPS)
  {
    cur := lim.current;
    if cur > trueTPS {
      lim.Backoff(clk.t);
    } else {
      clk.Add(MILLISECOND);
      lim.OnSuccess(clk.t);
    }
  }

  method Simulate(clk: FakeClock, lim: AIMDRateLimiter, trueTPS: real, steps: nat) returns (series: seq<real>)
    requires lim.Valid()
    modifies clk, lim
    ensures lim.Valid() && IsSeries(series, old(Loop(lim.View(), clk.t)), trueTPS, steps)
    ensures Loop(lim.View(), clk.t) == LoopAt(old(Loop(lim.View(), clk.t)), trueTPS, steps)
  {
    series := [];
    ghost var start := Loop(lim.View(), clk.t);
    ghost var now := start;
    for i := 0 to steps
      invariant lim.Valid() && Loop(lim.View(), clk.t) == now
      invariant now == LoopAt(start, trueTPS, i) && IsSeries(series, start, trueTPS, i)
    {
      var cur := SimulateStep(clk, lim, trueTPS);
      series := series + [cur];
      now := LoopStep(now, trueTPS);
    }
  }

  // ---- The rate alone ----

  /** The bounds and the ceiling of one scenario. */
  datatype Setting = Setting(min: real, max: real, ceiling: real)

  ghost predicate Proper(g: Setting) {
    0.0 < g.min <= g.max && g.min <= g.ceiling && g.max > g.ceiling * 0.5
  }

  function Next(g: Setting, x: real): real {
    if x > g.ceiling then Larger(x * 0.5, g.min) else Smaller(x + 1.0, g.max)
  }

  function Rate(g: Setting, x: real, k: nat): real {
    if k == 0 then x else Next(g, Rate(g, x, k - 1))
  }

  /** No merging, an increase interval of at most one step, and nothing remembered from the future. */
  ghost predicate Stepwise(l: Loop) {
    && Bounded(l.limiter) && l.limiter.mergeDisabled && l.limiter.increaseInterval <= MILLISECOND
    && l.limiter.lastIncrease <= l.clock && l.clock > 0
  }

  /** The loop with such a limiter follows the simple recurrence on the rate. */
  lemma {:induction false} LoopFollowsRate(l: Loop, ceiling: real, k: nat)
    requires Stepwise(l)
    ensures var g := Setting(l.limiter.min, l.limiter.max, ceiling);
            && LoopAt(l, ceiling, k).limiter.current == Rate(g, l.limiter.current, k)
            && Stepwise(LoopAt(l, ceiling, k))
            && LoopAt(l, ceiling, k).limiter.min == g.min && LoopAt(l, ceiling, k).limiter.max == g.max
  {
    if k > 0 {
      LoopFollowsRate(l, ceiling, k - 1);
    }
  }

  /** Above half the ceiling, and at most one step above it. */
  ghost predicate InBand(g: Setting, x: real) {
    g.ceiling * 0.5 < x <= Smaller(g.max, g.ceiling + 1.0)
  }

  lemma BandIsKept(g: Setting, x: real)
    requires Proper(g) && InBand(g, x) && g.min <= x
    ensures InBand(g, Next(g, x)) && g.min <= Next(g, x)
  {
  }

  lemma {:induction false} NeverLeavesBand(g: Setting, x: real, k: nat, m: nat)
    requires Proper(g) && g.min <= x <= g.max && k <= m && InBand(g, Rate(g, x, k))
    ensures InBand(g, Rate(g, x, m))
    decreases m
  {
    RateBounded(g, x, m);
    if k < m {
      NeverLeavesBand(g, x, k, m - 1);
      RateBounded(g, x, m - 1);
      BandIsKept(g, Rate(g, x, m - 1));
    }
  }

  lemma {:induction false} RateBounded(g: Setting, x: real, k: nat)
    requires Proper(g) && g.min <= x <= g.max
    ensures g.min <= Rate(g, x, k) <= g.max
  {
    if k > 0 {
      RateBounded(g, x, k - 1);
    }
  }

  lemma {:induction false} RateSplit(g: Setting, x: real, j: nat, k: nat)
    ensures Rate(g, x, j + k) == Rate(g, Rate(g, x, j), k)
  {
    if k > 0 {
      RateSplit(g, x, j, k - 1);
    }
  }

  /** c times 2 to the n. */
  function Doubled(c: real, n: nat): real {
    if n == 0 then c else 2.0 * Doubled(c, n - 1)
  }

  lemma {:induction false} DoubledAtLeast(c: real, n: nat)
    requires c > 0.0
    ensures Doubled(c, n) >= c
  {
    if n > 0 {
      DoubledAtLeast(c, n - 1);
    }
  }

  lemma RateFromNext(g: Setting, x: real, k: nat)
    ensures Rate(g, x, k + 1) == Rate(g, Next(g, x), k)
  {
    RateSplit(g, x, 1, k);
    assert Rate(g, x, 1) == Next(g, Rate(g, x, 0));
  }

  /** From above, halvings alone reach the band: n of them if the start is at most 2^n ceilings. */
  lemma {:induction false} FromAbove(g: Setting, x: real, n: nat) returns (k: nat)
    requires Proper(g) && g.min <= x <= g.max && x > g.ceiling * 0.5 && x <= Doubled(g.ceiling, n)
    ensures k <= n && InBand(g, Rate(g, x, k))
    decreases n
  {
    if x <= g.ceiling + 1.0 {
      k := 0;
    } else {
      DoubledAtLeast(g.ceiling, n - 1);
      var j := FromAbove(g, Next(g, x), n - 1);
      RateFromNext(g, x, j);
      k := j + 1;
    }
  }

  /** From below, successes alone reach the band: floor(ceiling / 2 - x) + 1 of them. */
  lemma {:induction false} FromBelow(g: Setting, x: real) returns (k: nat)
    requires Proper(g) && g.min <= x <= g.max && x <= g.ceiling * 0.5
    ensures k <= (g.ceiling * 0.5 - x).Floor + 1 && InBand(g, Rate(g, x, k))
    decreases (g.ceiling * 0.5 - x).Floor + 1
  {
    var y := Next(g, x);
    if y > g.ceiling * 0.5 {
      RateFromNext(g, x, 0);
      k := 1;
    } else {
      assert (g.ceiling * 0.5 - x).Floor == (g.ceiling * 0.5 - y).Floor + 1;
      var j := FromBelow(g, y);
      RateFromNext(g, x, j);
      k := j + 1;
    }
  }

  /**
   * Wherever the rate starts, it is in the band from some step on: after at most n steps from above
   * when the start is at most 2^n ceilings, after at most floor(ceiling / 2 - start) + 1 from below.
   */
  lemma Converges(g: Setting, x: real, n: nat)
    requires Proper(g) && g.min <= x <= g.max && x <= Doubled(g.ceiling, n)
    ensures forall m: nat :: m >= (if x > g.ceiling * 0.5 then n else (g.ceiling * 0.5 - x).Floor + 1) ==>
            InBand(g, Rate(g, x, m))
  {
    var k := 0;
    if x > g.ceiling * 0.5 {
      k := FromAbove(g, x, n);
    } else {
      k := FromBelow(g, x);
    }
    forall m: nat | m >= k ensures InBand(g, Rate(g, x, m)) {
      NeverLeavesBand(g, x, k, m);
    }
  }

  /** The same for the loop of the simulation. */
  lemma SimulationConverges(l: Loop, ceiling: real, n: nat)
    requires Stepwise(l) && l.limiter.min <= ceiling && l.limiter.max > ceiling * 0.5
    requires l.limiter.current <= Doubled(ceiling, n)
    ensures var x := l.limiter.current;
            forall m: nat :: m >= (if x > ceiling * 0.5 then n else (ceiling * 0.5 - x).Floor + 1) ==>
              ceiling * 0.5 < LoopAt(l, ceiling, m).limiter.current <= Smaller(l.limiter.max, ceiling + 1.0)
  {
    var g, x := Setting(l.limiter.min, l.limiter.max, ceiling), l.limiter.current;
    Converges(g, x, n);
    forall m: nat | m >= (if x > ceiling * 0.5 then n else (ceiling * 0.5 - x).Floor + 1)
      ensures InBand(g, LoopAt(l, ceiling, m).limiter.current)
    {
      LoopFollowsRate(l, ceiling, m);
      assert InBand(g, Rate(g, x, m));
    }
  }

  // ---- How often the band is overshot ----

  /** Rate-limit errors among the first n steps. */
  function Errors(g: Setting, x: real, n: nat): nat {
    if n == 0 then 0 else Errors(g, x, n - 1) + if Rate(g, x, n - 1) > g.ceiling then 1 else 0
  }

  /** The rate an error drops by at least, but for the one step it takes. */
  function Span(g: Setting): real {
    (g.ceiling + 1.0) * 0.5
  }

  lemma StepCost(g: Setting, y: real)
    requires Proper(g) && g.min <= y && g.min <= Span(g)
    ensures Next(g, y) <= y + 1.0 - (if y > g.ceiling then Span(g) else 0.0)
  {
  }

  /** n times h, step by step. */
  function Times(n: nat, h: real): real {
    if n == 0 then 0.0 else Times(n - 1, h) + h
  }

  lemma {:induction false} TimesIsProduct(n: nat, h: real)
    ensures Times(n, h) == n as real * h
  {
    if n > 0 {
      TimesIsProduct(n - 1, h);
      OneMore((n - 1) as real, h);
    }
  }

  lemma OneMore(a: real, h: real)
    ensures (a + 1.0) * h == a * h + h
  {
  }

  /** Each success lifts the rate by at most 1, each error drops it by more than (ceiling - 1) / 2. */
  lemma {:induction false} ErrorsCost(g: Setting, x: real, n: nat)
    requires Proper(g) && g.min <= x <= g.max && g.min <= Span(g)
    ensures Times(Errors(g, x, n), Span(g)) <= n as real + x - Rate(g, x, n)
  {
    if n > 0 {
      ErrorsCost(g, x, n - 1);
      RateBounded(g, x, n - 1);
      StepCost(g, Rate(g, x, n - 1));
    }
  }

  /** In the band, n steps hold at most 1 + 2n / (ceiling + 1) rate-limit errors. */
  lemma {:induction false} FewErrors(g: Setting, x: real, n: nat)
    requires Proper(g) && InBand(g, x) && g.min <= x && g.min <= Span(g)
    ensures Times(Errors(g, x, n), Span(g)) <= Span(g) + n as real
  {
    if n > 0 {
      if Rate(g, x, n - 1) > g.ceiling {
        ErrorsCost(g, x, n - 1);
      } else {
        FewErrors(g, x, n - 1);
      }
    }
  }

  /** The errors of the simulation's loop itself. */
  function LoopErrors(l: Loop, ceiling: real, n: nat): nat {
    if n == 0 then 0 else LoopErrors(l, ceiling, n - 1) + if LoopAt(l, ceiling, n - 1).limiter.current > ceiling then
          1 else 0
  }

  lemma {:induction false} SameErrors(l: Loop, ceiling: real, n: nat)
    requires Stepwise(l)
    ensures LoopErrors(l, ceiling, n) == Errors(Setting(l.limiter.min, l.limiter.max, ceiling), l.limiter.current, n)
  {
    if n > 0 {
      SameErrors(l, ceiling, n - 1);
      LoopFollowsRate(l, ceiling, n - 1);
    }
  }

  /** Once the simulated rate is in the band, n further steps are throttled at most 1 + 2n / (ceiling + 1) times. */
  lemma SimulationFewErrors(l: Loop, ceiling: real, n: nat)
    requires Stepwise(l) && l.limiter.min <= ceiling && l.limiter.max > ceiling * 0.5
    requires l.limiter.min <= (ceiling + 1.0) * 0.5
    requires ceiling * 0.5 < l.limiter.current <= Smaller(l.limiter.max, ceiling + 1.0)
    ensures ceiling + 1.0 > 0.0 && LoopErrors(l, ceiling, n) as real <= 1.0 + 2.0 * n as real / (ceiling + 1.0)
  {
    var g, x := Setting(l.limiter.min, l.limiter.max, ceiling), l.limiter.current;
    SameErrors(l, ceiling, n);
    FewErrors(g, x, n);
    ProductBound(LoopErrors(l, ceiling, n), n as real, ceiling + 1.0);
  }

  lemma ProductBound(k: nat, n: real, d: real)
    requires d > 0.0 && Times(k, d * 0.5) <= d * 0.5 + n
    ensures k as real <= 1.0 + 2.0 * n / d
  {
    TimesIsProduct(k, d * 0.5);
    DivideBySpan(k as real, n, d);
  }

  lemma DivideBySpan(k: real, n: real, d: real)
    requires d > 0.0 && k * (d * 0.5) <= d * 0.5 + n
    ensures k <= 1.0 + 2.0 * n / d
  {
    var q := 2.0 * n / d;
    assert q * d == 2.0 * n;
    if k > 1.0 + q {
      LargerProduct(1.0 + q, k, d);
    }
  }

  lemma LargerProduct(a: real, b: real, d: real)
    requires a < b && d > 0.0
    ensures a * d < b * d
  {
  }

  // ---- The gap between two errors ----

  /** Successes from step `j` on lift the rate by at most one each. */
  lemma {:induction false} RisesByOne(g: Setting, x: real, j: nat, m: nat)
    requires j <= m && forall i :: j <= i < m ==> Rate(g, x, i) <= g.ceiling
    ensures Rate(g, x, m) <= Rate(g, x, j) + (m - j) as real
    decreases m
  {
    if j < m {
      RisesByOne(g, x, j, m - 1);
    }
  }

  /** In the band more than (ceiling - 1) / 2 successes lie between two consecutive rate-limit errors. */
  lemma ErrorsAreApart(g: Setting, x: real, k: nat, m: nat)
    requires Proper(g) && g.min <= Span(g) && InBand(g, Rate(g, x, k))
    requires k < m && Rate(g, x, k) > g.ceiling && Rate(g, x, m) > g.ceiling
    requires forall i :: k < i < m ==> Rate(g, x, i) <= g.ceiling
    ensures (m - k - 1) as real > (g.ceiling - 1.0) * 0.5
  {
    assert Rate(g, x, k + 1) <= Span(g);
    RisesByOne(g, x, k + 1, m);
  }

  /** The same for the loop of the simulation, from any step at which its rate is in the band. */
  lemma SimulationErrorsAreApart(l: Loop, ceiling: real, k: nat, m: nat)
    requires Stepwise(l) && l.limiter.min <= ceiling && l.limiter.max > ceiling * 0.5
    requires l.limiter.min <= (ceiling + 1.0) * 0.5 && LoopAt(l, ceiling, k).limiter.current <= ceiling + 1.0
    requires k < m && LoopAt(l, ceiling, k).limiter.current > ceiling && LoopAt(l, ceiling, m).limiter.current > ceiling
    requires forall i :: k < i < m ==> LoopAt(l, ceiling, i).limiter.current <= ceiling
    ensures (m - k - 1) as real > (ceiling - 1.0) * 0.5
  {
    var g, x := Setting(l.limiter.min, l.limiter.max, ceiling), l.limiter.current;
    forall i: nat ensures LoopAt(l, ceiling, i).limiter.current == Rate(g, x, i) {
      LoopFollowsRate(l, ceiling, i);
    }
    RateBounded(g, x, k);
    ErrorsAreApart(g, x, k, m);
  }
}
