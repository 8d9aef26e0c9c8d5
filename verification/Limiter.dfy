/** The adaptive rate limiter (ratelimit.go). Rates are reals, times and durations integers. */
module Limiter {

  const SECOND := 1_000_000_000
  const DEFAULT_INCREASE_INTERVAL := SECOND
  const DEFAULT_BACKOFF_DEBOUNCE := 500_000_000
  const MIN_RATE: real := 0.000_000_001

  /** A limiter's own state. Time 0 is the zero time.Time: never happened. */
  datatype State = State(current: real, min: real, max: real, increaseInterval: int,
                         mergeDisabled: bool, debounce: int, lastBackoff: int, lastIncrease: int)

  function Larger(a: real, b: real): real {
    if a < b then b else a
  }

  function Smaller(a: real, b: real): real {
    if a > b then b else a
  }

  predicate Merged(s: State, now: int) {
    !s.mergeDisabled && s.lastBackoff != 0 && now - s.lastBackoff < s.debounce
  }

  function AfterBackoff(s: State, now: int): State {
    if Merged(s, now) then s
    else s.(lastBackoff := now, lastIncrease := 0, current := Larger(s.current * 0.5, s.min))
  }

  predicate Waits(s: State, now: int) {
    s.current >= s.max || (s.lastIncrease != 0 && now - s.lastIncrease < s.increaseInterval)
  }

  function AfterSuccess(s: State, now: int): State {
    if Waits(s, now) then s
    else s.(lastIncrease := now, current := Smaller(s.current + 1.0, s.max))
  }

  /** The rate stays within its bounds. */
  ghost predicate Bounded(s: State) {
    0.0 < s.min <= s.current <= s.max
  }

  function NormalizeRates(initial: real, min: real, max: real): (real, real, real) {
    var lo, hi := if min > max then max else min, if min > max then min else max;
    var minV := if lo < MIN_RATE then MIN_RATE else lo;
    var maxV := if hi < minV then minV else hi;
    var start := if initial <= 0.0 || initial < minV then minV else initial;
    (if start > maxV then maxV else start, minV, maxV)
  }

  /**
   * Whatever the input, the range runs from the larger of 1e-9 and the smaller bound to the larger of that
   * and the larger bound, and the start is the point of the range nearest to the one asked for.
   */
  lemma NormalizedRates(initial: real, min: real, max: real)
    ensures var (i, lo, hi) := NormalizeRates(initial, min, max);
            var smaller, larger := if min <= max then min else max, if min <= max then max else min;
            && lo == (if smaller >= 0.000_000_001 then smaller else 0.000_000_001)
            && hi == (if larger >= lo then larger else lo)
            && (initial <= lo ==> i == lo) && (initial >= hi ==> i == hi) && (lo <= initial <= hi ==> i == initial)
            && NormalizeRates(i, lo, hi) == (i, lo, hi)
            && NormalizeRates(initial, max, min) == (i, lo, hi)
            && (0.000_000_001 <= min <= initial <= max ==> (i, lo, hi) == (initial, min, max))
  {
  }

  /** max(1, ceil(r)): the least burst of at least one that covers one second of the rate. */
  function BurstForRate(r: real): (b: int)
    ensures b >= 1 && r <= b as real
    ensures b > 1 ==> (b - 1) as real < r
  {
    if r <= 0.0 then 1 else
    var c := -((-r).Floor);
    if c < 1 then 1 else c
  }

  datatype Config = Config(initial: real, min: real, max: real, increaseInterval: int, backoffDebounce: int,
        disableMerge: bool)

  function Configured(cfg: Config): State {
    var (initial, lo, hi) := NormalizeRates(cfg.initial, cfg.min, cfg.max);
    State(initial, lo, hi,
          if cfg.increaseInterval == 0 then DEFAULT_INCREASE_INTERVAL else cfg.increaseInterval,
          cfg.disableMerge,
          if cfg.disableMerge then 0 else if cfg.backoffDebounce == 0 then
                DEFAULT_BACKOFF_DEBOUNCE else cfg.backoffDebounce,
          0, 0)
  }

  class AIMDRateLimiter {
    var current: real
    const min: real
    const max: real
    const increaseInterval: int
    const mergeDisabled: bool
    const debounce: int
    var lastBackoff: int
    var lastIncrease: int
    // The two settings of the inner token bucket.
    var limit: real
    var burst: int

    ghost function View(): State
      reads this
    {
      State(current, min, max, increaseInterval, mergeDisabled, debounce, lastBackoff, lastIncrease)
    }

    /** The rate is within bounds and the token bucket follows it. */
    ghost predicate Valid()
      reads this
    {
      Bounded(View()) && limit == current && burst == BurstForRate(current)
    }

    constructor (cfg: Config)
      ensures Valid() && View() == Configured(cfg) && limit == current && burst == BurstForRate(current)
      ensures var smaller := if cfg.min <= cfg.max then cfg.min else cfg.max;
              min == if smaller >= 0.000_000_001 then smaller else 0.000_000_001
      ensures var larger := if cfg.min <= cfg.max then cfg.max else cfg.min;
              max == if larger >= min then larger else min
      ensures (cfg.initial <= min ==> current == min) && (cfg.initial >= max ==> current == max)
      ensures min <= cfg.initial <= max ==> current == cfg.initial
      ensures increaseInterval == if cfg.increaseInterval == 0 then 1_000_000_000 else cfg.increaseInterval
      ensures mergeDisabled == cfg.disableMerge && (mergeDisabled ==> debounce == 0)
      ensures !mergeDisabled ==> debounce == if cfg.backoffDebounce == 0 then 500_000_000 else cfg.backoffDebounce
      ensures lastBackoff == 0 && lastIncrease == 0
    {
      var (initial, lo, hi) := NormalizeRates(cfg.initial, cfg.min, cfg.max);
      NormalizedRates(cfg.initial, cfg.min, cfg.max);
      current, min, max := initial, lo, hi;
      increaseInterval := if cfg.increaseInterval == 0 then DEFAULT_INCREASE_INTERVAL else cfg.increaseInterval;
      mergeDisabled := cfg.disableMerge;
      debounce := if cfg.disableMerge then 0 else if cfg.backoffDebounce == 0 then
            DEFAULT_BACKOFF_DEBOUNCE else cfg.backoffDebounce;
      lastBackoff, lastIncrease := 0, 0;
      limit, burst := initial, BurstForRate(initial);
    }

    method ApplyLimiterSettings()
      modifies this`limit, this`burst
      ensures limit == current && burst == BurstForRate(current)
    {
      limit := current;
      burst := BurstForRate(current);
    }

    method Backoff(now: int)
      requires Valid()
      modifies this
      ensures Valid() && View() == AfterBackoff(old(View()), now)
      ensures mergeDisabled || old(lastBackoff) == 0 || now - old(lastBackoff) >= debounce ==>
                && current == (if old(current) * 0.5 < min then min else old(current) * 0.5)
                && lastBackoff == now && lastIncrease == 0
                && limit == current && burst == BurstForRate(current)
      ensures !mergeDisabled && old(lastBackoff) != 0 && now - old(lastBackoff) < debounce ==> unchanged(this)
    {
      if !mergeDisabled && lastBackoff != 0 && now - lastBackoff < debounce {
        return;
      }
      lastBackoff := now;
      lastIncrease := 0;
      current := current * 0.5;
      if current < min {
        current := min;
      }
      ApplyLimiterSettings();
    }

    method OnSuccess(now: int)
      requires Valid()
      modifies this
      ensures Valid() && View() == AfterSuccess(old(View()), now)
      ensures old(current) < max && (old(lastIncrease) == 0 || now - old(lastIncrease) >= increaseInterval) ==>
                && current == (if old(current) + 1.0 > max then max else old(current) + 1.0)
                && lastIncrease == now && lastBackoff == old(lastBackoff)
                && limit == current && burst == BurstForRate(current)
      ensures old(current) >= max ==> unchanged(this)
      ensures old(lastIncrease) != 0 && now - old(lastIncrease) < increaseInterval ==> unchanged(this)
    {
      if current >= max {
        return;
      }
      if lastIncrease != 0 && now - lastIncrease < increaseInterval {
        return;
      }
      lastIncrease := now;
      var oldRate := current;
      current := current + 1.0;
      if current > max {
        current := max;
      }
      if current == oldRate {
        return;
      }
      ApplyLimiterSettings();
    }
  }
}
