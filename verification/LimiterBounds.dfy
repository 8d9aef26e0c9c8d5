/** Bounds on the rate over any interleaving of successes and rate-limit errors. */
module LimiterBounds {
  import opened Limiter

  /** One call, and what the clock said during it. */
  datatype Event = BackedOff(now: int) | Succeeded(now: int)

  function After(s: State, e: Event): State {
    match e
    case BackedOff(now) => AfterBackoff(s, now)
    case Succeeded(now) => AfterSuccess(s, now)
  }

  function AfterAll(s: State, es: seq<Event>): State {
    if es == [] then s else After(AfterAll(s, es[..|es| - 1]), es[|es| - 1])
  }

  /** Backoffs that were not merged into an earlier one. */
  function Backoffs(s: State, es: seq<Event>): nat {
    if es == [] then 0 else
    var e := es[|es| - 1];
    Backoffs(s, es[..|es| - 1]) + if e.BackedOff? && !Merged(AfterAll(s, es[..|es| - 1]), e.now) then 1 else 0
  }

  /** Successes that raised the rate. */
  function Increases(s: State, es: seq<Event>): nat {
    if es == [] then 0 else
    var e := es[|es| - 1];
    Increases(s, es[..|es| - 1]) + if e.Succeeded? && !Waits(AfterAll(s, es[..|es| - 1]), e.now) then 1 else 0
  }

  function Last(t0: int, es: seq<Event>): int {
    if es == [] then t0 else es[|es| - 1].now
  }

  /** The clock never runs backwards, and what the limiter remembers lies in the past. */
  ghost predicate Clocked(s: State, t0: int, es: seq<Event>) {
    && 0 < t0 && s.lastBackoff <= t0 && s.lastIncrease <= t0
    && forall i :: 0 <= i < |es| ==> Last(t0, es[..i]) <= es[i].now
  }

  lemma ClockedPrefix(s: State, t0: int, es: seq<Event>)
    requires Clocked(s, t0, es) && es != []
    ensures Clocked(s, t0, es[..|es| - 1]) && Last(t0, es[..|es| - 1]) <= es[|es| - 1].now
  {
    var init := es[..|es| - 1];
    forall i | 0 <= i < |init| ensures Last(t0, init[..i]) <= init[i].now {
      assert init[..i] == es[..i];
    }
  }

  /** What the counts of steps have cost in time so far. */
  ghost predicate Paid(s: State, cur: State, t0: int, now: int, a: nat, b: nat) {
    var i := s.increaseInterval;
    && cur.increaseInterval == i && cur.mergeDisabled == s.mergeDisabled && cur.debounce == s.debounce
    && t0 <= now && cur.lastBackoff <= now && cur.lastIncrease <= now
    && (if cur.lastIncrease == 0 then i * (a - b) <= now - t0
        else if cur.lastIncrease >= t0 then i * (a - b - 1) <= cur.lastIncrease - t0
        else a == 0 && b == 0)
    && (!s.mergeDisabled ==> if cur.lastBackoff >= t0 then s.debounce * (b - 1) <= cur.lastBackoff - t0 else b == 0)
  }

  lemma Times(i: int, k: int)
    ensures i * (k + 1) == i * k + i
  {
  }

  lemma BackoffPays(s: State, cur: State, t0: int, now: int, next: int, a: nat, b: nat)
    requires Paid(s, cur, t0, now, a, b) && s.increaseInterval > 0 && s.debounce >= 0 && 0 < t0 && now <= next
    ensures Paid(s, AfterBackoff(cur, next), t0, next, a, if Merged(cur, next) then b else b + 1)
  {
    Times(s.increaseInterval, a - b - 1);
    Times(s.debounce, b - 1);
  }

  lemma SuccessPays(s: State, cur: State, t0: int, now: int, next: int, a: nat, b: nat)
    requires Paid(s, cur, t0, now, a, b) && s.increaseInterval > 0 && 0 < t0 && now <= next
    ensures Paid(s, AfterSuccess(cur, next), t0, next, if Waits(cur, next) then a else a + 1, b)
  {
    Times(s.increaseInterval, a - b - 1);
  }

  lemma {:induction false} AllPaid(s: State, t0: int, es: seq<Event>)
    requires Clocked(s, t0, es) && s.increaseInterval > 0 && s.debounce >= 0
    ensures Paid(s, AfterAll(s, es), t0, Last(t0, es), Increases(s, es), Backoffs(s, es))
  {
    if es != [] {
      var init, e := es[..|es| - 1], es[|es| - 1];
      ClockedPrefix(s, t0, es);
      AllPaid(s, t0, init);
      match e
      case BackedOff(next) => BackoffPays(s, AfterAll(s, init), t0, Last(t0, init), next, Increases(s, init),
            Backoffs(s, init));
      case Succeeded(next) => SuccessPays(s, AfterAll(s, init), t0, Last(t0, init), next, Increases(s, init),
            Backoffs(s, init));
    }
  }

  lemma TimesMonotone(i: int, j: int, k: int)
    requires i > 0 && j <= k
    ensures i * j <= i * k
  {
  }

  /** Whole intervals that fit into a time. */
  lemma AtMostQuotient(k: int, i: int, t: int)
    requires i > 0 && t >= 0 && i * k <= t
    ensures k <= t / i
  {
    assert t == i * (t / i) + t % i;
    Times(i, t / i);
    if k > t / i {
      TimesMonotone(i, t / i + 1, k);
    }
  }

  lemma PaidSteps(s: State, cur: State, t0: int, now: int, a: nat, b: nat)
    requires Paid(s, cur, t0, now, a, b) && s.increaseInterval > 0
    ensures a <= b + 1 + (now - t0) / s.increaseInterval
  {
    var i := s.increaseInterval;
    Times(i, a - b - 1);
    AtMostQuotient(a - b - 1, i, now - t0);
  }

  lemma PaidBackoffs(s: State, cur: State, t0: int, now: int, a: nat, b: nat)
    requires Paid(s, cur, t0, now, a, b) && !s.mergeDisabled && s.debounce > 0
    ensures b <= 1 + (now - t0) / s.debounce
  {
    if b > 0 {
      AtMostQuotient(b - 1, s.debounce, now - t0);
    }
  }

  /**
   * Over a time T with b effective backoffs there are at most b + 1 + T / interval additive steps,
   * however the calls interleave.
   */
  lemma {:induction false} StepsInTime(s: State, t0: int, es: seq<Event>)
    requires Clocked(s, t0, es) && s.increaseInterval > 0 && s.debounce >= 0
    ensures Last(t0, es) >= t0
    ensures Increases(s, es) <= Backoffs(s, es) + 1 + (Last(t0, es) - t0) / s.increaseInterval
  {
    AllPaid(s, t0, es);
    PaidSteps(s, AfterAll(s, es), t0, Last(t0, es), Increases(s, es), Backoffs(s, es));
  }

  /** With merging on, at most 1 + T / debounce backoffs take effect over a time T. */
  lemma {:induction false} BackoffsInTime(s: State, t0: int, es: seq<Event>)
    requires Clocked(s, t0, es) && s.increaseInterval > 0 && !s.mergeDisabled && s.debounce > 0
    ensures Last(t0, es) >= t0
    ensures Backoffs(s, es) <= 1 + (Last(t0, es) - t0) / s.debounce
  {
    AllPaid(s, t0, es);
    PaidBackoffs(s, AfterAll(s, es), t0, Last(t0, es), Increases(s, es), Backoffs(s, es));
  }

  // ---- Backoffs that must take effect ----

  /** The event `ks[j]` is a rate-limit error, at least the debounce time after the chain's one before it. */
  ghost predicate Link(s: State, es: seq<Event>, ks: seq<nat>, j: nat)
    requires j < |ks|
  {
    && ks[j] < |es| && es[ks[j]].BackedOff?
    && if j == 0 then s.lastBackoff == 0 || es[ks[0]].now - s.lastBackoff >= s.debounce
       else ks[j - 1] < ks[j] && es[ks[j]].now - es[ks[j - 1]].now >= s.debounce
  }

  /** Rate-limit errors of a run with at least the debounce time from each to the next. */
  ghost predicate Spaced(s: State, es: seq<Event>, ks: seq<nat>) {
    forall j :: 0 <= j < |ks| ==> Link(s, es, ks, j)
  }

  lemma {:induction false} SettingsStay(s: State, es: seq<Event>)
    ensures AfterAll(s, es).mergeDisabled == s.mergeDisabled && AfterAll(s, es).debounce == s.debounce
  {
    if es != [] {
      SettingsStay(s, es[..|es| - 1]);
    }
  }

  lemma BackoffsStep(s: State, es: seq<Event>, n: nat)
    requires n < |es|
    ensures AfterAll(s, es[..n + 1]) == After(AfterAll(s, es[..n]), es[n])
    ensures Backoffs(s, es[..n + 1]) ==
            Backoffs(s, es[..n]) + if es[n].BackedOff? && !Merged(AfterAll(s, es[..n]), es[n].now) then 1 else 0
  {
    assert es[..n + 1][..n] == es[..n];
  }

  /** The remembered time moves with a counted backoff only. */
  lemma {:induction false} RememberedMoves(s: State, es: seq<Event>, m: nat, n: nat)
    requires m <= n <= |es|
    ensures Backoffs(s, es[..n]) >= Backoffs(s, es[..m])
    ensures AfterAll(s, es[..n]).lastBackoff != AfterAll(s, es[..m]).lastBackoff ==>
              Backoffs(s, es[..n]) > Backoffs(s, es[..m])
    decreases n
  {
    if m < n {
      RememberedMoves(s, es, m, n - 1);
      BackoffsStep(s, es, n - 1);
    }
  }

  lemma {:induction false} TimesRise(s: State, t0: int, es: seq<Event>, n: nat)
    requires Clocked(s, t0, es) && n <= |es|
    ensures AfterAll(s, es[..n]).lastBackoff <= Last(t0, es[..n])
  {
    if n > 0 {
      TimesRise(s, t0, es, n - 1);
      BackoffsStep(s, es, n - 1);
      assert Last(t0, es[..n - 1]) <= es[n - 1].now;
    }
  }

  /** One more event of the chain: it takes effect itself, or another one did since the chain's last. */
  lemma LinkCounts(s: State, es: seq<Event>, m: nat, k: nat, last: int)
    requires m <= k < |es| && es[k].BackedOff?
    requires AfterAll(s, es[..m]).lastBackoff <= last
    requires es[k].now - last >= s.debounce || AfterAll(s, es[..m]).lastBackoff == 0
    ensures Backoffs(s, es[..k + 1]) > Backoffs(s, es[..m])
  {
    RememberedMoves(s, es, m, k);
    BackoffsStep(s, es, k);
    SettingsStay(s, es[..k]);
  }

  /** The prefix that ends with the chain's first `j` events. */
  function End(ks: seq<nat>, j: nat): nat
    requires j <= |ks|
  {
    if j == 0 then 0 else ks[j - 1] + 1
  }

  lemma FirstCounts(s: State, es: seq<Event>, ks: seq<nat>)
    requires ks != [] && Link(s, es, ks, 0)
    ensures Backoffs(s, es[..ks[0] + 1]) > 0
  {
    assert es[..0] == [];
    LinkCounts(s, es, 0, ks[0], s.lastBackoff);
  }

  lemma NextCounts(s: State, t0: int, es: seq<Event>, ks: seq<nat>, j: nat)
    requires Clocked(s, t0, es) && 0 < j < |ks| && Link(s, es, ks, j) && ks[j - 1] < |es|
    ensures Backoffs(s, es[..ks[j] + 1]) > Backoffs(s, es[..ks[j - 1] + 1])
  {
    var m := ks[j - 1] + 1;
    TimesRise(s, t0, es, m);
    assert es[..m][m - 1] == es[m - 1];
    LinkCounts(s, es, m, ks[j], es[m - 1].now);
  }

  lemma {:induction false} ChainCounts(s: State, t0: int, es: seq<Event>, ks: seq<nat>, j: nat)
    requires Clocked(s, t0, es) && Spaced(s, es, ks) && j <= |ks|
    ensures End(ks, j) <= |es| && Backoffs(s, es[..End(ks, j)]) >= j
  {
    if j > 0 {
      ChainCounts(s, t0, es, ks, j - 1);
      if j == 1 {
        FirstCounts(s, es, ks);
      } else {
        NextCounts(s, t0, es, ks, j - 1);
      }
    }
  }

  /**
   * Rate-limit errors that are at least the debounce time apart all count: the rate is halved at least
   * once for each of them, whatever else happens in between.
   */
  lemma {:induction false} BackoffsAtLeast(s: State, t0: int, es: seq<Event>, ks: seq<nat>)
    requires Clocked(s, t0, es) && Spaced(s, es, ks)
    ensures Backoffs(s, es) >= |ks|
  {
    ChainCounts(s, t0, es, ks, |ks|);
    RememberedMoves(s, es, End(ks, |ks|), |es|);
    assert es[..|es|] == es;
  }

  function Errors(es: seq<Event>): nat {
    if es == [] then 0 else Errors(es[..|es| - 1]) + if es[|es| - 1].BackedOff? then 1 else 0
  }

  /** Without merging every rate-limit error counts. */
  lemma {:induction false} EveryBackoffCounts(s: State, es: seq<Event>)
    requires s.mergeDisabled
    ensures Backoffs(s, es) == Errors(es)
  {
    if es != [] {
      EveryBackoffCounts(s, es[..|es| - 1]);
      SettingsStay(s, es[..|es| - 1]);
    }
  }

  /** A backoff that takes effect clears the wait of the additive steps: the next success raises the rate. */
  lemma BackoffResets(s: State, now: int, next: int)
    requires Bounded(s) && (s.mergeDisabled || s.lastBackoff == 0 || now - s.lastBackoff >= s.debounce)
    ensures var low := AfterBackoff(s, now).current;
            && (s.min < s.current ==> low < s.current)
            && low == (if s.current * 0.5 >= s.min then s.current * 0.5 else s.min)
            && AfterSuccess(AfterBackoff(s, now), next).current == if low + 1.0 <= s.max then low + 1.0 else s.max
  {
  }

  function Halved(c: real, n: nat): real {
    if n == 0 then c else Halved(c, n - 1) * 0.5
  }

  lemma {:induction false} HalvedMore(c: real, n: nat, m: nat)
    requires n <= m && c >= 0.0
    ensures 0.0 <= Halved(c, m) <= Halved(c, n)
    decreases m
  {
    if n < m {
      HalvedMore(c, n, m - 1);
    } else if m > 0 {
      HalvedMore(c, n - 1, m - 1);
    }
  }

  /** The rate between what only halving and what only adding could have made of it. */
  lemma {:induction false} RateByCounts(s: State, es: seq<Event>)
    requires Bounded(s)
    ensures Bounded(AfterAll(s, es)) && AfterAll(s, es).min == s.min && AfterAll(s, es).max == s.max
    ensures Halved(s.current, Backoffs(s, es)) <= AfterAll(s, es).current <= s.current + Increases(s, es) as real
  {
    if es != [] {
      var init := es[..|es| - 1];
      RateByCounts(s, init);
      HalvedMore(s.current, Backoffs(s, init), Backoffs(s, init) + 1);
    }
  }

  /** With merging on, elapsed time alone bounds the rate on both sides. */
  lemma {:induction false} RateInTime(s: State, t0: int, es: seq<Event>)
    requires Clocked(s, t0, es) && Bounded(s) && s.increaseInterval > 0 && !s.mergeDisabled && s.debounce > 0
    ensures var t, c := Last(t0, es) - t0, AfterAll(s, es).current;
            && t >= 0
            && c <= Smaller(s.max, s.current + (2 + t / s.debounce + t / s.increaseInterval) as real)
            && c >= Larger(s.min, Halved(s.current, 1 + t / s.debounce))
  {
    StepsInTime(s, t0, es);
    BackoffsInTime(s, t0, es);
    RateByCounts(s, es);
    HalvedMore(s.current, Backoffs(s, es), 1 + (Last(t0, es) - t0) / s.debounce);
  }
}
