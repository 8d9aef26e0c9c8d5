/** Adding jobs to a run before Exec (run.go: generateJobID, AddJobWithState). */
module Runs {
  import opened Jobs
  import opened KickIds
  import opened Serializer
  import opened CrashRestart

  function HexDigit(d: nat): char
    requires d < 16
  {
    "0123456789abcdef"[d]
  }

  /** `digits` hexadecimal digits, as %08x prints them for eight. */
  function Hex(n: nat, digits: nat): (s: string)
    ensures |s| == digits
  {
    if digits == 0 then "" else Hex(n / 16, digits - 1) + [HexDigit(n % 16)]
  }

  /** Most significant digit first, with leading zeros. */
  lemma SomeHex()
    ensures Hex(0x1a, 3) == "01a"
  {
    assert HexDigit(1) == '1' && HexDigit(10) == 'a';
    assert Hex(0, 1) == "0";
    assert Hex(1, 2) == "01";
  }

  /** Ids made by generateJobID never look like kicked ids. */
  lemma {:induction false} HexHasNoArrow(n: nat, digits: nat)
    ensures NoArrow(Hex(n, digits))
  {
    if digits > 0 {
      HexHasNoArrow(n / 16, digits - 1);
    }
  }

  lemma HexDigitInjective(a: nat, b: nat)
    requires a < 16 && b < 16 && HexDigit(a) == HexDigit(b)
    ensures a == b
  {
    var table := "0123456789abcdef";
    assert forall i, j :: 0 <= i < j < 16 ==> table[i] != table[j];
  }

  /** Different draws make different ids. */
  lemma {:induction false} HexInjective(m: nat, n: nat, digits: nat)
    requires Hex(m, digits) == Hex(n, digits) && m < Pow16(digits) && n < Pow16(digits)
    ensures m == n
  {
    if digits > 0 {
      var a, b := Hex(m, digits), Hex(n, digits);
      assert a[..digits - 1] == Hex(m / 16, digits - 1) && b[..digits - 1] == Hex(n / 16, digits - 1);
      assert a[digits - 1] == HexDigit(m % 16) && b[digits - 1] == HexDigit(n % 16);
      HexDigitInjective(m % 16, n % 16);
      HexInjective(m / 16, n / 16, digits - 1);
    }
  }

  function Pow16(digits: nat): nat {
    if digits == 0 then 1 else 16 * Pow16(digits - 1)
  }

  /**
   * `draws` are the random numbers in the order they come. The job gets the id of the first one that is
   * free, so no job of the run is ever replaced; with none free the source would go on drawing.
   */
  method AddJobWithState(store: JsonSerializer, c: Payload, state: string, draws: seq<nat>) returns (added: Option<nat>)
    requires store.Valid()
    modifies store`run, store.dir`history
    ensures store.Valid()
    ensures added == None ==> store.run == old(store.run) && forall n :: n in draws ==> Hex(n, 8) in store.run
    ensures added.Some? ==>
      && added.value < |draws|
      && Hex(draws[added.value], 8) !in old(store.run)
      && (forall k :: 0 <= k < added.value ==> Hex(draws[k], 8) in old(store.run))
      && store.run == old(store.run)[Hex(draws[added.value], 8) := Job(Hex(draws[added.value], 8), c, state, map[])]
    ensures old(Prepared(store.Now())) ==> Prepared(store.Now())
  {
    var k := 0;
    while k < |draws| && Hex(draws[k], 8) in store.run
      invariant k <= |draws|
      invariant forall i :: 0 <= i < k ==> Hex(draws[i], 8) in store.run
    {
      k := k + 1;
    }
    if k == |draws| {
      return None;
    }
    var job := Job(Hex(draws[k], 8), c, state, map[]);
    HexHasNoArrow(draws[k], 8);
    if Prepared(store.Now()) {
      AddJobKeepsPrepared(store.Now(), job);
    }
    store.UpdateJob(job);
    return Some(k);
  }
}
