/** Decimal text as Go's `%d`, `%06d` and `strconv.ParseUint(_, 10, 64)` produce and read it. */
module Decimal {

  const UINT64_LIMIT: nat := 0x1_0000_0000_0000_0000

  predicate IsDigit(ch: char) {
    '0' <= ch <= '9'
  }

  predicate AllDigits(s: string) {
    forall i :: 0 <= i < |s| ==> IsDigit(s[i])
  }

  function DigitChar(d: nat): (ch: char)
    requires d < 10
    ensures IsDigit(ch) && DigitValue(ch) == d
  {
    '0' + d as char
  }

  function DigitValue(ch: char): (d: nat)
    requires IsDigit(ch)
    ensures d < 10
  {
    (ch - '0') as nat
  }

  /** `%d` of a non-negative number. */
  function Dec(n: nat): (s: string)
    ensures |s| > 0 && AllDigits(s)
  {
    if n < 10 then [DigitChar(n)] else Dec(n / 10) + [DigitChar(n % 10)]
  }

  /** `%06d` of a non-negative number: zeros on the left up to six characters. */
  function Padded(n: nat): (s: string)
    ensures |s| >= 6 && AllDigits(s)
  {
    ZeroFill(Dec(n))
  }

  function ZeroFill(s: string): (t: string)
    requires AllDigits(s)
    ensures |t| >= 6 && |t| >= |s| && AllDigits(t)
    decreases 6 - |s|
  {
    if |s| >= 6 then s else ZeroFill("0" + s)
  }

  lemma PaddedOne()
    ensures Padded(1) == "000001"
  {
    assert "0" + "00001" == "000001" && "0" + "0001" == "00001" && "0" + "001" == "0001";
    assert "0" + "01" == "001" && "0" + "1" == "01" && Dec(1) == "1";
    assert ZeroFill("0001") == ZeroFill("00001") == "000001";
    assert ZeroFill("01") == ZeroFill("001") == ZeroFill("0001");
  }

  function Value(s: string): nat
    requires AllDigits(s)
  {
    if s == "" then 0 else 10 * Value(s[..|s| - 1]) + DigitValue(s[|s| - 1])
  }

  datatype Parsed = Number(n: nat) | NotANumber

  /** `strconv.ParseUint(s, 10, 64)`: digits only, at least one, in range. */
  function ParseUint(s: string): (r: Parsed)
    ensures r.Number? ==> r.n < UINT64_LIMIT
  {
    if s != "" && AllDigits(s) && Value(s) < UINT64_LIMIT then Number(Value(s)) else NotANumber
  }

  lemma {:induction false} ValueOfDec(n: nat)
    ensures Value(Dec(n)) == n
  {
    if n >= 10 {
      ValueOfDec(n / 10);
      assert Dec(n)[..|Dec(n)| - 1] == Dec(n / 10);
    } else {
      assert Dec(n)[..0] == "";
    }
  }

  lemma {:induction false} ValueOfZero(s: string)
    requires AllDigits(s)
    ensures Value("0" + s) == Value(s)
  {
    if s == "" {
      assert ("0" + s)[..0] == "";
    } else {
      ValueOfZero(s[..|s| - 1]);
      assert ("0" + s)[..|s|] == "0" + s[..|s| - 1];
    }
  }

  lemma {:induction false} ValueOfZeroFill(s: string)
    requires AllDigits(s)
    ensures Value(ZeroFill(s)) == Value(s)
    decreases 6 - |s|
  {
    if |s| < 6 {
      ValueOfZero(s);
      ValueOfZeroFill("0" + s);
    }
  }

  /** Formatting then parsing gives every unsigned 64-bit number back, also past six digits, and refuses any other. */
  lemma ParsePadded(n: nat)
    ensures ParseUint(Padded(n)) == if n < 18446744073709551616 then Number(n) else NotANumber
  {
    ValueOfZeroFill(Dec(n));
    ValueOfDec(n);
  }

  lemma DecInjective(a: nat, b: nat)
    requires Dec(a) == Dec(b)
    ensures a == b
  {
    ValueOfDec(a);
    ValueOfDec(b);
  }
}
