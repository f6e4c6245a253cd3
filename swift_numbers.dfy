/** Swift's integer conversions used by the core: `Int(Double)`, which
    truncates toward zero, and `Int(String)`, which parses a decimal literal
    into a 64-bit `Int`. Doubles are taken to be reals. */
module SwiftNumbers {
  import opened Wrappers

  const IntMin: int := -0x8000_0000_0000_0000
  const IntMax: int := 0x7FFF_FFFF_FFFF_FFFF

  /** `n` is `x` with its fractional part dropped, toward zero. */
  predicate TruncatesTo(x: real, n: int) {
    if x >= 0.0 then n as real <= x < n as real + 1.0
    else n as real - 1.0 < x <= n as real
  }

  /** `Int(x)` for a Double `x`. */
  function Trunc(x: real): (n: int)
    ensures TruncatesTo(x, n)
  {
    if x >= 0.0 then x.Floor else -((-x).Floor)
  }

  /** Truncation toward zero has exactly one answer. */
  lemma TruncatesToUnique(x: real, m: int, n: int)
    requires TruncatesTo(x, m) && TruncatesTo(x, n)
    ensures m == n
  {
  }

  /** The spread the feed decoder relies on: truncating `x` and `x - 35`
      toward zero leaves them 34 or 35 apart. */
  lemma TruncSpread(x: real)
    ensures 34 <= Trunc(x) - Trunc(x - 35.0) <= 35
  {
    var hi, lo := Trunc(x), Trunc(x - 35.0);
    if x >= 35.0 {
      assert TruncatesTo(x - 35.0, hi - 35);
      TruncatesToUnique(x - 35.0, lo, hi - 35);
    } else if x <= 0.0 {
      assert TruncatesTo(x, lo + 35);
      TruncatesToUnique(x, hi, lo + 35);
    } else {
      assert hi as real <= x < hi as real + 1.0;
      assert lo as real - 1.0 < x - 35.0 <= lo as real;
    }
  }

  predicate IsDigit(c: char) {
    '0' <= c <= '9'
  }

  predicate AllDigits(s: string) {
    forall i :: 0 <= i < |s| ==> IsDigit(s[i])
  }

  /** The value of a run of decimal digits, most significant first. */
  function DigitsValue(s: string): nat
    requires AllDigits(s)
  {
    if s == [] then 0
    else DigitsValue(s[..|s| - 1]) * 10 + (s[|s| - 1] - '0') as int
  }

  /** Splits off an optional leading sign: whether it is `-`, and the rest. */
  function SignAndDigits(s: string): (bool, string) {
    if |s| > 0 && (s[0] == '+' || s[0] == '-') then (s[0] == '-', s[1..]) else (false, s)
  }

  /** The text Swift's `Int(String)` accepts: an optional `+` or `-`, then one
      or more ASCII digits, and nothing else. */
  predicate IsIntLiteral(s: string) {
    var (_, digits) := SignAndDigits(s);
    digits != [] && AllDigits(digits)
  }

  /** The mathematical value of an integer literal. */
  function LiteralValue(s: string): int
    requires IsIntLiteral(s)
  {
    var (negative, digits) := SignAndDigits(s);
    if negative then -(DigitsValue(digits) as int) else DigitsValue(digits)
  }

  /** `Int(s)` for a String `s`: nil unless `s` is an integer literal whose
      value fits in 64 bits. */
  function ParseInt(s: string): (r: Option<int>)
    ensures r.Some? <==> IsIntLiteral(s) && IntMin <= LiteralValue(s) <= IntMax
    ensures r.Some? ==> r.value == LiteralValue(s)
  {
    if IsIntLiteral(s) && IntMin <= LiteralValue(s) <= IntMax then Some(LiteralValue(s)) else None
  }

  /** The decimal digits of `n`, most significant first, without leading zeros. */
  function ShowNat(n: nat): (s: string)
    ensures s != [] && AllDigits(s)
  {
    var d := ['0' + (n % 10) as char];
    if n < 10 then d else ShowNat(n / 10) + d
  }

  /** String interpolation of an `Int`: a `-` for negative values, then the digits. */
  function ShowInt(n: int): string {
    if n < 0 then "-" + ShowNat(-n) else ShowNat(n)
  }

  lemma {:induction false} DigitsValueOfShowNat(n: nat)
    ensures DigitsValue(ShowNat(n)) == n
  {
    var s := ShowNat(n);
    if n >= 10 {
      DigitsValueOfShowNat(n / 10);
      assert s[..|s| - 1] == ShowNat(n / 10);
    }
  }

  /** Parsing the rendering of an integer gives it back when it fits in 64
      bits, and nil when it does not. */
  lemma ParseShowInt(n: int)
    ensures ParseInt(ShowInt(n)) == if IntMin <= n <= IntMax then Some(n) else None
  {
    var s := ShowInt(n);
    if n < 0 {
      DigitsValueOfShowNat(-n);
      assert SignAndDigits(s) == (true, ShowNat(-n));
    } else {
      DigitsValueOfShowNat(n);
      var digits := ShowNat(n);
      assert IsDigit(digits[0]);
      assert SignAndDigits(s) == (false, digits);
    }
  }

  /** The literals of the unit tests, and the texts `Int(String)` refuses. */
  lemma ParseIntExamples()
    ensures ParseInt("4012") == Some(4012) && ParseInt("4011") == Some(4011)
    ensures ParseInt("+7") == Some(7) && ParseInt("-42") == Some(-42)
    ensures ParseInt("") == None && ParseInt("-") == None && ParseInt("12a") == None
  {
    ParseShowInt(4012);
    ParseShowInt(4011);
    ParseShowInt(-42);
    assert ShowInt(4012) == "4012" && ShowInt(4011) == "4011" && ShowInt(-42) == "-42";
    assert SignAndDigits("+7") == (false, "7");
    assert !IsDigit("12a"[2]);
  }
}
