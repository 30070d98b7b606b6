/** Decimal rendering of numbers, and reading it back into a 64-bit integer. */
module Decimals {

  predicate IsDigit(c: char) { '0' <= c <= '9' }

  function Digit(d: nat): (c: char)
    requires d < 10
    ensures IsDigit(c)
  {
    ('0' as int + d) as char
  }

  function DigitValue(c: char): nat
    requires IsDigit(c)
  {
    c as int - '0' as int
  }

  /** The usual decimal digits, most significant first. */
  function Decimal(n: nat): string {
    if n < 10 then [Digit(n)] else Decimal(n / 10) + [Digit(n % 10)]
  }

  predicate AllDigits(s: string) { forall c :: c in s ==> IsDigit(c) }

  function Value(s: string): nat
    requires AllDigits(s)
  {
    if s == [] then 0 else
    assert s[|s| - 1] in s;
    10 * Value(s[..|s| - 1]) + DigitValue(s[|s| - 1])
  }

  lemma {:induction false} DecimalRoundTrips(n: nat)
    ensures Decimal(n) != [] && AllDigits(Decimal(n)) && Value(Decimal(n)) == n
  {
    if n < 10 {
      assert Decimal(n)[..0] == [];
    } else {
      DecimalRoundTrips(n / 10);
      assert Decimal(n)[..|Decimal(n)| - 1] == Decimal(n / 10);
    }
  }

  // ---------------------------------------------------------------- 64-bit reading

  const TWO_63: int := 0x8000_0000_0000_0000
  const TWO_64: int := 0x1_0000_0000_0000_0000

  /** The value a signed 64-bit register holds after a computation whose exact result is x. */
  function Wrap64(x: int): int { (x + TWO_63) % TWO_64 - TWO_63 }

  lemma SameWrap(x: int, y: int, k: int)
    requires x == y + k * TWO_64
    ensures Wrap64(x) == Wrap64(y)
  {
    var q, r := (y + TWO_63) / TWO_64, (y + TWO_63) % TWO_64;
    assert x + TWO_63 == (q + k) * TWO_64 + r;
  }

  lemma WrapsOnTheWay(a: int, d: int)
    ensures Wrap64(10 * Wrap64(a) + d) == Wrap64(10 * a + d)
  {
    var q := (a + TWO_63) / TWO_64;
    assert Wrap64(a) == a - q * TWO_64;
    SameWrap(10 * Wrap64(a) + d, 10 * a + d, -10 * q);
  }

  datatype Parsed = Number(value: int) | Invalid

  /** Digit by digit in a wrapping accumulator; the first character that is no digit is an error. */
  method ReadInt64(s: string) returns (r: Parsed)
    ensures r == if AllDigits(s) then Number(Wrap64(Value(s))) else Invalid
  {
    var n, i := 0, 0;
    while i < |s|
      invariant i <= |s| && AllDigits(s[..i]) && n == Wrap64(Value(s[..i]))
    {
      if s[i] < '0' || s[i] > '9' {
        assert s[i] in s;
        return Invalid;
      }
      assert s[..i + 1][..i] == s[..i];
      WrapsOnTheWay(Value(s[..i]), DigitValue(s[i]));
      n := Wrap64(n * 10 + DigitValue(s[i]));
      i := i + 1;
    }
    assert s[..i] == s;
    r := Number(n);
  }

  /** A rendered non-negative 64-bit number reads back as itself. */
  lemma ReadsBack(n: nat)
    requires n < TWO_63
    ensures AllDigits(Decimal(n)) && Wrap64(Value(Decimal(n))) == n
  {
    DecimalRoundTrips(n);
  }
}
