/** The part of Go's `fmt` verb `%d` that the `String` methods use: base-10 rendering of an
    int, with a leading '-' for negative values, and its inverse. */
module Format {

  predicate IsDigit(c: char) {
    '0' <= c <= '9'
  }

  predicate AllDigits(s: string) {
    forall i :: 0 <= i < |s| ==> IsDigit(s[i])
  }

  function Digit(d: nat): (c: char)
    requires d < 10
    ensures IsDigit(c)
  {
    (('0' as int) + d) as char
  }

  function DigitValue(c: char): (d: nat)
    requires IsDigit(c)
    ensures d < 10
  {
    (c as int) - ('0' as int)
  }

  /** Decimal digits of `n`, most significant first, without leading zeros. */
  function NatToDecimal(n: nat): (s: string)
    ensures 1 <= |s| && AllDigits(s)
    ensures n < 10 <==> |s| == 1
  {
    if n < 10 then [Digit(n)] else NatToDecimal(n / 10) + [Digit(n % 10)]
  }

  /** `fmt.Sprintf("%d", n)`. */
  function IntToDecimal(n: int): (s: string)
    ensures 1 <= |s|
    ensures forall i :: 0 <= i < |s| ==> IsDigit(s[i]) || s[i] == '-'
  {
    if n < 0 then "-" + NatToDecimal(-n) else NatToDecimal(n)
  }

  function ParseNat(s: string): nat
    requires 1 <= |s| && AllDigits(s)
  {
    if |s| == 1 then DigitValue(s[0]) else ParseNat(s[..|s| - 1]) * 10 + DigitValue(s[|s| - 1])
  }

  /** Reads back what `IntToDecimal` writes. */
  function ParseInt(s: string): (r: int)
    requires 1 <= |s|
    requires AllDigits(s) || (s[0] == '-' && 2 <= |s| && AllDigits(s[1..]))
  {
    if s[0] == '-' then -(ParseNat(s[1..]) as int) else ParseNat(s)
  }

  lemma {:induction false} ParseNatToDecimal(n: nat)
    ensures ParseNat(NatToDecimal(n)) == n
  {
    if n >= 10 {
      var s := NatToDecimal(n);
      assert s[..|s| - 1] == NatToDecimal(n / 10);
      ParseNatToDecimal(n / 10);
    }
  }

  /** `%d` loses nothing: the rendered text determines the number. */
  lemma ParseIntToDecimal(n: int)
    ensures ParseInt(IntToDecimal(n)) == n
  {
    if n < 0 {
      assert IntToDecimal(n)[1..] == NatToDecimal(-n);
      ParseNatToDecimal(-n);
    } else {
      ParseNatToDecimal(n);
    }
  }

  /** Distinct numbers render as distinct text. */
  lemma DecimalInjective(m: int, n: int)
    requires IntToDecimal(m) == IntToDecimal(n)
    ensures m == n
  {
    ParseIntToDecimal(m);
    ParseIntToDecimal(n);
  }

  /** Position of the first `c` in `s`, or `|s|` when there is none. */
  function IndexOf(s: string, c: char): (k: nat)
    ensures k <= |s|
    ensures k < |s| ==> s[k] == c
    ensures k == |s| <==> c !in s
    ensures forall i :: 0 <= i < k ==> s[i] != c
  {
    if |s| == 0 then 0 else if s[0] == c then 0 else 1 + IndexOf(s[1..], c)
  }

  lemma {:induction false} IndexOfAfterPlainText(a: string, x: string, sep: char)
    requires forall i :: 0 <= i < |a| ==> a[i] != sep
    requires 1 <= |x| && x[0] == sep
    ensures IndexOf(a + x, sep) == |a|
  {
    if |a| > 0 {
      assert (a + x)[0] == a[0];
      assert (a + x)[1..] == a[1..] + x;
      IndexOfAfterPlainText(a[1..], x, sep);
    }
  }

  /** If two texts free of `sep` are each followed by something starting with `sep`, and the
      concatenations agree, the texts agree: this is how a rendered number is delimited. */
  lemma SplitAtSeparator(a: string, x: string, b: string, y: string, sep: char)
    requires forall i :: 0 <= i < |a| ==> a[i] != sep
    requires forall i :: 0 <= i < |b| ==> b[i] != sep
    requires 1 <= |x| && x[0] == sep && 1 <= |y| && y[0] == sep
    requires a + x == b + y
    ensures a == b && x == y
  {
    IndexOfAfterPlainText(a, x, sep);
    IndexOfAfterPlainText(b, y, sep);
    assert a == (a + x)[..|a|];
    assert b == (b + y)[..|b|];
    assert x == (a + x)[|a|..];
    assert y == (b + y)[|b|..];
  }
}
