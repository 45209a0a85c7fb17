// Printed numbers: positional digits with zero padding, their values, and their
// order as strings.
module Decimal {
  import opened Wrappers

  const U64: nat := 0x1_0000_0000_0000_0000

  function DigitChar(d: nat): (c: char)
    requires d < 16
  {
    if d < 10 then '0' + d as char else 'a' + (d - 10) as char
  }

  // n in the given base, padded with zeros to at least width digits.
  function Digits(n: nat, width: nat, base: nat): string
    requires 2 <= base <= 16
    decreases n + width
  {
    if n == 0 && width == 0 then ""
    else Digits(n / base, if width == 0 then 0 else width - 1, base) + [DigitChar(n % base)]
  }

  predicate IsDigit(c: char) {
    '0' <= c <= '9'
  }

  function Value(s: string): nat
    requires forall c :: c in s ==> IsDigit(c)
  {
    if s == "" then 0
    else
      var c := s[|s| - 1];
      assert IsDigit(c);
      10 * Value(s[..|s| - 1]) + (c as int - '0' as int)
  }

  // The number a string of digits stands for, if it fits in 64 bits.
  function ParseU64(s: string): Option<nat>
    requires forall c :: c in s ==> IsDigit(c)
  {
    if s == "" || Value(s) >= U64 then None else Some(Value(s))
  }

  lemma {:induction false} DigitsValue(n: nat, width: nat)
    ensures forall c :: c in Digits(n, width, 10) ==> IsDigit(c)
    ensures |Digits(n, width, 10)| >= width
    ensures Value(Digits(n, width, 10)) == n
    decreases n + width
  {
    if n != 0 || width != 0 {
      var rest := if width == 0 then 0 else width - 1;
      DigitsValue(n / 10, rest);
      var s := Digits(n, width, 10);
      assert s[..|s| - 1] == Digits(n / 10, rest, 10);
    }
  }

  // ---- order ------------------------------------------------------------------

  function Pow(base: nat, k: nat): nat {
    if k == 0 then 1 else base * Pow(base, k - 1)
  }

  // Byte-wise order of file names.
  predicate Before(a: string, b: string) {
    b != "" && (a == "" || a[0] < b[0] || (a[0] == b[0] && Before(a[1..], b[1..])))
  }

  lemma {:induction false} BeforeSplit(x: string, u: string, y: string, v: string)
    requires |x| == |y|
    ensures Before(x + u, y + v) <==> Before(x, y) || (x == y && Before(u, v))
  {
    if x == "" {
      assert x + u == u && y + v == v;
    } else {
      assert (x + u)[1..] == x[1..] + u && (y + v)[1..] == y[1..] + v;
      BeforeSplit(x[1..], u, y[1..], v);
      assert x == [x[0]] + x[1..] && y == [y[0]] + y[1..];
    }
  }

  // One more digit on strings of equal length.
  lemma AppendOrder(x: string, c: char, y: string, d: char)
    requires |x| == |y|
    ensures Before(x + [c], y + [d]) <==> Before(x, y) || (x == y && c < d)
    ensures x + [c] == y + [d] <==> x == y && c == d
  {
    BeforeSplit(x, [c], y, [d]);
    assert Before([c], [d]) <==> c < d;
    assert (x + [c])[..|x|] == x && (y + [d])[..|y|] == y;
    assert (x + [c])[|x|] == c && (y + [d])[|y|] == d;
  }

  // Number order is the order of (quotient, remainder).
  lemma DivOrder(a: nat, b: nat, base: nat)
    requires base == 10 || base == 16
    ensures a < b <==> a / base < b / base || (a / base == b / base && a % base < b % base)
  {
    if base == 10 {
      assert a == 10 * (a / 10) + a % 10 && b == 10 * (b / 10) + b % 10;
    } else {
      assert a == 16 * (a / 16) + a % 16 && b == 16 * (b / 16) + b % 16;
    }
  }

  lemma PowDivided(n: nat, width: nat, base: nat)
    requires width > 0 && (base == 10 || base == 16) && n < Pow(base, width)
    ensures n / base < Pow(base, width - 1)
  {
    if base == 10 {
      assert Pow(10, width) == 10 * Pow(10, width - 1);
    } else {
      assert Pow(16, width) == 16 * Pow(16, width - 1);
    }
  }

  lemma {:induction false} DigitsOrder(a: nat, b: nat, width: nat, base: nat)
    requires (base == 10 || base == 16) && a < Pow(base, width) && b < Pow(base, width)
    ensures |Digits(a, width, base)| == |Digits(b, width, base)| == width
    ensures Before(Digits(a, width, base), Digits(b, width, base)) <==> a < b
    ensures Digits(a, width, base) == Digits(b, width, base) <==> a == b
    decreases width
  {
    if width > 0 {
      var p, q := a / base, b / base;
      PowDivided(a, width, base);
      PowDivided(b, width, base);
      DigitsOrder(p, q, width - 1, base);
      AppendOrder(Digits(p, width - 1, base), DigitChar(a % base), Digits(q, width - 1, base), DigitChar(b % base));
      DigitCharOrder(a % base, b % base);
      DivOrder(a, b, base);
      DivOrder(b, a, base);
    }
  }

  lemma DigitCharOrder(r: nat, t: nat)
    requires r < 16 && t < 16
    ensures DigitChar(r) < DigitChar(t) <==> r < t
    ensures DigitChar(r) == DigitChar(t) <==> r == t
  {
  }

  // The first digit of a number with exactly k + 1 digits.
  lemma {:induction false} LeadingDigit(n: nat, d: nat, k: nat, width: nat)
    requires 0 < d < 10 && d * Pow(10, k) <= n < (d + 1) * Pow(10, k) && width <= k + 1
    ensures Digits(n, width, 10) != "" && Digits(n, width, 10)[0] == DigitChar(d)
    decreases k
  {
    if k == 0 {
      assert n == d && n / 10 == 0;
      assert Digits(0, 0, 10) == "";
    } else {
      LeadingDigit(n / 10, d, k - 1, if width == 0 then 0 else width - 1);
    }
  }
}
