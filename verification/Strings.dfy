/** Strings as the program compares, prints and reads them: their order, and decimal numbers. */
module Strings {

  /** The order of std::string and, without NUL, of strcmp. */
  predicate NameLess(a: string, b: string) {
    if b == "" then false
    else if a == "" then true
    else a[0] < b[0] || (a[0] == b[0] && NameLess(a[1..], b[1..]))
  }

  lemma {:induction false} NamesAreOrdered(a: string, b: string, c: string)
    ensures !NameLess(a, a)
    ensures NameLess(a, b) && NameLess(b, c) ==> NameLess(a, c)
    ensures a != b ==> NameLess(a, b) || NameLess(b, a)
  {
    if a != "" {
      NamesAreOrdered(a[1..], if b == "" then "" else b[1..], if c == "" then "" else c[1..]);
    }
    if a != "" && b != "" && a[0] == b[0] {
      assert a == [a[0]] + a[1..] && b == [b[0]] + b[1..];
    }
  }

  /** The order is decided by the first difference, or by the end of the shorter string. */
  lemma {:induction false} OrderIsLexicographic(a: string, b: string)
    ensures NameLess(a, b) <==>
              exists k :: 0 <= k <= |a| && k < |b| && a[..k] == b[..k] && (k == |a| || a[k] < b[k])
  {
    if b == "" {
    } else if a == "" {
      assert a[..0] == b[..0];
    } else if a[0] != b[0] {
      assert a[..0] == b[..0];
    } else {
      OrderIsLexicographic(a[1..], b[1..]);
      if k :| 0 <= k <= |a[1..]| && k < |b[1..]| && a[1..][..k] == b[1..][..k] && (k == |a[1..]| || a[1..][k] < b[1..][k]) {
        assert a[..k + 1] == [a[0]] + a[1..][..k] && b[..k + 1] == [b[0]] + b[1..][..k];
      }
      if k :| 0 <= k <= |a| && k < |b| && a[..k] == b[..k] && (k == |a| || a[k] < b[k]) {
        assert k > 0;
        assert a[1..][..k - 1] == a[..k][1..] && b[1..][..k - 1] == b[..k][1..];
      }
    }
  }

  // ------------------------------------------------------------------------------------------
  // Decimal numbers
  // ------------------------------------------------------------------------------------------

  predicate IsDigit(c: char) { '0' <= c <= '9' }

  function Digit(d: nat): char
    requires d < 10
  {
    '0' + d as char
  }

  function Digits(n: nat): (s: string)
    ensures s != "" && forall c :: c in s ==> '0' <= c <= '9'
  {
    if n < 10 then [Digit(n)] else Digits(n / 10) + [Digit(n % 10)]
  }

  function DigitOf(c: char): (d: nat)
    requires IsDigit(c)
    ensures d < 10
  {
    (c - '0') as int
  }

  predicate AllDigits(t: string) { forall c :: c in t ==> IsDigit(c) }

  /** The number that the digits continue, from the left. */
  function Horner(t: string, value: nat): (n: nat)
    requires AllDigits(t)
    ensures n >= value
  {
    if t == "" then value
    else
      assert t[0] in t;
      Horner(t[1..], value * 10 + DigitOf(t[0]))
  }

  lemma {:induction false} HornerAppend(t: string, c: char, value: nat)
    requires AllDigits(t) && IsDigit(c)
    ensures AllDigits(t + [c]) && Horner(t + [c], value) == Horner(t, value) * 10 + DigitOf(c)
  {
    assert AllDigits(t + [c]);
    if t == "" {
      assert "" + [c] == [c] && [c][1..] == "";
    } else {
      assert t[0] in t;
      HornerAppend(t[1..], c, value * 10 + DigitOf(t[0]));
      assert (t + [c])[1..] == t[1..] + [c];
    }
  }

  lemma {:induction false} HornerOfDigits(n: nat)
    ensures AllDigits(Digits(n)) && Horner(Digits(n), 0) == n
  {
    if n >= 10 {
      HornerOfDigits(n / 10);
      HornerAppend(Digits(n / 10), Digit(n % 10), 0);
    } else {
      assert [Digit(n)][1..] == "";
    }
  }
}
