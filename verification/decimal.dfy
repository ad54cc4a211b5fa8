/**
 * Decimal digit strings: how a non-negative integer becomes text in a
 * template literal or a `Date.now() + ''` concatenation, and the parser that
 * reads such text back.
 */
module Decimal {

  function Pow10(k: nat): (p: nat)
    ensures p >= 1
  {
    if k == 0 then 1 else 10 * Pow10(k - 1)
  }

  lemma {:induction false} Pow10Monotone(i: nat, j: nat)
    requires i <= j
    ensures Pow10(i) <= Pow10(j)
    decreases j
  {
    if i < j {
      Pow10Monotone(i, j - 1);
    }
  }

  predicate IsDigit(c: char) {
    '0' <= c <= '9'
  }

  /** The value 0..9 of a digit character. */
  function DigitValue(c: char): (d: nat)
    requires IsDigit(c)
    ensures d < 10
  {
    c as int - '0' as int
  }

  /** The digit character for a value 0..9. */
  function DigitChar(d: nat): (c: char)
    requires d < 10
    ensures IsDigit(c) && DigitValue(c) == d
  {
    ('0' as int + d) as char
  }

  lemma DigitCharOfValue(c: char)
    requires IsDigit(c)
    ensures DigitChar(DigitValue(c)) == c
  {
  }

  predicate AllDigits(s: string) {
    forall i :: 0 <= i < |s| ==> IsDigit(s[i])
  }

  /** A canonical decimal numeral: at least one digit and no leading zero (except "0" itself). */
  predicate Canonical(s: string) {
    |s| > 0 && AllDigits(s) && (|s| == 1 || s[0] != '0')
  }

  /** The shortest decimal numeral of `n`, as JavaScript prints a non-negative integer. */
  function NatToString(n: nat): (s: string)
    ensures Canonical(s)
    ensures n > 0 ==> s[0] != '0'
    decreases n
  {
    if n < 10 then [DigitChar(n)] else NatToString(n / 10) + [DigitChar(n % 10)]
  }

  /** The value of a digit string read in base 10 (leading zeros allowed, "" reads as 0). */
  function ParseDigits(s: string): (n: nat)
    requires AllDigits(s)
    ensures n < Pow10(|s|)
  {
    if |s| == 0 then 0 else 10 * ParseDigits(s[..|s| - 1]) + DigitValue(s[|s| - 1])
  }

  /** Printing then parsing gives back the number. */
  lemma {:induction false} ParseNatToString(n: nat)
    ensures ParseDigits(NatToString(n)) == n
    decreases n
  {
    if n >= 10 {
      var s := NatToString(n);
      assert s[..|s| - 1] == NatToString(n / 10);
      ParseNatToString(n / 10);
    }
  }

  /** A numeral with a non-zero first digit denotes a positive number. */
  lemma {:induction false} ParseLeadingNonZero(s: string)
    requires |s| > 0 && AllDigits(s) && s[0] != '0'
    ensures ParseDigits(s) > 0
    decreases |s|
  {
    if |s| == 1 {
      DigitCharOfValue(s[0]);
    } else {
      ParseLeadingNonZero(s[..|s| - 1]);
    }
  }

  /** Parsing then printing gives back every canonical numeral: NatToString is onto the canonical numerals. */
  lemma {:induction false} NatToStringOfParse(s: string)
    requires Canonical(s)
    ensures NatToString(ParseDigits(s)) == s
    decreases |s|
  {
    var last := s[|s| - 1];
    DigitCharOfValue(last);
    if |s| > 1 {
      var init := s[..|s| - 1];
      ParseLeadingNonZero(init);
      NatToStringOfParse(init);
      var p := ParseDigits(s);
      assert p / 10 == ParseDigits(init) && p % 10 == DigitValue(last);
      assert init + [last] == s;
    }
  }

  /** Two numbers print the same exactly when they are equal. */
  lemma NatToStringInjective(a: nat, b: nat)
    ensures NatToString(a) == NatToString(b) <==> a == b
  {
    ParseNatToString(a);
    ParseNatToString(b);
  }

  /** A positive multiple of a positive m is at least m. */
  lemma {:induction false} MultipleAtLeast(k: int, m: int)
    requires k >= 1 && m > 0
    ensures k * m >= m
    decreases k
  {
    if k > 1 {
      MultipleAtLeast(k - 1, m);
      assert k * m == (k - 1) * m + m;
    }
  }

  /** Two decompositions x == q * m + r with 0 <= r < m have the same quotient. */
  lemma QuotientUnique(q: int, r: int, q': int, r': int, m: int)
    requires m > 0 && 0 <= r < m && 0 <= r' < m && q * m + r == q' * m + r'
    ensures q == q'
  {
    if q' > q {
      assert (q' - q) * m == q' * m - q * m;
      MultipleAtLeast(q' - q, m);
    } else if q' < q {
      assert (q - q') * m == q * m - q' * m;
      MultipleAtLeast(q - q', m);
    }
  }

  lemma DivModUnique(x: int, q: int, r: int, m: int)
    requires m > 0 && 0 <= r < m && x == q * m + r
    ensures x / m == q && x % m == r
  {
    QuotientUnique(q, r, x / m, x % m, m);
  }

  /** Appending a digit shifts the remainder modulo a power of ten one place. */
  lemma ModShift(a: nat, d: nat, m: nat)
    requires d < 10 && m > 0
    ensures (10 * a + d) % (10 * m) == 10 * (a % m) + d
  {
    var q, r := a / m, a % m;
    assert 10 * a + d == q * (10 * m) + (10 * r + d);
    DivModUnique(10 * a + d, q, 10 * r + d, 10 * m);
  }

  /** The last k digits of a numeral denote its value modulo 10^k. */
  lemma {:induction false} ParseDigitsSuffix(s: string, k: nat)
    requires AllDigits(s) && k <= |s|
    ensures ParseDigits(s[|s| - k..]) == ParseDigits(s) % Pow10(k)
    decreases k
  {
    if k > 0 {
      var init := s[..|s| - 1];
      var t := s[|s| - k..];
      ParseDigitsSuffix(init, k - 1);
      assert t[..|t| - 1] == init[|init| - (k - 1)..];
      assert t[|t| - 1] == s[|s| - 1];
      ModShift(ParseDigits(init), DigitValue(s[|s| - 1]), Pow10(k - 1));
    }
  }

  /** Two numbers with equal remainders modulo m that lie less than m apart are equal. */
  lemma ModWindow(a: int, b: int, m: int)
    requires m > 0 && a % m == b % m && -m < a - b < m
    ensures a == b
  {
    var qa, qb, r := a / m, b / m, a % m;
    if qa > qb {
      assert (qa - qb) * m == qa * m - qb * m;
      MultipleAtLeast(qa - qb, m);
    } else if qa < qb {
      assert (qb - qa) * m == qb * m - qa * m;
      MultipleAtLeast(qb - qa, m);
    }
  }
}
