// Rendering a non-negative integer in decimal, as a template literal `${n}`
// does for the indices and image identifiers the front end builds strings from.

module Decimal {

  predicate IsDigit(c: char)
  {
    '0' <= c <= '9'
  }

  function DigitChar(d: nat): (c: char)
    requires d < 10
    ensures IsDigit(c)
  {
    ('0' as int + d) as char
  }

  function DigitValue(c: char): nat
  {
    if IsDigit(c) then c as int - '0' as int else 0
  }

  /** The decimal numeral of n: no sign, no leading zero. */
  function Show(n: nat): (s: string)
    ensures |s| > 0
    ensures forall i :: 0 <= i < |s| ==> IsDigit(s[i])
    ensures s[0] == '0' ==> n == 0
    decreases n
  {
    if n < 10 then [DigitChar(n)] else Show(n / 10) + [DigitChar(n % 10)]
  }

  /** The value of a string of decimal digits. */
  function Parse(s: string): nat
  {
    if |s| == 0 then 0 else 10 * Parse(s[..|s| - 1]) + DigitValue(s[|s| - 1])
  }

  /** Reading back a rendered numeral gives the number. */
  lemma {:induction false} ParseShow(n: nat)
    ensures Parse(Show(n)) == n
    decreases n
  {
    if n >= 10 {
      ParseShow(n / 10);
      var s := Show(n);
      assert s[..|s| - 1] == Show(n / 10);
    }
  }

  /** Distinct numbers have distinct numerals. */
  lemma ShowInjective(m: nat, n: nat)
    requires m != n
    ensures Show(m) != Show(n)
  {
    ParseShow(m);
    ParseShow(n);
  }

  /** The length of the run of digits w starts with. */
  function DigitRun(w: string): nat
  {
    if |w| == 0 || !IsDigit(w[0]) then 0 else 1 + DigitRun(w[1..])
  }

  /** A numeral followed by a non-digit starts a run of exactly its own length. */
  lemma {:induction false} DigitRunOf(s: string, x: string)
    requires forall i :: 0 <= i < |s| ==> IsDigit(s[i])
    requires |x| > 0 && !IsDigit(x[0])
    ensures DigitRun(s + x) == |s|
  {
    if |s| > 0 {
      assert (s + x)[1..] == s[1..] + x;
      DigitRunOf(s[1..], x);
    } else {
      assert s + x == x;
    }
  }

  /**
   * Two numerals each followed by a non-digit split the same way: a string
   * built as numeral + separator determines the numeral.
   */
  lemma NumeralPrefix(s: string, t: string, x: string, y: string)
    requires forall i :: 0 <= i < |s| ==> IsDigit(s[i])
    requires forall i :: 0 <= i < |t| ==> IsDigit(t[i])
    requires |x| > 0 && !IsDigit(x[0]) && |y| > 0 && !IsDigit(y[0])
    requires s + x == t + y
    ensures s == t && x == y
  {
    DigitRunOf(s, x);
    DigitRunOf(t, y);
    assert s == (s + x)[..|s|] && t == (t + y)[..|t|];
    assert x == (s + x)[|s|..] && y == (t + y)[|t|..];
  }
}
