/**
 * Unsigned decimal text, as printed by `%u` / `%lu` and read back by `strtoul`
 * with base 10.
 */
module Decimal {

  predicate IsDigit(ch: char)
  {
    '0' <= ch <= '9'
  }

  predicate AllDigits(s: string)
  {
    forall i :: 0 <= i < |s| ==> IsDigit(s[i])
  }

  /** The canonical form printed by `%u`: non-empty, no leading zero except "0" itself. */
  predicate Canonical(s: string)
  {
    |s| >= 1 && AllDigits(s) && (|s| > 1 ==> s[0] != '0')
  }

  function DigitChar(d: nat): (ch: char)
    requires d < 10
    ensures IsDigit(ch) && ch as int - '0' as int == d
  {
    ('0' as int + d) as char
  }

  /** The number a string of decimal digits denotes, most significant digit first. */
  function Value(s: string): (n: nat)
    requires AllDigits(s)
    decreases |s|
  {
    if s == [] then 0 else Value(s[..|s| - 1]) * 10 + (s[|s| - 1] as int - '0' as int)
  }

  /** The text `%u` prints for `n`; its contract is the round trip back to `n`. */
  function Show(n: nat): (s: string)
    ensures Canonical(s)
    ensures Value(s) == n
    ensures n < 10 <==> |s| == 1
    decreases n
  {
    if n < 10 then [DigitChar(n)]
    else
      var init := Show(n / 10);
      var s := init + [DigitChar(n % 10)];
      assert s[..|s| - 1] == init;
      s
  }

  /** A value of a string with a non-zero first digit is at least 10^(len-1). */
  lemma {:induction false} ValueLowerBound(s: string)
    requires AllDigits(s) && |s| >= 1 && s[0] != '0'
    ensures Value(s) >= Pow10(|s| - 1)
    decreases |s|
  {
    if |s| > 1 {
      var init := s[..|s| - 1];
      assert init[0] == s[0];
      ValueLowerBound(init);
    }
  }

  function Pow10(k: nat): (p: nat)
    ensures p >= 1
  {
    if k == 0 then 1 else 10 * Pow10(k - 1)
  }

  /** The other direction of the round trip: canonical text is exactly what `%u` prints. */
  lemma {:induction false} ShowValue(s: string)
    requires Canonical(s)
    ensures Show(Value(s)) == s
    decreases |s|
  {
    var n := Value(s);
    if |s| == 1 {
      assert s[..0] == [];
    } else {
      var init := s[..|s| - 1];
      assert init[0] == s[0];
      assert Canonical(init);
      ValueLowerBound(s);
      assert Pow10(|s| - 1) >= 10 by {
        assert |s| - 1 >= 1;
      }
      assert n / 10 == Value(init);
      assert n % 10 == s[|s| - 1] as int - '0' as int;
      ShowValue(init);
      assert s == init + [s[|s| - 1]];
    }
  }

  /** Two numbers print alike only when they are equal. */
  lemma ShowInjective(m: nat, n: nat)
    requires Show(m) == Show(n)
    ensures m == n
  {
  }

  /** The number of leading decimal digits of `s`. */
  function DigitRun(s: string): (k: nat)
    ensures k <= |s|
    ensures AllDigits(s[..k])
    ensures k < |s| ==> !IsDigit(s[k])
  {
    if s == [] || !IsDigit(s[0]) then 0
    else
      var k := 1 + DigitRun(s[1..]);
      assert s[..k] == [s[0]] + s[1..][..k - 1];
      k
  }

  /** A run of digits followed by a non-digit is read exactly up to that non-digit. */
  lemma {:induction false} DigitRunOf(d: string, rest: string)
    requires AllDigits(d)
    requires rest == [] || !IsDigit(rest[0])
    ensures DigitRun(d + rest) == |d|
    decreases |d|
  {
    if d != [] {
      assert (d + rest)[1..] == d[1..] + rest;
      DigitRunOf(d[1..], rest);
    }
  }
}
