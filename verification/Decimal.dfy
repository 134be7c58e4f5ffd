/** Decimal text of integers: the `%lld` printer's output and the digit-loop readers' value. */
module Decimal {
  predicate IsDigit(c: char) { '0' <= c <= '9' }

  predicate AllDigits(s: string) { forall i :: 0 <= i < |s| ==> IsDigit(s[i]) }

  function DigitChar(d: nat): (c: char)
    requires d < 10
    ensures IsDigit(c) && c as int - '0' as int == d
  {
    ('0' as int + d) as char
  }

  /** Shortest decimal digits of a natural number. */
  function Digits(n: nat): (s: string)
    ensures s != [] && AllDigits(s)
  {
    if n < 10 then [DigitChar(n)] else Digits(n / 10) + [DigitChar(n % 10)]
  }

  function IntText(n: int): string {
    if n < 0 then "-" + Digits(-n) else Digits(n)
  }

  /** Number written by a digit string, read left to right; 0 for no digits. */
  function Value(s: string): (v: int)
    requires AllDigits(s)
    ensures v >= 0
  {
    if s == [] then 0 else Value(s[..|s| - 1]) * 10 + (s[|s| - 1] as int - '0' as int)
  }

  function Pow10(k: nat): (p: int)
    ensures p >= 1
  {
    if k == 0 then 1 else 10 * Pow10(k - 1)
  }

  lemma {:induction false} ValueOfDigits(n: nat)
    ensures Value(Digits(n)) == n
  {
    if n >= 10 {
      var front := Digits(n / 10);
      ValueOfDigits(n / 10);
      assert Digits(n)[..|Digits(n)| - 1] == front;
    } else {
      assert Value([]) == 0;
      assert Digits(n)[..0] == [];
    }
  }

  lemma ValueAppend(s: string, c: char)
    requires AllDigits(s) && IsDigit(c)
    ensures AllDigits(s + [c]) && Value(s + [c]) == Value(s) * 10 + (c as int - '0' as int)
  {
    assert (s + [c])[..|s|] == s;
  }

  lemma {:induction false} DigitCount(n: nat, k: nat)
    requires k >= 1 && n < Pow10(k)
    ensures |Digits(n)| <= k
  {
    if n >= 10 {
      assert k >= 2;
      DigitCount(n / 10, k - 1);
    }
  }

  /** Length of the leading run of digits, at most `limit`. */
  function DigitRun(s: string, limit: nat): (k: nat)
    ensures k <= |s| && k <= limit && AllDigits(s[..k])
    ensures k == limit || k == |s| || !IsDigit(s[k])
  {
    if limit == 0 || s == [] || !IsDigit(s[0]) then 0
    else
      var k := 1 + DigitRun(s[1..], limit - 1);
      assert forall i :: 1 <= i < k ==> s[i] == s[1..][..k - 1][i - 1];
      k
  }

  /** The digit run is the only prefix of digits that cannot be extended. */
  lemma {:induction false} RunIs(t: string, k: nat, limit: nat)
    requires k <= |t| && k <= limit && AllDigits(t[..k])
    requires k == limit || k == |t| || !IsDigit(t[k])
    ensures DigitRun(t, limit) == k
  {
    if k > 0 {
      assert IsDigit(t[..k][0]);
      assert t[1..][..k - 1] == t[..k][1..];
      RunIs(t[1..], k - 1, limit - 1);
    }
  }

  lemma {:induction false} DigitRunOf(d: string, rest: string, limit: nat)
    requires AllDigits(d) && (rest == [] || !IsDigit(rest[0]))
    ensures DigitRun(d + rest, limit) == if |d| <= limit then |d| else limit
  {
    if d == [] {
      assert d + rest == rest;
    } else if limit > 0 {
      assert (d + rest)[1..] == d[1..] + rest;
      DigitRunOf(d[1..], rest, limit - 1);
    }
  }
}
