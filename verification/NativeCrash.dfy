/**
 * The native crash dump of src/native_crash.cpp: the text the signal handler writes and the parser
 * that reads it on the next launch, whole or cut off at any byte.
 */
module NativeCrash {
  import opened Base
  import opened Decimal

  const WORD := 0x1_0000_0000_0000_0000  // values of an unsigned 64-bit integer

  // ------------------------------------------------- numbers

  function HexDigits(n: nat): (s: string)
    ensures s != ""
  {
    if n < 16 then [HexDigit(n)] else HexDigits(n / 16) + [HexDigit(n % 16)]
  }

  function HexText(n: nat): string { "0x" + HexDigits(n) }

  /** `n` shifted right by `k` nibbles. */
  function Shifted(n: nat, k: nat): nat { if k == 0 then n else Shifted(n, k - 1) / 16 }

  function Power16(k: nat): (p: int)
    ensures p > 0
  {
    if k == 0 then 1 else 16 * Power16(k - 1)
  }

  lemma ShiftedOut(n: nat, k: nat)
    requires n < Power16(k)
    ensures Shifted(n, k) == 0
  {
    if k > 0 {
      ShiftedBound(n, k, k - 1);
    }
  }

  lemma {:induction false} ShiftedBound(n: nat, k: nat, j: nat)
    requires n < Power16(k) && j <= k
    ensures Shifted(n, j) < Power16(k - j)
  {
    if j > 0 {
      ShiftedBound(n, k, j - 1);
    }
  }

  lemma SixteenNibbles()
    ensures Power16(16) == WORD
  {
    assert Power16(4) == 65536;
    assert Power16(8) == 0x1_0000_0000;
    assert Power16(12) == 0x1_0000_0000_0000;
  }

  /** Leading zero nibbles are skipped, the rest written from the top. */
  method HexTo(value: nat) returns (text: string)
    requires value < WORD
    ensures text == HexText(value)
  {
    text := "0x";
    var nibble: int := 15;
    SixteenNibbles();
    ShiftedOut(value, 16);
    while nibble > 0 && Shifted(value, nibble) % 16 == 0
      invariant 0 <= nibble <= 15 && Shifted(value, nibble + 1) == 0
    {
      nibble := nibble - 1;
    }
    ghost var top := nibble;
    while nibble >= 0
      invariant -1 <= nibble <= top
      invariant nibble == top ==> text == "0x" && Shifted(value, nibble + 1) == 0
      invariant nibble < top ==> text == "0x" + HexDigits(Shifted(value, nibble + 1))
      invariant nibble < top && top > 0 ==> Shifted(value, nibble + 1) > 0
    {
      ghost var rest := Shifted(value, nibble + 1);
      assert Shifted(value, nibble) / 16 == rest;
      var digit := HexDigit(Shifted(value, nibble) % 16);
      assert nibble < top ==> HexDigits(Shifted(value, nibble)) == HexDigits(rest) + [digit];
      assert "0x" + (HexDigits(rest) + [digit]) == "0x" + HexDigits(rest) + [digit];
      text := text + [digit];
      nibble := nibble - 1;
    }
  }

  /** Digits are produced last first into a scratch buffer and copied out in reverse. */
  method DecTo(value: int) returns (text: string)
    ensures text == IntText(value)
  {
    text := "";
    var v := value;
    if v < 0 {
      text := "-";
      v := -v;
    }
    ghost var sign := text;
    var tmp := DigitsBackwards(v);
    ghost var whole := tmp;
    assert text + Reversed(tmp) == sign + Reversed(whole);
    while |tmp| > 0
      invariant text + Reversed(tmp) == sign + Reversed(whole)
      decreases |tmp|
    {
      var last := tmp[|tmp| - 1];
      Assoc(text, [last], Reversed(tmp[..|tmp| - 1]));
      text := text + [last];
      tmp := tmp[..|tmp| - 1];
    }
    assert text + "" == text;
  }

  /** The digits of a number, last first. */
  method DigitsBackwards(value: nat) returns (tmp: string)
    ensures Reversed(tmp) == Digits(value)
  {
    var v := value;
    tmp := [DigitChar(v % 10)];
    assert tmp[..0] == "" && Reversed(tmp) == tmp;
    v := v / 10;
    while v != 0
      invariant v >= 0 && Digits(value) == (if v > 0 then Digits(v) else "") + Reversed(tmp)
    {
      FrontDigit(v, Reversed(tmp));
      var digit := DigitChar(v % 10);
      assert (tmp + [digit])[..|tmp|] == tmp;
      tmp := tmp + [digit];
      v := v / 10;
    }
    assert Digits(value) == Reversed(tmp);
  }

  lemma FrontDigit(v: nat, rest: string)
    requires v > 0
    ensures Digits(v) + rest == (if v / 10 > 0 then Digits(v / 10) else "") + ([DigitChar(v % 10)] + rest)
  {
    var front := if v >= 10 then Digits(v / 10) else "";
    assert Digits(v) == front + [DigitChar(v % 10)];
    Assoc(front, [DigitChar(v % 10)], rest);
  }

  function Reversed(s: string): string { if s == "" then "" else [s[|s| - 1]] + Reversed(s[..|s| - 1]) }

  predicate IsHex(c: char) { '0' <= c <= '9' || 'a' <= c <= 'f' || 'A' <= c <= 'F' }

  function HexValueOf(c: char): (v: nat)
    requires IsHex(c)
    ensures v < 16
  {
    if c <= '9' then c as int - '0' as int
    else if c >= 'a' then 10 + (c as int - 'a' as int)
    else 10 + (c as int - 'A' as int)
  }

  /** Digits of either case are read, each as its place in the row, and nothing else is one. */
  lemma HexCharsAre(c: char, d: nat)
    requires d < 16
    ensures "0123456789abcdef"[d] == c || "0123456789ABCDEF"[d] == c ==> IsHex(c) && HexValueOf(c) == d
    ensures IsHex(c) ==> "0123456789abcdef"[HexValueOf(c)] == c || "0123456789ABCDEF"[HexValueOf(c)] == c
  {
  }

  function HexRun(s: string): (n: nat)
    ensures n <= |s| && (forall i :: 0 <= i < n ==> IsHex(s[i])) && (n < |s| ==> !IsHex(s[n]))
  {
    if s == "" || !IsHex(s[0]) then 0
    else
      var n := HexRun(s[1..]);
      assert forall i :: 1 <= i < n + 1 ==> s[i] == s[1..][i - 1];
      n + 1
  }

  predicate AllHex(s: string) { forall i :: 0 <= i < |s| ==> IsHex(s[i]) }

  /** Value of hexadecimal digits in a 64-bit word that shifts left and lets the top go. */
  function WordOfHex(s: string): (v: nat)
    requires AllHex(s)
    ensures v < WORD
  {
    if s == "" then 0 else (WordOfHex(s[..|s| - 1]) * 16 + HexValueOf(s[|s| - 1])) % WORD
  }

  function Unprefixed(s: string): string {
    if |s| >= 2 && s[0] == '0' && (s[1] == 'x' || s[1] == 'X') then s[2..] else s
  }

  function ParsedHex(s: string): nat { WordOfHex(Unprefixed(s)[..HexRun(Unprefixed(s))]) }

  method ParseHex(s: string) returns (v: nat)
    ensures v == ParsedHex(s)
  {
    v := 0;
    var i := if |s| >= 2 && s[0] == '0' && (s[1] == 'x' || s[1] == 'X') then 2 else 0;
    ghost var body, start := Unprefixed(s), i;
    assert body == s[start..];
    while i < |s|
      invariant start <= i <= |s| && HexRun(body) >= i - start
      invariant AllHex(body[..i - start]) && v == WordOfHex(body[..i - start])
    {
      var c := s[i];
      assert c == body[i - start];
      if !IsHex(c) {
        break;
      }
      RunGoesOn(body, i - start);
      assert body[..i - start + 1][..i - start] == body[..i - start];
      v := (v * 16 + HexValueOf(c)) % WORD;
      i := i + 1;
    }
    assert HexRun(body) == i - start;
  }

  lemma RunGoesOn(s: string, n: nat)
    requires n < |s| && HexRun(s) >= n && IsHex(s[n])
    ensures HexRun(s) >= n + 1
  {
  }

  function ParsedDec(s: string): int {
    var neg := s != "" && s[0] == '-';
    var body := if neg then s[1..] else s;
    var v := Value(body[..DigitRun(body, |body|)]);
    if neg then -v else v
  }

  method ParseDec(s: string) returns (r: int)
    ensures r == ParsedDec(s)
  {
    var v, neg, i := 0, false, 0;
    if i < |s| && s[i] == '-' {
      neg := true;
      i := i + 1;
    }
    ghost var start, body := i, s[i..];
    while i < |s| && '0' <= s[i] <= '9'
      invariant start <= i <= |s| && AllDigits(body[..i - start]) && v == Value(body[..i - start])
    {
      ValueAppend(body[..i - start], s[i]);
      assert body[..i - start + 1] == body[..i - start] + [s[i]];
      v := v * 10 + (s[i] as int - '0' as int);
      i := i + 1;
    }
    RunIs(body, i - start, |body|);
    assert body == if neg then s[1..] else s;
    r := if neg then -v else v;
  }

  /** Truncation to a 32-bit signed integer. */
  function Int32(n: int): int { (n + 0x8000_0000) % 0x1_0000_0000 - 0x8000_0000 }

  predicate IsInt32(n: int) { -0x8000_0000 <= n < 0x8000_0000 }

  // ------------------------------------------------- printers and parsers are inverse

  lemma HexDigitValue(d: nat)
    requires d < 16
    ensures IsHex(HexDigit(d)) && HexValueOf(HexDigit(d)) == d
  {
  }

  /** Value of hexadecimal digits without any bound. */
  function PlainHex(s: string): (v: nat)
    requires AllHex(s)
  {
    if s == "" then 0 else PlainHex(s[..|s| - 1]) * 16 + HexValueOf(s[|s| - 1])
  }

  /** Letting the top bits go is arithmetic modulo 2^64. */
  lemma {:induction false} HexIsModular(s: string)
    requires AllHex(s)
    ensures WordOfHex(s) == PlainHex(s) % WORD
  {
    if s != "" {
      HexIsModular(s[..|s| - 1]);
      ShiftModulo(PlainHex(s[..|s| - 1]), HexValueOf(s[|s| - 1]));
    }
  }

  lemma ShiftModulo(a: nat, d: nat)
    ensures (a % WORD * 16 + d) % WORD == (a * 16 + d) % WORD
  {
    var q := a / WORD;
    assert a * 16 + d == a % WORD * 16 + d + (16 * q) * WORD;
    DropMultiple(a % WORD * 16 + d, 16 * q);
  }

  lemma {:induction false} DropMultiple(x: nat, k: nat)
    ensures (x + k * WORD) % WORD == x % WORD
  {
    if k > 0 {
      DropMultiple(x, k - 1);
      assert x + k * WORD == x + (k - 1) * WORD + WORD;
    }
  }

  lemma {:induction false} PlainHexOfDigits(n: nat)
    ensures AllHex(HexDigits(n)) && PlainHex(HexDigits(n)) == n
  {
    HexDigitValue(n % 16);
    if n >= 16 {
      PlainHexOfDigits(n / 16);
      assert HexDigits(n)[..|HexDigits(n)| - 1] == HexDigits(n / 16);
    } else {
      assert HexDigits(n)[..0] == "";
    }
  }

  lemma HexOfDigits(n: nat)
    requires n < WORD
    ensures AllHex(HexDigits(n)) && WordOfHex(HexDigits(n)) == n
  {
    PlainHexOfDigits(n);
    HexIsModular(HexDigits(n));
    SmallModulo(n);
  }

  lemma SmallModulo(n: nat)
    requires n < WORD
    ensures n % WORD == n
  {
  }

  lemma {:induction false} HexRunAll(s: string)
    requires AllHex(s)
    ensures HexRun(s) == |s|
  {
    if s != "" {
      HexRunAll(s[1..]);
    }
  }

  lemma HexRoundTrip(n: nat)
    requires n < WORD
    ensures ParsedHex(HexText(n)) == n
  {
    HexOfDigits(n);
    assert Unprefixed(HexText(n)) == HexDigits(n);
    HexRunAll(HexDigits(n));
    assert HexDigits(n)[..|HexDigits(n)|] == HexDigits(n);
  }

  lemma DecRoundTrip(n: int)
    ensures ParsedDec(IntText(n)) == n
  {
    var v := if n < 0 then -n else n;
    ValueOfDigits(v);
    RunIs(Digits(v), |Digits(v)|, |Digits(v)|);
    assert Digits(v)[..|Digits(v)|] == Digits(v);
    if n < 0 {
      assert IntText(n)[1..] == Digits(v);
    }
  }

  lemma Int32Identity(n: int)
    requires IsInt32(n)
    ensures Int32(n) == n
  {
  }
}
