/** Backoff of src/retry_after.cpp: the Retry-After reader and the delay before the next attempt. */
module RetryAfter {
  import opened Base
  import opened Decimal

  const MAX_DELAY := 300

  predicate Ows(c: char) { c == ' ' || c == '\t' || c == '\r' || c == '\n' }

  predicate AllOws(s: string) { forall i :: 0 <= i < |s| ==> Ows(s[i]) }

  function TrimLeft(s: string): string {
    if s != [] && Ows(s[0]) then TrimLeft(s[1..]) else s
  }

  function TrimRight(s: string): string {
    if s != [] && Ows(s[|s| - 1]) then TrimRight(s[..|s| - 1]) else s
  }

  /** Seconds of a header value: 1 to 9 digits between optional whitespace, otherwise -1. */
  function Seconds(value: string): int {
    var t := TrimRight(TrimLeft(value));
    if t == "" || |t| > 9 || !AllDigits(t) then -1 else Value(t)
  }

  method ParseRetryAfterSeconds(value: string) returns (out: int)
    ensures out == Seconds(value)
  {
    var begin, end := 0, |value|;
    while begin < end && Ows(value[begin])
      invariant 0 <= begin <= end == |value|
      invariant TrimLeft(value) == TrimLeft(value[begin..])
    {
      assert value[begin..][1..] == value[begin + 1..];
      begin := begin + 1;
    }
    assert TrimLeft(value) == value[begin..end];
    while end > begin && Ows(value[end - 1])
      invariant begin <= end <= |value|
      invariant TrimRight(TrimLeft(value)) == TrimRight(value[begin..end])
    {
      assert value[begin..end][..end - begin - 1] == value[begin..end - 1];
      end := end - 1;
    }
    ghost var t := value[begin..end];
    assert TrimRight(TrimLeft(value)) == t;
    if begin == end || end - begin > 9 {
      return -1;
    }
    out := 0;
    for i := begin to end
      invariant AllDigits(t[..i - begin]) && out == Value(t[..i - begin])
    {
      var c := value[i];
      assert t[i - begin] == c;
      if c < '0' || c > '9' {
        return -1;
      }
      assert t[..i + 1 - begin] == t[..i - begin] + [c];
      ValueAppend(t[..i - begin], c);
      out := out * 10 + (c as int - '0' as int);
    }
    assert t[..end - begin] == t;
  }

  lemma {:induction false} TrimLeftOf(pad: string, s: string)
    requires AllOws(pad) && s != [] && !Ows(s[0])
    ensures TrimLeft(pad + s) == s
  {
    if pad == [] {
      assert pad + s == s;
    } else {
      assert (pad + s)[1..] == pad[1..] + s;
      TrimLeftOf(pad[1..], s);
    }
  }

  lemma {:induction false} TrimRightOf(s: string, pad: string)
    requires AllOws(pad) && s != [] && !Ows(s[|s| - 1])
    ensures TrimRight(s + pad) == s
  {
    if pad == [] {
      assert s + pad == s;
    } else {
      assert (s + pad)[..|s + pad| - 1] == s + pad[..|pad| - 1];
      TrimRightOf(s, pad[..|pad| - 1]);
    }
  }

  /** A number of seconds below 10^9 is read back, whatever whitespace surrounds it. */
  lemma SecondsOfText(before: string, n: nat, after: string)
    requires AllOws(before) && AllOws(after) && n < Pow10(9)
    ensures Seconds(before + Digits(n) + after) == n
  {
    var d := Digits(n);
    assert IsDigit(d[0]) && IsDigit(d[|d| - 1]);
    Assoc(before, d, after);
    TrimLeftOf(before, d + after);
    TrimRightOf(d, after);
    DigitCount(n, 9);
    ValueOfDigits(n);
  }

  lemma {:induction false} TrimBlank(s: string)
    requires Blank(s)
    ensures TrimLeft(s) == ""
  {
    if s != "" {
      TrimBlank(s[1..]);
    }
  }

  /** One to nine digits between whitespace are that many seconds; any other text at all is no hint. */
  lemma SecondsExactly(before: string, t: string, after: string)
    requires Blank(before) && Blank(after) && (t != "" ==> !Blank([t[0]]) && !Blank([t[|t| - 1]]))
    ensures Seconds(before + t + after) == if 1 <= |t| <= 9 && AllDigits(t) then Value(t) else -1
  {
    assert AllOws(before) && AllOws(after);
    if t == "" {
      TrimBlank(before + t + after);
    } else {
      assert [t[0]][0] == t[0] && [t[|t| - 1]][0] == t[|t| - 1];
      Assoc(before, t, after);
      TrimLeftOf(before, t + after);
      TrimRightOf(t, after);
    }
  }

  /** Anything that is not a plain number, the HTTP-date form included, is no hint. */
  lemma OtherTextIsNoHint(value: string, i: nat)
    requires i < |value| && !Ows(value[i]) && !IsDigit(value[i])
    ensures Seconds(value) == -1
  {
    var j := TrimLeftKeeps(value, i);
    TrimRightKeeps(TrimLeft(value), j);
  }

  lemma {:induction false} TrimLeftKeeps(s: string, i: nat) returns (j: nat)
    requires i < |s| && !Ows(s[i])
    ensures j < |TrimLeft(s)| && TrimLeft(s)[j] == s[i]
  {
    if Ows(s[0]) {
      j := TrimLeftKeeps(s[1..], i - 1);
    } else {
      j := i;
    }
  }

  lemma {:induction false} TrimRightKeeps(s: string, i: nat)
    requires i < |s| && !Ows(s[i])
    ensures i < |TrimRight(s)| && TrimRight(s)[i] == s[i]
  {
    if Ows(s[|s| - 1]) {
      TrimRightKeeps(s[..|s| - 1], i);
    }
  }

  // ------------------------------------------------- the delay

  function Backoff(attempt: nat): (d: int)
    ensures d > attempt
  {
    if attempt == 0 then 1 else 2 * Backoff(attempt - 1)
  }

  function RetryDelay(attempt: int, hint: int): int {
    Min(MAX_DELAY, Max(hint, Backoff(Max(1, Min(5, attempt)))))
  }

  method ComputeRetryDelay(attempt: int, retryAfterSeconds: int) returns (delay: int)
    ensures delay == RetryDelay(attempt, retryAfterSeconds)
  {
    var a := attempt;
    if a < 1 {
      a := 1;
    }
    if a > 5 {
      a := 5;
    }
    delay := ShiftTwo(a - 1);
    if retryAfterSeconds > delay {
      delay := retryAfterSeconds;
    }
    if delay > MAX_DELAY {
      delay := MAX_DELAY;
    }
  }

  /** 2 shifted left by `n` bits. */
  function ShiftTwo(n: nat): (d: int)
    ensures d == Backoff(n + 1)
  {
    if n == 0 then 2 else 2 * ShiftTwo(n - 1)
  }

  /** Every wait is between 2 and 300 seconds, never shorter than the server asked below that cap. */
  lemma DelayBounds(attempt: int, hint: int)
    ensures 2 <= RetryDelay(attempt, hint) <= 300
    ensures hint <= 300 ==> RetryDelay(attempt, hint) >= hint
    ensures hint < 2 ==> RetryDelay(attempt, hint) == [2, 4, 8, 16, 32][Max(0, Min(4, attempt - 1))]
  {
    var a := Max(1, Min(5, attempt));
    assert Backoff(1) == 2 && Backoff(2) == 4 && Backoff(3) == 8;
    assert Backoff(4) == 16 && Backoff(5) == 32;
    assert a == 1 || a == 2 || a == 3 || a == 4 || a == 5;
  }

  /** After the first five failures: the backoff, raised to the hint, at most five minutes. */
  lemma DelayExactly(failures: nat, hint: int)
    requires failures < 5
    ensures RetryDelay(failures + 1, hint) == Min(300, Max(hint, [2, 4, 8, 16, 32][failures]))
  {
    assert Backoff(1) == 2 && Backoff(2) == 4 && Backoff(3) == 8;
    assert Backoff(4) == 16 && Backoff(5) == 32;
  }

  lemma {:induction false} BackoffGrows(m: nat, n: nat)
    requires m <= n
    ensures Backoff(m) <= Backoff(n)
  {
    if m < n {
      BackoffGrows(m, n - 1);
    }
  }

  /** A later attempt or a larger hint never shortens the wait. */
  lemma DelayMonotone(attempt: int, attempt': int, hint: int, hint': int)
    requires attempt <= attempt' && hint <= hint'
    ensures RetryDelay(attempt, hint) <= RetryDelay(attempt', hint')
  {
    BackoffGrows(Max(1, Min(5, attempt)), Max(1, Min(5, attempt')));
  }
}
