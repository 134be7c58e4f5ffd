/** UTF-8 safe truncation (src/json_writer.cpp) against the RFC 3629 grammar. */
module Utf8 {
  predicate IsContinuation(c: char) { 0x80 <= c as int < 0xC0 }

  /** Largest position at or below `end` that does not hold a continuation byte, or 0. */
  function BackOff(s: string, end: nat): (e: nat)
    requires end < |s|
    ensures e <= end && (e > 0 ==> !IsContinuation(s[e]))
    ensures forall i :: e < i <= end ==> IsContinuation(s[i])
  {
    if end > 0 && IsContinuation(s[end]) then BackOff(s, end - 1) else end
  }

  function Truncate(s: string, max: nat): (r: string)
    ensures |r| <= max && r <= s
  {
    if |s| <= max then s else s[..BackOff(s, max)]
  }

  method Utf8SafeTruncate(value: string, max: nat) returns (r: string)
    ensures r == Truncate(value, max)
  {
    if |value| <= max {
      return value;
    }
    var end: nat := max;
    while end > 0 && IsContinuation(value[end])
      invariant end <= max && BackOff(value, max) == BackOff(value, end)
    {
      end := end - 1;
    }
    return value[..end];
  }

  // ------------------------------------------------- RFC 3629, section 4

  predicate Between(s: string, i: nat, lo: int, hi: int) { i < |s| && lo <= s[i] as int <= hi }

  predicate Tail(s: string, i: nat) { Between(s, i, 0x80, 0xBF) }

  /** Length of the UTF8-char the text starts with, or 0 when it starts with none. */
  function SequenceLength(s: string): (n: nat)
    ensures n <= |s| && n <= 4
  {
    if Between(s, 0, 0x00, 0x7F) then 1
    else if Between(s, 0, 0xC2, 0xDF) && Tail(s, 1) then 2
    else if Between(s, 0, 0xE0, 0xE0) && Between(s, 1, 0xA0, 0xBF) && Tail(s, 2) then 3
    else if (Between(s, 0, 0xE1, 0xEC) || Between(s, 0, 0xEE, 0xEF)) && Tail(s, 1) && Tail(s, 2) then 3
    else if Between(s, 0, 0xED, 0xED) && Between(s, 1, 0x80, 0x9F) && Tail(s, 2) then 3
    else if Between(s, 0, 0xF0, 0xF0) && Between(s, 1, 0x90, 0xBF) && Tail(s, 2) && Tail(s, 3) then 4
    else if Between(s, 0, 0xF1, 0xF3) && Tail(s, 1) && Tail(s, 2) && Tail(s, 3) then 4
    else if Between(s, 0, 0xF4, 0xF4) && Between(s, 1, 0x80, 0x8F) && Tail(s, 2) && Tail(s, 3) then 4
    else 0
  }

  predicate ValidUtf8(s: string)
    decreases |s|
  {
    s == [] || (SequenceLength(s) > 0 && ValidUtf8(s[SequenceLength(s)..]))
  }

  /** In valid UTF-8 a position starts a character exactly when cutting there leaves valid UTF-8. */
  lemma {:induction false} CutIsValid(s: string, i: nat)
    requires ValidUtf8(s) && i < |s|
    ensures ValidUtf8(s[..i]) <==> !IsContinuation(s[i])
    decreases |s|
  {
    var n := SequenceLength(s);
    if i >= n {
      CutIsValid(s[n..], i - n);
      assert s[..i][n..] == s[n..][..i - n];
      assert SequenceLength(s[..i]) == n;
    } else if i > 0 {
      assert SequenceLength(s[..i]) == 0;
    }
  }

  /** The result is the longest valid prefix within the limit. */
  lemma TruncateIsLongestValidPrefix(s: string, max: nat)
    requires ValidUtf8(s)
    ensures ValidUtf8(Truncate(s, max)) && Truncate(s, max) <= s && |Truncate(s, max)| <= max
    ensures forall k :: 0 <= k <= |s| && k <= max && ValidUtf8(s[..k]) ==> k <= |Truncate(s, max)|
  {
    if |s| > max {
      var e := BackOff(s, max);
      CutIsValid(s, e);
      forall k | e < k <= max
        ensures !ValidUtf8(s[..k])
      {
        CutIsValid(s, k);
      }
    }
  }

  /** Truncating twice is truncating once, on any bytes at all. */
  lemma TruncateIdempotent(s: string, max: nat)
    ensures Truncate(Truncate(s, max), max) == Truncate(s, max)
  {
  }

  /** A non-empty text is cut to nothing exactly when continuation bytes fill it up to the limit. */
  lemma TruncateToNothing(s: string, max: nat)
    ensures Truncate(s, max) == [] <==> s == [] || (|s| > max && forall i :: 1 <= i <= max ==> IsContinuation(s[i]))
  {
    if |s| > max {
      var e := BackOff(s, max);
      if e > 0 {
        assert !IsContinuation(s[e]);
      }
    }
  }

  lemma {:induction false} ValidHasNoLongRun(s: string, i: nat)
    requires ValidUtf8(s) && i + 3 < |s|
    ensures !IsContinuation(s[i]) || !IsContinuation(s[i + 1]) || !IsContinuation(s[i + 2]) || !IsContinuation(s[i + 3])
    decreases |s|
  {
    var n := SequenceLength(s);
    if i >= n {
      ValidHasNoLongRun(s[n..], i - n);
    } else if n < |s| {
      assert SequenceLength(s[n..]) > 0;
      assert !IsContinuation(s[n..][0]);
    }
  }

  /** Valid UTF-8 is never cut to nothing by a limit of four bytes or more. */
  lemma ValidIsNotCutToNothing(s: string, max: nat)
    requires ValidUtf8(s) && s != [] && max >= 4
    ensures Truncate(s, max) != []
  {
    TruncateToNothing(s, max);
    if |s| > max {
      ValidHasNoLongRun(s, 1);
    }
  }
}
