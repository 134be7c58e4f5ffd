/**
 * String literals and the `"key":` search of the SDK's JSON layer
 * (src/json_writer.cpp, src/json_scan.cpp). A text is a `string`; one `char`
 * stands for one byte, so every statement about all strings covers every byte string.
 *
 * Scanners are specified on suffixes: a cursor into a text is the text that is left.
 */
module JsonText {
  import opened Base

  // ---------------------------------------------------------------- escaping

  function EscapeChar(c: char): (e: string) {
    if c == '"' then "\\\""
    else if c == '\\' then "\\\\"
    else if c == '\n' then "\\n"
    else if c == '\r' then "\\r"
    else if c == '\t' then "\\t"
    else if c == '\U{8}' then "\\b"
    else if c == '\U{C}' then "\\f"
    else if c < ' ' then "\\u00" + [HexDigit(c as int / 16), HexDigit(c as int % 16)]
    else [c]
  }

  function Escape(s: string): string {
    if s == [] then [] else EscapeChar(s[0]) + Escape(s[1..])
  }

  lemma {:induction false} EscapeAppend(a: string, b: string)
    ensures Escape(a + b) == Escape(a) + Escape(b)
  {
    if a == [] {
      assert a + b == b;
    } else {
      var e := EscapeChar(a[0]);
      assert (a + b)[1..] == a[1..] + b && (a + b)[0] == a[0];
      calc {
        Escape(a + b);
        e + Escape(a[1..] + b);
        { EscapeAppend(a[1..], b); }
        e + (Escape(a[1..]) + Escape(b));
        (e + Escape(a[1..])) + Escape(b);
      }
    }
  }

  method JsonEscape(value: string) returns (out: string)
    ensures out == Escape(value)
  {
    out := "";
    for i := 0 to |value|
      invariant out == Escape(value[..i])
    {
      out := out + EscapeChar(value[i]);
      EscapeAppend(value[..i], [value[i]]);
      assert Escape([value[i]]) == EscapeChar(value[i]) + Escape([]);
      assert value[..i + 1] == value[..i] + [value[i]];
    }
    assert value[..|value|] == value;
  }

  // -------------------------------------------------------------- unescaping

  function HexValue(c: char): int {
    if '0' <= c <= '9' then c as int - '0' as int
    else if 'a' <= c <= 'f' then c as int - 'a' as int + 10
    else if 'A' <= c <= 'F' then c as int - 'A' as int + 10
    else -1
  }

  /** UTF-8 bytes of a code point below 0x10000 (surrogates are encoded like any other). */
  function Utf8(codePoint: nat): string
    requires codePoint < 0x10000
  {
    if codePoint < 0x80 then [codePoint as char]
    else if codePoint < 0x800 then [(0xC0 + codePoint / 64) as char, (0x80 + codePoint % 64) as char]
    else [(0xE0 + codePoint / 4096) as char, (0x80 + codePoint / 64 % 64) as char, (0x80 + codePoint % 64) as char]
  }

  predicate FourHex(s: string) {
    |s| >= 4 && forall i :: 0 <= i < 4 ==> HexValue(s[i]) >= 0
  }

  function CodePoint(s: string): (v: nat)
    requires FourHex(s)
    ensures v < 0x10000
  {
    assert forall i :: 0 <= i < 4 ==> 0 <= HexValue(s[i]) < 16;
    ((HexValue(s[0]) * 16 + HexValue(s[1])) * 16 + HexValue(s[2])) * 16 + HexValue(s[3])
  }

  function SimpleEscape(c: char): Option<char> {
    if c == '"' then Some('"')
    else if c == '\\' then Some('\\')
    else if c == '/' then Some('/')
    else if c == 'n' then Some('\n')
    else if c == 'r' then Some('\r')
    else if c == 't' then Some('\t')
    else if c == 'b' then Some('\U{8}')
    else if c == 'f' then Some('\U{C}')
    else None
  }

  function Prepend(head: string, r: Option<(string, string)>): Option<(string, string)> {
    match r
    case None => None
    case Some((text, rest)) => Some((head + text, rest))
  }

  /**
   * RFC 8259, section 7: the text `s` after an opening quote. The decoded string and
   * what follows the closing quote, or None for a control character, an unknown
   * escape or a missing closing quote.
   */
  function Unescape(s: string): (r: Option<(string, string)>)
    ensures r.Some? ==> |r.value.1| < |s|
  {
    if s == [] then None
    else if s[0] == '"' then Some(([], s[1..]))
    else if s[0] < ' ' then None
    else if s[0] != '\\' then Prepend([s[0]], Unescape(s[1..]))
    else if |s| < 2 then None
    else if s[1] == 'u' then
      if FourHex(s[2..]) then Prepend(Utf8(CodePoint(s[2..])), Unescape(s[6..])) else None
    else if SimpleEscape(s[1]).Some? then Prepend([SimpleEscape(s[1]).value], Unescape(s[2..]))
    else None
  }

  lemma PrependTwice(a: string, b: string, r: Option<(string, string)>)
    ensures Prepend(a, Prepend(b, r)) == Prepend(a + b, r)
  {
    if r.Some? {
      assert a + (b + r.value.0) == (a + b) + r.value.0;
    }
  }

  lemma PrependNothing(r: Option<(string, string)>)
    ensures Prepend("", r) == r
  {
    if r.Some? {
      assert "" + r.value.0 == r.value.0;
    }
  }

  /** The string literal at `at`, which must be its opening quote. */
  function StringAt(s: string): Option<(string, string)> {
    if s != [] && s[0] == '"' then Unescape(s[1..]) else None
  }

  /** The value of the four hex digits at `cursor`, or -1. */
  method ReadHex(json: string, cursor: nat) returns (codePoint: int)
    requires cursor + 4 <= |json|
    ensures codePoint == if FourHex(json[cursor..]) then CodePoint(json[cursor..]) else -1
  {
    codePoint := 0;
    ghost var t := json[cursor..];
    for i := 0 to 4
      invariant forall k :: 0 <= k < i ==> HexValue(t[k]) >= 0
      invariant i == 0 ==> codePoint == 0
      invariant i == 1 ==> codePoint == HexValue(t[0])
      invariant i == 2 ==> codePoint == HexValue(t[0]) * 16 + HexValue(t[1])
      invariant i == 3 ==> codePoint == (HexValue(t[0]) * 16 + HexValue(t[1])) * 16 + HexValue(t[2])
      invariant i == 4 ==> codePoint == CodePoint(t)
    {
      var digit := HexValue(json[cursor + i]);
      if digit < 0 {
        return -1;
      }
      codePoint := codePoint * 16 + digit;
    }
  }

  /** The escape at `cursor`: its decoded bytes and the position after it, or -1. */
  method ReadEscape(json: string, cursor: nat) returns (decoded: string, next: int)
    requires cursor < |json| && json[cursor] == '\\'
    ensures next < 0 ==> Unescape(json[cursor..]) == None
    ensures next >= 0 ==> cursor < next <= |json|
    ensures next >= 0 ==> Unescape(json[cursor..]) == Prepend(decoded, Unescape(json[next..]))
  {
    if cursor + 1 >= |json| {
      return "", -1;
    }
    var escape := json[cursor + 1];
    ghost var s := json[cursor..];
    assert s[2..] == json[cursor + 2..];
    if escape == 'u' {
      if cursor + 6 > |json| {
        return "", -1;
      }
      var codePoint := ReadHex(json, cursor + 2);
      if codePoint < 0 {
        return "", -1;
      }
      assert s[6..] == json[cursor + 6..];
      return Utf8(codePoint), cursor + 6;
    }
    match SimpleEscape(escape)
    case None => return "", -1;
    case Some(c) => return [c], cursor + 2;
  }

  method ReadString(json: string, at: nat) returns (value: Option<string>, after: nat)
    ensures at <= |json| ==>
              match StringAt(json[at..])
              case None => value == None
              case Some((text, rest)) => value == Some(text) && after == |json| - |rest| && rest == json[after..]
    ensures at > |json| ==> value == None
    ensures value.Some? ==> at < after <= |json|
  {
    after := at;
    if at >= |json| || json[at] != '"' {
      return None, after;
    }
    var out := "";
    var cursor := at + 1;
    ghost var goal := Unescape(json[cursor..]);
    PrependNothing(goal);
    assert json[at..][1..] == json[cursor..];
    while cursor < |json|
      invariant at < cursor <= |json|
      invariant goal == Prepend(out, Unescape(json[cursor..]))
    {
      ghost var s := json[cursor..];
      var c := json[cursor];
      if c == '"' {
        after := cursor + 1;
        assert s[1..] == json[after..];
        assert out + "" == out;
        return Some(out), after;
      }
      if c < ' ' {
        return None, after;
      }
      if c != '\\' {
        assert s[1..] == json[cursor + 1..];
        PrependTwice(out, [c], Unescape(json[cursor + 1..]));
        out := out + [c];
        cursor := cursor + 1;
        continue;
      }
      var decoded, next := ReadEscape(json, cursor);
      if next < 0 {
        return None, after;
      }
      PrependTwice(out, decoded, Unescape(json[next..]));
      out := out + decoded;
      cursor := next;
    }
    return None, after;
  }

  lemma UnescapeChar(c: char, rest: string)
    ensures Unescape(EscapeChar(c) + rest) == Prepend([c], Unescape(rest))
  {
    var s := EscapeChar(c) + rest;
    if c == '"' || c == '\\' || c == '\n' || c == '\r' || c == '\t' || c == '\U{8}' || c == '\U{C}' {
      assert s[2..] == rest;
    } else if c < ' ' {
      var h, l := HexDigit(c as int / 16), HexDigit(c as int % 16);
      assert s[2..] == ['0', '0', h, l] + rest;
      assert s[6..] == rest;
      assert HexValue(h) == c as int / 16 && HexValue(l) == c as int % 16;
      assert FourHex(s[2..]) && CodePoint(s[2..]) == c as int;
    } else {
      assert s[1..] == rest;
    }
  }

  /** Whatever is escaped into a literal reads back unchanged, whatever follows it. */
  lemma {:induction false} UnescapeEscape(value: string, rest: string)
    ensures Unescape(Escape(value) + "\"" + rest) == Some((value, rest))
  {
    if value == [] {
      assert (Escape(value) + "\"" + rest)[1..] == rest;
    } else {
      var tail := Escape(value[1..]) + "\"" + rest;
      assert Escape(value) + "\"" + rest == EscapeChar(value[0]) + tail;
      UnescapeChar(value[0], tail);
      UnescapeEscape(value[1..], rest);
      assert [value[0]] + value[1..] == value;
    }
  }

  // ------------------------------------------------------------ key search

  function Quoted(key: string): string { "\"" + key + "\"" }

  /**
   * First occurrence of `q` (a quoted key) that is followed by optional whitespace and a
   * colon: the text at the value. An occurrence without the colon is jumped over.
   */
  function Scan(s: string, q: string): (r: Option<string>)
    requires q != []
    ensures r.Some? ==> |r.value| < |s|
    decreases |s|
  {
    if |s| < |q| then None
    else if s[..|q|] == q then
      var r := SkipWs(s[|q|..]);
      if r != [] && r[0] == ':' then Some(SkipWs(r[1..])) else Scan(s[|q|..], q)
    else Scan(s[1..], q)
  }

  lemma {:induction false} SkipBlank(w: string, rest: string)
    requires Blank(w)
    ensures SkipWs(w + rest) == SkipWs(rest)
    ensures rest != "" && !Blank([rest[0]]) ==> SkipWs(rest) == rest
  {
    if w == "" {
      assert w + rest == rest;
      assert rest != "" ==> [rest[0]][0] == rest[0];
    } else {
      assert (w + rest)[0] == w[0] && (w + rest)[1..] == w[1..] + rest;
      SkipBlank(w[1..], rest);
    }
  }

  /** Whitespace around the colon, however much, does not keep the search from the first occurrence's value. */
  lemma {:induction false} ScanSpaced(a: string, q: string, before: string, after: string, rest: string)
    requires q != "" && Blank(before) && Blank(after)
    requires forall i :: 0 <= i < |a| ==> (a + q)[i..][..|q|] != q
    requires rest != "" && !Blank([rest[0]])
    ensures Scan(a + (q + (before + (":" + (after + rest)))), q) == Some(rest)
  {
    var more := before + (":" + (after + rest));
    var s := a + (q + more);
    if a == "" {
      assert s == q + more && s[..|q|] == q && s[|q|..] == more;
      SkipBlank(before, ":" + (after + rest));
      assert (":" + (after + rest))[1..] == after + rest;
      SkipBlank(after, rest);
    } else {
      assert s[..|q|] == (a + q)[0..][..|q|];
      assert s[1..] == a[1..] + (q + more) && (a + q)[1..] == a[1..] + q;
      forall i | 0 <= i < |a| - 1
        ensures (a[1..] + q)[i..][..|q|] != q
      {
        assert (a[1..] + q)[i..][..|q|] == (a + q)[i + 1..][..|q|];
      }
      ScanSpaced(a[1..], q, before, after, rest);
    }
  }

  method SkipSpace(json: string, start: nat) returns (cursor: nat)
    requires start <= |json|
    ensures start <= cursor <= |json| && json[cursor..] == SkipWs(json[start..])
  {
    cursor := start;
    while cursor < |json| && IsWs(json[cursor])
      invariant start <= cursor <= |json|
      invariant SkipWs(json[start..]) == SkipWs(json[cursor..])
    {
      assert json[cursor..][1..] == json[cursor + 1..];
      cursor := cursor + 1;
    }
  }

  /** The next occurrence of `q` at or after `start`, or the position where none is left. */
  method FindText(json: string, q: string, start: nat) returns (at: nat)
    requires q != [] && start <= |json|
    ensures start <= at <= |json|
    ensures at + |q| <= |json| ==> json[at..][..|q|] == q
    ensures Scan(json[start..], q) == Scan(json[at..], q)
  {
    at := start;
    while at + |q| <= |json| && json[at..at + |q|] != q
      invariant start <= at <= |json|
      invariant Scan(json[start..], q) == Scan(json[at..], q)
    {
      assert json[at..][..|q|] == json[at..at + |q|];
      assert json[at..][1..] == json[at + 1..];
      at := at + 1;
    }
    if at + |q| <= |json| {
      assert json[at..][..|q|] == json[at..at + |q|];
    }
  }

  /** One round of the search: what lies after an occurrence decides it. */
  lemma ScanHit(json: string, q: string, at: nat, cursor: nat)
    requires q != [] && at + |q| <= cursor <= |json| && json[at..][..|q|] == q
    requires json[cursor..] == SkipWs(json[at + |q|..])
    ensures Scan(json[at..], q) ==
            if cursor < |json| && json[cursor] == ':' then Some(SkipWs(json[cursor + 1..]))
            else Scan(json[at + |q|..], q)
  {
    assert json[at..][|q|..] == json[at + |q|..];
    if cursor < |json| {
      assert json[cursor..][1..] == json[cursor + 1..];
    }
  }

  /** The value position after the occurrence of `q` at `at`, or -1 when no colon follows. */
  method ValueAfter(json: string, q: string, at: nat) returns (pos: int)
    requires q != [] && at + |q| <= |json| && json[at..][..|q|] == q
    ensures -1 <= pos <= |json|
    ensures Scan(json[at..], q) == if pos >= 0 then Some(json[pos..]) else Scan(json[at + |q|..], q)
  {
    var cursor := SkipSpace(json, at + |q|);
    ScanHit(json, q, at, cursor);
    if cursor < |json| && json[cursor] == ':' {
      pos := SkipSpace(json, cursor + 1);
    } else {
      pos := -1;
    }
  }

  /** One round of the search from `start`: the value position, or where to resume, or neither. */
  method SearchRound(json: string, q: string, start: nat) returns (pos: int, next: int)
    requires q != [] && start <= |json|
    ensures pos >= -1 && (next == -1 || start < next <= |json|)
    ensures pos >= 0 ==> pos <= |json| && Scan(json[start..], q) == Some(json[pos..])
    ensures pos < 0 && next >= 0 ==> Scan(json[start..], q) == Scan(json[next..], q)
    ensures pos < 0 && next < 0 ==> Scan(json[start..], q) == None
  {
    var at := FindText(json, q, start);
    if at + |q| > |json| {
      return -1, -1;
    }
    pos := ValueAfter(json, q, at);
    next := at + |q|;
  }

  method FindQuoted(json: string, q: string) returns (pos: int)
    requires q != []
    ensures Scan(json, q).None? ==> pos == -1
    ensures Scan(json, q).Some? ==> 0 <= pos <= |json| && Scan(json, q).value == json[pos..]
  {
    pos := -1;
    var at := 0;
    ghost var goal := Scan(json, q);
    assert json[0..] == json;
    while pos < 0 && at >= 0
      invariant -1 <= pos <= |json| && -1 <= at <= |json|
      invariant goal == if pos >= 0 then Some(json[pos..]) else if at >= 0 then Scan(json[at..], q) else None
      decreases if at < 0 then 0 else |json| + 1 - at
    {
      pos, at := SearchRound(json, q, at);
    }
  }

  method FindValueStart(json: string, key: string) returns (pos: int)
    ensures Scan(json, Quoted(key)).None? ==> pos == -1
    ensures Scan(json, Quoted(key)).Some? ==> 0 <= pos <= |json| && Scan(json, Quoted(key)).value == json[pos..]
  {
    pos := FindQuoted(json, Quoted(key));
  }
}
