/**
 * Reference parser for RFC 8259 (sections 2 to 7), written from the grammar with a string decoder of
 * its own, and the proof that it reads every printed tree back unchanged.
 */
module JsonParse {
  import opened Base
  import opened JsonText
  import opened JsonTree
  import Grammar = Utf8

  // ------------------------------------------------- strings

  /** Value of a hexadecimal digit of either case. */
  function Nibble(c: char): Option<nat> {
    if '0' <= c <= '9' then Some(c as int - 0x30)
    else if 'A' <= c <= 'F' then Some(c as int - 0x37)
    else if 'a' <= c <= 'f' then Some(c as int - 0x57)
    else None
  }

  /** The 16-bit unit four hexadecimal digits spell. */
  function Unit(s: string): (r: Option<nat>)
    ensures r.Some? ==> r.value < 0x10000 && |s| >= 4
  {
    if |s| < 4 || Nibble(s[0]).None? || Nibble(s[1]).None? || Nibble(s[2]).None? || Nibble(s[3]).None? then None
    else Some(0x1000 * Nibble(s[0]).value + 0x100 * Nibble(s[1]).value + 0x10 * Nibble(s[2]).value + Nibble(s[3]).value)
  }

  /** RFC 3629, section 3: the bytes of a code point. */
  function Encoded(code: nat): string
    requires code < 0x110000
  {
    if code < 0x80 then [code as char]
    else if code < 0x800 then [(0xC0 + code / 0x40) as char, (0x80 + code % 0x40) as char]
    else if code < 0x10000 then
      [(0xE0 + code / 0x1000) as char, (0x80 + code / 0x40 % 0x40) as char, (0x80 + code % 0x40) as char]
    else
      [(0xF0 + code / 0x40000) as char, (0x80 + code / 0x1000 % 0x40) as char, (0x80 + code / 0x40 % 0x40) as char,
       (0x80 + code % 0x40) as char]
  }

  /** They are one UTF8-char of the grammar of RFC 3629, section 4. */
  lemma EncodedIsUtf8(code: nat)
    requires code < 0x110000 && !(0xD800 <= code < 0xE000)
    ensures Grammar.SequenceLength(Encoded(code)) == |Encoded(code)| && Grammar.ValidUtf8(Encoded(code))
  {
    var e := Encoded(code);
    assert e[|e|..] == [];
  }

  /** The second half of a surrogate pair at the start of a text. */
  function LowSurrogate(s: string): (r: Option<nat>)
    ensures r.Some? ==> |s| >= 6 && 0xDC00 <= r.value < 0xE000
  {
    if |s| < 6 || s[..2] != "\\u" then None
    else
      match Unit(s[2..])
      case Some(low) => if 0xDC00 <= low < 0xE000 then Some(low) else None
      case None => None
  }

  /** The character a two-character escape stands for. */
  function Short(c: char): Option<char> {
    match c
    case '"' => Some('"')
    case '\\' => Some('\\')
    case '/' => Some('/')
    case 'b' => Some('\U{8}')
    case 'f' => Some('\U{C}')
    case 'n' => Some('\U{A}')
    case 'r' => Some('\U{D}')
    case 't' => Some('\U{9}')
    case _ => None
  }

  /** The characters of a string up to its closing quote, decoded to UTF-8, and what follows the quote. */
  function Chars(s: string): (r: Option<(string, string)>)
    ensures r.Some? ==> |r.value.1| < |s|
    decreases |s|
  {
    if s == [] then None
    else if s[0] == '"' then Some(([], s[1..]))
    else if s[0] < '\U{20}' then None
    else if s[0] != '\\' then Prepend([s[0]], Chars(s[1..]))
    else if |s| < 2 then None
    else if s[1] == 'u' then
      match Unit(s[2..])
      case None => None
      case Some(unit) =>
        if 0xD800 <= unit < 0xDC00 && LowSurrogate(s[6..]).Some? then
          Prepend(Encoded(0x10000 + (unit - 0xD800) * 0x400 + LowSurrogate(s[6..]).value - 0xDC00), Chars(s[12..]))
        else Prepend(Encoded(unit), Chars(s[6..]))
    else
      match Short(s[1])
      case None => None
      case Some(c) => Prepend([c], Chars(s[2..]))
  }

  function ParseString(s: string): (r: Option<(string, string)>)
    ensures r.Some? ==> |r.value.1| < |s|
  {
    if s == [] || s[0] != '"' then None else Chars(s[1..])
  }

  lemma NibbleOfDigit(n: nat)
    requires n < 16
    ensures Nibble(HexDigit(n)) == Some(n)
  {
  }

  lemma CharsOfEscaped(c: char, rest: string)
    ensures Chars(EscapeChar(c) + rest) == Prepend([c], Chars(rest))
  {
    var s := EscapeChar(c) + rest;
    if c == '"' || c == '\\' || c == '\n' || c == '\r' || c == '\t' || c == '\U{8}' || c == '\U{C}' {
      assert s[2..] == rest;
    } else if c < ' ' {
      var h, l := HexDigit(c as int / 16), HexDigit(c as int % 16);
      assert s[2..] == ['0', '0', h, l] + rest;
      assert s[6..] == rest;
      NibbleOfDigit(c as int / 16);
      NibbleOfDigit(c as int % 16);
      assert Unit(s[2..]) == Some(c as int);
    } else {
      assert s[1..] == rest;
    }
  }

  /** What the writer escapes is decoded to the original. */
  lemma {:induction false} CharsOfEscape(value: string, rest: string)
    ensures Chars(Escape(value) + "\"" + rest) == Some((value, rest))
  {
    if value == [] {
      assert (Escape(value) + "\"" + rest)[1..] == rest;
    } else {
      EscapedHead(value, rest);
      CharsOfEscaped(value[0], Escape(value[1..]) + "\"" + rest);
      CharsOfEscape(value[1..], rest);
      assert [value[0]] + value[1..] == value;
    }
  }

  // ------------------------------------------------- the SDK's string reader against the RFC

  /** Surrogate pairs among the escapes of a string. */
  function Pairs(s: string): nat
    decreases |s|
  {
    if s == [] || s[0] == '"' || s[0] < '\U{20}' then 0
    else if s[0] != '\\' then Pairs(s[1..])
    else if |s| < 2 then 0
    else if s[1] != 'u' then (if Short(s[1]).Some? then Pairs(s[2..]) else 0)
    else match Unit(s[2..])
         case None => 0
         case Some(unit) =>
           if 0xD800 <= unit < 0xDC00 && LowSurrogate(s[6..]).Some? then 1 + Pairs(s[12..]) else Pairs(s[6..])
  }

  lemma SameDigit(c: char)
    ensures HexValue(c) == if Nibble(c).Some? then Nibble(c).value else -1
  {
  }

  lemma SameUnit(s: string)
    ensures Unit(s) == if FourHex(s) then Some(CodePoint(s)) else None
  {
    if |s| >= 4 {
      SameDigit(s[0]);
      SameDigit(s[1]);
      SameDigit(s[2]);
      SameDigit(s[3]);
    }
  }

  lemma SameBytes(code: nat)
    requires code < 0x10000
    ensures Utf8(code) == Encoded(code)
  {
  }

  /** What both readers make of a string: the same, but for two bytes more on the SDK's side for every pair. */
  predicate Agree(ours: Option<(string, string)>, rfc: Option<(string, string)>, pairs: nat) {
    match rfc
    case None => ours == None
    case Some((text, rest)) =>
      ours.Some? && ours.value.1 == rest && |ours.value.0| == |text| + 2 * pairs && (pairs == 0 ==> ours.value.0 == text)
  }

  /** A piece that both decode alike. */
  lemma AgreeOn(piece: string, ours: Option<(string, string)>, rfc: Option<(string, string)>, pairs: nat)
    requires Agree(ours, rfc, pairs)
    ensures Agree(Prepend(piece, ours), Prepend(piece, rfc), pairs)
  {
  }

  /** The escapes of a surrogate pair: six bytes on the SDK's side, four on the other. */
  lemma AgreeOnPair(s: string, ours: Option<(string, string)>, rfc: Option<(string, string)>, pairs: nat)
    requires Agree(ours, rfc, pairs) && |s| >= 12 && Unit(s[2..]).Some? && LowSurrogate(s[6..]).Some?
    requires 0xD800 <= Unit(s[2..]).value < 0xDC00
    ensures var high, low := Unit(s[2..]).value, LowSurrogate(s[6..]).value;
            Agree(Prepend(Utf8(high), Prepend(Utf8(low), ours)),
                  Prepend(Encoded(0x10000 + (high - 0xD800) * 0x400 + low - 0xDC00), rfc), pairs + 1)
  {
  }

  lemma {:induction false} ReadersAgree(s: string)
    ensures Agree(Unescape(s), Chars(s), Pairs(s))
    decreases |s|
  {
    if s == [] || s[0] == '"' || s[0] < '\U{20}' {
    } else if s[0] != '\\' {
      ReadersAgree(s[1..]);
      AgreeOn([s[0]], Unescape(s[1..]), Chars(s[1..]), Pairs(s[1..]));
    } else if |s| >= 2 && s[1] == 'u' {
      UnitsAgree(s);
    } else if |s| >= 2 && Short(s[1]).Some? {
      ReadersAgree(s[2..]);
      AgreeOn([Short(s[1]).value], Unescape(s[2..]), Chars(s[2..]), Pairs(s[2..]));
    }
  }

  lemma {:induction false} UnitsAgree(s: string)
    requires |s| >= 2 && s[0] == '\\' && s[1] == 'u'
    ensures Agree(Unescape(s), Chars(s), Pairs(s))
    decreases |s|, 0
  {
    SameUnit(s[2..]);
    if Unit(s[2..]).Some? {
      var unit, t := Unit(s[2..]).value, s[6..];
      SameBytes(unit);
      if 0xD800 <= unit < 0xDC00 && LowSurrogate(t).Some? {
        LowIsRead(t);
        assert t[6..] == s[12..];
        ReadersAgree(s[12..]);
        AgreeOnPair(s, Unescape(s[12..]), Chars(s[12..]), Pairs(s[12..]));
      } else {
        ReadersAgree(t);
        AgreeOn(Encoded(unit), Unescape(t), Chars(t), Pairs(t));
      }
    }
  }

  lemma LowIsRead(t: string)
    requires LowSurrogate(t).Some?
    ensures Unescape(t) == Prepend(Utf8(LowSurrogate(t).value), Unescape(t[6..]))
  {
    SameUnit(t[2..]);
    assert t[..2][0] == t[0] && t[..2][1] == t[1];
  }

  /**
   * On any text whatever, the SDK's string reader and the RFC's accept the same strings and stop at the
   * same place, and they agree on what a string says exactly when no surrogate pair is escaped in it.
   */
  lemma ReadStringIsRfc(s: string)
    ensures StringAt(s).Some? <==> ParseString(s).Some?
    ensures StringAt(s).Some? ==> StringAt(s).value.1 == ParseString(s).value.1
    ensures StringAt(s).Some? ==> (StringAt(s) == ParseString(s) <==> Pairs(s[1..]) == 0)
  {
    if s != [] {
      ReadersAgree(s[1..]);
    }
  }

  // ------------------------------------------------- values

  /** Length of the leading run of characters a number or literal name is made of. */
  function TokenRun(s: string): (k: nat)
    ensures k <= |s|
  {
    if s == [] || !TokenChar(s[0]) then 0 else 1 + TokenRun(s[1..])
  }

  function ParseToken(s: string): (r: Option<(Json, string)>)
    ensures r.Some? ==> |r.value.1| < |s|
  {
    var k := TokenRun(s);
    if k > 0 && IsToken(s[..k]) then Some((JToken(s[..k]), s[k..])) else None
  }

  function ParseValue(text: string): (r: Option<(Json, string)>)
    ensures r.Some? ==> |r.value.1| < |text|
    decreases |text|, 1
  {
    var s := SkipWs(text);
    if s == [] then None
    else if s[0] == '"' then
      match ParseString(s)
      case None => None
      case Some((value, rest)) => Some((JString(value), rest))
    else if s[0] == '{' then
      var body := SkipWs(s[1..]);
      if body != [] && body[0] == '}' then Some((JObject([]), body[1..]))
      else match ParseMembers(body)
           case None => None
           case Some((ms, rest)) => Some((JObject(ms), rest))
    else if s[0] == '[' then
      var body := SkipWs(s[1..]);
      if body != [] && body[0] == ']' then Some((JArray([]), body[1..]))
      else match ParseItems(body)
           case None => None
           case Some((xs, rest)) => Some((JArray(xs), rest))
    else ParseToken(s)
  }

  /** Members up to and including the closing brace. */
  function ParseMembers(s: string): (r: Option<(seq<Member>, string)>)
    ensures r.Some? ==> |r.value.1| < |s|
    decreases |s|, 2
  {
    match ParseString(s)
    case None => None
    case Some((name, afterName)) =>
      var colon := SkipWs(afterName);
      if colon == [] || colon[0] != ':' then None
      else match ParseValue(colon[1..])
           case None => None
           case Some((value, afterValue)) =>
             var next := SkipWs(afterValue);
             if next != [] && next[0] == '}' then Some(([Member(name, value)], next[1..]))
             else if next != [] && next[0] == ',' then
               match ParseMembers(SkipWs(next[1..]))
               case None => None
               case Some((ms, rest)) => Some(([Member(name, value)] + ms, rest))
             else None
  }

  /** Elements up to and including the closing bracket. */
  function ParseItems(s: string): (r: Option<(seq<Json>, string)>)
    ensures r.Some? ==> |r.value.1| < |s|
    decreases |s|, 2
  {
    match ParseValue(s)
    case None => None
    case Some((value, afterValue)) =>
      var next := SkipWs(afterValue);
      if next != [] && next[0] == ']' then Some(([value], next[1..]))
      else if next != [] && next[0] == ',' then
        match ParseItems(SkipWs(next[1..]))
        case None => None
        case Some((xs, rest)) => Some(([value] + xs, rest))
      else None
  }

  /** A whole document: one value and nothing but whitespace behind it. */
  function Parse(s: string): Option<Json> {
    match ParseValue(s)
    case None => None
    case Some((t, rest)) => if SkipWs(rest) == [] then Some(t) else None
  }

  lemma {:induction false} TokenRunOf(x: string, rest: string)
    requires forall i :: 0 <= i < |x| ==> TokenChar(x[i])
    requires Follows(rest)
    ensures TokenRun(x + rest) == |x|
  {
    if x == [] {
      assert x + rest == rest;
    } else {
      assert (x + rest)[1..] == x[1..] + rest;
      TokenRunOf(x[1..], rest);
    }
  }

  lemma ParseTokenPrint(x: string, rest: string)
    requires IsToken(x) && Follows(rest)
    ensures ParseToken(x + rest) == Some((JToken(x), rest))
  {
    TokenChars(x);
    TokenRunOf(x, rest);
    assert (x + rest)[..|x|] == x && (x + rest)[|x|..] == rest;
  }

  lemma LiteralAt(s: string, rest: string)
    ensures ParseString(Literal(s) + rest) == Some((s, rest))
  {
    assert (Literal(s) + rest)[1..] == Escape(s) + "\"" + rest;
    CharsOfEscape(s, rest);
  }

  /** `s` is at the contents of a container: empty up to `close`, or the elements `parsed`. */
  ghost predicate Body<T>(s: string, close: char, xs: seq<T>, rest: string, parsed: Option<(seq<T>, string)>) {
    && s != [] && SkipWs(s) == s
    && if xs == [] then s[0] == close && s[1..] == rest else s[0] != close && parsed == Some((xs, rest))
  }

  lemma ParseObject(body: string, ms: seq<Member>, rest: string)
    requires Body(body, '}', ms, rest, ParseMembers(body))
    ensures ParseValue("{" + body) == Some((JObject(ms), rest))
  {
    assert ("{" + body)[1..] == body;
  }

  lemma ParseArray(body: string, xs: seq<Json>, rest: string)
    requires Body(body, ']', xs, rest, ParseItems(body))
    ensures ParseValue("[" + body) == Some((JArray(xs), rest))
  {
    assert ("[" + body)[1..] == body;
  }

  lemma ParseMembersStep(m: Member, text: string, next: string, ms: seq<Member>, rest: string)
    requires next != [] && ParseValue(text) == Some((m.value, next))
    requires next[0] == '}' || next[0] == ','
    requires next[0] == '}' ==> ms == [] && next[1..] == rest
    requires next[0] == ',' ==> SkipWs(next[1..]) == next[1..] && ParseMembers(next[1..]) == Some((ms, rest))
    ensures ParseMembers(Literal(m.name) + (":" + text)) == Some(([m] + ms, rest))
  {
    LiteralAt(m.name, ":" + text);
    assert (":" + text)[1..] == text;
    assert SkipWs(":" + text) == ":" + text;
    assert SkipWs(next) == next;
    assert [m] + [] == [m];
  }

  lemma ParseMembersCons(m: Member, ms: seq<Member>, more: string, next: string, rest: string)
    requires Body(more, '}', ms, rest, ParseMembers(more)) && next == (if ms == [] then "}" + rest else "," + more)
    requires ParseValue(Print(m.value) + next) == Some((m.value, next))
    ensures ParseMembers(Literal(m.name) + (":" + (Print(m.value) + next))) == Some(([m] + ms, rest))
  {
    assert next[1..] == if ms == [] then rest else more;
    ParseMembersStep(m, Print(m.value) + next, next, ms, rest);
  }

  lemma ParseItemsStep(x: Json, text: string, next: string, xs: seq<Json>, rest: string)
    requires next != [] && ParseValue(text) == Some((x, next))
    requires next[0] == ']' || next[0] == ','
    requires next[0] == ']' ==> xs == [] && next[1..] == rest
    requires next[0] == ',' ==> SkipWs(next[1..]) == next[1..] && ParseItems(next[1..]) == Some((xs, rest))
    ensures ParseItems(text) == Some(([x] + xs, rest))
  {
    assert SkipWs(next) == next;
    assert [x] + [] == [x];
  }

  lemma ParseScalar(t: Json, rest: string)
    requires WellFormed(t) && Follows(rest) && (t.JString? || t.JToken?)
    ensures ParseValue(Print(t) + rest) == Some((t, rest))
  {
    PrintHead(t, rest);
    match t
    case JString(text) =>
      LiteralAt(text, rest);
    case JToken(x) =>
      TokenChars(x);
      assert TokenChar(x[0]);
      ParseTokenPrint(x, rest);
  }

  lemma {:induction false} ParsePrint(t: Json, rest: string)
    requires WellFormed(t) && Follows(rest)
    ensures ParseValue(Print(t) + rest) == Some((t, rest))
    decreases t, 0
  {
    match t
    case JString(_) => ParseScalar(t, rest);
    case JToken(_) => ParseScalar(t, rest);
    case JObject(ms) =>
      ParseMembersPrint(ms, rest);
      ParseObject(PrintMembers(ms) + ("}" + rest), ms, rest);
      Assoc("{" + PrintMembers(ms), "}", rest);
      Assoc("{", PrintMembers(ms), "}" + rest);
    case JArray(xs) =>
      ParseItemsPrint(xs, rest);
      ParseArray(PrintItems(xs) + ("]" + rest), xs, rest);
      Assoc("[" + PrintItems(xs), "]", rest);
      Assoc("[", PrintItems(xs), "]" + rest);
  }

  lemma {:induction false} ParseMembersPrint(ms: seq<Member>, rest: string)
    requires WellFormedMembers(ms)
    ensures var body := PrintMembers(ms) + ("}" + rest); Body(body, '}', ms, rest, ParseMembers(body))
    decreases ms, 0
  {
    var body := PrintMembers(ms) + ("}" + rest);
    if ms == [] {
      assert body == "}" + rest;
    } else {
      var m, more := ms[0], PrintMembers(ms[1..]) + ("}" + rest);
      var next := if |ms| == 1 then "}" + rest else "," + more;
      ParseMembersPrint(ms[1..], rest);
      ParsePrint(m.value, next);
      ParseMembersCons(m, ms[1..], more, next, rest);
      Chain(PrintMember(m), PrintMembers(ms[1..]), |ms| == 1, "}" + rest);
      MemberText(Literal(m.name), Print(m.value), next);
      assert [m] + ms[1..] == ms;
    }
  }

  lemma {:induction false} ParseItemsPrint(xs: seq<Json>, rest: string)
    requires WellFormedItems(xs)
    ensures var body := PrintItems(xs) + ("]" + rest); Body(body, ']', xs, rest, ParseItems(body))
    decreases xs, 0
  {
    var body := PrintItems(xs) + ("]" + rest);
    if xs == [] {
      assert body == "]" + rest;
    } else {
      var more := PrintItems(xs[1..]) + ("]" + rest);
      var next := if |xs| == 1 then "]" + rest else "," + more;
      ParseItemsPrint(xs[1..], rest);
      ParsePrint(xs[0], next);
      PrintHead(xs[0], next);
      assert next[1..] == if |xs| == 1 then rest else more;
      Chain(Print(xs[0]), PrintItems(xs[1..]), |xs| == 1, "]" + rest);
      ParseItemsStep(xs[0], body, next, xs[1..], rest);
      assert [xs[0]] + xs[1..] == xs;
    }
  }

  /** Printing then parsing gives the tree back, every string byte for byte. */
  lemma ParseOfPrint(t: Json)
    requires WellFormed(t)
    ensures Parse(Print(t)) == Some(t)
  {
    ParsePrint(t, "");
    assert Print(t) + "" == Print(t);
  }

  lemma PrintInjective(t: Json, u: Json)
    requires WellFormed(t) && WellFormed(u)
    ensures Print(t) == Print(u) <==> t == u
  {
    ParseOfPrint(t);
    ParseOfPrint(u);
  }
}
