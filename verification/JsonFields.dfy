/**
 * The field readers of src/json_scan.cpp: first string, bool, integer or object value for a
 * key. Each reader is specified on any text at all, and then pinned down on printed documents.
 */
module JsonFields {
  import opened Base
  import opened JsonText
  import opened JsonTree
  import opened Decimal

  // ------------------------------------------------------------- readers

  function StringField(json: string, key: string): Option<string> {
    match Scan(json, Quoted(key))
    case None => None
    case Some(s) => if StringAt(s).Some? then Some(StringAt(s).value.0) else None
  }

  method FindStringField(json: string, key: string) returns (r: Option<string>)
    ensures r == StringField(json, key)
  {
    var at := FindValueStart(json, key);
    if at < 0 {
      return None;
    }
    var after;
    r, after := ReadString(json, at);
  }

  function BoolAt(s: string): Option<bool> {
    if "true" <= s then Some(true) else if "false" <= s then Some(false) else None
  }

  function BoolField(json: string, key: string): Option<bool> {
    match Scan(json, Quoted(key))
    case None => None
    case Some(s) => BoolAt(s)
  }

  method FindBoolField(json: string, key: string) returns (r: Option<bool>)
    ensures r == BoolField(json, key)
  {
    var at := FindValueStart(json, key);
    if at < 0 {
      return None;
    }
    var s := json[at..];
    if "true" <= s {
      return Some(true);
    }
    if "false" <= s {
      return Some(false);
    }
    return None;
  }

  const MAX_DIGITS := 18

  /** 10^18: every integer of smaller magnitude has at most MAX_DIGITS digits. */
  const INT_RANGE := 1_000_000_000_000_000_000

  lemma EighteenDigits(n: nat)
    requires n < INT_RANGE
    ensures |Digits(n)| <= MAX_DIGITS
  {
    assert Pow10(6) == 1_000_000;
    assert Pow10(12) == 1_000_000_000_000;
    assert Pow10(18) == INT_RANGE;
    DigitCount(n, 18);
  }

  /** Digits that make a clean integer: at most 18, and no fraction, exponent or further digit. */
  function UnsignedAt(t: string, limit: nat): Option<int> {
    var k := DigitRun(t, limit);
    if k == 0 || (k < |t| && (t[k] in {'.', 'e', 'E'} || IsDigit(t[k]))) then None
    else Some(Value(t[..k]))
  }

  function IntAt(s: string, limit: nat): Option<int> {
    if s != [] && s[0] == '-' then
      match UnsignedAt(s[1..], limit)
      case None => None
      case Some(v) => Some(-v)
    else UnsignedAt(s, limit)
  }

  function IntField(json: string, key: string): Option<int> {
    match Scan(json, Quoted(key))
    case None => None
    case Some(s) => IntAt(s, MAX_DIGITS)
  }

  lemma DigitAdds(t: string, n: nat, c: char)
    requires n < |t| && t[n] == c && IsDigit(c) && AllDigits(t[..n])
    ensures AllDigits(t[..n + 1]) && Value(t[..n + 1]) == Value(t[..n]) * 10 + (c as int - '0' as int)
  {
    ValueAppend(t[..n], c);
    assert t[..n] + [c] == t[..n + 1];
  }

  /** Reads at most MAX_DIGITS digits from `start`. */
  method ReadDigits(json: string, start: nat) returns (value: int, digits: nat)
    requires start <= |json|
    ensures digits == DigitRun(json[start..], MAX_DIGITS) && value == Value(json[start..][..digits])
  {
    ghost var t := json[start..];
    value := 0;
    digits := 0;
    var cursor := start;
    while cursor < |json| && IsDigit(json[cursor]) && digits < MAX_DIGITS
      invariant start <= cursor <= |json| && digits == cursor - start && digits <= MAX_DIGITS
      invariant AllDigits(t[..digits]) && value == Value(t[..digits])
    {
      DigitAdds(t, digits, json[cursor]);
      value := value * 10 + (json[cursor] as int - '0' as int);
      cursor := cursor + 1;
      digits := digits + 1;
    }
    RunIs(t, digits, MAX_DIGITS);
  }

  method FindIntField(json: string, key: string) returns (r: Option<int>)
    ensures r == IntField(json, key)
  {
    var at := FindValueStart(json, key);
    if at < 0 || at >= |json| {
      return None;
    }
    var negative := json[at] == '-';
    var start := if negative then at + 1 else at;
    ghost var s := json[at..];
    assert negative ==> s[1..] == json[start..];
    var value, digits := ReadDigits(json, start);
    if digits == 0 {
      return None;
    }
    var cursor := start + digits;
    if cursor < |json| && (json[cursor] == '.' || json[cursor] == 'e' || json[cursor] == 'E' || IsDigit(json[cursor])) {
      return None;
    }
    return Some(if negative then -value else value);
  }

  /**
   * What follows the brace that closes the object begun before `s`: braces inside strings do
   * not count, and an escaped character never ends a string.
   */
  function SkipObject(s: string, depth: nat, inString: bool): (r: Option<string>)
    ensures r.Some? ==> |r.value| < |s|
  {
    if s == [] then None
    else if inString then
      if s[0] == '\\' then (if |s| < 2 then None else SkipObject(s[2..], depth, true))
      else SkipObject(s[1..], depth, s[0] != '"')
    else if s[0] == '"' then SkipObject(s[1..], depth, true)
    else if s[0] == '{' then SkipObject(s[1..], depth + 1, false)
    else if s[0] == '}' then (if depth <= 1 then Some(s[1..]) else SkipObject(s[1..], depth - 1, false))
    else SkipObject(s[1..], depth, false)
  }

  function ObjectAt(s: string): Option<string> {
    if s == [] || s[0] != '{' then None
    else match SkipObject(s, 0, false)
         case None => None
         case Some(rest) => Some(s[..|s| - |rest|])
  }

  function ObjectField(json: string, key: string): Option<string> {
    match Scan(json, Quoted(key))
    case None => None
    case Some(s) => ObjectAt(s)
  }

  method FindObjectField(json: string, key: string) returns (r: Option<string>)
    ensures r == ObjectField(json, key)
  {
    var at := FindValueStart(json, key);
    if at < 0 || at >= |json| || json[at] != '{' {
      return None;
    }
    var end := ObjectEnd(json, at);
    if end < 0 {
      return None;
    }
    assert json[at..][..end - at] == json[at..end];
    return Some(json[at..end]);
  }

  /** One past the brace that closes the object at `at`, or -1. */
  method ObjectEnd(json: string, at: nat) returns (end: int)
    requires at < |json| && json[at] == '{'
    ensures SkipObject(json[at..], 0, false).None? ==> end == -1
    ensures SkipObject(json[at..], 0, false).Some? ==> at < end <= |json| && |SkipObject(json[at..], 0, false).value| == |json| - end
  {
    ghost var goal := SkipObject(json[at..], 0, false);
    var depth := 0;
    end := at;
    var inString := false;
    while end < |json|
      invariant at <= end <= |json| && (depth == 0 ==> end == at)
      invariant depth >= 0 && goal == SkipObject(json[end..], depth, inString)
      invariant inString ==> depth > 0
    {
      ghost var s := json[end..];
      assert s[1..] == json[end + 1..];
      var c := json[end];
      if inString {
        if c == '\\' {
          end := end + 1;
          if end >= |json| {
            return -1;
          }
          assert s[2..] == json[end + 1..];
        } else if c == '"' {
          inString := false;
        }
      } else if c == '"' {
        inString := true;
      } else if c == '{' {
        depth := depth + 1;
      } else if c == '}' {
        depth := depth - 1;
        if depth == 0 {
          return end + 1;
        }
      }
      end := end + 1;
    }
    return -1;
  }

  // ------------------------------------------------- on printed documents

  function TextOf(v: Option<Json>): string {
    match v
    case Some(JString(s)) => s
    case _ => ""
  }

  /** A string value is found exactly when the first member taken for the key holds a string. */
  lemma StringFieldOfPrint(t: Json, key: string)
    requires WellFormed(t) && PlainKey(key)
    ensures StringField(Print(t), key) ==
            match Find(t, key)
            case Some(JString(s)) => Some(s)
            case _ => None
  {
    var tail := ScanDocument(t, key);
    if Find(t, key).Some? {
      StringAtPrint(Find(t, key).value, tail);
    }
  }

  lemma StringAtPrint(v: Json, tail: string)
    requires WellFormed(v)
    ensures StringAt(Print(v) + tail) == if v.JString? then Some((v.text, tail)) else None
  {
    PrintHead(v, tail);
    if v.JString? {
      assert (Print(v) + tail)[1..] == Escape(v.text) + "\"" + tail;
      UnescapeEscape(v.text, tail);
    }
  }

  /** The whole-document case of the search. */
  lemma ScanDocument(t: Json, key: string) returns (tail: string)
    requires WellFormed(t) && PlainKey(key)
    ensures Find(t, key).None? ==> Scan(Print(t), Quoted(key)) == None
    ensures Find(t, key).Some? ==> Scan(Print(t), Quoted(key)) == Some(Print(Find(t, key).value) + tail)
    ensures Find(t, key).Some? ==> WellFormed(Find(t, key).value) && Follows(tail)
  {
    tail := ScanTree(t, key, "");
    assert Print(t) + "" == Print(t);
  }

  lemma BoolFieldOfPrint(t: Json, key: string)
    requires WellFormed(t) && PlainKey(key)
    ensures BoolField(Print(t), key) ==
            match Find(t, key)
            case Some(JToken("true")) => Some(true)
            case Some(JToken("false")) => Some(false)
            case _ => None
  {
    var tail := ScanDocument(t, key);
    if Find(t, key).Some? {
      BoolAtPrint(Find(t, key).value, tail);
    }
  }

  lemma BoolAtPrint(v: Json, tail: string)
    requires WellFormed(v) && Follows(tail)
    ensures BoolAt(Print(v) + tail) ==
            if v == JToken("true") then Some(true) else if v == JToken("false") then Some(false) else None
  {
    PrintHead(v, tail);
    assert (Print(v) + tail)[0] == Print(v)[0];
    if v.JToken? && IsNumber(v.token) {
      TokenChars(v.token);
      assert NumStep(Start, v.token[0]) != Bad by {
        BadStays(v.token[1..]);
      }
    }
  }

  /** The integer a number's text stands for, when it has at most 18 digits and no fraction or exponent. */
  function PlainInteger(x: string): Option<int> {
    var d := if x != "" && x[0] == '-' then x[1..] else x;
    if 1 <= |d| <= 18 && AllDigits(d) then Some(if d == x then Value(d) else -Value(d)) else None
  }

  /** Where the digits of a number end, a fraction or an exponent starts. */
  lemma {:induction false} NumberMark(st: NumState, s: string)
    requires st in {Zero, Whole} && NumRun(st, s) != Bad
    ensures var k := DigitRun(s, |s|); k == |s| || s[k] in {'.', 'e', 'E'}
    decreases |s|
  {
    if s != "" {
      if NumStep(st, s[0]) == Bad {
        BadStays(s[1..]);
      }
      if IsDigit(s[0]) {
        NumberMark(Whole, s[1..]);
      }
    }
  }

  lemma RunWithin(d: string, tail: string, k: nat)
    requires k <= |d| && AllDigits(d[..k]) && (k == |d| || !IsDigit(d[k])) && Follows(tail)
    ensures DigitRun(d + tail, 18) == Min(k, 18)
  {
    var t, m := d + tail, Min(k, 18);
    assert t[..m] == d[..k][..m];
    if k < |d| {
      assert t[k] == d[k];
    }
    RunIs(t, m, 18);
  }

  lemma UnsignedAtNumber(d: string, tail: string)
    requires d != "" && IsDigit(d[0]) && Follows(tail)
    requires var k := DigitRun(d, |d|); k == |d| || d[k] in {'.', 'e', 'E'}
    ensures UnsignedAt(d + tail, 18) == if |d| <= 18 && AllDigits(d) then Some(Value(d)) else None
  {
    hide DigitRun, Value;
    var k, t := DigitRun(d, |d|), d + tail;
    RunWithin(d, tail, k);
    if k > 18 {
      assert t[18] == d[..k][18];
    } else if k < |d| {
      assert t[k] == d[k] && !IsDigit(d[k]);
    } else {
      assert t[..k] == d && d[..k] == d;
    }
  }

  /** A number opens with a digit, after its sign if it has one. */
  lemma NumberOpens(st: NumState, d: string)
    requires st in {Start, Minus} && NumRun(st, d) in {Zero, Whole, Frac, ExpDigits} && (d != "" ==> d[0] != '-')
    ensures d != "" && IsDigit(d[0])
    ensures var k := DigitRun(d, |d|); k == |d| || d[k] in {'.', 'e', 'E'}
  {
    if NumStep(st, d[0]) == Bad {
      BadStays(d[1..]);
    }
    NumberMark(NumStep(st, d[0]), d[1..]);
  }

  lemma IntAtToken(x: string, tail: string)
    requires IsToken(x) && Follows(tail)
    ensures IntAt(x + tail, 18) == PlainInteger(x)
  {
    TokenChars(x);
    assert (x + tail)[0] == x[0];
    if IsNumber(x) {
      if x[0] == '-' {
        IntAtNegative(x[1..], tail);
        assert x == "-" + x[1..];
      } else {
        NumberOpens(Start, x);
        UnsignedAtNumber(x, tail);
      }
    }
  }

  lemma IntAtNegative(d: string, tail: string)
    requires IsNumber("-" + d) && Follows(tail)
    ensures IntAt("-" + d + tail, 18) == PlainInteger("-" + d)
  {
    assert ("-" + d)[1..] == d && ("-" + d + tail)[1..] == d + tail;
    assert NumRun(Start, "-" + d) == NumRun(Minus, d);
    if d != "" && d[0] == '-' {
      BadStays(d[1..]);
    }
    NumberOpens(Minus, d);
    UnsignedAtNumber(d, tail);
  }

  /** An integer is found exactly when the first member taken for the key holds one of at most 18 digits. */
  lemma IntFieldExactly(t: Json, key: string)
    requires WellFormed(t) && PlainKey(key)
    ensures IntField(Print(t), key) ==
            match Find(t, key)
            case Some(JToken(x)) => PlainInteger(x)
            case _ => None
  {
    var tail := ScanDocument(t, key);
    if Find(t, key).Some? {
      var v := Find(t, key).value;
      PrintHead(v, tail);
      if v.JToken? {
        IntAtToken(v.token, tail);
      }
    }
  }

  lemma UnsignedAtDigits(d: string, tail: string, limit: nat)
    requires AllDigits(d) && 0 < |d| <= limit && Follows(tail)
    ensures UnsignedAt(d + tail, limit) == Some(Value(d))
  {
    DigitRunOf(d, tail, limit);
    assert (d + tail)[..|d|] == d;
  }

  lemma IntAtMinus(t: string, limit: nat, v: int)
    requires UnsignedAt(t, limit) == Some(v)
    ensures IntAt("-" + t, limit) == Some(-v)
  {
    assert ("-" + t)[1..] == t;
  }

  lemma StartsWithDigit(d: string, tail: string)
    requires AllDigits(d) && d != []
    ensures d + tail != [] && (d + tail)[0] != '-'
  {
    assert (d + tail)[0] == d[0] && IsDigit(d[0]);
  }

  lemma IntAtPrint(n: int, tail: string, limit: nat)
    requires |Digits(if n < 0 then -n else n)| <= limit && Follows(tail)
    ensures IntAt(IntText(n) + tail, limit) == Some(n)
  {
    var m := if n < 0 then -n else n;
    ValueOfDigits(m);
    var d := Digits(m);
    UnsignedAtDigits(d, tail, limit);
    StartsWithDigit(d, tail);
    IntAtMinus(d + tail, limit, m);
    Assoc("-", d, tail);
  }

  /** Integers of at most 18 digits, the range the reader accepts, come back exactly. */
  lemma IntFieldOfPrint(t: Json, key: string, n: int)
    requires WellFormed(t) && PlainKey(key) && -1_000_000_000_000_000_000 < n < 1_000_000_000_000_000_000
    requires Find(t, key) == Some(JToken(IntText(n)))
    ensures IntField(Print(t), key) == Some(n)
  {
    var tail := ScanDocument(t, key);
    EighteenDigits(if n < 0 then -n else n);
    IntAtPrint(n, tail, MAX_DIGITS);
  }

  lemma {:induction false} SkipText(s: string, depth: nat, rest: string)
    ensures SkipObject(Escape(s) + "\"" + rest, depth, true) == SkipObject(rest, depth, false)
  {
    if s == [] {
      assert (Escape(s) + "\"" + rest)[1..] == rest;
    } else {
      var tail := Escape(s[1..]) + "\"" + rest;
      assert Escape(s) + "\"" + rest == EscapeChar(s[0]) + tail;
      SkipEscaped(s[0], depth, tail);
      SkipText(s[1..], depth, rest);
    }
  }

  lemma SkipEscaped(c: char, depth: nat, tail: string)
    ensures SkipObject(EscapeChar(c) + tail, depth, true) == SkipObject(tail, depth, true)
  {
    var e := EscapeChar(c);
    if e[0] != '\\' {
      assert (e + tail)[1..] == tail;
    } else if |e| == 2 {
      assert (e + tail)[2..] == tail;
    } else {
      var a, b := HexDigit(c as int / 16), HexDigit(c as int % 16);
      assert (e + tail)[2..] == ['0', '0', a, b] + tail;
      SkipPlain(['0', '0', a, b], depth, tail);
    }
  }

  lemma {:induction false} SkipPlain(x: string, depth: nat, tail: string)
    requires NoneOf(x, {'"', '\\'})
    ensures SkipObject(x + tail, depth, true) == SkipObject(tail, depth, true)
  {
    if x == [] {
      assert x + tail == tail;
    } else {
      assert (x + tail)[1..] == x[1..] + tail;
      SkipPlain(x[1..], depth, tail);
    }
  }

  lemma {:induction false} SkipToken(x: string, depth: nat, tail: string)
    requires NoneOf(x, {'"', '{', '}'})
    ensures SkipObject(x + tail, depth, false) == SkipObject(tail, depth, false)
  {
    if x == [] {
      assert x + tail == tail;
    } else {
      assert (x + tail)[1..] == x[1..] + tail;
      SkipToken(x[1..], depth, tail);
    }
  }

  lemma SkipLiteral(s: string, depth: nat, rest: string)
    ensures SkipObject(Literal(s) + rest, depth, false) == SkipObject(rest, depth, false)
  {
    assert (Literal(s) + rest)[1..] == Escape(s) + "\"" + rest;
    SkipText(s, depth, rest);
  }

  /** A printed value inside an object is passed over whole: braces in its strings do not count. */
  lemma {:induction false} SkipPrinted(t: Json, depth: nat, rest: string)
    requires WellFormed(t) && depth >= 1
    ensures SkipObject(Print(t) + rest, depth, false) == SkipObject(rest, depth, false)
    decreases t, 0
  {
    match t
    case JString(s) => SkipLiteral(s, depth, rest);
    case JToken(x) =>
      TokenChars(x);
      SkipToken(x, depth, rest);
    case JObject(ms) =>
      Assoc("{" + PrintMembers(ms), "}", rest);
      Assoc("{", PrintMembers(ms), "}" + rest);
      var body := PrintMembers(ms) + ("}" + rest);
      assert ("{" + body)[1..] == body;
      SkipMembers(ms, depth + 1, "}" + rest);
      assert ("}" + rest)[1..] == rest;
    case JArray(xs) =>
      Assoc("[" + PrintItems(xs), "]", rest);
      Assoc("[", PrintItems(xs), "]" + rest);
      SkipToken("[", depth, PrintItems(xs) + ("]" + rest));
      SkipItems(xs, depth, "]" + rest);
      SkipToken("]", depth, rest);
  }

  lemma {:induction false} SkipMembers(ms: seq<Member>, depth: nat, rest: string)
    requires WellFormedMembers(ms) && depth >= 1
    ensures SkipObject(PrintMembers(ms) + rest, depth, false) == SkipObject(rest, depth, false)
    decreases ms, 0
  {
    if ms == [] {
      assert PrintMembers(ms) + rest == rest;
    } else {
      var more := if |ms| == 1 then rest else "," + (PrintMembers(ms[1..]) + rest);
      var value := Print(ms[0].value) + more;
      Chain(PrintMember(ms[0]), PrintMembers(ms[1..]), |ms| == 1, rest);
      MemberText(Literal(ms[0].name), Print(ms[0].value), more);
      SkipLiteral(ms[0].name, depth, ":" + value);
      SkipToken(":", depth, value);
      SkipPrinted(ms[0].value, depth, more);
      if |ms| > 1 {
        SkipToken(",", depth, PrintMembers(ms[1..]) + rest);
        SkipMembers(ms[1..], depth, rest);
      }
    }
  }

  lemma {:induction false} SkipItems(xs: seq<Json>, depth: nat, rest: string)
    requires WellFormedItems(xs) && depth >= 1
    ensures SkipObject(PrintItems(xs) + rest, depth, false) == SkipObject(rest, depth, false)
    decreases xs, 0
  {
    if xs == [] {
      assert PrintItems(xs) + rest == rest;
    } else {
      var more := if |xs| == 1 then rest else "," + (PrintItems(xs[1..]) + rest);
      Chain(Print(xs[0]), PrintItems(xs[1..]), |xs| == 1, rest);
      SkipPrinted(xs[0], depth, more);
      if |xs| > 1 {
        SkipToken(",", depth, PrintItems(xs[1..]) + rest);
        SkipItems(xs[1..], depth, rest);
      }
    }
  }

  lemma ObjectAtPrint(ms: seq<Member>, rest: string)
    requires WellFormedMembers(ms)
    ensures SkipObject(Print(JObject(ms)) + rest, 0, false) == Some(rest)
    ensures ObjectAt(Print(JObject(ms)) + rest) == Some(Print(JObject(ms)))
  {
    var s := Print(JObject(ms)) + rest;
    Assoc("{" + PrintMembers(ms), "}", rest);
    Assoc("{", PrintMembers(ms), "}" + rest);
    var body := PrintMembers(ms) + ("}" + rest);
    assert ("{" + body)[1..] == body;
    SkipMembers(ms, 1, "}" + rest);
    assert ("}" + rest)[1..] == rest;
    assert s[..|s| - |rest|] == Print(JObject(ms));
  }

  lemma ObjectFieldOfPrint(t: Json, key: string)
    requires WellFormed(t) && PlainKey(key)
    ensures ObjectField(Print(t), key) ==
            match Find(t, key)
            case Some(JObject(ms)) => Some(Print(JObject(ms)))
            case _ => None
  {
    var tail := ScanDocument(t, key);
    if Find(t, key).Some? {
      var v := Find(t, key).value;
      PrintHead(v, tail);
      if v.JObject? {
        ObjectAtPrint(v.members, tail);
      }
    }
  }

  // ------------------------------------------------- names that deceive the search

  /** Every member of the tree in document order, each before those of its own value. */
  function Members(t: Json): seq<Member> {
    match t
    case JString(_) => []
    case JToken(_) => []
    case JObject(ms) => MembersOf(ms)
    case JArray(xs) => MembersIn(xs)
  }

  function MembersOf(ms: seq<Member>): seq<Member> {
    if ms == [] then [] else [ms[0]] + Members(ms[0].value) + MembersOf(ms[1..])
  }

  function MembersIn(xs: seq<Json>): seq<Member> { if xs == [] then [] else Members(xs[0]) + MembersIn(xs[1..]) }

  /** Position of the first member named `key`, or the length. */
  function FirstNamed(ms: seq<Member>, key: string): (n: nat)
    ensures n <= |ms| && (n < |ms| ==> ms[n].name == key) && forall i :: 0 <= i < n ==> ms[i].name != key
  {
    if ms == [] || ms[0].name == key then 0
    else
      var n := FirstNamed(ms[1..], key);
      assert forall i :: 1 <= i < n + 1 ==> ms[i] == ms[1..][i - 1];
      n + 1
  }

  /** Position of the first member the search takes for `key`, or the length. */
  function FirstTaken(ms: seq<Member>, key: string): (n: nat)
    ensures n <= |ms| && (n < |ms| ==> Hits(ms[n].name, key)) && forall i :: 0 <= i < n ==> !Hits(ms[i].name, key)
  {
    if ms == [] || Hits(ms[0].name, key) then 0
    else
      var n := FirstTaken(ms[1..], key);
      assert forall i :: 1 <= i < n + 1 ==> ms[i] == ms[1..][i - 1];
      n + 1
  }

  function ValueAt(ms: seq<Member>, n: nat): Option<Json> { if n < |ms| then Some(ms[n].value) else None }

  function FirstValue(ms: seq<Member>, key: string): Option<Json> { ValueAt(ms, FirstTaken(ms, key)) }

  lemma {:induction false} FirstOfBoth(a: seq<Member>, b: seq<Member>, key: string)
    ensures FirstValue(a + b, key) == if FirstValue(a, key).Some? then FirstValue(a, key) else FirstValue(b, key)
  {
    if a == [] {
      assert a + b == b;
    } else {
      assert (a + b)[1..] == a[1..] + b;
      FirstOfBoth(a[1..], b, key);
    }
  }

  /** What is found is the first such member of the document. */
  lemma {:induction false} FindIsFirstTaken(t: Json, key: string)
    ensures Find(t, key) == FirstValue(Members(t), key)
    decreases t, 0
  {
    match t
    case JString(_) =>
    case JToken(_) =>
    case JObject(ms) => FindMembersIsFirstTaken(ms, key);
    case JArray(xs) => FindItemsIsFirstTaken(xs, key);
  }

  lemma {:induction false} FindMembersIsFirstTaken(ms: seq<Member>, key: string)
    ensures FindMembers(ms, key) == FirstValue(MembersOf(ms), key)
    decreases ms, 0
  {
    if ms != [] {
      FindIsFirstTaken(ms[0].value, key);
      FindMembersIsFirstTaken(ms[1..], key);
      FirstOfBoth([ms[0]], Members(ms[0].value), key);
      FirstOfBoth([ms[0]] + Members(ms[0].value), MembersOf(ms[1..]), key);
    }
  }

  lemma {:induction false} FindItemsIsFirstTaken(xs: seq<Json>, key: string)
    ensures FindItems(xs, key) == FirstValue(MembersIn(xs), key)
    decreases xs, 0
  {
    if xs != [] {
      FindIsFirstTaken(xs[0], key);
      FindItemsIsFirstTaken(xs[1..], key);
      FirstOfBoth(Members(xs[0]), MembersIn(xs[1..]), key);
    }
  }

  predicate Disguised(name: string, key: string) { EndsWith(name, "\"" + key) }

  lemma DisguiseIsOther(name: string, key: string)
    requires Disguised(name, key)
    ensures name != key && Hits(name, key)
  {
  }

  /** A name that ends in a quote and the key stands before any member named `key`. */
  predicate Deceived(ms: seq<Member>, key: string) {
    exists i :: 0 <= i < |ms| && Disguised(ms[i].name, key) && forall j :: 0 <= j < i ==> ms[j].name != key
  }

  /**
   * The member the search reads is the first one named `key`, and there is none to read when no
   * member is, exactly when no disguised name stands before it.
   */
  lemma SearchIsByName(t: Json, key: string)
    ensures Find(t, key) == ValueAt(Members(t), FirstTaken(Members(t), key))
    ensures FirstTaken(Members(t), key) == FirstNamed(Members(t), key) <==> !Deceived(Members(t), key)
  {
    FindIsFirstTaken(t, key);
    var ms := Members(t);
    var taken, named := FirstTaken(ms, key), FirstNamed(ms, key);
    if Deceived(ms, key) {
      var i :| 0 <= i < |ms| && Disguised(ms[i].name, key) && forall j :: 0 <= j < i ==> ms[j].name != key;
      DisguiseIsOther(ms[i].name, key);
      assert taken <= i < named;
    }
  }

  /** In particular when no name in the whole document is disguised. */
  lemma UndisguisedIsByName(t: Json, key: string)
    requires forall m :: m in Members(t) ==> !Disguised(m.name, key)
    ensures Find(t, key) == ValueAt(Members(t), FirstNamed(Members(t), key))
  {
    SearchIsByName(t, key);
  }

  /** With one, a flag is read that no member of that name holds. */
  lemma DisguisedNameIsRead()
    ensures var t := JObject([Member("x\"log", JToken("true"))]);
            Deceived(Members(t), "log") && FirstNamed(Members(t), "log") == |Members(t)| && BoolField(Print(t), "log") == Some(true)
  {
    var ms := [Member("x\"log", JToken("true"))];
    var t := JObject(ms);
    assert ms[1..] == [] && MembersOf(ms) == ms;
    assert ms[0].name[1..] == "\"log";
    assert WellFormed(t);
    BoolFieldOfPrint(t, "log");
    SearchIsByName(t, "log");
  }

  /** Behind the member itself such a name does no harm. */
  lemma LaterDisguiseIsHarmless()
    ensures var t := JObject([Member("log", JToken("true")), Member("x\"log", JToken("false"))]);
            !Deceived(Members(t), "log")
  {
    var ms := [Member("log", JToken("true")), Member("x\"log", JToken("false"))];
    assert MembersOf(ms)[0] == ms[0];
  }
}
