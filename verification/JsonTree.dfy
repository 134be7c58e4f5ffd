/**
 * JSON documents as trees, their compact RFC 8259 print, and the exact meaning of the substring
 * search on a printed document.
 */
module JsonTree {
  import opened Base
  import opened JsonText
  import opened Decimal

  datatype Json =
    | JString(text: string)
    | JToken(token: string)   // number, true, false or null, as it stands on the wire
    | JObject(members: seq<Member>)
    | JArray(items: seq<Json>)

  datatype Member = Member(name: string, value: Json)

  function Literal(s: string): string { "\"" + Escape(s) + "\"" }

  function Print(t: Json): string {
    match t
    case JString(s) => Literal(s)
    case JToken(x) => x
    case JObject(ms) => "{" + PrintMembers(ms) + "}"
    case JArray(xs) => "[" + PrintItems(xs) + "]"
  }

  function PrintMember(m: Member): string { Literal(m.name) + ":" + Print(m.value) }

  function PrintMembers(ms: seq<Member>): string {
    if ms == [] then ""
    else PrintMember(ms[0]) + (if |ms| == 1 then "" else "," + PrintMembers(ms[1..]))
  }

  function PrintItems(xs: seq<Json>): string {
    if xs == [] then ""
    else Print(xs[0]) + (if |xs| == 1 then "" else "," + PrintItems(xs[1..]))
  }

  /** A printed element, the text of the elements after it and what closes the container. */
  lemma Chain(first: string, others: string, last: bool, end: string)
    ensures first + (if last then "" else "," + others) + end == first + (if last then end else "," + (others + end))
  {
    Assoc(first, if last then "" else "," + others, end);
    Assoc(",", others, end);
    assert "" + end == end;
  }

  lemma MemberText(name: string, value: string, next: string)
    ensures name + ":" + value + next == name + (":" + (value + next))
  {
    Assoc(name, ":", value);
    Assoc(name, ":" + value, next);
    Assoc(":", value, next);
  }

  // ------------------------------------------------- tokens of RFC 8259

  datatype NumState = Start | Minus | Zero | Whole | Dot | Frac | Exp | ExpSign | ExpDigits | Bad

  /** RFC 8259, section 6: the number grammar as an automaton. */
  function NumStep(st: NumState, c: char): NumState {
    match st
    case Start => if c == '-' then Minus else if c == '0' then Zero else if IsDigit(c) then Whole else Bad
    case Minus => if c == '0' then Zero else if IsDigit(c) then Whole else Bad
    case Zero => if c == '.' then Dot else if c == 'e' || c == 'E' then Exp else Bad
    case Whole => if IsDigit(c) then Whole else if c == '.' then Dot else if c == 'e' || c == 'E' then Exp else Bad
    case Dot => if IsDigit(c) then Frac else Bad
    case Frac => if IsDigit(c) then Frac else if c == 'e' || c == 'E' then Exp else Bad
    case Exp => if c == '+' || c == '-' then ExpSign else if IsDigit(c) then ExpDigits else Bad
    case ExpSign => if IsDigit(c) then ExpDigits else Bad
    case ExpDigits => if IsDigit(c) then ExpDigits else Bad
    case Bad => Bad
  }

  function NumRun(st: NumState, s: string): NumState
    decreases s
  {
    if s == [] then st else NumRun(NumStep(st, s[0]), s[1..])
  }

  predicate IsNumber(s: string) {
    NumRun(Start, s) in {Zero, Whole, Frac, ExpDigits}
  }

  predicate TokenChar(c: char) {
    IsDigit(c) || c == '-' || c == '+' || c == '.' || 'a' <= c <= 'z' || 'A' <= c <= 'Z'
  }

  predicate IsToken(s: string) { s == "true" || s == "false" || s == "null" || IsNumber(s) }

  lemma {:induction false} NumberChars(st: NumState, s: string)
    requires NumRun(st, s) != Bad
    decreases s
    ensures forall i :: 0 <= i < |s| ==> TokenChar(s[i])
  {
    if s != [] {
      if NumStep(st, s[0]) == Bad {
        BadStays(s[1..]);
      }
      NumberChars(NumStep(st, s[0]), s[1..]);
    }
  }

  lemma {:induction false} BadStays(s: string)
    ensures NumRun(Bad, s) == Bad
  {
    if s != [] {
      BadStays(s[1..]);
    }
  }

  lemma TokenChars(s: string)
    requires IsToken(s)
    ensures s != [] && forall i :: 0 <= i < |s| ==> TokenChar(s[i])
  {
    if IsNumber(s) {
      NumberChars(Start, s);
    }
  }

  /** Every token in the tree is one RFC 8259 allows. */
  predicate WellFormed(t: Json) {
    match t
    case JString(_) => true
    case JToken(x) => IsToken(x)
    case JObject(ms) => WellFormedMembers(ms)
    case JArray(xs) => WellFormedItems(xs)
  }

  predicate WellFormedMembers(ms: seq<Member>) {
    ms != [] ==> WellFormed(ms[0].value) && WellFormedMembers(ms[1..])
  }

  predicate WellFormedItems(xs: seq<Json>) {
    xs != [] ==> WellFormed(xs[0]) && WellFormedItems(xs[1..])
  }

  // -------------------------------------------------- scanning a print

  predicate Letters(key: string) { forall i :: 0 <= i < |key| ==> 'a' <= key[i] <= 'z' || 'A' <= key[i] <= 'Z' }

  /** Keys the SDK searches for: letters only. */
  predicate PlainKey(key: string) { key != [] && Letters(key) }

  /** What may follow a value inside a document, or nothing at its end. */
  predicate Follows(rest: string) { rest == [] || rest[0] in {',', '}', ']'} }

  predicate AfterLiteral(rest: string) { Follows(rest) || rest[0] == ':' }

  /** A member name the substring search takes for `key`: the key, or a name ending in a quote and the key. */
  predicate Hits(name: string, key: string) { name == key || EndsWith(name, "\"" + key) }

  /** Value of the first member in document order whose name the search takes for `key`. */
  function Find(t: Json, key: string): Option<Json> {
    match t
    case JString(_) => None
    case JToken(_) => None
    case JObject(ms) => FindMembers(ms, key)
    case JArray(xs) => FindItems(xs, key)
  }

  function FindMembers(ms: seq<Member>, key: string): Option<Json> {
    if ms == [] then None
    else if Hits(ms[0].name, key) then Some(ms[0].value)
    else match Find(ms[0].value, key)
         case Some(v) => Some(v)
         case None => FindMembers(ms[1..], key)
  }

  function FindItems(xs: seq<Json>, key: string): Option<Json> {
    if xs == [] then None
    else match Find(xs[0], key)
         case Some(v) => Some(v)
         case None => FindItems(xs[1..], key)
  }

  lemma {:induction false} ScanPastQuiet(a: string, rest: string, q: string)
    requires q != [] && q[0] == '"' && NoneOf(a, {'"'})
    ensures Scan(a + rest, q) == Scan(rest, q)
  {
    if a == [] {
      assert a + rest == rest;
    } else {
      assert (a + rest)[1..] == a[1..] + rest;
      assert (a + rest)[0] == a[0];
      ScanPastQuiet(a[1..], rest, q);
    }
  }

  lemma EscapeCharQuiet(c: char)
    ensures c != '"' ==> NoneOf(EscapeChar(c), {'"'})
    ensures EscapeChar(c) != []
    ensures EscapeChar(c)[0] == '"' || EscapeChar(c)[0] == '\\' || (EscapeChar(c) == [c] && c != '"' && c != '\\' && c >= ' ')
  {
  }

  /** A text of plain characters comes out of escaping only from itself. */
  lemma {:induction false} EscapeIsKey(s: string, key: string, rest: string)
    requires Letters(key)
    ensures key + "\"" <= Escape(s) + "\"" + rest <==> s == key
  {
    if s == [] {
      EmptyIsKey(key, rest);
    } else {
      var tail := Escape(s[1..]) + "\"" + rest;
      assert Escape(s) + "\"" + rest == EscapeChar(s[0]) + tail;
      EscapeCharQuiet(s[0]);
      EscapeCharNotQuote(s[0]);
      if key != [] && key[0] == s[0] {
        EscapeIsKey(s[1..], key[1..], rest);
        assert EscapeChar(s[0]) == [key[0]];
        SameHead(key[0], key[1..] + "\"", tail);
        assert key + "\"" == [key[0]] + (key[1..] + "\"");
        assert s == [s[0]] + s[1..] && key == [key[0]] + key[1..];
      } else {
        OtherHead(key + "\"", EscapeChar(s[0]), tail);
      }
    }
  }

  lemma EmptyIsKey(key: string, rest: string)
    requires Letters(key)
    ensures key + "\"" <= Escape([]) + "\"" + rest <==> key == []
  {
    var text := Escape([]) + "\"" + rest;
    assert text[0] == '"';
    if key != [] {
      assert (key + "\"")[0] == key[0];
    } else {
      assert text[..1] == "\"";
    }
  }

  lemma SameHead(c: char, a: string, b: string)
    ensures [c] + a <= [c] + b <==> a <= b
  {
    assert ([c] + a)[1..] == a && ([c] + b)[1..] == b;
  }

  lemma OtherHead(a: string, head: string, b: string)
    requires a != [] && head != [] && a[0] != head[0]
    ensures !(a <= head + b)
  {
    assert (head + b)[0] == head[0];
  }

  lemma EscapeCharNotQuote(c: char)
    ensures EscapeChar(c) != [] && EscapeChar(c)[0] != '"'
  {
  }

  /** A closing quote starts no quoted key: what follows a literal is never a letter. */
  lemma ScanClosing(key: string, rest: string)
    requires PlainKey(key) && AfterLiteral(rest)
    ensures Scan("\"" + rest, Quoted(key)) == Scan(rest, Quoted(key))
  {
    var q, s := Quoted(key), "\"" + rest;
    assert s[1..] == rest;
    assert q[1] == key[0];
    assert |s| >= |q| ==> s[..|q|][1] == s[1];
  }

  lemma EscapedHead(n: string, rest: string)
    requires n != []
    ensures Escape(n) + "\"" + rest == EscapeChar(n[0]) + (Escape(n[1..]) + "\"" + rest)
  {
    Assoc(EscapeChar(n[0]), Escape(n[1..]), "\"");
    Assoc(EscapeChar(n[0]), Escape(n[1..]) + "\"", rest);
  }

  lemma EscapedQuote(tail: string)
    ensures EscapeChar('"') + tail == "\\" + ("\"" + tail)
  {
  }

  /**
   * Through the rest of a literal (from inside its quotes): the only place the search can
   * stop is a colon after a text that ends in a quote and the key.
   */
  lemma {:induction false} ScanBody(n: string, key: string, rest: string)
    requires PlainKey(key) && AfterLiteral(rest)
    ensures Scan(Escape(n) + "\"" + rest, Quoted(key)) ==
            if EndsWith(n, "\"" + key) && rest != [] && rest[0] == ':' then Some(SkipWs(rest[1..]))
            else Scan(rest, Quoted(key))
    decreases |n|, 0
  {
    var q := Quoted(key);
    if n == [] {
      assert Escape(n) + "\"" + rest == "\"" + rest;
      ScanClosing(key, rest);
    } else {
      var tail := Escape(n[1..]) + "\"" + rest;
      EscapedHead(n, rest);
      SuffixStep(n, "\"" + key);
      if n[0] != '"' {
        EscapeCharQuiet(n[0]);
        ScanPastQuiet(EscapeChar(n[0]), tail, q);
        ScanBody(n[1..], key, rest);
      } else {
        ScanPastQuiet("\\", "\"" + tail, q);
        EscapedQuote(tail);
        ScanQuote(n[1..], key, rest);
      }
    }
  }

  /** At an opening or escaped quote followed by the escaped text `n` and its closing quote. */
  lemma {:induction false} ScanQuote(n: string, key: string, rest: string)
    requires PlainKey(key) && AfterLiteral(rest)
    ensures Scan("\"" + (Escape(n) + "\"" + rest), Quoted(key)) ==
            if Hits(n, key) && rest != [] && rest[0] == ':' then Some(SkipWs(rest[1..]))
            else Scan(rest, Quoted(key))
    decreases |n|, 1
  {
    var q := Quoted(key);
    var body := Escape(n) + "\"" + rest;
    var s := "\"" + body;
    assert s[1..] == body;
    EscapeIsKey(n, key, rest);
    assert q == "\"" + (key + "\"");
    if n == key {
      assert key + "\"" <= body;
      assert s[..|q|] == q;
      KeyTail(key, rest);
      assert s[|q|..] == rest;
      assert SkipWs(rest) == rest;
    } else {
      assert q[1..] == key + "\"";
      assert |s| >= |q| ==> s[..|q|][1..] == body[..|q| - 1];
      ScanBody(n, key, rest);
    }
  }

  /** Letters are escaped to themselves. */
  lemma {:induction false} KeyTail(key: string, rest: string)
    requires Letters(key)
    ensures Escape(key) == key
    ensures ("\"" + (Escape(key) + "\"" + rest))[|Quoted(key)|..] == rest
  {
    if key != [] {
      KeyTail(key[1..], rest);
      assert EscapeChar(key[0]) == [key[0]];
      assert [key[0]] + key[1..] == key;
    }
  }

  lemma SuffixStep(n: string, p: string)
    requires n != [] && p != []
    ensures EndsWith(n, p) <==> n == p || EndsWith(n[1..], p)
  {
    if |p| < |n| {
      assert n[1..][|n| - 1 - |p|..] == n[|n| - |p|..];
    } else if |p| == |n| {
      assert n[0..] == n;
    }
  }

  lemma QuietPiece(piece: string, rest: string, key: string)
    requires PlainKey(key) && NoneOf(piece, {'"'})
    ensures Scan(piece + rest, Quoted(key)) == Scan(rest, Quoted(key))
  {
    ScanPastQuiet(piece, rest, Quoted(key));
  }

  /** A printed value starts with its own first character, never with whitespace. */
  lemma PrintHead(t: Json, rest: string)
    requires WellFormed(t)
    ensures Print(t) != [] && !IsWs(Print(t)[0]) && Print(t)[0] !in {':', ',', '}', ']'}
    ensures SkipWs(Print(t) + rest) == Print(t) + rest
    ensures (Print(t)[0] == '"' <==> t.JString?) && (Print(t)[0] == '{' <==> t.JObject?) && (Print(t)[0] == '[' <==> t.JArray?)
  {
    if t.JToken? {
      TokenChars(t.token);
      assert TokenChar(t.token[0]);
    }
  }

  /** The search over `text` and then `rest` lands on the value `found`, or runs through `text`. */
  ghost predicate Lands(text: string, key: string, rest: string, found: Option<Json>, tail: string) {
    if found.None? then Scan(text + rest, Quoted(key)) == Scan(rest, Quoted(key))
    else WellFormed(found.value) && Follows(tail) && Scan(text + rest, Quoted(key)) == Some(Print(found.value) + tail)
  }

  lemma LandsInside(open: string, inner: string, close: string, key: string, rest: string,
                    found: Option<Json>, tail: string)
    requires PlainKey(key) && NoneOf(open, {'"'}) && NoneOf(close, {'"'})
    requires Lands(inner, key, close + rest, found, tail)
    ensures Lands(open + inner + close, key, rest, found, tail)
  {
    assert open + inner + close + rest == open + (inner + (close + rest));
    QuietPiece(open, inner + (close + rest), key);
    QuietPiece(close, rest, key);
  }

  lemma LandsThrough(first: string, second: string, key: string, rest: string, found: Option<Json>, tail: string)
    requires Lands(first, key, second + rest, None, tail)
    requires Lands(second, key, rest, found, tail)
    ensures Lands(first + second, key, rest, found, tail)
  {
    assert first + second + rest == first + (second + rest);
  }

  lemma LandsFirst(first: string, second: string, key: string, rest: string, found: Option<Json>, tail: string)
    requires found.Some? && Lands(first, key, second + rest, found, tail)
    ensures Lands(first + second, key, rest, found, tail)
  {
    assert first + second + rest == first + (second + rest);
  }

  /**
   * The search over a printed document finds exactly the value of the first member it takes
   * for the key, and is left at that value's text; without one it goes on behind the document.
   */
  lemma {:induction false} ScanTree(t: Json, key: string, rest: string) returns (tail: string)
    requires PlainKey(key) && WellFormed(t) && Follows(rest)
    ensures Lands(Print(t), key, rest, Find(t, key), tail)
    decreases t, 0
  {
    tail := "";
    match t
    case JString(s) =>
      assert Print(t) + rest == "\"" + (Escape(s) + "\"" + rest);
      ScanQuote(s, key, rest);
    case JToken(x) =>
      TokenChars(x);
      QuietPiece(x, rest, key);
    case JObject(ms) =>
      tail := ScanMembers(ms, key, "}" + rest);
      LandsInside("{", PrintMembers(ms), "}", key, rest, Find(t, key), tail);
    case JArray(xs) =>
      tail := ScanItems(xs, key, "]" + rest);
      LandsInside("[", PrintItems(xs), "]", key, rest, Find(t, key), tail);
  }

  lemma {:induction false} ScanMember(m: Member, key: string, rest: string) returns (tail: string)
    requires PlainKey(key) && WellFormed(m.value) && Follows(rest)
    ensures Lands(PrintMember(m), key, rest, if Hits(m.name, key) then Some(m.value) else Find(m.value, key), tail)
    decreases m.value, 1
  {
    var after := ":" + (Print(m.value) + rest);
    assert PrintMember(m) + rest == "\"" + (Escape(m.name) + "\"" + after);
    assert after[1..] == Print(m.value) + rest;
    ScanQuote(m.name, key, after);
    PrintHead(m.value, rest);
    tail := rest;
    if !Hits(m.name, key) {
      QuietPiece(":", Print(m.value) + rest, key);
      tail := ScanTree(m.value, key, rest);
    }
  }

  lemma {:induction false} ScanMembers(ms: seq<Member>, key: string, rest: string) returns (tail: string)
    requires PlainKey(key) && WellFormedMembers(ms) && Follows(rest)
    ensures Lands(PrintMembers(ms), key, rest, FindMembers(ms, key), tail)
    decreases ms, 0
  {
    tail := "";
    if ms == [] {
      assert PrintMembers(ms) + rest == rest;
    } else {
      var more := if |ms| == 1 then "" else "," + PrintMembers(ms[1..]);
      tail := ScanMember(ms[0], key, more + rest);
      if Hits(ms[0].name, key) || Find(ms[0].value, key).Some? {
        LandsFirst(PrintMember(ms[0]), more, key, rest, FindMembers(ms, key), tail);
      } else {
        assert FindMembers(ms, key) == FindMembers(ms[1..], key);
        if |ms| == 1 {
          assert more + rest == rest && FindMembers(ms[1..], key) == None;
        } else {
          tail := ScanMembers(ms[1..], key, rest);
          assert "" + rest == rest && "," + PrintMembers(ms[1..]) + "" == more;
          LandsInside(",", PrintMembers(ms[1..]), "", key, rest, FindMembers(ms[1..], key), tail);
        }
        LandsThrough(PrintMember(ms[0]), more, key, rest, FindMembers(ms, key), tail);
      }
    }
  }

  lemma {:induction false} ScanItems(xs: seq<Json>, key: string, rest: string) returns (tail: string)
    requires PlainKey(key) && WellFormedItems(xs) && Follows(rest)
    ensures Lands(PrintItems(xs), key, rest, FindItems(xs, key), tail)
    decreases xs, 0
  {
    tail := "";
    if xs == [] {
      assert PrintItems(xs) + rest == rest;
    } else {
      var more := if |xs| == 1 then "" else "," + PrintItems(xs[1..]);
      tail := ScanTree(xs[0], key, more + rest);
      if Find(xs[0], key).Some? {
        LandsFirst(Print(xs[0]), more, key, rest, FindItems(xs, key), tail);
      } else {
        assert FindItems(xs, key) == FindItems(xs[1..], key);
        if |xs| == 1 {
          assert more + rest == rest && FindItems(xs[1..], key) == None;
        } else {
          tail := ScanItems(xs[1..], key, rest);
          assert "" + rest == rest && "," + PrintItems(xs[1..]) + "" == more;
          LandsInside(",", PrintItems(xs[1..]), "", key, rest, FindItems(xs[1..], key), tail);
        }
        LandsThrough(Print(xs[0]), more, key, rest, FindItems(xs, key), tail);
      }
    }
  }
}
