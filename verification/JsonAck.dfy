/**
 * The two server documents the SDK reads (src/json_scan.cpp): the pull requests of a heartbeat
 * ack, and the log-upload descriptor of an ingest response.
 */
module JsonAck {
  import opened Base
  import opened JsonText
  import opened JsonTree
  import opened JsonFields
  import opened Decimal
  import Payloads
  import SessionMarkers

  // ------------------------------------------------- pending pull requests

  datatype PullRequest = PullRequest(requestId: string, targetType: string, targetValue: string,
                                     fulfillNonce: string, nonceExpiry: int)

  const MAX_REQUESTS := 32

  function Extract(item: string): PullRequest {
    PullRequest(StringField(item, "requestId").GetOr(""), StringField(item, "targetType").GetOr(""),
                StringField(item, "targetValue").GetOr(""), StringField(item, "fulfillNonce").GetOr(""),
                IntField(item, "nonceExpiry").GetOr(0))
  }

  method ExtractRequest(item: string) returns (r: PullRequest)
    ensures r == Extract(item)
  {
    var id := FindStringField(item, "requestId");
    var kind := FindStringField(item, "targetType");
    var value := FindStringField(item, "targetValue");
    var nonce := FindStringField(item, "fulfillNonce");
    var expiry := FindIntField(item, "nonceExpiry");
    r := PullRequest(id.GetOr(""), kind.GetOr(""), value.GetOr(""), nonce.GetOr(""), expiry.GetOr(0));
  }

  /** The first `n` objects outside strings, up to a bracket that closes the array. */
  function ArrayObjects(s: string, inString: bool, n: nat): seq<string>
    decreases |s|
  {
    if s == [] || n == 0 then []
    else if inString then
      if s[0] == '\\' then (if |s| < 2 then [] else ArrayObjects(s[2..], true, n))
      else ArrayObjects(s[1..], s[0] != '"', n)
    else if s[0] == '"' then ArrayObjects(s[1..], true, n)
    else if s[0] == ']' then []
    else if s[0] == '{' then
      match SkipObject(s, 0, false)
      case None => []
      case Some(rest) => [s[..|s| - |rest|]] + ArrayObjects(rest, false, n - 1)
    else ArrayObjects(s[1..], false, n)
  }

  function ExtractAll(objects: seq<string>): seq<PullRequest> {
    seq(|objects|, i requires 0 <= i < |objects| => Extract(objects[i]))
  }

  function Pending(json: string): seq<PullRequest> {
    match Scan(json, Quoted("pendingRequests"))
    case None => []
    case Some(s) => if s != [] && s[0] == '[' then ExtractAll(ArrayObjects(s, false, MAX_REQUESTS)) else []
  }

  lemma {:induction false} ArrayObjectsBound(s: string, inString: bool, n: nat)
    ensures |ArrayObjects(s, inString, n)| <= n
    decreases |s|
  {
    if s == [] || n == 0 {
    } else if inString {
      if s[0] != '\\' {
        ArrayObjectsBound(s[1..], s[0] != '"', n);
      } else if |s| >= 2 {
        ArrayObjectsBound(s[2..], true, n);
      }
    } else if s[0] == '{' && SkipObject(s, 0, false).Some? {
      ArrayObjectsBound(SkipObject(s, 0, false).value, false, n - 1);
    } else if s[0] != '{' && s[0] != ']' {
      ArrayObjectsBound(s[1..], s[0] == '"', n);
    }
  }

  /** No acknowledgement, however long, asks for more than 32 fulfilments. */
  lemma PendingBound(json: string)
    ensures |Pending(json)| <= 32
  {
    match Scan(json, Quoted("pendingRequests"))
    case None =>
    case Some(s) => ArrayObjectsBound(s, false, MAX_REQUESTS);
  }

  /** What is still to be collected at a cursor: inside an object, that object and then the rest. */
  ghost function Remaining(json: string, i: nat, depth: nat, inString: bool, start: nat, n: nat): seq<string>
    requires i <= |json| && start <= |json| && n > 0
  {
    if depth == 0 then ArrayObjects(json[i..], inString, n)
    else match SkipObject(json[i..], depth, inString)
         case None => []
         case Some(rest) =>
           (if start <= |json| - |rest| then [json[start..|json| - |rest|]] else []) + ArrayObjects(rest, false, n - 1)
  }

  /** The walk's cursor, brace depth, string flag and start of the object being collected. */
  datatype Walk = Walk(i: nat, depth: nat, inString: bool, start: nat)

  /** One character of the walk. */
  function Next(json: string, w: Walk): Walk
    requires w.i < |json|
  {
    var c := json[w.i];
    if w.inString then w.(i := if c == '\\' then w.i + 2 else w.i + 1, inString := c != '"')
    else if c == '"' then w.(i := w.i + 1, inString := true)
    else if c == '{' then w.(i := w.i + 1, depth := w.depth + 1, start := if w.depth == 0 then w.i else w.start)
    else if c == '}' && w.depth > 0 then w.(i := w.i + 1, depth := w.depth - 1)
    else w.(i := w.i + 1)
  }

  predicate Completes(json: string, w: Walk)
    requires w.i < |json|
  {
    !w.inString && json[w.i] == '}' && w.depth == 1
  }

  predicate Ends(json: string, w: Walk)
    requires w.i < |json|
  {
    !w.inString && json[w.i] == ']' && w.depth == 0
  }

  ghost function Left(json: string, w: Walk, n: nat): seq<string>
    requires w.start <= |json| && n > 0
  {
    if w.i <= |json| then Remaining(json, w.i, w.depth, w.inString, w.start, n) else []
  }

  lemma Advance(json: string, w: Walk, n: nat)
    requires w.i < |json| && w.start <= w.i && n > 0
    ensures Ends(json, w) ==> Left(json, w, n) == []
    ensures Completes(json, w) ==> Left(json, w, n) == [json[w.start..w.i + 1]] + ArrayObjects(json[w.i + 1..], false, n - 1)
    ensures !Ends(json, w) && !Completes(json, w) ==> Left(json, w, n) == Left(json, Next(json, w), n)
  {
    if w.depth > 0 {
      AdvanceInside(json, w, n);
    } else {
      AdvanceOutside(json, w, n);
    }
  }

  lemma AdvanceInside(json: string, w: Walk, n: nat)
    requires w.i < |json| && w.start <= w.i && n > 0 && w.depth > 0
    ensures Completes(json, w) ==> Left(json, w, n) == [json[w.start..w.i + 1]] + ArrayObjects(json[w.i + 1..], false, n - 1)
    ensures !Completes(json, w) ==> Left(json, w, n) == Left(json, Next(json, w), n)
  {
    SkipStep(json, w);
    if Completes(json, w) {
      assert |json| - |json[w.i + 1..]| == w.i + 1;
    } else {
      assert Next(json, w).depth > 0 && Next(json, w).start == w.start;
    }
  }

  lemma SkipStep(json: string, w: Walk)
    requires w.i < |json| && w.depth > 0
    ensures var r := SkipObject(json[w.i..], w.depth, w.inString);
            var next := Next(json, w);
            if Completes(json, w) then r == Some(json[w.i + 1..])
            else if next.i > |json| then r == None
            else r == SkipObject(json[next.i..], next.depth, next.inString)
  {
    var s := json[w.i..];
    assert s[1..] == json[w.i + 1..];
    if w.i + 1 < |json| {
      assert s[2..] == json[w.i + 2..];
    }
  }

  lemma AdvanceOutside(json: string, w: Walk, n: nat)
    requires w.i < |json| && w.start <= w.i && n > 0 && w.depth == 0
    ensures Ends(json, w) ==> Left(json, w, n) == []
    ensures !Ends(json, w) ==> Left(json, w, n) == Left(json, Next(json, w), n)
  {
    var s := json[w.i..];
    assert s[1..] == json[w.i + 1..];
    if w.i + 1 < |json| {
      assert s[2..] == json[w.i + 2..];
    }
    if !w.inString && json[w.i] == '{' {
      EnterObject(json, w.i, n);
    }
  }

  lemma EnterObject(json: string, i: nat, n: nat)
    requires i < |json| && json[i] == '{' && n > 0
    ensures Remaining(json, i, 0, false, i, n) == Remaining(json, i + 1, 1, false, i, n)
  {
    var s := json[i..];
    assert s[1..] == json[i + 1..];
    var r := SkipObject(s, 0, false);
    assert r == SkipObject(s[1..], 1, false);
    if r.Some? {
      assert s[..|s| - |r.value|] == json[i..|json| - |r.value|];
    }
  }

  /** The objects the walk collects from a position on. */
  function Collect(json: string, w: Walk, n: nat): (objects: seq<string>)
    requires w.start <= w.i
    ensures |objects| <= n
    decreases |json| - w.i
  {
    if w.i >= |json| || n == 0 || Ends(json, w) then []
    else if Completes(json, w) then [json[w.start..w.i + 1]] + Collect(json, Next(json, w), n - 1)
    else Collect(json, Next(json, w), n)
  }

  lemma {:induction false} CollectIsLeft(json: string, w: Walk, n: nat)
    requires w.start <= |json| && w.start <= w.i && n > 0
    ensures Collect(json, w, n) == Left(json, w, n)
    decreases |json| - w.i
  {
    if w.i < |json| {
      Advance(json, w, n);
      if Completes(json, w) {
        if n > 1 {
          CollectIsLeft(json, Next(json, w), n - 1);
        }
      } else if !Ends(json, w) {
        CollectIsLeft(json, Next(json, w), n);
      }
    }
  }

  /** Isolates the top-level objects of the array from its bracket on. */
  method CollectObjects(json: string, at: nat) returns (objects: seq<string>)
    ensures objects == Collect(json, Walk(at, 0, false, at), MAX_REQUESTS)
  {
    objects := [];
    ghost var goal := Collect(json, Walk(at, 0, false, at), MAX_REQUESTS);
    var depth: nat, inString: bool, start: nat, i: nat := 0, false, at, at;
    assert objects + goal == goal;
    while i < |json|
      invariant start <= i && |objects| < MAX_REQUESTS
      invariant goal == objects + Collect(json, Walk(i, depth, inString, start), MAX_REQUESTS - |objects|)
    {
      ghost var w := Walk(i, depth, inString, start);
      var c := json[i];
      if inString {
        if c == '\\' {
          i := i + 1;
        } else if c == '"' {
          inString := false;
        }
      } else if c == '"' {
        inString := true;
      } else if c == '{' {
        if depth == 0 {
          start := i;
        }
        depth := depth + 1;
      } else if c == '}' {
        if depth > 0 {
          depth := depth - 1;
          if depth == 0 {
            Assoc(objects, [json[start..i + 1]], Collect(json, Next(json, w), MAX_REQUESTS - |objects| - 1));
            objects := objects + [json[start..i + 1]];
            if |objects| >= MAX_REQUESTS {
              break;
            }
          }
        }
      } else if c == ']' && depth == 0 {
        break;
      }
      i := i + 1;
      assert Walk(i, depth, inString, start) == Next(json, w);
    }
    assert objects + [] == objects;
  }

  method FindPendingRequests(json: string) returns (out: seq<PullRequest>)
    ensures out == Pending(json)
    ensures |out| <= 32
  {
    var at := FindValueStart(json, "pendingRequests");
    if at < 0 || at >= |json| || json[at] != '[' {
      return [];
    }
    CollectIsLeft(json, Walk(at, 0, false, at), MAX_REQUESTS);
    var objects := CollectObjects(json, at);
    out := ExtractEach(objects);
  }

  method ExtractEach(objects: seq<string>) returns (out: seq<PullRequest>)
    ensures out == ExtractAll(objects)
  {
    out := [];
    for i := 0 to |objects|
      invariant out == ExtractAll(objects)[..i]
    {
      var request := ExtractRequest(objects[i]);
      out := out + [request];
    }
  }

  // ------------------------------------------------- pull requests on printed acks

  /**
   * The objects the walk meets in an array: those among its elements, in order - but the walk does
   * not nest brackets, so from the first element that is an array on, those in that one only.
   */
  function Met(xs: seq<Json>): seq<Json> {
    if xs == [] then []
    else match xs[0]
         case JObject(_) => [xs[0]] + Met(xs[1..])
         case JArray(ys) => Met(ys)
         case JString(_) => Met(xs[1..])
         case JToken(_) => Met(xs[1..])
  }

  predicate AllObjects(xs: seq<Json>) { forall i :: 0 <= i < |xs| ==> xs[i].JObject? }

  lemma {:induction false} MetIsAll(xs: seq<Json>)
    requires AllObjects(xs)
    ensures Met(xs) == xs
  {
    if xs != [] {
      MetIsAll(xs[1..]);
    }
  }

  /** Texts of the first `n` elements. */
  function FirstTexts(xs: seq<Json>, n: nat): seq<string> {
    if xs == [] || n == 0 then [] else [Print(xs[0])] + FirstTexts(xs[1..], n - 1)
  }

  lemma {:induction false} WalkPastToken(x: string, tail: string, n: nat)
    requires NoneOf(x, {'"', '{', ']'})
    ensures ArrayObjects(x + tail, false, n) == ArrayObjects(tail, false, n)
  {
    if x == [] {
      assert x + tail == tail;
    } else {
      assert (x + tail)[1..] == x[1..] + tail;
      WalkPastToken(x[1..], tail, n);
    }
  }

  lemma {:induction false} WalkPastPlain(x: string, tail: string, n: nat)
    requires NoneOf(x, {'"', '\\'})
    ensures ArrayObjects(x + tail, true, n) == ArrayObjects(tail, true, n)
  {
    if x == [] {
      assert x + tail == tail;
    } else {
      assert (x + tail)[1..] == x[1..] + tail;
      WalkPastPlain(x[1..], tail, n);
    }
  }

  lemma WalkPastEscaped(c: char, tail: string, n: nat)
    ensures ArrayObjects(EscapeChar(c) + tail, true, n) == ArrayObjects(tail, true, n)
  {
    var e := EscapeChar(c);
    if e[0] != '\\' {
      assert (e + tail)[1..] == tail;
    } else if |e| == 2 {
      assert (e + tail)[2..] == tail;
    } else {
      var a, b := HexDigit(c as int / 16), HexDigit(c as int % 16);
      assert (e + tail)[2..] == ['0', '0', a, b] + tail;
      WalkPastPlain(['0', '0', a, b], tail, n);
    }
  }

  lemma {:induction false} WalkPastText(s: string, rest: string, n: nat)
    ensures ArrayObjects(Escape(s) + "\"" + rest, true, n) == ArrayObjects(rest, false, n)
  {
    if s == [] {
      assert (Escape(s) + "\"" + rest)[1..] == rest;
    } else {
      EscapedHead(s, rest);
      WalkPastEscaped(s[0], Escape(s[1..]) + "\"" + rest, n);
      WalkPastText(s[1..], rest, n);
    }
  }

  lemma WalkPastScalar(x: Json, rest: string, n: nat)
    requires WellFormed(x) && (x.JString? || x.JToken?)
    ensures ArrayObjects(Print(x) + rest, false, n) == ArrayObjects(rest, false, n)
  {
    match x
    case JString(text) =>
      assert (Literal(text) + rest)[1..] == Escape(text) + "\"" + rest;
      WalkPastText(text, rest, n);
    case JToken(token) =>
      TokenChars(token);
      WalkPastToken(token, rest, n);
  }

  lemma {:induction false} ObjectsOfItems(xs: seq<Json>, rest: string, n: nat)
    requires WellFormedItems(xs)
    ensures ArrayObjects(PrintItems(xs) + ("]" + rest), false, n) == FirstTexts(Met(xs), n)
    decreases xs, n
  {
    var end := "]" + rest;
    if xs == [] {
      assert PrintItems(xs) + end == end;
    } else if n > 0 {
      var more := PrintItems(xs[1..]) + end;
      var next := if |xs| == 1 then end else "," + more;
      Chain(Print(xs[0]), PrintItems(xs[1..]), |xs| == 1, end);
      assert |xs| > 1 ==> next[1..] == more;
      assert |xs| == 1 ==> xs[1..] == [];
      match xs[0]
      case JObject(ms) =>
        ObjectsStep(ms, next, n);
        ObjectsOfRest(xs, rest, next, n - 1);
      case JArray(ys) =>
        var inner := PrintItems(ys) + ("]" + next);
        Assoc("[" + PrintItems(ys), "]", next);
        Assoc("[", PrintItems(ys), "]" + next);
        assert ("[" + inner)[1..] == inner;
        ObjectsOfItems(ys, next, n);
      case _ =>
        WalkPastScalar(xs[0], next, n);
        ObjectsOfRest(xs, rest, next, n);
    }
  }

  /** Behind the first element: the comma and the elements after it, or the end. */
  lemma {:induction false} ObjectsOfRest(xs: seq<Json>, rest: string, next: string, n: nat)
    requires xs != [] && WellFormedItems(xs)
    requires next == if |xs| == 1 then "]" + rest else "," + (PrintItems(xs[1..]) + ("]" + rest))
    ensures ArrayObjects(next, false, n) == FirstTexts(Met(xs[1..]), n)
    decreases xs[1..], n + 1
  {
    if |xs| == 1 {
      assert xs[1..] == [];
    } else {
      assert next[1..] == PrintItems(xs[1..]) + ("]" + rest);
      ObjectsOfItems(xs[1..], rest, n);
    }
  }

  lemma ObjectsStep(ms: seq<Member>, next: string, n: nat)
    requires WellFormedMembers(ms) && n > 0
    ensures ArrayObjects(Print(JObject(ms)) + next, false, n) == [Print(JObject(ms))] + ArrayObjects(next, false, n - 1)
  {
    var s := Print(JObject(ms)) + next;
    ObjectAtPrint(ms, next);
    assert s[0] == '{';
    assert s[..|s| - |next|] == Print(JObject(ms));
  }

  /** The request a printed object holds. */
  function RequestOf(x: Json): PullRequest {
    PullRequest(TextOf(Find(x, "requestId")), TextOf(Find(x, "targetType")), TextOf(Find(x, "targetValue")),
                TextOf(Find(x, "fulfillNonce")), NumberOf(Find(x, "nonceExpiry")))
  }

  function NumberOf(v: Option<Json>): int {
    match v
    case Some(JToken(x)) => PlainInteger(x).GetOr(0)
    case _ => 0
  }

  lemma TextFieldOfPrint(x: Json, key: string)
    requires WellFormed(x) && PlainKey(key)
    ensures StringField(Print(x), key).GetOr("") == TextOf(Find(x, key))
  {
    StringFieldOfPrint(x, key);
  }

  lemma KeysArePlain()
    ensures PlainKey("requestId") && PlainKey("targetType") && PlainKey("targetValue") && PlainKey("fulfillNonce")
    ensures PlainKey("nonceExpiry")
  {
  }

  lemma ExtractOfPrint(x: Json)
    requires WellFormed(x)
    ensures Extract(Print(x)) == RequestOf(x)
  {
    KeysArePlain();
    TextFieldOfPrint(x, "requestId");
    TextFieldOfPrint(x, "targetType");
    TextFieldOfPrint(x, "targetValue");
    TextFieldOfPrint(x, "fulfillNonce");
    NumberFieldOfPrint(x);
  }

  lemma NumberFieldOfPrint(x: Json)
    requires WellFormed(x)
    ensures IntField(Print(x), "nonceExpiry").GetOr(0) == NumberOf(Find(x, "nonceExpiry"))
  {
    KeysArePlain();
    IntFieldExactly(x, "nonceExpiry");
  }

  lemma {:induction false} FirstTextsAt(xs: seq<Json>, n: nat)
    ensures |FirstTexts(xs, n)| == Min(|xs|, n)
    ensures forall i :: 0 <= i < Min(|xs|, n) ==> FirstTexts(xs, n)[i] == Print(xs[i])
  {
    if xs != [] && n > 0 {
      FirstTextsAt(xs[1..], n - 1);
    }
  }

  lemma {:induction false} MetWellFormed(xs: seq<Json>, i: nat)
    requires WellFormedItems(xs) && i < |Met(xs)|
    ensures WellFormed(Met(xs)[i])
    decreases xs
  {
    match xs[0]
    case JObject(_) =>
      if i > 0 {
        MetWellFormed(xs[1..], i - 1);
      }
    case JArray(ys) => MetWellFormed(ys, i);
    case _ => MetWellFormed(xs[1..], i);
  }

  /** From any printed ack, the first 32 objects the walk meets in its request array come out in order. */
  lemma PendingOfPrint(t: Json, xs: seq<Json>)
    requires WellFormed(t) && Find(t, "pendingRequests") == Some(JArray(xs))
    ensures |Pending(Print(t))| == Min(|Met(xs)|, 32)
    ensures forall i :: 0 <= i < Min(|Met(xs)|, 32) ==> Pending(Print(t))[i] == RequestOf(Met(xs)[i])
  {
    var tail := ScanDocument(t, "pendingRequests");
    var s := Print(JArray(xs)) + tail;
    ObjectsOfArray(xs, tail);
    FirstTextsAt(Met(xs), MAX_REQUESTS);
    forall i | 0 <= i < Min(|Met(xs)|, MAX_REQUESTS)
      ensures Extract(FirstTexts(Met(xs), MAX_REQUESTS)[i]) == RequestOf(Met(xs)[i])
    {
      MetWellFormed(xs, i);
      ExtractOfPrint(Met(xs)[i]);
    }
  }

  lemma ObjectsOfArray(xs: seq<Json>, tail: string)
    requires WellFormedItems(xs)
    ensures var s := Print(JArray(xs)) + tail;
            s[0] == '[' && ArrayObjects(s, false, MAX_REQUESTS) == FirstTexts(Met(xs), MAX_REQUESTS)
  {
    Assoc("[" + PrintItems(xs), "]", tail);
    Assoc("[", PrintItems(xs), "]" + tail);
    var body := PrintItems(xs) + ("]" + tail);
    assert ("[" + body)[1..] == body;
    ObjectsOfItems(xs, tail, MAX_REQUESTS);
  }

  /** A pull request as the server prints it. */
  function RequestMembers(r: PullRequest): seq<Member> {
    [Member("requestId", JString(r.requestId)), Member("targetType", JString(r.targetType)),
     Member("targetValue", JString(r.targetValue)), Member("fulfillNonce", JString(r.fulfillNonce)),
     Member("nonceExpiry", JToken(IntText(r.nonceExpiry)))]
  }

  lemma NotHit(name: string, key: string)
    requires name != key && (|name| <= |key| || name[|name| - |key| - 1] != '"')
    ensures !Hits(name, key)
  {
    var at := |name| - |key| - 1;
    assert at >= 0 ==> name[at..][0] == name[at];
  }

  lemma RequestKeys(r: PullRequest, i: nat)
    requires i < 5
    ensures PlainKey(RequestMembers(r)[i].name)
    ensures forall j :: 0 <= j < i ==> !Hits(RequestMembers(r)[j].name, RequestMembers(r)[i].name)
  {
    var ms := RequestMembers(r);
    forall j | 0 <= j < i
      ensures !Hits(ms[j].name, ms[i].name)
    {
      DistinctNames(r, j, i);
      NotHit(ms[j].name, ms[i].name);
    }
  }

  lemma DistinctNames(r: PullRequest, j: nat, i: nat)
    requires j < i < 5
    ensures var a, b := RequestMembers(r)[j].name, RequestMembers(r)[i].name;
            a != b && (|a| <= |b| || a[|a| - |b| - 1] != '"')
  {
    var ms := RequestMembers(r);
    var lengths := [9, 10, 11, 12, 11];
    assert forall k :: 0 <= k < 5 ==> |ms[k].name| == lengths[k];
    assert ms[2].name[0] == 't' && ms[4].name[0] == 'n';
    assert ms[3].name[0] == 'f';
  }

  lemma RequestWellFormed(r: PullRequest)
    ensures WellFormed(JObject(RequestMembers(r)))
  {
    var ms := RequestMembers(r);
    Payloads.IntTextIsNumber(r.nonceExpiry);
    assert ms == ms[..4] + [ms[4]];
    SessionMarkers.StringsWellFormed(ms[..4]);
    assert [ms[4]][1..] == [];
    Payloads.FindAppend(ms[..4], [ms[4]], "");
  }

  /** A printed request whose expiry is below 10^18 in magnitude is read back unchanged. */
  lemma RequestRoundTrip(r: PullRequest)
    requires -INT_RANGE < r.nonceExpiry < INT_RANGE
    ensures RequestOf(JObject(RequestMembers(r))) == r
  {
    var ms := RequestMembers(r);
    forall i | 0 <= i < 5
      ensures Find(JObject(ms), ms[i].name) == Some(ms[i].value)
    {
      RequestKeys(r, i);
      SessionMarkers.FindScalar(ms, ms[i].name, i);
    }
    RequestWellFormed(r);
    RequestKeys(r, 4);
    IntFieldOfPrint(JObject(ms), "nonceExpiry", r.nonceExpiry);
    NumberFieldOfPrint(JObject(ms));
    assert ms[0].name == "requestId" && ms[1].name == "targetType" && ms[2].name == "targetValue" && ms[3].name == "fulfillNonce";
  }

  function RequestTrees(rs: seq<PullRequest>): (xs: seq<Json>)
    ensures |xs| == |rs|
  {
    seq(|rs|, i requires 0 <= i < |rs| => JObject(RequestMembers(rs[i])))
  }

  /** Printed requests of any strings: exactly the first 32 of them, in order. */
  lemma PendingRoundTrip(t: Json, rs: seq<PullRequest>)
    requires forall i :: 0 <= i < |rs| ==> -1_000_000_000_000_000_000 < rs[i].nonceExpiry < 1_000_000_000_000_000_000
    requires WellFormed(t)
    requires Find(t, "pendingRequests") == Some(JArray(RequestTrees(rs)))
    ensures Pending(Print(t)) == rs[..Min(|rs|, 32)]
  {
    var xs, out := RequestTrees(rs), Pending(Print(t));
    MetIsAll(xs);
    PendingOfPrint(t, xs);
    forall i | 0 <= i < |out|
      ensures out[i] == rs[i]
    {
      TreeIsRequest(rs, i);
    }
  }

  lemma TreeIsRequest(rs: seq<PullRequest>, i: nat)
    requires i < |rs| && -1_000_000_000_000_000_000 < rs[i].nonceExpiry < 1_000_000_000_000_000_000
    ensures RequestOf(RequestTrees(rs)[i]) == rs[i]
  {
    RequestRoundTrip(rs[i]);
  }
}
