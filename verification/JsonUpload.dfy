/** The log-upload descriptor of an ingest response (find_log_upload of src/json_scan.cpp). */
module JsonUpload {
  import opened Base
  import opened JsonText
  import opened JsonTree
  import opened JsonFields

  datatype Field = Field(name: string, value: string)

  datatype LogUpload = LogUpload(url: string, method': string, fields: seq<Field>)

  const MAX_RESPONSE := 131072
  const MAX_FIELDS := 32
  const MAX_NAME := 128
  const MAX_VALUE := 16384

  predicate NameChar(c: char) {
    'a' <= c <= 'z' || 'A' <= c <= 'Z' || '0' <= c <= '9' || c == '_' || c == '.' || c == '-'
  }

  predicate AllowedName(n: string) {
    0 < |n| <= MAX_NAME && n != "file" && forall i :: 0 <= i < |n| ==> NameChar(n[i])
  }

  predicate Fresh(acc: seq<Field>, name: string) { forall i :: 0 <= i < |acc| ==> acc[i].name != name }

  /** Allowed names, all different, bounded values, at most 32 of them. */
  predicate Wordlike(c: char) { 'a' <= c <= 'z' || 'A' <= c <= 'Z' || '0' <= c <= '9' || c in {'_', '.', '-'} }

  predicate Acceptable(fs: seq<Field>) {
    && |fs| <= 32
    && (forall i :: 0 <= i < |fs| ==> 0 < |fs[i].name| <= 128 && fs[i].name != "file" && |fs[i].value| <= 16384)
    && (forall i, k :: 0 <= i < |fs| && 0 <= k < |fs[i].name| ==> Wordlike(fs[i].name[k]))
    && (forall i, j :: 0 <= i < j < |fs| ==> fs[i].name != fs[j].name)
  }

  /** A name, a colon and a value, each after optional whitespace, and what follows them. */
  function ReadPair(s: string): (r: Option<(Field, string)>)
    ensures r.Some? ==> |r.value.1| < |s|
  {
    match StringAt(SkipWs(s))
    case None => None
    case Some((name, afterName)) =>
      var colon := SkipWs(afterName);
      if colon == [] || colon[0] != ':' then None
      else match StringAt(SkipWs(colon[1..]))
           case None => None
           case Some((value, afterValue)) => Some((Field(name, value), SkipWs(afterValue)))
  }

  predicate Acceptance(acc: seq<Field>, f: Field) {
    AllowedName(f.name) && |f.value| <= MAX_VALUE && |acc| < MAX_FIELDS && Fresh(acc, f.name)
  }

  /** The fields of an object from behind its brace or a comma on; any defect refuses them all. */
  function ReadFields(s: string, acc: seq<Field>): (r: Option<seq<Field>>)
    ensures r.Some? ==> |acc| < |r.value| && r.value[..|acc|] == acc
    decreases |s|
  {
    match ReadPair(s)
    case None => None
    case Some((f, rest)) =>
      if !Acceptance(acc, f) || rest == [] then None
      else if rest[0] == '}' then Some(acc + [f])
      else if rest[0] != ',' then None
      else ReadFields(rest[1..], acc + [f])
  }

  /** The form fields of a POST descriptor. */
  function PostFields(o: string): Option<seq<Field>> {
    match ObjectField(o, "fields")
    case None => None
    case Some(f) => if f == [] then None else ReadFields(f[1..], [])
  }

  /** The upload a descriptor object asks for. */
  function UploadIn(o: string): Option<LogUpload> {
    var url, verb := StringField(o, "url").GetOr(""), StringField(o, "method").GetOr("");
    if url == "" then None
    else if verb == "PUT" then Some(LogUpload(url, verb, []))
    else if verb != "POST" || PostFields(o).None? then None
    else Some(LogUpload(url, verb, PostFields(o).value))
  }

  function UploadOf(json: string): Option<LogUpload> {
    if |json| > MAX_RESPONSE then None
    else match ObjectField(json, "logUpload")
         case None => None
         case Some(o) => UploadIn(o)
  }

  method IsAllowedName(n: string) returns (ok: bool)
    ensures ok == AllowedName(n)
  {
    if n == "" || |n| > MAX_NAME || n == "file" {
      return false;
    }
    for i := 0 to |n|
      invariant forall k :: 0 <= k < i ==> NameChar(n[k])
    {
      if !NameChar(n[i]) {
        return false;
      }
    }
    return true;
  }

  method IsFresh(acc: seq<Field>, name: string) returns (ok: bool)
    ensures ok == Fresh(acc, name)
  {
    for i := 0 to |acc|
      invariant forall k :: 0 <= k < i ==> acc[k].name != name
    {
      if acc[i].name == name {
        return false;
      }
    }
    return true;
  }

  /** Reads one pair at `start`: the field and the position after it, or -1. */
  method ScanPair(text: string, start: nat) returns (f: Field, next: int)
    requires start <= |text|
    ensures next < 0 ==> ReadPair(text[start..]) == None
    ensures next >= 0 ==> start < next <= |text| && ReadPair(text[start..]) == Some((f, text[next..]))
  {
    f := Field("", "");
    var cursor := SkipSpace(text, start);
    var name, afterName := ReadString(text, cursor);
    if name == None {
      return f, -1;
    }
    cursor := SkipSpace(text, afterName);
    if cursor >= |text| || text[cursor] != ':' {
      return f, -1;
    }
    assert text[cursor..][1..] == text[cursor + 1..];
    cursor := SkipSpace(text, cursor + 1);
    var value, afterValue := ReadString(text, cursor);
    if value == None {
      return f, -1;
    }
    f := Field(name.value, value.value);
    next := SkipSpace(text, afterValue);
  }

  method ReadFormFields(text: string) returns (r: Option<seq<Field>>)
    requires text != []
    ensures r == ReadFields(text[1..], [])
  {
    var cursor := 1;
    var fields := [];
    while true
      invariant 1 <= cursor <= |text|
      invariant ReadFields(text[1..], []) == ReadFields(text[cursor..], fields)
      decreases |text| - cursor
    {
      var f, next := ScanPair(text, cursor);
      if next < 0 {
        return None;
      }
      var allowed := IsAllowedName(f.name);
      var fresh' := IsFresh(fields, f.name);
      if !allowed || |f.value| > MAX_VALUE || |fields| >= MAX_FIELDS || !fresh' || next >= |text| {
        return None;
      }
      if text[next] == '}' {
        return Some(fields + [f]);
      }
      if text[next] != ',' {
        return None;
      }
      assert text[next..][1..] == text[next + 1..];
      fields := fields + [f];
      cursor := next + 1;
    }
  }

  method FindLogUpload(json: string) returns (r: Option<LogUpload>)
    ensures r == UploadOf(json)
  {
    if |json| > MAX_RESPONSE {
      return None;
    }
    var o := FindObjectField(json, "logUpload");
    if o == None {
      return None;
    }
    var url := FindStringField(o.value, "url");
    var verb := FindStringField(o.value, "method");
    if url.GetOr("") == "" {
      return None;
    }
    if verb.GetOr("") == "PUT" {
      return Some(LogUpload(url.GetOr(""), "PUT", []));
    }
    if verb.GetOr("") != "POST" {
      return None;
    }
    var f := FindObjectField(o.value, "fields");
    if f == None || f.value == [] {
      return None;
    }
    var fields := ReadFormFields(f.value);
    if fields == None {
      return None;
    }
    return Some(LogUpload(url.GetOr(""), "POST", fields.value));
  }

  // ------------------------------------------------- what is accepted

  lemma {:induction false} ReadFieldsAcceptable(s: string, acc: seq<Field>)
    requires Acceptable(acc)
    ensures ReadFields(s, acc).Some? ==> Acceptable(ReadFields(s, acc).value)
    decreases |s|
  {
    match ReadPair(s)
    case None =>
    case Some((f, rest)) =>
      if Acceptance(acc, f) && rest != [] && rest[0] == ',' {
        ReadFieldsAcceptable(rest[1..], acc + [f]);
      }
  }

  /** For any response at all: an accepted descriptor is a plain PUT or a complete POST form. */
  lemma AcceptedUploadIsSound(json: string)
    requires UploadOf(json).Some?
    ensures var u := UploadOf(json).value;
            && |json| <= 131072 && u.url != "" && (u.method' == "PUT" || u.method' == "POST")
            && (u.method' == "PUT" ==> u.fields == [])
            && (u.method' == "POST" ==> 1 <= |u.fields| <= 32 && Acceptable(u.fields))
  {
    var o := ObjectField(json, "logUpload").value;
    if UploadOf(json).value.method' == "POST" {
      ReadFieldsAcceptable(ObjectField(o, "fields").value[1..], []);
    }
  }

  function FieldsOf(ms: seq<Member>): (fs: seq<Field>)
    requires forall i :: 0 <= i < |ms| ==> ms[i].value.JString?
  {
    seq(|ms|, i requires 0 <= i < |ms| => Field(ms[i].name, ms[i].value.text))
  }

  /** A pair is read whatever whitespace stands around its name, its colon and its value. */
  lemma ReadPairSpaced(w: string, name: string, w1: string, w2: string, value: string, w3: string, next: string)
    requires Blank(w) && Blank(w1) && Blank(w2) && Blank(w3) && next != [] && !IsWs(next[0])
    ensures ReadPair(w + (Literal(name) + (w1 + (":" + (w2 + (Literal(value) + (w3 + next))))))) == Some((Field(name, value), next))
  {
    var afterValue := w3 + next;
    var atValue := Literal(value) + afterValue;
    var colon := ":" + (w2 + atValue);
    SkipBlank(w, Literal(name) + (w1 + colon));
    LiteralText(name, w1 + colon);
    SkipBlank(w1, colon);
    assert SkipWs(colon) == colon && colon[1..] == w2 + atValue;
    SkipBlank(w2, atValue);
    LiteralText(value, afterValue);
    SkipBlank(w3, next);
    assert SkipWs(next) == next;
  }

  lemma ReadPairPrint(m: Member, next: string)
    requires WellFormed(m.value) && next != [] && !IsWs(next[0])
    ensures ReadPair(PrintMember(m) + next) == if m.value.JString? then Some((Field(m.name, m.value.text), next)) else None
  {
    var value := Print(m.value) + next;
    MemberText(Literal(m.name), Print(m.value), next);
    LiteralText(m.name, ":" + value);
    PrintHead(m.value, next);
    StringAtPrint(m.value, next);
    assert (":" + value)[1..] == value;
    assert SkipWs(":" + value) == ":" + value;
    assert SkipWs(next) == next;
  }

  lemma LiteralText(s: string, rest: string)
    ensures StringAt(Literal(s) + rest) == Some((s, rest))
    ensures SkipWs(Literal(s) + rest) == Literal(s) + rest
  {
    assert (Literal(s) + rest)[1..] == Escape(s) + "\"" + rest;
    UnescapeEscape(s, rest);
  }

  predicate AllStrings(ms: seq<Member>) { forall i :: 0 <= i < |ms| ==> ms[i].value.JString? }

  /** The members are a form: at least one, every value a string, and all of them acceptable. */
  predicate IsForm(ms: seq<Member>) { ms != [] && AllStrings(ms) && Acceptable(FieldsOf(ms)) }

  lemma AcceptanceIs(acc: seq<Field>, f: Field, more: seq<Field>)
    requires Acceptable(acc)
    ensures Acceptance(acc, f) <==> Acceptable(acc + [f])
    ensures Acceptable(acc + [f] + more) ==> Acceptable(acc + [f])
  {
    var all, long := acc + [f], acc + [f] + more;
    assert all[|acc|] == f && forall i :: 0 <= i < |acc| ==> all[i] == acc[i];
    assert forall i :: 0 <= i < |all| ==> long[i] == all[i];
    if Acceptable(all) {
      assert forall k :: 0 <= k < |f.name| ==> Wordlike(all[|acc|].name[k]);
    }
  }

  lemma FieldsCons(ms: seq<Member>, acc: seq<Field>)
    requires ms != [] && ms[0].value.JString? && Acceptable(acc)
    ensures var f := Field(ms[0].name, ms[0].value.text);
            && (AllStrings(ms) <==> AllStrings(ms[1..]))
            && (AllStrings(ms) ==> acc + FieldsOf(ms) == acc + [f] + FieldsOf(ms[1..]))
            && (Acceptance(acc, f) ==> Acceptable(acc + [f]))
            && (AllStrings(ms) && Acceptable(acc + FieldsOf(ms)) ==> Acceptance(acc, f))
  {
    assert forall i :: 1 <= i < |ms| ==> ms[i] == ms[1..][i - 1];
    AcceptanceIs(acc, Field(ms[0].name, ms[0].value.text), if AllStrings(ms) then FieldsOf(ms[1..]) else []);
  }

  /** One pair of the list: its field is taken on if it is acceptable, and the rest decides about the rest. */
  lemma ReadFieldsStep(ms: seq<Member>, acc: seq<Field>)
    requires WellFormedMembers(ms) && ms != []
    ensures ReadFields(PrintMembers(ms) + "}", acc) ==
            if !ms[0].value.JString? then None
            else
              var f := Field(ms[0].name, ms[0].value.text);
              if !Acceptance(acc, f) then None
              else if |ms| == 1 then Some(acc + [f]) else ReadFields(PrintMembers(ms[1..]) + "}", acc + [f])
  {
    hide Acceptance;
    var more := PrintMembers(ms[1..]) + "}";
    var next := if |ms| == 1 then "}" else "," + more;
    assert |ms| > 1 ==> next[1..] == more;
    Chain(PrintMember(ms[0]), PrintMembers(ms[1..]), |ms| == 1, "}");
    ReadPairPrint(ms[0], next);
  }

  lemma {:induction false} ReadFieldsPrint(ms: seq<Member>, acc: seq<Field>)
    requires WellFormedMembers(ms) && Acceptable(acc)
    ensures ReadFields(PrintMembers(ms) + "}", acc)
         == if ms != [] && AllStrings(ms) && Acceptable(acc + FieldsOf(ms)) then Some(acc + FieldsOf(ms)) else None
    decreases |ms|
  {
    hide Acceptance, Acceptable, ReadPair;
    if ms == [] {
      NoPair();
    } else {
      ReadFieldsStep(ms, acc);
      if ms[0].value.JString? {
        var f := Field(ms[0].name, ms[0].value.text);
        FieldsCons(ms, acc);
        if |ms| == 1 {
          assert ms[1..] == [] && AllStrings([]) && FieldsOf([]) == [] && acc + [f] + [] == acc + [f];
        } else if Acceptance(acc, f) {
          ReadFieldsPrint(ms[1..], acc + [f]);
        }
      }
    }
  }

  lemma NoPair()
    ensures PrintMembers([]) + "}" == "}" && ReadPair("}") == None
  {
    assert "}"[0] == '}' && !IsWs('}');
    assert SkipWs("}") == "}" && StringAt("}") == None;
    assert PrintMembers([]) == "";
  }

  lemma FormOfPrint(fs: seq<Member>)
    requires WellFormedMembers(fs)
    ensures ReadFields(PrintMembers(fs) + "}", []) == if IsForm(fs) then Some(FieldsOf(fs)) else None
  {
    ReadFieldsPrint(fs, []);
    if AllStrings(fs) {
      assert [] + FieldsOf(fs) == FieldsOf(fs);
    }
  }

  /** The upload a descriptor object asks for, by its members. */
  function AskedIn(o: Json): Option<LogUpload> {
    var url, verb := TextOf(Find(o, "url")), TextOf(Find(o, "method"));
    if url == "" then None
    else if verb == "PUT" then Some(LogUpload(url, "PUT", []))
    else if verb == "POST" then
      match Find(o, "fields")
      case Some(JObject(fs)) => if IsForm(fs) then Some(LogUpload(url, "POST", FieldsOf(fs))) else None
      case _ => None
    else None
  }

  /**
   * What any printed response grants: nothing over 128 KiB; a PUT with no fields; a POST with all its
   * fields in order, exactly when they are acceptable strings.
   */
  lemma UploadOfPrint(t: Json)
    requires WellFormed(t)
    ensures UploadOf(Print(t)) ==
            match Find(t, "logUpload")
            case Some(JObject(o)) => if |Print(t)| <= 131072 then AskedIn(JObject(o)) else None
            case _ => None
  {
    ObjectFieldOfPrint(t, "logUpload");
    var tail := ScanDocument(t, "logUpload");
    if Find(t, "logUpload").Some? && Find(t, "logUpload").value.JObject? {
      UploadInPrint(Find(t, "logUpload").value);
    }
  }

  lemma UploadInPrint(o: Json)
    requires WellFormed(o)
    ensures UploadIn(Print(o)) == AskedIn(o)
  {
    hide Print, StringField, PostFields, IsForm, Find;
    StringFieldOfPrint(o, "url");
    StringFieldOfPrint(o, "method");
    PostFieldsPrint(o);
  }

  lemma PostFieldsPrint(o: Json)
    requires WellFormed(o)
    ensures PostFields(Print(o)) ==
            match Find(o, "fields")
            case Some(JObject(fs)) => if IsForm(fs) then Some(FieldsOf(fs)) else None
            case _ => None
  {
    hide ReadFields, IsForm, Print;
    ObjectFieldOfPrint(o, "fields");
    var tail := ScanDocument(o, "fields");
    if Find(o, "fields").Some? && Find(o, "fields").value.JObject? {
      FormText(Find(o, "fields").value.members);
    }
  }

  lemma FormText(fs: seq<Member>)
    requires WellFormedMembers(fs)
    ensures var text := Print(JObject(fs));
            text != [] && ReadFields(text[1..], []) == if IsForm(fs) then Some(FieldsOf(fs)) else None
  {
    FormOfPrint(fs);
    assert Print(JObject(fs))[1..] == PrintMembers(fs) + "}";
  }
}
