/** The dirty-session marker file of src/session_marker.cpp: written by the writer, read by the scanner. */
module SessionMarkers {
  import opened Base
  import opened JsonTree
  import opened JsonWriting
  import opened JsonFields
  import opened Payloads
  import opened PayloadBuilders

  datatype MarkerData = MarkerData(sessionId: string, startedAtIso: string, buildVersion: string, os: string, arch: string)

  function MarkerMembers(d: MarkerData): seq<Member> {
    [Member("sessionId", JString(d.sessionId)), Member("startedAtIso", JString(d.startedAtIso)),
     Member("buildVersion", JString(d.buildVersion)), Member("os", JString(d.os)), Member("arch", JString(d.arch))]
  }

  function MarkerText(d: MarkerData): string { Print(JObject(MarkerMembers(d))) }

  /** What a marker text means to the next launch. */
  function ReadMarker(text: string): Option<MarkerData> {
    var id := StringField(text, "sessionId").GetOr("");
    if id == "" then None
    else Some(MarkerData(id, StringField(text, "startedAtIso").GetOr(""), StringField(text, "buildVersion").GetOr(""),
                         StringField(text, "os").GetOr(""), StringField(text, "arch").GetOr("")))
  }

  class SessionMarker {
    var file: Option<string>
    var configured: bool

    constructor (file: Option<string>)
      ensures this.file == file && !configured
    {
      this.file := file;
      configured := false;
    }

    method Configure()
      modifies this
      ensures configured && file == old(file)
    {
      configured := true;
    }

    /** A file that cannot be opened stays as it is. */
    method Write(d: MarkerData, opens: bool)
      modifies this
      ensures configured == old(configured)
      ensures file == if configured && opens then Some(MarkerText(d)) else old(file)
    {
      if !configured {
        return;
      }
      var text := BuildMarkerJson(d);
      if !opens {
        return;
      }
      file := Some(text);
    }

    /**
     * Reads and deletes the marker an earlier run left behind. One that cannot be opened is neither,
     * and one that cannot be removed is read all the same.
     */
    method TakePrevious(opens: bool, removes: bool) returns (r: Option<MarkerData>)
      modifies this
      ensures configured == old(configured)
      ensures file == if configured && opens && removes then None else old(file)
      ensures r == if configured && opens && old(file).Some? then ReadMarker(old(file).value) else None
    {
      if !configured || file.None? {
        return None;
      }
      if !opens {
        return None;
      }
      var text := file.value;
      if removes {
        file := None;
      }
      var id := FindStringField(text, "sessionId");
      if id.GetOr("") == "" {
        return None;
      }
      var started := FindStringField(text, "startedAtIso");
      var build := FindStringField(text, "buildVersion");
      var os := FindStringField(text, "os");
      var arch := FindStringField(text, "arch");
      return Some(MarkerData(id.GetOr(""), started.GetOr(""), build.GetOr(""), os.GetOr(""), arch.GetOr("")));
    }

    method Remove(removes: bool)
      modifies this
      ensures configured == old(configured) && file == if configured && removes then None else old(file)
    {
      if !configured {
        return;
      }
      if removes {
        file := None;
      }
    }
  }

  method BuildMarkerJson(d: MarkerData) returns (json: string)
    ensures json == MarkerText(d)
  {
    var w := new JsonWriter();
    w.BeginObject();
    ScopeStart(EMPTY, "{");
    ghost var ms := MarkerMembers(d);
    AddString(w, "sessionId", d.sessionId, ms, 0);
    AddString(w, "startedAtIso", d.startedAtIso, ms, 1);
    AddString(w, "buildVersion", d.buildVersion, ms, 2);
    AddString(w, "os", d.os, ms, 3);
    AddString(w, "arch", d.arch, ms, 4);
    w.EndObject();
    assert ms[..5] == ms;
    RootClose(ms);
    json := w.out;
  }

  method AddString(w: JsonWriter, name: string, value: string, ghost ms: seq<Member>, ghost i: nat)
    requires i < |ms| && ms[i] == Member(name, JString(value))
    requires w.State() == Scope(EMPTY, "{", ms[..i])
    modifies w
    ensures w.State() == Scope(EMPTY, "{", ms[..i + 1])
  {
    TextField(w, name, value, EMPTY, "{", ms[..i]);
    assert ms[..i] + Text(name, value) == ms[..i + 1];
  }

  /** The first member named `key` is found behind members not taken for it. */
  lemma {:induction false} FindScalar(ms: seq<Member>, key: string, i: nat)
    requires i < |ms| && ms[i].name == key
    requires forall j :: 0 <= j < i ==> !Hits(ms[j].name, key) && (ms[j].value.JString? || ms[j].value.JToken?)
    ensures FindMembers(ms, key) == Some(ms[i].value)
  {
    if i > 0 {
      FindScalar(ms[1..], key, i - 1);
    }
  }

  lemma {:induction false} StringsWellFormed(ms: seq<Member>)
    requires forall m :: m in ms ==> m.value.JString?
    ensures WellFormedMembers(ms)
  {
    if ms != [] {
      StringsWellFormed(ms[1..]);
    }
  }

  lemma FieldAt(ms: seq<Member>, i: nat)
    requires i < |ms| && PlainKey(ms[i].name) && forall m :: m in ms ==> m.value.JString?
    requires forall j :: 0 <= j < i ==> !Hits(ms[j].name, ms[i].name)
    ensures StringField(Print(JObject(ms)), ms[i].name) == Some(ms[i].value.text)
  {
    StringsWellFormed(ms);
    FindScalar(ms, ms[i].name, i);
    StringFieldOfPrint(JObject(ms), ms[i].name);
  }

  lemma MarkerKeys(d: MarkerData, i: nat)
    requires i < 5
    ensures PlainKey(MarkerMembers(d)[i].name)
    ensures forall j :: 0 <= j < i ==> !Hits(MarkerMembers(d)[j].name, MarkerMembers(d)[i].name)
  {
    var ends := ['d', 'o', 'n', 's', 'h'];
    var ms := MarkerMembers(d);
    assert forall j :: 0 <= j < 5 ==> ms[j].name != "" && ms[j].name[|ms[j].name| - 1] == ends[j];
    forall j | 0 <= j < i
      ensures !Hits(ms[j].name, ms[i].name)
    {
      OtherEndMisses(ms[j].name, ms[i].name);
    }
  }

  /** A written marker reads back field for field, for any strings, unless the session id is empty. */
  lemma MarkerRoundTrip(d: MarkerData)
    ensures ReadMarker(MarkerText(d)) == if d.sessionId == "" then None else Some(d)
  {
    forall i | 0 <= i < 5
      ensures StringField(MarkerText(d), MarkerMembers(d)[i].name) == Some(MarkerMembers(d)[i].value.text)
    {
      MarkerKeys(d, i);
      FieldAt(MarkerMembers(d), i);
    }
    var ms := MarkerMembers(d);
    assert ms[0].name == "sessionId" && ms[1].name == "startedAtIso" && ms[2].name == "buildVersion"
           && ms[3].name == "os" && ms[4].name == "arch";
  }
}
