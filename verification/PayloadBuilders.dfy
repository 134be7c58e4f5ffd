/**
 * The builders of src/payloads.cpp as they run: each drives a writer call by call, and the text
 * it returns is the print of the payload's tree.
 */
module PayloadBuilders {
  import opened Base
  import opened JsonTree
  import opened JsonWriting
  import opened Payloads
  import opened Utf8
  import opened Decimal
  import WriterCalls

  /** Writer state inside an object opened on `base` by `open`, after the members `ms`. */
  function Scope(base: Writer, open: string, ms: seq<Member>): Writer {
    Writer(Put(base, open).out + PrintMembers(ms), Put(base, open).needsComma + [ms != []])
  }

  /** Likewise inside an array. */
  function ArrayScope(base: Writer, open: string, xs: seq<Json>): Writer {
    Writer(Put(base, open).out + PrintItems(xs), Put(base, open).needsComma + [xs != []])
  }

  lemma {:induction false} PrintMembersAppend(ms: seq<Member>, m: Member)
    ensures PrintMembers(ms + [m]) == PrintMembers(ms) + (if ms == [] then "" else ",") + PrintMember(m)
  {
    if ms == [] {
      assert ms + [m] == [m];
      assert PrintMember(m) + "" == PrintMember(m);
    } else {
      assert (ms + [m])[1..] == ms[1..] + [m];
      PrintMembersAppend(ms[1..], m);
      AppendText(PrintMember(ms[0]), PrintMembers(ms[1..]), |ms| == 1, PrintMember(m));
    }
  }

  lemma {:induction false} PrintItemsAppend(xs: seq<Json>, x: Json)
    ensures PrintItems(xs + [x]) == PrintItems(xs) + (if xs == [] then "" else ",") + Print(x)
  {
    if xs == [] {
      assert xs + [x] == [x];
      assert Print(x) + "" == Print(x);
    } else {
      assert (xs + [x])[1..] == xs[1..] + [x];
      PrintItemsAppend(xs[1..], x);
      AppendText(Print(xs[0]), PrintItems(xs[1..]), |xs| == 1, Print(x));
    }
  }

  lemma AppendText(first: string, others: string, only: bool, last: string)
    ensures first + ("," + (others + "," + last)) == first + ("," + others) + "," + last
    ensures first + ("," + ("" + "" + last)) == first + "" + "," + last
  {
    Assoc(first, "," + others, "," + last);
    Assoc(first + ("," + others), ",", last);
    Assoc(",", others, "," + last);
    Assoc(others, ",", last);
    assert "" + "" + last == last && first + "" == first;
    Assoc(first, ",", last);
  }

  lemma ScopeAdd(base: Writer, open: string, ms: seq<Member>, m: Member)
    ensures Put(Scope(base, open, ms), PrintMember(m)) == Scope(base, open, ms + [m])
  {
    PrintMembersAppend(ms, m);
    var p := Put(base, open);
    Assoc(p.out, PrintMembers(ms), if ms == [] then "" else ",");
    Assoc(p.out, PrintMembers(ms) + (if ms == [] then "" else ","), PrintMember(m));
  }

  lemma ArrayScopeAdd(base: Writer, open: string, xs: seq<Json>, x: Json)
    ensures Put(ArrayScope(base, open, xs), Print(x)) == ArrayScope(base, open, xs + [x])
  {
    PrintItemsAppend(xs, x);
    var p := Put(base, open);
    Assoc(p.out, PrintItems(xs), if xs == [] then "" else ",");
    Assoc(p.out, PrintItems(xs) + (if xs == [] then "" else ","), Print(x));
  }

  lemma ScopeStart(base: Writer, open: string)
    ensures Open(base, open) == Scope(base, open, []) == ArrayScope(base, open, [])
  {
    assert Put(base, open).out + "" == Put(base, open).out;
  }

  lemma ScopeClose(base: Writer, open: string, ms: seq<Member>, xs: seq<Json>)
    ensures Close(Scope(base, open, ms), "}") == Put(base, open + PrintMembers(ms) + "}")
    ensures Close(ArrayScope(base, open, xs), "]") == Put(base, open + PrintItems(xs) + "]")
  {
    PutThen(base, open, PrintMembers(ms));
    PutThen(base, open + PrintMembers(ms), "}");
    PutThen(base, open, PrintItems(xs));
    PutThen(base, open + PrintItems(xs), "]");
    var n := Put(base, open).needsComma;
    assert (n + [ms != []])[..|n|] == n && (n + [xs != []])[..|n|] == n;
  }

  lemma FieldText(name: string, ms: seq<Member>, xs: seq<Json>)
    ensures Literal(name) + ":{" + PrintMembers(ms) + "}" == PrintMember(Member(name, JObject(ms)))
    ensures Literal(name) + ":[" + PrintItems(xs) + "]" == PrintMember(Member(name, JArray(xs)))
  {
    assert ":{" == ":" + "{" && ":[" == ":" + "[";
    WriterCalls.BracketText(Literal(name), "{", PrintMembers(ms), "}");
    WriterCalls.BracketText(Literal(name), "[", PrintItems(xs), "]");
  }

  // ------------------------------------------------- field helpers

  method TextField(w: JsonWriter, name: string, value: string,
                   ghost base: Writer, ghost open: string, ghost ms: seq<Member>)
    requires w.State() == Scope(base, open, ms)
    modifies w
    ensures w.State() == Scope(base, open, ms + Text(name, value))
  {
    w.StringField(name, value);
    ScopeAdd(base, open, ms, Member(name, JString(value)));
  }

  method ClampedField(w: JsonWriter, name: string, value: string, max: nat,
                      ghost base: Writer, ghost open: string, ghost ms: seq<Member>)
    requires w.State() == Scope(base, open, ms)
    modifies w
    ensures w.State() == Scope(base, open, ms + Clamped(name, value, max))
  {
    var cut := Utf8SafeTruncate(value, max);
    TextField(w, name, cut, base, open, ms);
  }

  method OptionalField(w: JsonWriter, name: string, value: string, max: nat,
                       ghost base: Writer, ghost open: string, ghost ms: seq<Member>)
    requires w.State() == Scope(base, open, ms)
    modifies w
    ensures w.State() == Scope(base, open, ms + Optional(name, value, max))
  {
    if value != "" {
      ClampedField(w, name, value, max, base, open, ms);
    } else {
      assert ms + [] == ms;
    }
  }

  method OptionalIntField(w: JsonWriter, name: string, value: int,
                          ghost base: Writer, ghost open: string, ghost ms: seq<Member>)
    requires w.State() == Scope(base, open, ms)
    modifies w
    ensures w.State() == Scope(base, open, ms + OptionalInt(name, value))
  {
    if value > 0 {
      w.IntField(name, value);
      ScopeAdd(base, open, ms, Member(name, JToken(IntText(value))));
    } else {
      assert ms + [] == ms;
    }
  }

  method OptionalNumberField(w: JsonWriter, name: string, value: Option<NumberText>,
                             ghost base: Writer, ghost open: string, ghost ms: seq<Member>)
    requires w.State() == Scope(base, open, ms)
    modifies w
    ensures w.State() == Scope(base, open, ms + OptionalNumber(name, value))
  {
    if value.Some? {
      w.RawField(name, value.value);
      ScopeAdd(base, open, ms, Member(name, JToken(value.value)));
    } else {
      assert ms + [] == ms;
    }
  }

  method FlagField(w: JsonWriter, name: string, value: bool,
                   ghost base: Writer, ghost open: string, ghost ms: seq<Member>)
    requires w.State() == Scope(base, open, ms)
    modifies w
    ensures w.State() == Scope(base, open, ms + Flag(name, value))
  {
    w.BoolField(name, value);
    ScopeAdd(base, open, ms, Member(name, JToken(BoolText(value))));
  }

  // ------------------------------------------------- shared parts

  method BreadcrumbsField(w: JsonWriter, crumbs: seq<Breadcrumb>,
                          ghost base: Writer, ghost open: string, ghost ms: seq<Member>)
    requires w.State() == Scope(base, open, ms)
    modifies w
    ensures w.State() == Scope(base, open, ms + BreadcrumbMembers(crumbs))
  {
    if crumbs == [] {
      assert ms + [] == ms;
      return;
    }
    ghost var outer, open' := Scope(base, open, ms), Literal("breadcrumbs") + ":[";
    w.BeginArrayField("breadcrumbs");
    ScopeStart(outer, open');
    CrumbElements(w, crumbs, outer, open');
    w.EndArray();
    ScopeClose(outer, open', [], CrumbTrees(crumbs));
    FieldText("breadcrumbs", [], CrumbTrees(crumbs));
    ScopeAdd(base, open, ms, Member("breadcrumbs", JArray(CrumbTrees(crumbs))));
  }

  method CrumbElements(w: JsonWriter, crumbs: seq<Breadcrumb>, ghost base: Writer, ghost open: string)
    requires w.State() == ArrayScope(base, open, [])
    modifies w
    ensures w.State() == ArrayScope(base, open, CrumbTrees(crumbs))
  {
    for i := 0 to |crumbs|
      invariant w.State() == ArrayScope(base, open, CrumbTrees(crumbs[..i]))
    {
      CrumbElement(w, crumbs[i]);
      ArrayScopeAdd(base, open, CrumbTrees(crumbs[..i]), CrumbTree(crumbs[i]));
      assert crumbs[..i + 1][..i] == crumbs[..i];
    }
    assert crumbs[..|crumbs|] == crumbs;
  }

  method CrumbElement(w: JsonWriter, c: Breadcrumb)
    modifies w
    ensures w.State() == Put(old(w.State()), Print(CrumbTree(c)))
  {
    ghost var outer := w.State();
    w.BeginObject();
    ScopeStart(outer, "{");
    ghost var ts := if c.tsIso != "" then Text("tsIso", c.tsIso) else [];
    assert [] + ts == ts;
    if c.tsIso != "" {
      TextField(w, "tsIso", c.tsIso, outer, "{", []);
    }
    ClampedField(w, "level", c.level, 16, outer, "{", ts);
    ClampedField(w, "message", c.message, 512, outer, "{", ts + Clamped("level", c.level, 16));
    w.EndObject();
    ScopeClose(outer, "{", CrumbTree(c).members, []);
  }

  method CommonContext(w: JsonWriter, c: Common, ghost base: Writer, ghost open: string)
    requires w.State() == Scope(base, open, [])
    modifies w
    ensures w.State() == Scope(base, open, CommonMembers(c))
  {
    TextField(w, "occurredAtIso", c.occurredAtIso, base, open, []);
    ghost var ms := Text("occurredAtIso", c.occurredAtIso);
    assert [] + ms == ms;
    ClampedField(w, "buildVersion", c.buildVersion, 64, base, open, ms);
    ms := ms + Clamped("buildVersion", c.buildVersion, 64);
    TextField(w, "os", c.os, base, open, ms);
    TextField(w, "arch", c.arch, base, open, ms + Text("os", c.os));
  }

  method CorrelationFields(w: JsonWriter, c: Correlation,
                           ghost base: Writer, ghost open: string, ghost ms: seq<Member>)
    requires w.State() == Scope(base, open, ms)
    modifies w
    ensures w.State() == Scope(base, open, ms + CorrelationMembers(c))
  {
    ghost var a, b := Optional("role", c.role, 16), Optional("serverId", c.serverId, 128);
    ghost var d := Optional("matchId", c.matchId, 128);
    OptionalField(w, "role", c.role, 16, base, open, ms);
    OptionalField(w, "serverId", c.serverId, 128, base, open, ms + a);
    OptionalField(w, "matchId", c.matchId, 128, base, open, ms + a + b);
    OptionalField(w, "sessionId", c.sessionId, 64, base, open, ms + a + b + d);
    Regroup(ms, a, b, d, Optional("sessionId", c.sessionId, 64));
  }

  method PlayerFields(w: JsonWriter, userId: string, priorUserId: string, steamId: string,
                      ghost base: Writer, ghost open: string, ghost ms: seq<Member>)
    requires w.State() == Scope(base, open, ms)
    modifies w
    ensures w.State() == Scope(base, open, ms + PlayerMembers(userId, priorUserId, steamId))
  {
    ghost var a, b := Optional("userId", userId, 128), Optional("priorUserId", priorUserId, 128);
    OptionalField(w, "userId", userId, 128, base, open, ms);
    OptionalField(w, "priorUserId", priorUserId, 128, base, open, ms + a);
    OptionalField(w, "steamId", steamId, 32, base, open, ms + a + b);
    Regroup(ms, a, b, Optional("steamId", steamId, 32), []);
    assert forall x: seq<Member> :: x + [] == x;
  }

  method MachineFields(w: JsonWriter, d: Device, ghost base: Writer, ghost open: string)
    requires w.State() == Scope(base, open, [])
    modifies w
    ensures w.State() == Scope(base, open, MachineMembers(d))
  {
    OptionalField(w, "model", d.model, 256, base, open, []);
    ghost var ms := Optional("model", d.model, 256);
    assert [] + ms == ms;
    OptionalField(w, "type", d.kind, 32, base, open, ms);
    ms := ms + Optional("type", d.kind, 32);
    OptionalField(w, "os", d.os, 256, base, open, ms);
    ms := ms + Optional("os", d.os, 256);
    OptionalField(w, "osFamily", d.osFamily, 48, base, open, ms);
    ms := ms + Optional("osFamily", d.osFamily, 48);
    OptionalField(w, "cpu", d.cpu, 256, base, open, ms);
    ms := ms + Optional("cpu", d.cpu, 256);
    OptionalIntField(w, "cpuCount", d.cpuCount, base, open, ms);
    OptionalIntField(w, "ramMB", d.ramMb, base, open, ms + OptionalInt("cpuCount", d.cpuCount));
  }

  method GpuFields(w: JsonWriter, d: Device, ghost base: Writer, ghost open: string, ghost ms: seq<Member>)
    requires w.State() == Scope(base, open, ms)
    modifies w
    ensures w.State() == Scope(base, open, ms + GpuMembers(d))
  {
    ghost var a, b := Optional("gpu", d.gpu, 256), Optional("gpuVendor", d.gpuVendor, 256);
    ghost var c, e := Optional("gpuVersion", d.gpuVersion, 256), Optional("gpuApi", d.gpuApi, 64);
    OptionalField(w, "gpu", d.gpu, 256, base, open, ms);
    OptionalField(w, "gpuVendor", d.gpuVendor, 256, base, open, ms + a);
    OptionalField(w, "gpuVersion", d.gpuVersion, 256, base, open, ms + a + b);
    OptionalField(w, "gpuApi", d.gpuApi, 64, base, open, ms + a + b + c);
    OptionalIntField(w, "vramMB", d.vramMb, base, open, ms + a + b + c + e);
    Regroup(ms, a, b, c, e);
    Assoc(ms, a + b + c + e, OptionalInt("vramMB", d.vramMb));
  }

  method ScreenFields(w: JsonWriter, d: Device, ghost base: Writer, ghost open: string, ghost ms: seq<Member>)
    requires w.State() == Scope(base, open, ms)
    modifies w
    ensures w.State() == Scope(base, open, ms + ScreenMembers(d))
  {
    ghost var a, b := Optional("screen", d.screen, 32), OptionalNumber("screenDpi", d.screenDpi);
    ghost var c, e := OptionalNumber("refreshRate", d.refreshRate), Optional("orientation", d.orientation, 32);
    OptionalField(w, "screen", d.screen, 32, base, open, ms);
    OptionalNumberField(w, "screenDpi", d.screenDpi, base, open, ms + a);
    OptionalNumberField(w, "refreshRate", d.refreshRate, base, open, ms + a + b);
    OptionalField(w, "orientation", d.orientation, 32, base, open, ms + a + b + c);
    Regroup(ms, a, b, c, e);
    if d.fullscreen {
      FlagField(w, "fullscreen", true, base, open, ms + a + b + c + e);
    } else {
      assert ms + a + b + c + e + [] == ms + a + b + c + e;
    }
    Assoc(ms, a + b + c + e, if d.fullscreen then Flag("fullscreen", true) else []);
  }

  method RuntimeFields(w: JsonWriter, d: Device, ghost base: Writer, ghost open: string, ghost ms: seq<Member>)
    requires w.State() == Scope(base, open, ms)
    modifies w
    ensures w.State() == Scope(base, open, ms + RuntimeMembers(d))
  {
    ghost var a, b := Optional("language", d.language, 48), Optional("engine", d.engine, 48);
    ghost var c := Optional("scriptingBackend", d.scriptingBackend, 32);
    OptionalField(w, "language", d.language, 48, base, open, ms);
    OptionalField(w, "engine", d.engine, 48, base, open, ms + a);
    OptionalField(w, "scriptingBackend", d.scriptingBackend, 32, base, open, ms + a + b);
    OptionalField(w, "platform", d.platform, 48, base, open, ms + a + b + c);
    Regroup(ms, a, b, c, Optional("platform", d.platform, 48));
  }

  method DeviceObject(w: JsonWriter, d: Device, ghost base: Writer, ghost open: string, ghost ms: seq<Member>)
    requires w.State() == Scope(base, open, ms)
    modifies w
    ensures w.State() == Scope(base, open, ms + DeviceMembers(d))
  {
    if !DeviceHasContent(d) {
      assert ms + [] == ms;
      return;
    }
    ghost var outer, open' := Scope(base, open, ms), Literal("device") + ":{";
    w.BeginObjectField("device");
    ScopeStart(outer, open');
    MachineFields(w, d, outer, open');
    GpuFields(w, d, outer, open', MachineMembers(d));
    ScreenFields(w, d, outer, open', MachineMembers(d) + GpuMembers(d));
    RuntimeFields(w, d, outer, open', MachineMembers(d) + GpuMembers(d) + ScreenMembers(d));
    w.EndObject();
    ScopeClose(outer, open', DeviceFields(d), []);
    FieldText("device", DeviceFields(d), []);
    ScopeAdd(base, open, ms, Member("device", JObject(DeviceFields(d))));
  }

  method ContextFields(w: JsonWriter, c: Correlation, environment: string, d: Device,
                       ghost base: Writer, ghost open: string, ghost ms: seq<Member>)
    requires w.State() == Scope(base, open, ms)
    modifies w
    ensures w.State() == Scope(base, open, ms + ContextMembers(c, environment, d))
  {
    ghost var a, b := CorrelationMembers(c), Optional("environment", environment, 64);
    CorrelationFields(w, c, base, open, ms);
    OptionalField(w, "environment", environment, 64, base, open, ms + a);
    DeviceObject(w, d, base, open, ms + a + b);
    Assoc(ms, a, b);
    Assoc(ms, a + b, DeviceMembers(d));
  }

  // ------------------------------------------------- the bodies

  lemma RootClose(ms: seq<Member>)
    ensures Close(Scope(EMPTY, "{", ms), "}") == Writer(Print(JObject(ms)), [])
  {
    ScopeClose(EMPTY, "{", ms, []);
    var text := Print(JObject(ms));
    assert "" + text == text;
  }

  method BugFactFields(w: JsonWriter, p: BugReportPayload, ghost ms: seq<Member>)
    requires w.State() == Scope(EMPTY, "{", ms)
    modifies w
    ensures w.State() == Scope(EMPTY, "{", ms + BugFacts(p))
  {
    ghost var a, b := Optional("category", p.category, 32), Clamped("message", p.message, 4000);
    OptionalField(w, "category", p.category, 32, EMPTY, "{", ms);
    ClampedField(w, "message", p.message, 4000, EMPTY, "{", ms + a);
    Assoc(ms, a, b);
  }

  method CrashFactFields(w: JsonWriter, p: CrashPayload, ghost ms: seq<Member>)
    requires w.State() == Scope(EMPTY, "{", ms)
    modifies w
    ensures w.State() == Scope(EMPTY, "{", ms + CrashFacts(p))
  {
    ghost var a, b := Clamped("signature", p.signature, 128), Clamped("stackHint", p.stackHint, 512);
    ClampedField(w, "signature", p.signature, 128, EMPTY, "{", ms);
    ClampedField(w, "stackHint", p.stackHint, 512, EMPTY, "{", ms + a);
    OptionalField(w, "stackTrace", p.stackTrace, 8192, EMPTY, "{", ms + a + b);
    Regroup(ms, a, b, Optional("stackTrace", p.stackTrace, 8192), []);
    assert forall x: seq<Member> :: x + [] == x;
  }

  method BuildCrashJson(p: CrashPayload) returns (body: string)
    ensures body == Print(CrashTree(p))
  {
    var w := new JsonWriter();
    w.BeginObject();
    ScopeStart(EMPTY, "{");
    CommonContext(w, p.common, EMPTY, "{");
    ghost var ms := CommonMembers(p.common);
    CrashFactFields(w, p, ms);
    ms := ms + CrashFacts(p);
    BreadcrumbsField(w, p.breadcrumbs, EMPTY, "{", ms);
    PlayerFields(w, p.userId, p.priorUserId, p.steamId, EMPTY, "{", ms + BreadcrumbMembers(p.breadcrumbs));
    FlagField(w, "log", p.log, EMPTY, "{", CrashHead(p));
    ms := CrashHead(p) + Flag("log", p.log);
    ContextFields(w, p.correlation, p.environment, p.device, EMPTY, "{", ms);
    ghost var c := ContextMembers(p.correlation, p.environment, p.device);
    OptionalField(w, "crashType", p.crashType, 128, EMPTY, "{", ms + c);
    OptionalIntField(w, "osSignal", p.osSignal, EMPTY, "{", ms + c + Optional("crashType", p.crashType, 128));
    Assoc(ms + c, Optional("crashType", p.crashType, 128), OptionalInt("osSignal", p.osSignal));
    Assoc(ms, c, CrashCause(p));
    w.EndObject();
    RootClose(ms + CrashTail(p));
    body := w.out;
  }

  method BuildBugReportJson(p: BugReportPayload) returns (body: string)
    ensures body == Print(BugTree(p))
  {
    var w := new JsonWriter();
    w.BeginObject();
    ScopeStart(EMPTY, "{");
    CommonContext(w, p.common, EMPTY, "{");
    ghost var ms := CommonMembers(p.common);
    BugFactFields(w, p, ms);
    ms := ms + BugFacts(p);
    PlayerFields(w, p.userId, p.priorUserId, p.steamId, EMPTY, "{", ms);
    ms := ms + PlayerMembers(p.userId, p.priorUserId, p.steamId);
    BreadcrumbsField(w, p.breadcrumbs, EMPTY, "{", ms);
    FlagField(w, "log", p.log, EMPTY, "{", BugHead(p));
    ms := BugHead(p) + Flag("log", p.log);
    ContextFields(w, p.correlation, p.environment, p.device, EMPTY, "{", ms);
    w.EndObject();
    RootClose(ms + BugTail(p));
    body := w.out;
  }
}
