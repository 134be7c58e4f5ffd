/**
 * Wire bodies of src/payloads.cpp. Every builder drives the writer; its result is the print of
 * a tree of members, and the scanners read the flags of that tree back.
 */
module Payloads {
  import opened Base
  import opened JsonTree
  import opened JsonWriting
  import opened JsonFields
  import opened Decimal
  import opened Utf8

  /** A number as the `%.17g` printer leaves it: an opaque RFC 8259 number. */
  type NumberText = s: string | IsNumber(s) witness "0"

  datatype Breadcrumb = Breadcrumb(tsIso: string, level: string, message: string)

  /** Device dimensions; a number that is not finite and positive is None. */
  datatype Device = Device(
    model: string, kind: string, os: string, osFamily: string, cpu: string, cpuCount: int, ramMb: int,
    gpu: string, gpuVendor: string, gpuVersion: string, gpuApi: string, vramMb: int, screen: string,
    screenDpi: Option<NumberText>, refreshRate: Option<NumberText>, orientation: string, fullscreen: bool,
    language: string, engine: string, scriptingBackend: string, platform: string)

  datatype Common = Common(occurredAtIso: string, buildVersion: string, os: string, arch: string)

  datatype Correlation = Correlation(role: string, serverId: string, matchId: string, sessionId: string)

  datatype CrashPayload = CrashPayload(
    common: Common, signature: string, stackHint: string, stackTrace: string, breadcrumbs: seq<Breadcrumb>,
    userId: string, priorUserId: string, steamId: string, log: bool, correlation: Correlation,
    environment: string, device: Device, crashType: string, osSignal: int)

  datatype BugReportPayload = BugReportPayload(
    common: Common, category: string, message: string, userId: string, priorUserId: string, steamId: string,
    breadcrumbs: seq<Breadcrumb>, log: bool, correlation: Correlation, environment: string, device: Device)

  // ------------------------------------------------- the trees

  function Text(name: string, value: string): seq<Member> { [Member(name, JString(value))] }

  function Clamped(name: string, value: string, max: nat): seq<Member> { Text(name, Truncate(value, max)) }

  function Optional(name: string, value: string, max: nat): seq<Member> {
    if value != "" then Clamped(name, value, max) else []
  }

  function Flag(name: string, value: bool): seq<Member> { [Member(name, JToken(BoolText(value)))] }

  function Int(name: string, value: int): seq<Member> { [Member(name, JToken(IntText(value)))] }

  function OptionalInt(name: string, value: int): seq<Member> { if value > 0 then Int(name, value) else [] }

  function OptionalNumber(name: string, value: Option<NumberText>): seq<Member> {
    if value.Some? then [Member(name, JToken(value.value))] else []
  }

  function CrumbTree(c: Breadcrumb): Json {
    JObject((if c.tsIso != "" then Text("tsIso", c.tsIso) else [])
            + Clamped("level", c.level, 16) + Clamped("message", c.message, 512))
  }

  function CrumbTrees(crumbs: seq<Breadcrumb>): seq<Json> {
    if crumbs == [] then [] else CrumbTrees(crumbs[..|crumbs| - 1]) + [CrumbTree(crumbs[|crumbs| - 1])]
  }

  function BreadcrumbMembers(crumbs: seq<Breadcrumb>): seq<Member> {
    if crumbs == [] then [] else [Member("breadcrumbs", JArray(CrumbTrees(crumbs)))]
  }

  function CommonMembers(c: Common): seq<Member> {
    Text("occurredAtIso", c.occurredAtIso) + Clamped("buildVersion", c.buildVersion, 64)
    + Text("os", c.os) + Text("arch", c.arch)
  }

  function CorrelationMembers(c: Correlation): seq<Member> {
    Optional("role", c.role, 16) + Optional("serverId", c.serverId, 128)
    + Optional("matchId", c.matchId, 128) + Optional("sessionId", c.sessionId, 64)
  }

  function MachineMembers(d: Device): seq<Member> {
    Optional("model", d.model, 256) + Optional("type", d.kind, 32) + Optional("os", d.os, 256)
    + Optional("osFamily", d.osFamily, 48) + Optional("cpu", d.cpu, 256)
    + OptionalInt("cpuCount", d.cpuCount) + OptionalInt("ramMB", d.ramMb)
  }

  function GpuMembers(d: Device): seq<Member> {
    Optional("gpu", d.gpu, 256) + Optional("gpuVendor", d.gpuVendor, 256)
    + Optional("gpuVersion", d.gpuVersion, 256) + Optional("gpuApi", d.gpuApi, 64) + OptionalInt("vramMB", d.vramMb)
  }

  function ScreenMembers(d: Device): seq<Member> {
    Optional("screen", d.screen, 32)
    + OptionalNumber("screenDpi", d.screenDpi) + OptionalNumber("refreshRate", d.refreshRate)
    + Optional("orientation", d.orientation, 32) + (if d.fullscreen then Flag("fullscreen", true) else [])
  }

  function RuntimeMembers(d: Device): seq<Member> {
    Optional("language", d.language, 48) + Optional("engine", d.engine, 48)
    + Optional("scriptingBackend", d.scriptingBackend, 32) + Optional("platform", d.platform, 48)
  }

  function DeviceFields(d: Device): seq<Member> {
    MachineMembers(d) + GpuMembers(d) + ScreenMembers(d) + RuntimeMembers(d)
  }

  /** At least one dimension is set, so that a `device` object is emitted at all. */
  predicate DeviceHasContent(d: Device) {
    d.model != "" || d.kind != "" || d.os != "" || d.osFamily != "" || d.cpu != "" || d.cpuCount > 0 ||
    d.ramMb > 0 || d.gpu != "" || d.gpuVendor != "" || d.gpuVersion != "" || d.gpuApi != "" || d.vramMb > 0 ||
    d.screen != "" || d.screenDpi.Some? || d.refreshRate.Some? || d.orientation != "" || d.fullscreen ||
    d.language != "" || d.engine != "" || d.scriptingBackend != "" || d.platform != ""
  }

  function DeviceMembers(d: Device): seq<Member> {
    if DeviceHasContent(d) then [Member("device", JObject(DeviceFields(d)))] else []
  }

  function PlayerMembers(userId: string, priorUserId: string, steamId: string): seq<Member> {
    Optional("userId", userId, 128) + Optional("priorUserId", priorUserId, 128) + Optional("steamId", steamId, 32)
  }

  function CrashFacts(p: CrashPayload): seq<Member> {
    Clamped("signature", p.signature, 128) + Clamped("stackHint", p.stackHint, 512)
    + Optional("stackTrace", p.stackTrace, 8192)
  }

  function CrashCause(p: CrashPayload): seq<Member> {
    Optional("crashType", p.crashType, 128) + OptionalInt("osSignal", p.osSignal)
  }

  /** Everything of a crash body before its log flag, and everything after it. */
  function CrashHead(p: CrashPayload): seq<Member> {
    CommonMembers(p.common) + CrashFacts(p) + BreadcrumbMembers(p.breadcrumbs)
    + PlayerMembers(p.userId, p.priorUserId, p.steamId)
  }

  function ContextMembers(c: Correlation, environment: string, d: Device): seq<Member> {
    CorrelationMembers(c) + Optional("environment", environment, 64) + DeviceMembers(d)
  }

  function CrashTail(p: CrashPayload): seq<Member> {
    ContextMembers(p.correlation, p.environment, p.device) + CrashCause(p)
  }

  function CrashTree(p: CrashPayload): Json { JObject(CrashHead(p) + Flag("log", p.log) + CrashTail(p)) }

  function BugFacts(p: BugReportPayload): seq<Member> {
    Optional("category", p.category, 32) + Clamped("message", p.message, 4000)
  }

  function BugHead(p: BugReportPayload): seq<Member> {
    CommonMembers(p.common) + BugFacts(p) + PlayerMembers(p.userId, p.priorUserId, p.steamId)
    + BreadcrumbMembers(p.breadcrumbs)
  }

  function BugTail(p: BugReportPayload): seq<Member> {
    ContextMembers(p.correlation, p.environment, p.device)
  }

  function BugTree(p: BugReportPayload): Json { JObject(BugHead(p) + Flag("log", p.log) + BugTail(p)) }

  // ------------------------------------------------- scanning the bodies

  /** Well-formed members none of which, at any depth, is taken for `key`. */
  predicate Silent(ms: seq<Member>, key: string) { WellFormedMembers(ms) && FindMembers(ms, key) == None }

  lemma {:induction false} FindAppend(a: seq<Member>, b: seq<Member>, key: string)
    ensures FindMembers(a + b, key) == if FindMembers(a, key).Some? then FindMembers(a, key) else FindMembers(b, key)
    ensures WellFormedMembers(a + b) <==> WellFormedMembers(a) && WellFormedMembers(b)
  {
    if a == [] {
      assert a + b == b;
    } else {
      assert (a + b)[1..] == a[1..] + b;
      FindAppend(a[1..], b, key);
    }
  }

  lemma {:induction false} FindItemsAppend(a: seq<Json>, b: seq<Json>, key: string)
    ensures FindItems(a + b, key) == if FindItems(a, key).Some? then FindItems(a, key) else FindItems(b, key)
    ensures WellFormedItems(a + b) <==> WellFormedItems(a) && WellFormedItems(b)
  {
    if a == [] {
      assert a + b == b;
    } else {
      assert (a + b)[1..] == a[1..] + b;
      FindItemsAppend(a[1..], b, key);
    }
  }

  lemma SilentPair(a: seq<Member>, b: seq<Member>, key: string)
    requires Silent(a, key) && Silent(b, key)
    ensures Silent(a + b, key)
  {
    FindAppend(a, b, key);
  }

  /** A name whose last letter differs from the key's is never taken for the key. */
  predicate OtherEnd(name: string, key: string) { name != "" && key != "" && name[|name| - 1] != key[|key| - 1] }

  lemma OtherEndMisses(name: string, key: string)
    requires OtherEnd(name, key)
    ensures !Hits(name, key)
  {
    var at := |name| - |key| - 1;
    assert at >= 0 ==> name[at..][|key|] == name[|name| - 1];
  }

  /** Scalar members whose names all end differently from the key. */
  ghost predicate PlainScalars(ms: seq<Member>, key: string) {
    forall m :: m in ms ==> OtherEnd(m.name, key) && WellFormed(m.value) && (m.value.JString? || m.value.JToken?)
  }

  lemma {:induction false} PlainScalarsSilent(ms: seq<Member>, key: string)
    requires PlainScalars(ms, key)
    ensures Silent(ms, key)
  {
    if ms != [] {
      assert ms[0] in ms;
      OtherEndMisses(ms[0].name, key);
      PlainScalarsSilent(ms[1..], key);
    }
  }

  lemma {:induction false} DigitsRun(st: NumState, s: string)
    requires st == Whole && AllDigits(s)
    ensures NumRun(st, s) == Whole
  {
    if s != [] {
      DigitsRun(st, s[1..]);
    }
  }

  lemma {:induction false} NoLeadingZero(n: nat)
    requires n > 0
    ensures Digits(n)[0] != '0'
  {
    if n >= 10 {
      NoLeadingZero(n / 10);
    }
  }

  /** A printed integer is a number of the RFC 8259 grammar. */
  lemma IntTextIsNumber(n: int)
    ensures IsNumber(IntText(n))
  {
    var m := if n < 0 then -n else n;
    var d := Digits(m);
    if m == 0 {
      assert IntText(n) == "0";
      assert NumRun(Zero, []) == Zero;
    } else {
      NoLeadingZero(m);
      assert IsDigit(d[0]);
      DigitsRun(Whole, d[1..]);
      assert n < 0 ==> IntText(n)[1..] == d;
    }
  }

  lemma CrumbsSilent(crumbs: seq<Breadcrumb>)
    ensures FindItems(CrumbTrees(crumbs), "log") == None && WellFormedItems(CrumbTrees(crumbs))
  {
    if crumbs != [] {
      var c := crumbs[|crumbs| - 1];
      CrumbsSilent(crumbs[..|crumbs| - 1]);
      PlainScalarsSilent(CrumbTree(c).members, "log");
      assert [CrumbTree(c)][1..] == [];
      FindItemsAppend(CrumbTrees(crumbs[..|crumbs| - 1]), [CrumbTree(c)], "log");
    }
  }

  lemma BreadcrumbMembersSilent(crumbs: seq<Breadcrumb>)
    ensures Silent(BreadcrumbMembers(crumbs), "log")
  {
    CrumbsSilent(crumbs);
    OtherEndMisses("breadcrumbs", "log");
    if crumbs != [] {
      assert BreadcrumbMembers(crumbs)[1..] == [];
    }
  }

  lemma OptionalIntSilent(name: string, value: int)
    requires OtherEnd(name, "log")
    ensures Silent(OptionalInt(name, value), "log")
  {
    IntTextIsNumber(value);
    OtherEndMisses(name, "log");
    assert Int(name, value)[1..] == [];
  }

  lemma OptionalSilent(name: string, value: string, max: nat)
    requires OtherEnd(name, "log")
    ensures Silent(Optional(name, value, max), "log")
  {
    OtherEndMisses(name, "log");
    assert Clamped(name, value, max)[1..] == [];
  }

  lemma FourOptionalSilent(n1: string, v1: string, m1: nat, n2: string, v2: string, m2: nat,
                           n3: string, v3: string, m3: nat, n4: string, v4: string, m4: nat)
    requires OtherEnd(n1, "log") && OtherEnd(n2, "log") && OtherEnd(n3, "log") && OtherEnd(n4, "log")
    ensures Silent(Optional(n1, v1, m1) + Optional(n2, v2, m2) + Optional(n3, v3, m3) + Optional(n4, v4, m4), "log")
  {
    OptionalSilent(n1, v1, m1);
    OptionalSilent(n2, v2, m2);
    OptionalSilent(n3, v3, m3);
    OptionalSilent(n4, v4, m4);
    SilentFour(Optional(n1, v1, m1), Optional(n2, v2, m2), Optional(n3, v3, m3), Optional(n4, v4, m4));
  }

  lemma MachineSilent(d: Device)
    ensures Silent(MachineMembers(d), "log")
  {
    var texts := Optional("model", d.model, 256) + Optional("type", d.kind, 32) + Optional("os", d.os, 256)
                 + Optional("osFamily", d.osFamily, 48);
    FourOptionalSilent("model", d.model, 256, "type", d.kind, 32, "os", d.os, 256, "osFamily", d.osFamily, 48);
    OptionalSilent("cpu", d.cpu, 256);
    OptionalIntSilent("cpuCount", d.cpuCount);
    OptionalIntSilent("ramMB", d.ramMb);
    SilentFour(texts, Optional("cpu", d.cpu, 256), OptionalInt("cpuCount", d.cpuCount), OptionalInt("ramMB", d.ramMb));
  }

  lemma GpuSilent(d: Device)
    ensures Silent(GpuMembers(d), "log")
  {
    var texts := Optional("gpu", d.gpu, 256) + Optional("gpuVendor", d.gpuVendor, 256)
                 + Optional("gpuVersion", d.gpuVersion, 256) + Optional("gpuApi", d.gpuApi, 64);
    FourOptionalSilent("gpu", d.gpu, 256, "gpuVendor", d.gpuVendor, 256, "gpuVersion", d.gpuVersion, 256, "gpuApi", d.gpuApi, 64);
    OptionalIntSilent("vramMB", d.vramMb);
    SilentPair(texts, OptionalInt("vramMB", d.vramMb), "log");
  }

  lemma ScreenSilent(d: Device)
    ensures Silent(ScreenMembers(d), "log")
  {
    var sizes := Optional("screen", d.screen, 32)
                 + OptionalNumber("screenDpi", d.screenDpi) + OptionalNumber("refreshRate", d.refreshRate);
    var last := if d.fullscreen then Flag("fullscreen", true) else [];
    PlainScalarsSilent(sizes, "log");
    PlainScalarsSilent(Optional("orientation", d.orientation, 32), "log");
    PlainScalarsSilent(last, "log");
    SilentPair(sizes, Optional("orientation", d.orientation, 32), "log");
    SilentPair(sizes + Optional("orientation", d.orientation, 32), last, "log");
  }

  lemma RuntimeSilent(d: Device)
    ensures Silent(RuntimeMembers(d), "log")
  {
    FourOptionalSilent("language", d.language, 48, "engine", d.engine, 48,
                       "scriptingBackend", d.scriptingBackend, 32, "platform", d.platform, 48);
  }

  lemma DeviceMembersSilent(d: Device)
    ensures Silent(DeviceMembers(d), "log")
  {
    MachineSilent(d);
    GpuSilent(d);
    ScreenSilent(d);
    RuntimeSilent(d);
    SilentFour(MachineMembers(d), GpuMembers(d), ScreenMembers(d), RuntimeMembers(d));
    if DeviceHasContent(d) {
      SilentObject("device", DeviceFields(d));
    }
  }

  lemma SilentObject(name: string, ms: seq<Member>)
    requires OtherEnd(name, "log") && Silent(ms, "log")
    ensures Silent([Member(name, JObject(ms))], "log")
  {
    OtherEndMisses(name, "log");
    assert [Member(name, JObject(ms))][1..] == [];
  }

  lemma CommonMembersSilent(c: Common)
    ensures Silent(CommonMembers(c), "log")
  {
    PlainScalarsSilent(CommonMembers(c), "log");
  }

  lemma CorrelationMembersSilent(c: Correlation)
    ensures Silent(CorrelationMembers(c), "log")
  {
    FourOptionalSilent("role", c.role, 16, "serverId", c.serverId, 128, "matchId", c.matchId, 128, "sessionId", c.sessionId, 64);
  }

  /** A log flag between members that cannot be taken for it is read back. */
  lemma FlagFound(head: seq<Member>, log: bool, tail: seq<Member>)
    requires Silent(head, "log") && WellFormedMembers(tail)
    ensures WellFormed(JObject(head + Flag("log", log) + tail))
    ensures BoolField(Print(JObject(head + Flag("log", log) + tail)), "log") == Some(log)
  {
    var flag := Flag("log", log);
    assert flag[1..] == [];
    assert WellFormedMembers(flag);
    assert flag[0].name == "log";
    assert FindMembers(flag, "log") == Some(flag[0].value);
    FindAppend(head, flag, "log");
    FindAppend(head + flag, tail, "log");
    BoolFieldOfPrint(JObject(head + flag + tail), "log");
  }

  lemma ContextSilent(c: Correlation, environment: string, d: Device)
    ensures Silent(ContextMembers(c, environment, d), "log")
  {
    CorrelationMembersSilent(c);
    DeviceMembersSilent(d);
    PlainScalarsSilent(Optional("environment", environment, 64), "log");
    SilentPair(CorrelationMembers(c), Optional("environment", environment, 64), "log");
    SilentPair(CorrelationMembers(c) + Optional("environment", environment, 64), DeviceMembers(d), "log");
  }

  lemma SilentFour(a: seq<Member>, b: seq<Member>, c: seq<Member>, d: seq<Member>)
    requires Silent(a, "log") && Silent(b, "log") && Silent(c, "log") && Silent(d, "log")
    ensures Silent(a + b + c + d, "log")
  {
    SilentPair(a, b, "log");
    SilentPair(a + b, c, "log");
    SilentPair(a + b + c, d, "log");
  }

  lemma PlayerSilent(userId: string, priorUserId: string, steamId: string)
    ensures Silent(PlayerMembers(userId, priorUserId, steamId), "log")
  {
    PlainScalarsSilent(PlayerMembers(userId, priorUserId, steamId), "log");
  }

  lemma CrashFactsSilent(p: CrashPayload)
    ensures Silent(CrashFacts(p), "log") && Silent(CrashCause(p), "log")
  {
    PlainScalarsSilent(CrashFacts(p), "log");
    PlainScalarsSilent(Optional("crashType", p.crashType, 128), "log");
    OptionalIntSilent("osSignal", p.osSignal);
    SilentPair(Optional("crashType", p.crashType, 128), OptionalInt("osSignal", p.osSignal), "log");
  }

  lemma BugFactsSilent(p: BugReportPayload)
    ensures Silent(BugFacts(p), "log")
  {
    PlainScalarsSilent(BugFacts(p), "log");
  }

  /** Whatever the fields hold, scanning a crash body for `log` gives the payload's flag. */
  lemma LogFlagOfCrash(p: CrashPayload)
    ensures BoolField(Print(CrashTree(p)), "log") == Some(p.log)
    ensures WellFormed(CrashTree(p))
  {
    CommonMembersSilent(p.common);
    CrashFactsSilent(p);
    BreadcrumbMembersSilent(p.breadcrumbs);
    PlayerSilent(p.userId, p.priorUserId, p.steamId);
    SilentFour(CommonMembers(p.common), CrashFacts(p), BreadcrumbMembers(p.breadcrumbs),
               PlayerMembers(p.userId, p.priorUserId, p.steamId));
    ContextSilent(p.correlation, p.environment, p.device);
    SilentPair(ContextMembers(p.correlation, p.environment, p.device), CrashCause(p), "log");
    FlagFound(CrashHead(p), p.log, CrashTail(p));
  }

  /** Likewise for a bug report. */
  lemma LogFlagOfBug(p: BugReportPayload)
    ensures BoolField(Print(BugTree(p)), "log") == Some(p.log)
    ensures WellFormed(BugTree(p))
  {
    CommonMembersSilent(p.common);
    BugFactsSilent(p);
    BreadcrumbMembersSilent(p.breadcrumbs);
    PlayerSilent(p.userId, p.priorUserId, p.steamId);
    SilentFour(CommonMembers(p.common), BugFacts(p), PlayerMembers(p.userId, p.priorUserId, p.steamId),
               BreadcrumbMembers(p.breadcrumbs));
    ContextSilent(p.correlation, p.environment, p.device);
    FlagFound(BugHead(p), p.log, BugTail(p));
  }
}
