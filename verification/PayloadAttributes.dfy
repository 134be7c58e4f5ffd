/**
 * Every attribute of a payload is read from the body that is built from it, under its own name and cut
 * to its own limit (src/payloads.cpp).
 */
module PayloadAttributes {
  import opened Base
  import opened JsonTree
  import JsonParse
  import opened Decimal
  import opened Utf8
  import opened Payloads

  /** The text stands under this name, cut to its limit. */
  predicate Says(ms: seq<Member>, name: string, value: string, max: nat) { Member(name, JString(Truncate(value, max))) in ms }

  predicate CommonSaid(ms: seq<Member>, c: Common) {
    && Member("occurredAtIso", JString(c.occurredAtIso)) in ms && Says(ms, "buildVersion", c.buildVersion, 64)
    && Member("os", JString(c.os)) in ms && Member("arch", JString(c.arch)) in ms
  }

  lemma CommonSays(c: Common)
    ensures CommonSaid(CommonMembers(c), c)
  {
  }

  predicate CorrelationSaid(ms: seq<Member>, c: Correlation) {
    && (c.role != "" ==> Says(ms, "role", c.role, 16)) && (c.serverId != "" ==> Says(ms, "serverId", c.serverId, 128))
    && (c.matchId != "" ==> Says(ms, "matchId", c.matchId, 128))
    && (c.sessionId != "" ==> Says(ms, "sessionId", c.sessionId, 64))
  }

  lemma CorrelationSays(c: Correlation)
    ensures CorrelationSaid(CorrelationMembers(c), c)
  {
  }

  predicate MachineSaid(ms: seq<Member>, d: Device) {
    && (d.model != "" ==> Says(ms, "model", d.model, 256)) && (d.kind != "" ==> Says(ms, "type", d.kind, 32))
    && (d.os != "" ==> Says(ms, "os", d.os, 256)) && (d.osFamily != "" ==> Says(ms, "osFamily", d.osFamily, 48))
    && (d.cpu != "" ==> Says(ms, "cpu", d.cpu, 256))
    && (d.cpuCount > 0 ==> Member("cpuCount", JToken(IntText(d.cpuCount))) in ms)
    && (d.ramMb > 0 ==> Member("ramMB", JToken(IntText(d.ramMb))) in ms)
  }

  lemma MachineSays(d: Device)
    ensures MachineSaid(MachineMembers(d), d)
  {
  }

  predicate GpuSaid(ms: seq<Member>, d: Device) {
    && (d.gpu != "" ==> Says(ms, "gpu", d.gpu, 256))
    && (d.gpuVendor != "" ==> Says(ms, "gpuVendor", d.gpuVendor, 256))
    && (d.gpuVersion != "" ==> Says(ms, "gpuVersion", d.gpuVersion, 256))
    && (d.gpuApi != "" ==> Says(ms, "gpuApi", d.gpuApi, 64))
    && (d.vramMb > 0 ==> Member("vramMB", JToken(IntText(d.vramMb))) in ms)
  }

  lemma GpuSays(d: Device)
    ensures GpuSaid(GpuMembers(d), d)
  {
  }

  predicate ScreenSaid(ms: seq<Member>, d: Device) {
    && (d.screen != "" ==> Says(ms, "screen", d.screen, 32))
    && (d.screenDpi.Some? ==> Member("screenDpi", JToken(d.screenDpi.value)) in ms)
    && (d.refreshRate.Some? ==> Member("refreshRate", JToken(d.refreshRate.value)) in ms)
    && (d.orientation != "" ==> Says(ms, "orientation", d.orientation, 32))
    && (d.fullscreen ==> Member("fullscreen", JToken("true")) in ms)
  }

  lemma ScreenSays(d: Device)
    ensures ScreenSaid(ScreenMembers(d), d)
  {
  }

  predicate RuntimeSaid(ms: seq<Member>, d: Device) {
    && (d.language != "" ==> Says(ms, "language", d.language, 48))
    && (d.engine != "" ==> Says(ms, "engine", d.engine, 48))
    && (d.scriptingBackend != "" ==> Says(ms, "scriptingBackend", d.scriptingBackend, 32))
    && (d.platform != "" ==> Says(ms, "platform", d.platform, 48))
  }

  lemma RuntimeSays(d: Device)
    ensures RuntimeSaid(RuntimeMembers(d), d)
  {
  }

  predicate PlayerSaid(ms: seq<Member>, userId: string, priorUserId: string, steamId: string) {
    && (userId != "" ==> Says(ms, "userId", userId, 128))
    && (priorUserId != "" ==> Says(ms, "priorUserId", priorUserId, 128))
    && (steamId != "" ==> Says(ms, "steamId", steamId, 32))
  }

  lemma PlayerSays(userId: string, priorUserId: string, steamId: string)
    ensures PlayerSaid(PlayerMembers(userId, priorUserId, steamId), userId, priorUserId, steamId)
  {
  }

  /** Everything known of the machine. */
  predicate DeviceSaid(ms: seq<Member>, d: Device) {
    MachineSaid(ms, d) && GpuSaid(ms, d) && ScreenSaid(ms, d) && RuntimeSaid(ms, d)
  }

  lemma DeviceSays(d: Device)
    ensures DeviceSaid(DeviceFields(d), d)
  {
    MachineSays(d);
    GpuSays(d);
    ScreenSays(d);
    RuntimeSays(d);
  }

  /** What both kinds of report say: when and where, who, in which match, on which machine, and whether a log is there. */
  ghost predicate ReportSaid(ms: seq<Member>, c: Common, at: Correlation, environment: string, d: Device,
                       userId: string, priorUserId: string, steamId: string, crumbs: seq<Breadcrumb>, log: bool) {
    && CommonSaid(ms, c) && CorrelationSaid(ms, at) && PlayerSaid(ms, userId, priorUserId, steamId)
    && (environment != "" ==> Says(ms, "environment", environment, 64))
    && (exists fields :: (fields == [] || Member("device", JObject(fields)) in ms) && DeviceSaid(fields, d))
    && (crumbs != [] ==> exists trees :: Member("breadcrumbs", JArray(trees)) in ms && CrumbsSaid(trees, crumbs))
    && Member("log", JToken(if log then "true" else "false")) in ms
  }

  predicate CrumbsSaid(trees: seq<Json>, crumbs: seq<Breadcrumb>) {
    |trees| == |crumbs| && forall i :: 0 <= i < |crumbs| ==> trees[i].JObject? && CrumbSaid(trees[i].members, crumbs[i])
  }

  predicate CrumbSaid(ms: seq<Member>, c: Breadcrumb) {
    && (c.tsIso != "" ==> Member("tsIso", JString(c.tsIso)) in ms)
    && Says(ms, "level", c.level, 16) && Says(ms, "message", c.message, 512)
  }

  lemma {:induction false} CrumbsSay(crumbs: seq<Breadcrumb>)
    ensures CrumbsSaid(CrumbTrees(crumbs), crumbs)
  {
    if crumbs != [] {
      CrumbsSay(crumbs[..|crumbs| - 1]);
    }
  }

  ghost predicate CrashSaid(ms: seq<Member>, p: CrashPayload) {
    && ReportSaid(ms, p.common, p.correlation, p.environment, p.device, p.userId, p.priorUserId, p.steamId, p.breadcrumbs, p.log)
    && Says(ms, "signature", p.signature, 128) && Says(ms, "stackHint", p.stackHint, 512)
    && (p.stackTrace != "" ==> Says(ms, "stackTrace", p.stackTrace, 8192))
    && (p.crashType != "" ==> Says(ms, "crashType", p.crashType, 128))
    && (p.osSignal > 0 ==> Member("osSignal", JToken(IntText(p.osSignal))) in ms)
  }

  ghost predicate BugSaid(ms: seq<Member>, p: BugReportPayload) {
    && ReportSaid(ms, p.common, p.correlation, p.environment, p.device, p.userId, p.priorUserId, p.steamId, p.breadcrumbs, p.log)
    && (p.category != "" ==> Says(ms, "category", p.category, 32)) && Says(ms, "message", p.message, 4000)
  }

  lemma NoDevice(d: Device)
    requires !DeviceHasContent(d)
    ensures DeviceSaid([], d)
  {
  }

  lemma CrashTreeSays(p: CrashPayload)
    ensures CrashSaid(CrashTree(p).members, p)
  {
    CommonSays(p.common);
    CorrelationSays(p.correlation);
    PlayerSays(p.userId, p.priorUserId, p.steamId);
    if DeviceHasContent(p.device) {
      DeviceSays(p.device);
    } else {
      NoDevice(p.device);
    }
    CrumbsSay(p.breadcrumbs);
  }

  lemma BugTreeSays(p: BugReportPayload)
    ensures BugSaid(BugTree(p).members, p)
  {
    CommonSays(p.common);
    CorrelationSays(p.correlation);
    PlayerSays(p.userId, p.priorUserId, p.steamId);
    if DeviceHasContent(p.device) {
      DeviceSays(p.device);
    } else {
      NoDevice(p.device);
    }
    CrumbsSay(p.breadcrumbs);
  }

  /**
   * A parser of RFC 8259 reads from a crash report's body every attribute the payload has, under its
   * name and cut to its limit, whatever characters are in it.
   */
  lemma CrashBodySays(p: CrashPayload)
    ensures exists ms :: JsonParse.Parse(Print(CrashTree(p))) == Some(JObject(ms)) && CrashSaid(ms, p)
  {
    LogFlagOfCrash(p);
    JsonParse.ParseOfPrint(CrashTree(p));
    CrashTreeSays(p);
    assert CrashTree(p) == JObject(CrashTree(p).members);
  }

  /** And from a bug report's. */
  lemma BugBodySays(p: BugReportPayload)
    ensures exists ms :: JsonParse.Parse(Print(BugTree(p))) == Some(JObject(ms)) && BugSaid(ms, p)
  {
    LogFlagOfBug(p);
    JsonParse.ParseOfPrint(BugTree(p));
    BugTreeSays(p);
    assert BugTree(p) == JObject(BugTree(p).members);
  }
}
