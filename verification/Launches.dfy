/**
 * Death reports over many launches (src/client.cpp, src/session_marker.cpp, src/native_crash.cpp):
 * the marker a tracked session leaves while it runs, the dump a signal leaves, and the report the
 * next tracked launch makes of them. A launch can be killed between any two of its steps, and every
 * operation on the marker and the dump can fail.
 */
module Launches {
  import opened Base

  /** Sessions are named by the launch that started them. */
  type Session = nat

  datatype Report = Synthetic(dead: Session, reporter: Session) | Native(dead: Session, reporter: Session, dumpOf: Session)

  datatype Phase = AtMarker | AtDump | AtHandler | AtSidecars | Running

  /** How far session tracking has come: not asked for, marked as begun, past the marker, finished. */
  datatype Tracking = Untracked | Begun | Marked | Done

  datatype Client = Client(
    session: Session, detect: bool, native: bool,     // identity and options
    phase: Phase, tracking: Tracking,
    previousMarker: Option<Session>, previousDump: Option<Session>,
    handlerInstalled: bool, restored: set<Session>)   // sessions of the restored crash files

  /** Whether a file can be opened, whether it can be removed, and whether signal actions can be registered. */
  datatype Io = Io(opens: bool, removes: bool, hooks: bool)

  const WORKS := Io(true, true, true)
  const READ_ONLY := Io(true, false, true)

  /**
   * The data directory - crash files by the session whose crash they hold - the process if one runs,
   * and what has happened: the reports, the sessions that
   * exited cleanly, wrote a marker, restored a crash or installed the handler, and for every marker how
   * often it was still there after it should have been taken or deleted.
   */
  datatype World = World(
    marker: Option<Session>, dump: Option<Session>, crashFiles: multiset<Session>,
    client: Option<Client>, next: Session,
    reports: seq<Report>, exited: set<Session>, tracked: set<Session>, restorers: set<Session>,
    handlers: set<Session>, kept: multiset<Session>)

  datatype Step =
    | Launch(detect: bool, native: bool)
    | Proceed(io: Io)            // the next step of the start-up sequence
    | Track                      // consent is there, at start or later
    | WriteMarker(opens: bool)
    | MakeReport(stores: bool)   // the report gets a file if one can be written
    | StoreCrash                 // a captured crash gets a file
    | SettleCrash(of: Session)   // the server has answered for a crash file
    | Die(signalled: bool)
    | Exit(signalled: bool, removes: bool)  // clean shutdown; a signal may still come after it

  const EMPTY := World(None, None, multiset{}, None, 0, [], {}, {}, {}, {}, multiset{})

  // ------------------------------------------------- the client's steps

  /** The marker on disk after it was read and deleted, or only deleted. */
  function MarkerLeft(marker: Option<Session>, detect: bool, io: Io): Option<Session> {
    if io.removes && (detect ==> io.opens) then None else marker
  }

  function TakenMarker(marker: Option<Session>, detect: bool, io: Io): Option<Session> {
    if detect && io.opens then marker else None
  }

  function DumpLeft(dump: Option<Session>, native: bool, io: Io): Option<Session> {
    if native && io.removes then None else dump
  }

  function TakenDump(dump: Option<Session>, native: bool, io: Io): Option<Session> {
    if native && io.opens then dump else None
  }

  /** Opening the dump file for the handler empties it. */
  function Installed(dump: Option<Session>, native: bool, io: Io): Option<Session> {
    if native && io.opens then None else dump
  }

  function Kept(kept: multiset<Session>, left: Option<Session>): (k: multiset<Session>)
    ensures kept <= k && (left.Some? ==> k != multiset{})
  {
    if left.Some? then kept + multiset{left.value} else kept
  }

  /** The sessions whose crashes a scan restores. */
  function Restored(files: multiset<Session>, io: Io): set<Session> { if io.opens then set s | s in files else {} }

  /** One step of start-up: marker, dump, handler, then the restored crash files. */
  function Started(w: World, c: Client, io: Io): (w': World)
    ensures w'.client.Some? || c.phase == Running
  {
    match c.phase
    case AtMarker =>
      var left := MarkerLeft(w.marker, c.detect, io);
      w.(marker := left, kept := Kept(w.kept, left),
         client := Some(c.(phase := AtDump, previousMarker := TakenMarker(w.marker, c.detect, io))))
    case AtDump =>
      w.(dump := DumpLeft(w.dump, c.native, io),
         client := Some(c.(phase := AtHandler, previousDump := TakenDump(w.dump, c.native, io))))
    case AtHandler =>
      var on := c.native && io.opens && io.hooks;
      w.(dump := Installed(w.dump, c.native, io), handlers := if on then w.handlers + {c.session} else w.handlers,
         client := Some(c.(phase := AtSidecars, handlerInstalled := on)))
    case AtSidecars =>
      var restored := Restored(w.crashFiles, io);
      w.(client := Some(c.(phase := Running, restored := restored)),
         restorers := if restored != {} then w.restorers + {c.session} else w.restorers)
    case Running => w
  }

  /** What the four steps of start-up come to, each operation with its own outcome. */
  function Ready(w: World, c: Client, marking: Io, dumping: Io, handling: Io, scanning: Io): World {
    var left := MarkerLeft(w.marker, c.detect, marking);
    var on, restored := c.native && handling.opens && handling.hooks, Restored(w.crashFiles, scanning);
    w.(marker := left, kept := Kept(w.kept, left), dump := Installed(DumpLeft(w.dump, c.native, dumping), c.native, handling),
       handlers := if on then w.handlers + {c.session} else w.handlers,
       restorers := if restored != {} then w.restorers + {c.session} else w.restorers,
       client := Some(c.(phase := Running, previousMarker := TakenMarker(w.marker, c.detect, marking),
                         previousDump := TakenDump(w.dump, c.native, dumping), handlerInstalled := on, restored := restored)))
  }

  lemma StartUpIsReady(w: World, c: Client, marking: Io, dumping: Io, handling: Io, scanning: Io)
    requires c.phase == AtMarker
    ensures var w1 := Started(w, c, marking);
            var w2 := Started(w1, w1.client.value, dumping);
            var w3 := Started(w2, w2.client.value, handling);
            Started(w3, w3.client.value, scanning) == Ready(w, c, marking, dumping, handling, scanning)
  {
  }

  function MarkerWritten(w: World, c: Client, opens: bool): World {
    if opens then w.(marker := Some(c.session), tracked := w.tracked + {c.session}, client := Some(c.(tracking := Marked)))
    else w.(client := Some(c.(tracking := Marked)))
  }

  /** A restored crash stands for the death; a dump beats the synthetic report. */
  function ReportOf(c: Client): Option<Report> {
    if c.previousMarker.None? || c.restored != {} then None
    else if c.previousDump.Some? then Some(Native(c.previousMarker.value, c.session, c.previousDump.value))
    else Some(Synthetic(c.previousMarker.value, c.session))
  }

  function Reported(w: World, c: Client, stores: bool): World {
    var done := c.(tracking := Done, previousMarker := None,
                   previousDump := if c.previousMarker.Some? then None else c.previousDump);
    match ReportOf(c)
    case None => w.(client := Some(done))
    case Some(r) => w.(client := Some(done), reports := w.reports + [r],
                        crashFiles := if stores then w.crashFiles + multiset{r.dead} else w.crashFiles)
  }

  /** Session tracking from its beginning to its end. */
  function TrackedWorld(w: World, c: Client, opens: bool, stores: bool): (w': World)
    ensures w'.client.Some?
  {
    var written := MarkerWritten(w, c.(tracking := Begun), opens);
    Reported(written, written.client.value, stores)
  }

  // ------------------------------------------------- the code

  /** The parts of the client that decide about a death report, over the files they read and write. */
  class SessionTracker {
    var marker: Option<Session>
    var dump: Option<Session>
    var crashFiles: multiset<Session>
    const session: Session
    const uncleanDetectionEnabled: bool
    const nativeCrashEnabled: bool
    var previousMarker: Option<Session>
    var previousNativeDump: Option<Session>
    var handlerInstalled: bool
    var hasRestoredCrash: bool
    var sessionTrackingStarted: bool

    constructor (w: World, id: Session, detect: bool, native: bool)
      ensures marker == w.marker && dump == w.dump && crashFiles == w.crashFiles
      ensures session == id && uncleanDetectionEnabled == detect && nativeCrashEnabled == native
      ensures previousMarker == None && previousNativeDump == None
      ensures !handlerInstalled && !hasRestoredCrash && !sessionTrackingStarted
    {
      marker, dump, crashFiles := w.marker, w.dump, w.crashFiles;
      session, uncleanDetectionEnabled, nativeCrashEnabled := id, detect, native;
      previousMarker, previousNativeDump := None, None;
      handlerInstalled, hasRestoredCrash, sessionTrackingStarted := false, false, false;
    }

    /** The tracker's fields agree with a client in a world. */
    ghost predicate Is(w: World, c: Client)
      reads this
    {
      && marker == w.marker && dump == w.dump && crashFiles == w.crashFiles && w.client == Some(c)
      && session == c.session && uncleanDetectionEnabled == c.detect && nativeCrashEnabled == c.native
      && previousMarker == c.previousMarker && previousNativeDump == c.previousDump
      && handlerInstalled == c.handlerInstalled && hasRestoredCrash == (c.restored != {})
      && sessionTrackingStarted == (c.tracking != Untracked)
    }

    /** The straight-line start-up does what its four steps do. */
    method Initialise(ghost w: World, ghost c: Client, marking: Io, dumping: Io, handling: Io, scanning: Io)
      requires Is(w, c) && !handlerInstalled && previousMarker == None && previousNativeDump == None
      modifies this
      ensures var w' := Ready(w, c, marking, dumping, handling, scanning); Is(w', w'.client.value)
    {
      Configure(marking, dumping, handling);
      DrainSidecars(scanning);
      ReadyIs(this, w, c, marking, dumping, handling, scanning);
    }

    /** The storage, and then the handler if it is wanted. */
    method Configure(marking: Io, dumping: Io, handling: Io)
      requires previousMarker == None && previousNativeDump == None && !handlerInstalled
      modifies `marker, `dump, `previousMarker, `previousNativeDump, `handlerInstalled
      ensures marker == MarkerLeft(old(marker), uncleanDetectionEnabled, marking)
      ensures previousMarker == TakenMarker(old(marker), uncleanDetectionEnabled, marking)
      ensures dump == Installed(DumpLeft(old(dump), nativeCrashEnabled, dumping), nativeCrashEnabled, handling)
      ensures previousNativeDump == TakenDump(old(dump), nativeCrashEnabled, dumping)
      ensures handlerInstalled == (nativeCrashEnabled && handling.opens && handling.hooks)
    {
      ConfigureStorage(marking, dumping);
      if nativeCrashEnabled {
        Install(handling);
      }
    }

    /** Whether any crash file came back, whosever it is. */
    method DrainSidecars(scanning: Io)
      modifies `hasRestoredCrash
      ensures hasRestoredCrash == (Restored(crashFiles, scanning) != {})
    {
      hasRestoredCrash := scanning.opens && crashFiles != multiset{};
      SomeOwner(crashFiles);
    }

    /**
     * The dump file is opened for writing, and so emptied; without it, or when no signal action can be
     * registered, there is no handler.
     */
    method Install(io: Io)
      modifies `dump, `handlerInstalled
      ensures dump == (if io.opens then None else old(dump))
      ensures handlerInstalled == ((io.opens && io.hooks) || old(handlerInstalled))
    {
      if !io.opens {
        return;
      }
      dump := None;
      if !io.hooks {
        return;
      }
      handlerInstalled := true;
    }

    method ConfigureStorage(marking: Io, dumping: Io)
      requires previousMarker == None && previousNativeDump == None
      modifies `marker, `dump, `previousMarker, `previousNativeDump
      ensures marker == MarkerLeft(old(marker), uncleanDetectionEnabled, marking)
      ensures previousMarker == TakenMarker(old(marker), uncleanDetectionEnabled, marking)
      ensures dump == DumpLeft(old(dump), nativeCrashEnabled, dumping)
      ensures previousNativeDump == TakenDump(old(dump), nativeCrashEnabled, dumping)
    {
      if uncleanDetectionEnabled {
        if marking.opens {
          previousMarker := marker;
          if marking.removes {
            marker := None;
          }
        }
      } else if marking.removes {
        marker := None;
      }
      if nativeCrashEnabled {
        if dumping.opens {
          previousNativeDump := dump;
        }
        if dumping.removes {
          dump := None;
        }
      }
    }

    method StartSessionTracking(ghost w: World, ghost c: Client, opens: bool, stores: bool) returns (r: Option<Report>)
      requires Is(w, c) && c.phase == Running
      modifies this
      ensures c.tracking != Untracked || !c.detect ==> r == None && Is(w, c)
      ensures c.tracking == Untracked && c.detect ==> r == ReportOf(c)
      ensures c.tracking == Untracked && c.detect ==> var w' := TrackedWorld(w, c, opens, stores); Is(w', w'.client.value)
    {
      if sessionTrackingStarted || !uncleanDetectionEnabled {
        return None;
      }
      r := TrackSession(opens, stores);
      TrackedIs(this, w, c, opens, stores);
    }

    /** This session's marker, and then the report of the last one's death. */
    method TrackSession(opens: bool, stores: bool) returns (r: Option<Report>)
      modifies `marker, `crashFiles, `previousMarker, `previousNativeDump, `sessionTrackingStarted
      ensures sessionTrackingStarted && previousMarker == None
      ensures marker == if opens then Some(session) else old(marker)
      ensures previousNativeDump == if old(previousMarker).Some? then None else old(previousNativeDump)
      ensures r == if old(previousMarker).None? || hasRestoredCrash then None
                   else if old(previousNativeDump).Some?
                   then Some(Native(old(previousMarker).value, session, old(previousNativeDump).value))
                   else Some(Synthetic(old(previousMarker).value, session))
      ensures crashFiles == if r.Some? && stores then old(crashFiles) + multiset{r.value.dead} else old(crashFiles)
    {
      r := None;
      sessionTrackingStarted := true;
      if opens {
        marker := Some(session);
      }
      if previousMarker.Some? {
        var previous := previousMarker.value;
        previousMarker := None;
        r := ReportUncleanShutdown(previous, stores);
      }
    }

    method ReportUncleanShutdown(previous: Session, stores: bool) returns (r: Option<Report>)
      modifies `previousNativeDump, `crashFiles
      ensures previousNativeDump == None
      ensures r == if hasRestoredCrash then None
                   else if old(previousNativeDump).Some? then Some(Native(previous, session, old(previousNativeDump).value))
                   else Some(Synthetic(previous, session))
      ensures crashFiles == if r.Some? && stores then old(crashFiles) + multiset{previous} else old(crashFiles)
    {
      if hasRestoredCrash {
        previousNativeDump := None;
        return None;
      }
      if previousNativeDump.Some? {
        var d := previousNativeDump.value;
        previousNativeDump := None;
        r := Some(Native(previous, session, d));
      } else {
        r := Some(Synthetic(previous, session));
      }
      if stores {
        crashFiles := crashFiles + multiset{previous};
      }
    }

    /** The clean shutdown's last step. */
    method RemoveMarker(removes: bool)
      modifies `marker
      ensures marker == if removes then None else old(marker)
    {
      if removes {
        marker := None;
      }
    }
  }

  lemma SomeOwner(files: multiset<Session>)
    ensures files != multiset{} <==> (set s | s in files) != {}
  {
    var owners := set s | s in files;
    if files != multiset{} {
      var s :| s in files;
      assert s in owners;
    } else {
      assert owners == {};
    }
  }

  lemma ReadyIs(t: SessionTracker, w: World, c: Client, marking: Io, dumping: Io, handling: Io, scanning: Io)
    requires t.session == c.session && t.uncleanDetectionEnabled == c.detect && t.nativeCrashEnabled == c.native
    requires t.crashFiles == w.crashFiles && t.sessionTrackingStarted == (c.tracking != Untracked)
    requires t.marker == MarkerLeft(w.marker, c.detect, marking)
    requires t.previousMarker == TakenMarker(w.marker, c.detect, marking)
    requires t.dump == Installed(DumpLeft(w.dump, c.native, dumping), c.native, handling)
    requires t.previousNativeDump == TakenDump(w.dump, c.native, dumping)
    requires t.handlerInstalled == (c.native && handling.opens && handling.hooks)
    requires t.hasRestoredCrash == (Restored(w.crashFiles, scanning) != {})
    ensures var w' := Ready(w, c, marking, dumping, handling, scanning); t.Is(w', w'.client.value)
  {
  }

  lemma TrackedIs(t: SessionTracker, w: World, c: Client, opens: bool, stores: bool)
    requires t.session == c.session && t.uncleanDetectionEnabled == c.detect && t.nativeCrashEnabled == c.native
    requires t.marker == (if opens then Some(c.session) else w.marker) && t.dump == w.dump && t.sessionTrackingStarted
    requires t.crashFiles == if ReportOf(c).Some? && stores then w.crashFiles + multiset{c.previousMarker.value} else w.crashFiles
    requires t.previousMarker == None && t.previousNativeDump == if c.previousMarker.Some? then None else c.previousDump
    requires t.handlerInstalled == c.handlerInstalled && t.hasRestoredCrash == (c.restored != {})
    ensures var w' := TrackedWorld(w, c, opens, stores); t.Is(w', w'.client.value)
  {
  }

  // ------------------------------------------------- runs

  predicate Enabled(w: World, e: Step) {
    match e
    case Launch(_, _) => w.client == None
    case Proceed(_) => w.client.Some? && w.client.value.phase != Running
    case Track => w.client.Some? && w.client.value.phase == Running && w.client.value.tracking == Untracked && w.client.value.detect
    case WriteMarker(_) => w.client.Some? && w.client.value.tracking == Begun
    case MakeReport(_) => w.client.Some? && w.client.value.tracking == Marked
    case StoreCrash => w.client.Some? && w.client.value.phase == Running
    case SettleCrash(of) => w.client.Some? && of in w.crashFiles
    case Die(_) => w.client.Some?
    case Exit(_, _) =>
      w.client.Some? && w.client.value.phase == Running && (w.client.value.tracking.Untracked? || w.client.value.tracking.Done?)
  }

  function Launched(w: World, detect: bool, native: bool): Client {
    Client(w.next, detect, native, AtMarker, Untracked, None, None, false, {})
  }

  /** A signal leaves a dump where the handler is installed. */
  function DumpAtDeath(w: World, c: Client, signalled: bool): Option<Session> {
    if signalled && c.handlerInstalled then Some(c.session) else w.dump
  }

  function Next(w: World, e: Step): World
    requires Enabled(w, e)
  {
    match e
    case Launch(detect, native) =>
      w.(client := Some(Launched(w, detect, native)), next := w.next + 1)
    case Proceed(io) => Started(w, w.client.value, io)
    case Track => w.(client := Some(w.client.value.(tracking := Begun)))
    case WriteMarker(opens) => MarkerWritten(w, w.client.value, opens)
    case MakeReport(stores) => Reported(w, w.client.value, stores)
    case StoreCrash => w.(crashFiles := w.crashFiles + multiset{w.client.value.session})
    case SettleCrash(of) => w.(crashFiles := w.crashFiles - multiset{of})
    case Die(signalled) => w.(client := None, dump := DumpAtDeath(w, w.client.value, signalled))
    case Exit(signalled, removes) =>
      var left := if removes then None else w.marker;
      w.(client := None, marker := left, kept := Kept(w.kept, left), dump := DumpAtDeath(w, w.client.value, signalled),
         exited := w.exited + {w.client.value.session})
  }

  predicate Possible(w: World, run: seq<Step>)
    decreases |run|
  {
    run == [] || (Enabled(w, run[0]) && Possible(Next(w, run[0]), run[1..]))
  }

  function After(w: World, run: seq<Step>): World
    requires Possible(w, run)
    decreases |run|
  {
    if run == [] then w else After(Next(w, run[0]), run[1..])
  }

  // ------------------------------------------------- one report per tracked session

  function ReportsOf(rs: seq<Report>, s: Session): nat {
    if rs == [] then 0 else ReportsOf(rs[..|rs| - 1], s) + if rs[|rs| - 1].dead == s then 1 else 0
  }

  /** The session's death: still on disk, taken up by a client, or reported. */
  function Traces(w: World, s: Session): nat {
    (if w.marker == Some(s) then 1 else 0)
    + (if w.client.Some? && w.client.value.previousMarker == Some(s) then 1 else 0)
    + ReportsOf(w.reports, s)
  }

  /** How many traces a session may have: one if it died uncleanly, and one more for each time its marker was kept. */
  function Allowed(w: World, s: Session): nat {
    (if s in w.tracked && s !in w.exited then 1 else 0) + w.kept[s]
  }

  ghost predicate Bounds(w: World) {
    && (forall s :: s in w.kept ==> s in w.tracked)
    && (w.marker.Some? ==> w.marker.value in w.tracked)
    && (forall s :: s in w.tracked || s in w.exited || s in w.restorers ==> s < w.next)
    && (forall i :: 0 <= i < |w.reports| ==> w.reports[i].reporter !in w.restorers && w.reports[i].reporter < w.next)
    && (w.client.Some? ==> ClientInv(w, w.client.value))
  }

  ghost predicate Inv(w: World) {
    Bounds(w) && forall s: Session :: Traces(w, s) <= Allowed(w, s)
  }

  predicate ClientInv(w: World, c: Client) {
    && c.session < w.next && c.session !in w.exited
    && (c.phase == AtMarker ==> c.previousMarker == None)
    && (c.tracking.Untracked? || c.tracking.Begun? ==> c.session !in w.tracked)
    && (c.session in w.tracked ==> w.marker == Some(c.session))
    && (c.phase != Running ==> c.tracking == Untracked && c.session !in w.restorers && NoReportBy(w, c.session))
    && (c.phase == Running && c.restored == {} ==> c.session !in w.restorers)
    && (c.restored != {} ==> NoReportBy(w, c.session))
  }

  predicate NoReportBy(w: World, s: Session) { forall i :: 0 <= i < |w.reports| ==> w.reports[i].reporter != s }

  lemma ReportPush(rs: seq<Report>, r: Report, s: Session)
    ensures ReportsOf(rs + [r], s) == ReportsOf(rs, s) + if r.dead == s then 1 else 0
  {
    assert (rs + [r])[..|rs|] == rs;
  }

  lemma ReportKeepsTraces(w: World, stores: bool, s: Session)
    requires Inv(w) && Enabled(w, MakeReport(stores))
    ensures Traces(Next(w, MakeReport(stores)), s) <= Traces(w, s)
  {
    if ReportOf(w.client.value).Some? {
      ReportPush(w.reports, ReportOf(w.client.value).value, s);
    }
  }

  lemma StepKeepsTraces(w: World, e: Step, s: Session)
    requires Inv(w) && Enabled(w, e)
    ensures Traces(Next(w, e), s) <= Allowed(Next(w, e), s)
  {
    assert Traces(w, s) <= Allowed(w, s);
    if e.MakeReport? {
      ReportKeepsTraces(w, e.stores, s);
    } else if e.WriteMarker? {
      assert w.client.value.session !in w.kept;
    }
  }

  lemma ProceedKeepsBounds(w: World, io: Io)
    requires Bounds(w) && Enabled(w, Proceed(io))
    ensures Bounds(Next(w, Proceed(io)))
  {
  }

  lemma ReportKeepsBounds(w: World, stores: bool)
    requires Bounds(w) && Enabled(w, MakeReport(stores))
    ensures Bounds(Next(w, MakeReport(stores)))
  {
  }

  lemma WriteKeepsBounds(w: World, opens: bool)
    requires Bounds(w) && Enabled(w, WriteMarker(opens))
    ensures Bounds(Next(w, WriteMarker(opens)))
  {
  }

  lemma StepKeepsBounds(w: World, e: Step)
    requires Bounds(w) && Enabled(w, e)
    ensures Bounds(Next(w, e))
  {
    match e
    case Proceed(io) => ProceedKeepsBounds(w, io);
    case MakeReport(stores) => ReportKeepsBounds(w, stores);
    case WriteMarker(opens) => WriteKeepsBounds(w, opens);
    case _ =>
  }

  lemma StepKeepsInv(w: World, e: Step)
    requires Inv(w) && Enabled(w, e)
    ensures Inv(Next(w, e))
  {
    StepKeepsBounds(w, e);
    forall s: Session
      ensures Traces(Next(w, e), s) <= Allowed(Next(w, e), s)
    {
      StepKeepsTraces(w, e, s);
    }
  }

  lemma {:induction false} RunKeepsInv(w: World, run: seq<Step>)
    requires Inv(w) && Possible(w, run)
    ensures Inv(After(w, run))
    decreases |run|
  {
    if run != [] {
      StepKeepsInv(w, run[0]);
      RunKeepsInv(Next(w, run[0]), run[1..]);
    }
  }

  /**
   * Over any launches, kills, exits and failing file operations: a session is reported dead once at
   * most, only if it was tracked, and never if it exited cleanly - but for one report more each time
   * its marker outlived the step that should have taken or deleted it. No launch that restored a
   * crash reports anything.
   */
  lemma AtMostOneDeathReport(run: seq<Step>, s: Session)
    requires Possible(EMPTY, run)
    ensures var w := After(EMPTY, run);
            && ReportsOf(w.reports, s) <= (if s in w.tracked && s !in w.exited then 1 else 0) + w.kept[s]
            && (forall i :: 0 <= i < |w.reports| ==> w.reports[i].reporter !in w.restorers)
  {
    RunKeepsInv(EMPTY, run);
    var w := After(EMPTY, run);
    assert ReportsOf(w.reports, s) <= Traces(w, s) <= Allowed(w, s);
  }

  // ------------------------------------------------- and one report at least

  /** The process goes on, and what it opens at start-up can be opened. */
  predicate GoesOn(run: seq<Step>) {
    forall i :: 0 <= i < |run| ==> !run[i].Die? && !run[i].Exit? && (run[i].Proceed? ==> run[i].io.opens)
  }

  predicate ReportedBy(rs: seq<Report>, dead: Session, reporter: Session) {
    exists i :: 0 <= i < |rs| && rs[i].dead == dead && rs[i].reporter == reporter
  }

  lemma OneMoreReport(rs: seq<Report>, r: Report, dead: Session, reporter: Session)
    ensures ReportedBy(rs + [r], dead, reporter) <==> ReportedBy(rs, dead, reporter) || (r.dead == dead && r.reporter == reporter)
  {
    var all := rs + [r];
    assert all[|rs|] == r && forall i :: 0 <= i < |rs| ==> all[i] == rs[i];
  }

  /**
   * A watching client on its way to the report of `s` or past it: `had` says that the marker it found
   * was that of `s`, and `n` how many reports of `s` there were.
   */
  predicate Watching(w: World, s: Session, had: bool, n: nat) {
    && w.client.Some?
    && var c := w.client.value;
    && c.detect && (had ==> s < c.session) && c.session < w.next
    && (c.phase != Running ==> c.tracking == Untracked)
    && (if c.phase == AtMarker then w.marker == Some(s) <==> had else had && w.marker == Some(s) ==> s in w.kept)
    && (!ReportedBy(w.reports, s, c.session) ==> ReportsOf(w.reports, s) == n)
    && (c.tracking.Done? ==> c.previousMarker == None)
    && (if c.tracking.Done? then ReportedBy(w.reports, s, c.session) <==> had && c.restored == {}
        else !ReportedBy(w.reports, s, c.session) && (c.phase != AtMarker ==> (c.previousMarker == Some(s) <==> had)))
  }

  lemma ReportShows(w: World, stores: bool, s: Session, had: bool, n: nat)
    requires Watching(w, s, had, n) && Enabled(w, MakeReport(stores)) && w.client.value.phase == Running
    ensures Watching(Next(w, MakeReport(stores)), s, had, n)
  {
    var c := w.client.value;
    if ReportOf(c).Some? {
      OneMoreReport(w.reports, ReportOf(c).value, s, c.session);
      ReportPush(w.reports, ReportOf(c).value, s);
    }
  }

  lemma StepKeepsWatching(w: World, e: Step, s: Session, had: bool, n: nat)
    requires Watching(w, s, had, n) && Enabled(w, e) && GoesOn([e])
    ensures Watching(Next(w, e), s, had, n) && Next(w, e).client.value.session == w.client.value.session
  {
    assert [e][0] == e;
    if e.MakeReport? {
      ReportShows(w, e.stores, s, had, n);
    }
  }

  lemma {:induction false} RunKeepsWatching(w: World, run: seq<Step>, s: Session, had: bool, n: nat)
    requires Watching(w, s, had, n) && Possible(w, run) && GoesOn(run)
    ensures Watching(After(w, run), s, had, n) && After(w, run).client.value.session == w.client.value.session
    decreases |run|
  {
    if run != [] {
      assert [run[0]][0] == run[0];
      StepKeepsWatching(w, run[0], s, had, n);
      RunKeepsWatching(Next(w, run[0]), run[1..], s, had, n);
    }
  }

  lemma {:induction false} ReportCounts(rs: seq<Report>, i: nat)
    requires i < |rs|
    ensures ReportsOf(rs, rs[i].dead) >= 1
  {
    if i < |rs| - 1 {
      ReportCounts(rs[..|rs| - 1], i);
    }
  }

  /** A launch that watches for unclean deaths and has got through session tracking. */
  predicate Tracks(w: World, native: bool, run: seq<Step>) {
    && w.client == None
    && var launched := Next(w, Launch(true, native));
    && Possible(launched, run) && GoesOn(run)
    && After(launched, run).client.Some? && After(launched, run).client.value.tracking.Done?
  }

  function TrackedBy(w: World, native: bool, run: seq<Step>): World
    requires Tracks(w, native, run)
  {
    After(Next(w, Launch(true, native)), run)
  }

  /**
   * Such a launch reports a session exactly when the marker it finds on disk is that session's and it
   * restores no crash, however its steps fall and whatever cannot be written or removed.
   */
  lemma WatchingLaunchReports(before: seq<Step>, native: bool, run: seq<Step>, s: Session)
    requires Possible(EMPTY, before) && Tracks(After(EMPTY, before), native, run)
    ensures var w := After(EMPTY, before);
            var t := TrackedBy(w, native, run);
            ReportedBy(t.reports, s, w.next) <==> w.marker == Some(s) && t.client.value.restored == {}
  {
    var w := After(EMPTY, before);
    RunKeepsInv(EMPTY, before);
    RunKeepsWatching(Next(w, Launch(true, native)), run, s, w.marker == Some(s), ReportsOf(w.reports, s));
  }

  /** What a launch makes of the dump it finds: held until the report, and told by every report it makes. */
  predicate Telling(w: World, native: bool, found: Option<Session>) {
    && w.client.Some?
    && var c := w.client.value;
    && c.native == native && (c.phase != Running ==> c.tracking == Untracked)
    && (if c.phase == AtMarker || c.phase == AtDump then w.dump == found && c.previousDump == None
        else c.tracking.Done? || c.previousDump == if native then found else None)
    && forall i :: 0 <= i < |w.reports| && w.reports[i].reporter == c.session ==> Tells(w.reports[i], native, found)
  }

  predicate Tells(r: Report, native: bool, found: Option<Session>) {
    (r.Native? <==> native && found.Some?) && (r.Native? ==> found == Some(r.dumpOf))
  }

  lemma StepKeepsTelling(w: World, e: Step, native: bool, found: Option<Session>)
    requires Telling(w, native, found) && Enabled(w, e) && GoesOn([e])
    ensures Telling(Next(w, e), native, found) && Next(w, e).client.value.session == w.client.value.session
  {
    assert [e][0] == e;
  }

  lemma {:induction false} RunKeepsTelling(w: World, run: seq<Step>, native: bool, found: Option<Session>)
    requires Telling(w, native, found) && Possible(w, run) && GoesOn(run)
    ensures Telling(After(w, run), native, found) && After(w, run).client.value.session == w.client.value.session
    decreases |run|
  {
    if run != [] {
      assert [run[0]][0] == run[0];
      StepKeepsTelling(w, run[0], native, found);
      RunKeepsTelling(Next(w, run[0]), run[1..], native, found);
    }
  }

  /** Its report is a native one exactly when native crashes are watched and a dump was on disk, and tells that dump. */
  lemma ReportTellsDump(before: seq<Step>, native: bool, run: seq<Step>, i: nat)
    requires Possible(EMPTY, before) && Tracks(After(EMPTY, before), native, run)
    requires var w, t := After(EMPTY, before), TrackedBy(After(EMPTY, before), native, run);
             i < |t.reports| && t.reports[i].reporter == w.next
    ensures var w, t := After(EMPTY, before), TrackedBy(After(EMPTY, before), native, run);
            && (t.reports[i].Native? <==> native && w.dump.Some?)
            && (t.reports[i].Native? ==> w.dump == Some(t.reports[i].dumpOf))
  {
    hide Inv, Telling, After;
    var w := After(EMPTY, before);
    EmptyKeepsInv();
    RunKeepsInv(EMPTY, before);
    LaunchTells(w, native);
    RunKeepsTelling(Next(w, Launch(true, native)), run, native, w.dump);
    TellingReport(TrackedBy(w, native, run), native, w.dump, i);
  }

  lemma EmptyKeepsInv()
    ensures Inv(EMPTY)
  {
  }

  lemma LaunchTells(w: World, native: bool)
    requires Inv(w) && w.client == None
    ensures var t := Next(w, Launch(true, native)); Telling(t, native, w.dump) && t.client.value.session == w.next
  {
  }

  lemma TellingReport(t: World, native: bool, found: Option<Session>, i: nat)
    requires Telling(t, native, found) && i < |t.reports| && t.reports[i].reporter == t.client.value.session
    ensures (t.reports[i].Native? <==> native && found.Some?) && (t.reports[i].Native? ==> found == Some(t.reports[i].dumpOf))
  {
  }

  /**
   * A marker outlives the step that should have taken or deleted it exactly when it could not be removed,
   * or not be opened where it had to be read first; and a dump is gone once it could be removed after it was
   * read, or emptied for the new handler.
   */
  lemma LeftOnDisk(w: World, e: Step)
    requires Enabled(w, e)
    ensures var t := Next(w, e);
            && (t.kept != w.kept <==>
                  && w.marker.Some?
                  && ((e.Proceed? && w.client.value.phase == AtMarker && (!e.io.removes || (w.client.value.detect && !e.io.opens)))
                      || (e.Exit? && !e.removes)))
            && (e.Proceed? && w.client.value.phase == AtDump && w.client.value.native && e.io.removes ==> t.dump == None)
            && (e.Proceed? && w.client.value.phase == AtHandler && w.client.value.native && e.io.opens ==> t.dump == None)
  {
    if w.marker.Some? {
      assert (w.kept + multiset{w.marker.value})[w.marker.value] == w.kept[w.marker.value] + 1;
    }
  }

  /**
   * And it is a report too many - a second one, or one of a session that exited cleanly - only where
   * that marker outlived the step that should have taken or deleted it.
   */
  lemma RepeatNeedsKeptMarker(before: seq<Step>, s: Session)
    requires Possible(EMPTY, before)
    ensures var w := After(EMPTY, before);
            w.marker == Some(s) && (s in w.exited || ReportsOf(w.reports, s) > 0) ==> s in w.kept
  {
    RunKeepsInv(EMPTY, before);
    assert Traces(After(EMPTY, before), s) <= Allowed(After(EMPTY, before), s);
  }

  // ------------------------------------------------- what becomes of an unclean death

  /** The death is reported, or a restored crash of that very session stands for it. */
  predicate Represented(w: World, s: Session, reporter: Session)
    requires w.client.Some?
  {
    ReportedBy(w.reports, s, reporter) || s in w.client.value.restored
  }

  /** A tracked session is killed, or dies of a signal, at any moment. */
  predicate Dies(before: seq<Step>) {
    && Possible(EMPTY, before)
    && After(EMPTY, before).client.Some? && After(EMPTY, before).client.value.session in After(EMPTY, before).tracked
  }

  lemma DeathLeavesMarker(before: seq<Step>, signalled: bool)
    requires Dies(before)
    ensures var w := After(EMPTY, before);
            Next(w, Die(signalled)).marker == Some(w.client.value.session) && Possible(EMPTY, before + [Die(signalled)])
            && After(EMPTY, before + [Die(signalled)]) == Next(w, Die(signalled))
  {
    RunKeepsInv(EMPTY, before);
    OneMore(EMPTY, before, Die(signalled));
  }

  lemma {:induction false} OneMore(w: World, run: seq<Step>, e: Step)
    requires Possible(w, run) && Enabled(After(w, run), e)
    ensures Possible(w, run + [e]) && After(w, run + [e]) == Next(After(w, run), e)
    decreases |run|
  {
    if run == [] {
      assert run + [e] == [e];
    } else {
      assert (run + [e])[1..] == run[1..] + [e];
      OneMore(Next(w, run[0]), run[1..], e);
    }
  }

  /**
   * The next watching launch reports the death exactly when it restores no crash at all, and once in
   * all when the marker was never kept. So the death goes unrepresented exactly when crashes were
   * restored and every one of them is another session's.
   */
  lemma UncleanDeathIsReported(before: seq<Step>, signalled: bool, native: bool, run: seq<Step>)
    requires Dies(before) && Tracks(Next(After(EMPTY, before), Die(signalled)), native, run)
    ensures var w := After(EMPTY, before);
            var s, t := w.client.value.session, TrackedBy(Next(w, Die(signalled)), native, run);
            && (ReportedBy(t.reports, s, w.next) <==> t.client.value.restored == {})
            && (ReportedBy(t.reports, s, w.next) && s !in t.kept ==> ReportsOf(t.reports, s) == 1)
            && (!Represented(t, s, w.next) <==> t.client.value.restored != {} && s !in t.client.value.restored)
  {
    var w := After(EMPTY, before);
    var s, dead := w.client.value.session, Next(w, Die(signalled));
    var t := TrackedBy(dead, native, run);
    DeathLeavesMarker(before, signalled);
    WatchingLaunchReports(before + [Die(signalled)], native, run, s);
    ReportsWithin(before + [Die(signalled)], native, run, s);
    if ReportedBy(t.reports, s, w.next) {
      var i :| 0 <= i < |t.reports| && t.reports[i].dead == s && t.reports[i].reporter == w.next;
      ReportCounts(t.reports, i);
    }
  }

  lemma ReportsWithin(before: seq<Step>, native: bool, run: seq<Step>, s: Session)
    requires Possible(EMPTY, before) && Tracks(After(EMPTY, before), native, run)
    ensures Inv(TrackedBy(After(EMPTY, before), native, run))
    ensures Traces(TrackedBy(After(EMPTY, before), native, run), s) <= Allowed(TrackedBy(After(EMPTY, before), native, run), s)
  {
    var w := After(EMPTY, before);
    RunKeepsInv(EMPTY, before);
    StepKeepsInv(w, Launch(true, native));
    RunKeepsInv(Next(w, Launch(true, native)), run);
  }

  /** Nothing about the session is left that a launch could still report. */
  predicate Gone(w: World, s: Session) {
    s < w.next && w.marker != Some(s) && (w.client.Some? ==> w.client.value.session != s && w.client.value.previousMarker != Some(s))
  }

  lemma StepKeepsGone(w: World, e: Step, s: Session)
    requires Gone(w, s) && Enabled(w, e)
    ensures Gone(Next(w, e), s) && ReportsOf(Next(w, e).reports, s) == ReportsOf(w.reports, s)
  {
    if e.MakeReport? && ReportOf(w.client.value).Some? {
      ReportPush(w.reports, ReportOf(w.client.value).value, s);
    }
  }

  lemma {:induction false} RunKeepsGone(w: World, run: seq<Step>, s: Session)
    requires Gone(w, s) && Possible(w, run)
    ensures ReportsOf(After(w, run).reports, s) == ReportsOf(w.reports, s)
    decreases |run|
  {
    if run != [] {
      StepKeepsGone(w, run[0], s);
      RunKeepsGone(Next(w, run[0]), run[1..], s);
    }
  }

  /** What goes unrepresented then is never reported at all, unless the marker was kept. */
  lemma UnrepresentedForGood(before: seq<Step>, signalled: bool, native: bool, run: seq<Step>, later: seq<Step>)
    requires Dies(before) && Tracks(Next(After(EMPTY, before), Die(signalled)), native, run)
    requires var t := TrackedBy(Next(After(EMPTY, before), Die(signalled)), native, run);
             Possible(t, later) && After(EMPTY, before).client.value.session !in t.kept
             && !Represented(t, After(EMPTY, before).client.value.session, After(EMPTY, before).next)
    ensures var t := TrackedBy(Next(After(EMPTY, before), Die(signalled)), native, run);
            ReportsOf(After(t, later).reports, After(EMPTY, before).client.value.session) == 0
  {
    var w := After(EMPTY, before);
    var s, dead := w.client.value.session, Next(w, Die(signalled));
    var t := TrackedBy(dead, native, run);
    DeathLeavesMarker(before, signalled);
    RunKeepsInv(EMPTY, before);
    StepKeepsInv(w, Die(signalled));
    RunKeepsKept(Next(dead, Launch(true, native)), run);
    assert Traces(dead, s) <= Allowed(dead, s);
    RunKeepsWatching(Next(dead, Launch(true, native)), run, s, true, 0);
    RunKeepsGone(t, later, s);
  }

  // ------------------------------------------------- whose dump it is

  predicate NoneBetween(handlers: set<Session>, s: Session, before: Session) {
    forall h :: h in handlers ==> h <= s || before <= h
  }

  /** Of the sessions before `before`, `s` is the last that installed the handler. */
  predicate LastHandler(handlers: set<Session>, s: Session, before: Session) {
    s in handlers && NoneBetween(handlers, s, before)
  }

  /** A dump is of the last session that installed the handler, wherever it has come to. */
  predicate DumpInv(w: World) {
    && (w.dump.Some? ==> LastHandler(w.handlers, w.dump.value, w.next))
    && (forall h :: h in w.handlers ==> h < w.next)
    && (w.marker.Some? ==> w.marker.value < w.next)
    && (w.client.Some? ==> w.next == w.client.value.session + 1 && GoodClient(w.client.value, w.marker, w.handlers))
    && GoodReports(w.reports, w.handlers, w.next)
  }

  predicate GoodClient(c: Client, marker: Option<Session>, handlers: set<Session>) {
    && (c.phase != Running ==> c.tracking == Untracked)
    && (c.handlerInstalled ==> c.session in handlers)
    && (c.phase == AtMarker ==> c.previousMarker == None && (marker.Some? ==> marker.value < c.session))
    && (c.phase == AtMarker || c.phase == AtDump ==> c.previousDump == None && c.session !in handlers)
    && (c.previousMarker.Some? ==> c.previousMarker.value < c.session)
    && (c.previousDump.Some? ==> c.previousDump.value < c.session && LastHandler(handlers, c.previousDump.value, c.session))
  }

  predicate GoodReports(rs: seq<Report>, handlers: set<Session>, next: Session) {
    forall i :: 0 <= i < |rs| ==> GoodReport(rs[i], handlers, next)
  }

  predicate GoodReport(r: Report, handlers: set<Session>, next: Session) {
    r.dead < r.reporter < next && (r.Native? ==> r.dumpOf < r.reporter && LastHandler(handlers, r.dumpOf, r.reporter))
  }

  /** A later session that installs the handler changes nothing about earlier reports. */
  lemma ReportsStayGood(rs: seq<Report>, handlers: set<Session>, next: Session, handlers': set<Session>, next': Session)
    requires GoodReports(rs, handlers, next) && next <= next' && handlers <= handlers'
    requires forall h :: h in handlers' ==> h in handlers || next <= h + 1
    ensures GoodReports(rs, handlers', next')
  {
    forall i | 0 <= i < |rs|
      ensures GoodReport(rs[i], handlers', next')
    {
      assert GoodReport(rs[i], handlers, next);
    }
  }

  lemma OneMoreGoodReport(rs: seq<Report>, r: Report, handlers: set<Session>, next: Session)
    requires GoodReports(rs, handlers, next) && GoodReport(r, handlers, next)
    ensures GoodReports(rs + [r], handlers, next)
  {
    assert forall i :: 0 <= i < |rs| ==> GoodReport(rs[i], handlers, next);
  }

  lemma HandlerKeepsDump(w: World, io: Io)
    requires DumpInv(w) && Enabled(w, Proceed(io)) && w.client.value.phase == AtHandler
    ensures DumpInv(Next(w, Proceed(io)))
  {
    ReportsStayGood(w.reports, w.handlers, w.next, Next(w, Proceed(io)).handlers, w.next);
  }

  lemma PhaseKeepsDump(w: World, io: Io)
    requires DumpInv(w) && Enabled(w, Proceed(io)) && w.client.value.phase != AtHandler
    ensures DumpInv(Next(w, Proceed(io)))
  {
    match w.client.value.phase
    case AtMarker =>
    case AtDump =>
    case AtSidecars =>
  }

  lemma ProceedKeepsDump(w: World, io: Io)
    requires DumpInv(w) && Enabled(w, Proceed(io))
    ensures DumpInv(Next(w, Proceed(io)))
  {
    if w.client.value.phase == AtHandler {
      HandlerKeepsDump(w, io);
    } else {
      PhaseKeepsDump(w, io);
    }
  }

  lemma ReportKeepsDump(w: World, stores: bool)
    requires DumpInv(w) && Enabled(w, MakeReport(stores))
    ensures DumpInv(Next(w, MakeReport(stores)))
  {
    if ReportOf(w.client.value).Some? {
      OneMoreGoodReport(w.reports, ReportOf(w.client.value).value, w.handlers, w.next);
    }
  }

  lemma LaunchKeepsDump(w: World, e: Step)
    requires DumpInv(w) && Enabled(w, e) && e.Launch?
    ensures DumpInv(Next(w, e))
  {
    ReportsStayGood(w.reports, w.handlers, w.next, w.handlers, w.next + 1);
  }

  lemma EndKeepsDump(w: World, e: Step)
    requires DumpInv(w) && Enabled(w, e) && (e.Die? || e.Exit?)
    ensures DumpInv(Next(w, e))
  {
  }

  lemma TrackKeepsDump(w: World, e: Step)
    requires DumpInv(w) && Enabled(w, e) && (e.Track? || e.WriteMarker? || e.StoreCrash? || e.SettleCrash?)
    ensures DumpInv(Next(w, e))
  {
  }

  lemma StepKeepsDump(w: World, e: Step)
    requires DumpInv(w) && Enabled(w, e)
    ensures DumpInv(Next(w, e))
  {
    match e
    case Launch(_, _) => LaunchKeepsDump(w, e);
    case Proceed(io) => ProceedKeepsDump(w, io);
    case MakeReport(stores) => ReportKeepsDump(w, stores);
    case Die(_) => EndKeepsDump(w, e);
    case Exit(_, _) => EndKeepsDump(w, e);
    case _ => TrackKeepsDump(w, e);
  }

  lemma {:induction false} RunKeepsDump(w: World, run: seq<Step>)
    requires DumpInv(w) && Possible(w, run)
    ensures DumpInv(After(w, run))
    decreases |run|
  {
    if run != [] {
      StepKeepsDump(w, run[0]);
      RunKeepsDump(Next(w, run[0]), run[1..]);
    }
  }

  /** While no marker was ever kept, nobody installs the handler between a session's marker and its report. */
  predicate MarkerInv(w: World) {
    && (w.client.None? && w.marker.Some? ==> NoneBetween(w.handlers, w.marker.value, w.next))
    && (w.client.Some? ==> ClientApart(w.client.value, w.marker, w.handlers))
    && ReportsApart(w.reports, w.handlers)
  }

  predicate ClientApart(c: Client, marker: Option<Session>, handlers: set<Session>) {
    && (c.phase == AtMarker && marker.Some? ==> NoneBetween(handlers, marker.value, c.session))
    && (c.phase != AtMarker && marker.Some? ==> marker.value == c.session)
    && (c.previousMarker.Some? ==> NoneBetween(handlers, c.previousMarker.value, c.session))
  }

  predicate ReportsApart(rs: seq<Report>, handlers: set<Session>) {
    forall i :: 0 <= i < |rs| ==> NoneBetween(handlers, rs[i].dead, rs[i].reporter)
  }

  lemma ReportsStayApart(rs: seq<Report>, handlers: set<Session>, next: Session, handlers': set<Session>)
    requires ReportsApart(rs, handlers) && GoodReports(rs, handlers, next)
    requires forall h :: h in handlers' ==> h in handlers || next <= h + 1
    ensures ReportsApart(rs, handlers')
  {
    forall i | 0 <= i < |rs|
      ensures NoneBetween(handlers', rs[i].dead, rs[i].reporter)
    {
      assert GoodReport(rs[i], handlers, next) && NoneBetween(handlers, rs[i].dead, rs[i].reporter);
    }
  }

  lemma ProceedKeepsMarker(w: World, io: Io)
    requires DumpInv(w) && MarkerInv(w) && Enabled(w, Proceed(io)) && Next(w, Proceed(io)).kept == multiset{}
    ensures MarkerInv(Next(w, Proceed(io)))
  {
    ReportsStayApart(w.reports, w.handlers, w.next, Next(w, Proceed(io)).handlers);
  }

  lemma ReportKeepsMarker(w: World, stores: bool)
    requires DumpInv(w) && MarkerInv(w) && Enabled(w, MakeReport(stores))
    ensures MarkerInv(Next(w, MakeReport(stores)))
  {
    if ReportOf(w.client.value).Some? {
      var r := ReportOf(w.client.value).value;
      assert forall i :: 0 <= i < |w.reports| ==> (w.reports + [r])[i] == w.reports[i];
      assert ReportsApart(w.reports + [r], w.handlers);
    }
  }

  lemma LaunchOrEndKeepsMarker(w: World, e: Step)
    requires DumpInv(w) && MarkerInv(w) && Enabled(w, e) && (e.Launch? || e.Die? || e.Exit?) && Next(w, e).kept == multiset{}
    ensures MarkerInv(Next(w, e))
  {
  }

  lemma TrackKeepsMarker(w: World, e: Step)
    requires DumpInv(w) && MarkerInv(w) && Enabled(w, e) && (e.Track? || e.WriteMarker? || e.StoreCrash? || e.SettleCrash?)
    ensures MarkerInv(Next(w, e))
  {
  }

  lemma StepKeepsMarker(w: World, e: Step)
    requires DumpInv(w) && MarkerInv(w) && Enabled(w, e) && Next(w, e).kept == multiset{}
    ensures MarkerInv(Next(w, e))
  {
    match e
    case Proceed(io) => ProceedKeepsMarker(w, io);
    case MakeReport(stores) => ReportKeepsMarker(w, stores);
    case Launch(_, _) => LaunchOrEndKeepsMarker(w, e);
    case Die(_) => LaunchOrEndKeepsMarker(w, e);
    case Exit(_, _) => LaunchOrEndKeepsMarker(w, e);
    case _ => TrackKeepsMarker(w, e);
  }

  /** What was once kept stays counted. */
  lemma KeptGrows(w: World, e: Step)
    requires Enabled(w, e)
    ensures w.kept <= Next(w, e).kept
  {
  }

  lemma {:induction false} RunKeepsMarker(w: World, run: seq<Step>)
    requires DumpInv(w) && MarkerInv(w) && Possible(w, run)
    ensures w.kept <= After(w, run).kept
    ensures After(w, run).kept == multiset{} ==> MarkerInv(After(w, run))
    decreases |run|
  {
    if run != [] {
      var w' := Next(w, run[0]);
      KeptGrows(w, run[0]);
      StepKeepsDump(w, run[0]);
      if w'.kept == multiset{} {
        StepKeepsMarker(w, run[0]);
        RunKeepsMarker(w', run[1..]);
      } else {
        RunKeepsKept(w', run[1..]);
      }
    }
  }

  lemma {:induction false} RunKeepsKept(w: World, run: seq<Step>)
    requires Possible(w, run)
    ensures w.kept <= After(w, run).kept
    decreases |run|
  {
    if run != [] {
      KeptGrows(w, run[0]);
      RunKeepsKept(Next(w, run[0]), run[1..]);
    }
  }

  /**
   * Over every run, a native report describes the session it is about exactly when no later session
   * installed the handler before the reporting one; and as long as no marker was ever kept, exactly
   * when the dead session itself had the handler installed.
   */
  lemma DumpIsOfTheDeadSession(run: seq<Step>, i: nat)
    requires Possible(EMPTY, run) && i < |After(EMPTY, run).reports| && After(EMPTY, run).reports[i].Native?
    ensures var w := After(EMPTY, run);
            var r := w.reports[i];
            && (r.dumpOf == r.dead <==> LastHandler(w.handlers, r.dead, r.reporter))
            && (w.kept == multiset{} ==> (r.dumpOf == r.dead <==> r.dead in w.handlers))
  {
    RunKeepsDump(EMPTY, run);
    RunKeepsMarker(EMPTY, run);
    var w := After(EMPTY, run);
    assert GoodReport(w.reports[i], w.handlers, w.next);
  }

  // ------------------------------------------------- what the conditions are for

  /** A launch up to its last start-up step. */
  function Booted(w: World, native: bool, marking: Io): World
    requires w.client == None
  {
    var w0 := Next(w, Launch(true, native));
    var w1 := Next(w0, Proceed(marking));
    var w2 := Next(w1, Proceed(WORKS));
    var w3 := Next(w2, Proceed(WORKS));
    Next(w3, Proceed(WORKS))
  }

  /** From there through session tracking. */
  function Tracked(w: World, opens: bool, stores: bool): World
    requires w.client.Some? && Enabled(w, Track)
  {
    Next(Next(Next(w, Track), WriteMarker(opens)), MakeReport(stores))
  }

  lemma BootedIs(w: World, native: bool, marking: Io)
    requires w.client == None
    ensures Booted(w, native, marking)
         == Ready(Next(w, Launch(true, native)), Launched(w, true, native), marking, WORKS, WORKS, WORKS)
  {
    StartUpIsReady(Next(w, Launch(true, native)), Launched(w, true, native), marking, WORKS, WORKS, WORKS);
  }

  /** A tracked launch with the handler, ended by a signal. */
  function Signalled(w: World): World
    requires w.client == None
  {
    BootedIs(w, true, WORKS);
    Next(Tracked(Booted(w, true, WORKS), true, true), Die(true))
  }

  /** A launch without it, killed once the report it made was delivered. */
  function Killed(w: World): World
    requires w.client == None && w.crashFiles == multiset{} && w.marker.Some?
  {
    BootedIs(w, false, WORKS);
    Next(Next(Tracked(Booted(w, false, WORKS), true, true), SettleCrash(w.marker.value)), Die(false))
  }

  /** A launch on a file system that has become read-only, killed. */
  function KilledReadOnly(w: World): World
    requires w.client == None
  {
    BootedIs(w, false, READ_ONLY);
    Next(Tracked(Booted(w, false, READ_ONLY), false, false), Die(false))
  }

  function ReportsAfter(w: World): seq<Report>
    requires w.client == None
  {
    BootedIs(w, true, WORKS);
    Tracked(Booted(w, true, WORKS), true, true).reports
  }

  lemma SignalledIs(w: World)
    requires w.client == None && w.marker == None
    ensures Signalled(w)
         == w.(marker := Some(w.next), dump := Some(w.next), next := w.next + 1, tracked := w.tracked + {w.next},
               handlers := w.handlers + {w.next},
               restorers := if Restored(w.crashFiles, WORKS) != {} then w.restorers + {w.next} else w.restorers)
  {
    BootedIs(w, true, WORKS);
  }

  /** The old dump is still there. */
  lemma KilledIs(w: World)
    requires w.client == None && w.crashFiles == multiset{} && w.marker.Some?
    ensures Killed(w)
         == w.(marker := Some(w.next), next := w.next + 1, tracked := w.tracked + {w.next},
               reports := w.reports + [Synthetic(w.marker.value, w.next)])
  {
    BootedIs(w, false, WORKS);
  }

  /** The old marker is still there too. */
  lemma KilledReadOnlyIs(w: World)
    requires w.client == None && w.crashFiles == multiset{} && w.marker.Some?
    ensures KilledReadOnly(w)
         == w.(next := w.next + 1, kept := w.kept + multiset{w.marker.value},
               reports := w.reports + [Synthetic(w.marker.value, w.next)])
  {
    BootedIs(w, false, READ_ONLY);
  }

  lemma ReportsAfterAre(w: World)
    requires w.client == None && w.crashFiles == multiset{} && w.marker.Some? && w.dump.Some?
    ensures ReportsAfter(w) == w.reports + [Native(w.marker.value, w.next, w.dump.value)]
  {
    BootedIs(w, true, WORKS);
  }

  /** The first session died of a signal: its marker and its dump are on disk. */
  const SIGNALLED := EMPTY.(marker := Some(0), dump := Some(0), next := 1, tracked := {0}, handlers := {0})

  lemma SignalledFirst()
    ensures Signalled(EMPTY) == SIGNALLED
  {
    SignalledIs(EMPTY);
  }

  /** One launch without the handler is enough to pass an old dump off as a later session's. */
  lemma SkippedLaunchMixesDumps()
    ensures Signalled(EMPTY) == SIGNALLED
    ensures var second := Killed(SIGNALLED);
            && second.client == None && second.crashFiles == multiset{} && second.kept == multiset{} && 1 !in second.handlers
            && ReportsAfter(second) == [Synthetic(0, 1)] + [Native(1, 2, 0)]
  {
    SignalledFirst();
    KilledIs(SIGNALLED);
    ReportsAfterAre(Killed(SIGNALLED));
  }

  /** On a file system that became read-only, every launch reports the same session again. */
  lemma KeptMarkerRepeatsReport()
    ensures Signalled(EMPTY) == SIGNALLED
    ensures var second := KilledReadOnly(SIGNALLED);
            && second.client == None && second.marker == Some(0)
            && var third := KilledReadOnly(second);
            && third.reports == [Synthetic(0, 1)] + [Synthetic(0, 2)] && third.kept[0] == 2
  {
    SignalledFirst();
    KilledReadOnlyIs(SIGNALLED);
    KilledReadOnlyIs(KilledReadOnly(SIGNALLED));
  }

  /** A tracked launch that captures a crash, still to be delivered when it is killed. */
  function KilledWithCrash(w: World): World
    requires w.client == None
  {
    BootedIs(w, false, WORKS);
    Next(Next(Tracked(Booted(w, false, WORKS), true, true), StoreCrash), Die(false))
  }

  lemma KilledWithCrashIs(w: World)
    requires w.client == None && w.marker == None && w.crashFiles == multiset{}
    ensures KilledWithCrash(w)
         == w.(marker := Some(w.next), crashFiles := multiset{w.next}, next := w.next + 1, tracked := w.tracked + {w.next})
  {
    BootedIs(w, false, WORKS);
  }

  /** A tracked launch, and at last its death by a kill. */
  function TrackedWithout(w: World): World
    requires w.client == None
  {
    BootedIs(w, false, WORKS);
    Tracked(Booted(w, false, WORKS), true, true)
  }

  /** Where a crash file of `of` is restored, no death is reported. */
  lemma RestoredSilences(w: World, of: Session)
    requires w.client == None && w.crashFiles == multiset{of}
    ensures var t := TrackedWithout(w);
            && t.client.Some? && t.client.value.restored == {of} && t.client.value.session == w.next
            && t.client.value.previousMarker == None && t.next == w.next + 1
            && t.reports == w.reports && t.marker == Some(w.next) && t.crashFiles == w.crashFiles
  {
    BootedIs(w, false, WORKS);
    assert Restored(multiset{of}, WORKS) == {of};
  }

  /** The first session captured a crash and died of it. */
  const CRASHED := EMPTY.(marker := Some(0), crashFiles := multiset{0}, next := 1, tracked := {0})

  /**
   * Its report, still undelivered, stands for its own death, and silences the death of the next session
   * as well: nothing is left that could report that one.
   */
  lemma CrashSilencesLaterDeath()
    ensures KilledWithCrash(EMPTY) == CRASHED
    ensures var second := Next(TrackedWithout(CRASHED), Die(false));
            && second.client == None && second.marker == Some(1) && second.reports == []
            && var third := TrackedWithout(second);
            && third.reports == [] && third.client.Some? && third.client.value.restored == {0} && Gone(third, 1)
  {
    KilledWithCrashIs(EMPTY);
    RestoredSilences(CRASHED, 0);
    RestoredSilences(Next(TrackedWithout(CRASHED), Die(false)), 0);
  }
}
