/**
 * What holds over every run of the delivery protocol: a written report stays on disk until the
 * server answers for it, no file is ever held by two live jobs, and the bounds are never passed.
 */
module DeliveryRuns {
  import opened Base
  import opened Sidecars
  import opened Delivery
  import opened DeliverySystem

  // ------------------------------------------------- invariants of runs

  lemma {:induction false} RunKeepsInv(s: System, run: seq<Step>)
    requires Inv(s) && Possible(s, run)
    ensures Inv(After(s, run))
    decreases |run|
  {
    if run != [] {
      StepKeepsInv(s, run[0]);
      RunKeepsInv(Next(s, run[0]), run[1..]);
    }
  }

  /** A process that is not running, over any directory. */
  predicate Initial(s: System) { NO_PATH !in s.files && s == Dead(s) }

  /** In every reachable state at most one live job holds a given file, and its body is the file's. */
  lemma OneHolderPerFile(s: System, run: seq<Step>, p: Path)
    requires Initial(s) && Possible(s, run) && p != NO_PATH
    ensures var t := After(s, run);
            && Holders(t, p) <= 1
            && (forall i :: 0 <= i < |t.queue| && t.queue[i].sidecarPath == p ==>
                  p in t.files && t.files[p] == File(t.queue[i].kind, t.queue[i].body))
            && (t.flight.Some? && t.flight.value.job.sidecarPath == p ==>
                  p in t.files && t.files[p] == File(t.flight.value.job.kind, t.flight.value.job.body))
  {
    KeepDead(s);
    RunKeepsInv(s, run);
    var t := After(s, run);
    forall i | 0 <= i < |t.queue| && t.queue[i].sidecarPath == p
      ensures p in t.files && t.files[p] == File(t.queue[i].kind, t.queue[i].body)
    {
      assert Backed(t.files, t.queue[i]);
    }
    if t.flight.Some? && t.flight.value.job.sidecarPath == p {
      assert Backed(t.files, FlightJobs(t)[0]);
    }
  }

  // ------------------------------------------------- durability

  /** The server answers the post of a file's body with success or rejection. */
  predicate FinalAnswer(s: System, e: Step, p: Path, body: string) {
    && e.Answer? && IsFinal(e.r)
    && s.flight.Some? && s.flight.value.job.sidecarPath == p && s.flight.value.job.body == body
  }

  ghost predicate Resolved(s: System, run: seq<Step>, p: Path, body: string)
    requires Possible(s, run)
    decreases |run|
  {
    run != [] && (FinalAnswer(s, run[0], p, body) || Resolved(Next(s, run[0]), run[1..], p, body))
  }

  /** No final answer for the file is waiting to be settled. */
  predicate Open(s: System, p: Path) {
    s.flight.Some? && s.flight.value.job.sidecarPath == p && s.flight.value.answer.Some? ==>
      !IsFinal(s.flight.value.answer.value)
  }

  predicate Stores(files: Directory, p: Path, f: File) { p in files && files[p] == f }

  lemma {:induction false} LeftoversKeepFiles(files: Directory, configured: bool, jobs: seq<Job>, names: seq<Option<Path>>, n: nat)
    requires |jobs| == |names| && n <= |jobs| && DrawableAll(files, names)
    ensures forall p :: p in files ==> Stores(LeftoverFiles(files, configured, jobs[..n], names[..n]), p, files[p])
  {
    if n > 0 {
      assert jobs[..n][..n - 1] == jobs[..n - 1] && names[..n][..n - 1] == names[..n - 1];
      LeftoversKeepFiles(files, configured, jobs, names, n - 1);
      assert Drawable(files, names[n - 1]);
    } else {
      assert jobs[..0] == [];
    }
  }

  lemma SettleKeepsFile(s: System, e: Step, p: Path)
    requires Inv(s) && e.Settle? && Enabled(s, e) && p in s.files && Open(s, p)
    ensures Stores(Next(s, e).files, p, s.files[p])
  {
    var job, r := s.flight.value.job, s.flight.value.answer.value;
    var eff := Settling(s, e.c);
    SettleIsLawful(job, r, s.claimed, e.c);
    LandingKeepsFile(s.files, s.configured, job, eff, e.name, e.removeWorks, p);
  }

  lemma LandingKeepsFile(files: Directory, configured: bool, job: Job, e: Effects, name: Option<Path>, works: bool, p: Path)
    requires p in files && Drawable(files, name) && (e.removes ==> job.sidecarPath != p)
    ensures Stores(FilesAfter(files, configured, job, e, name, works), p, files[p])
  {
  }

  lemma StepKeepsFile(s: System, e: Step, p: Path)
    requires Inv(s) && Enabled(s, e) && p in s.files && Open(s, p) && !FinalAnswer(s, e, p, s.files[p].body)
    ensures Stores(Next(s, e).files, p, s.files[p])
  {
    match e
    case Settle(_, _, _, _) => SettleKeepsFile(s, e, p);
    case Stop(names) =>
      LeftoversKeepFiles(s.files, s.configured, s.queue, names, |names|);
      assert s.queue[..|names|] == s.queue && names[..|names|] == names;
    case _ =>
  }

  lemma StepKeepsOpen(s: System, e: Step, p: Path)
    requires Inv(s) && Enabled(s, e) && p in s.files && Open(s, p) && !FinalAnswer(s, e, p, s.files[p].body)
    ensures Open(Next(s, e), p)
  {
    if e.Answer? && s.flight.value.job.sidecarPath == p {
      assert Backed(s.files, FlightJobs(s)[0]);
    }
  }

  /** When the answer is acted on, the report's file goes exactly if the answer was final and the removal works. */
  lemma FileGoesOnFinalAnswer(s: System, e: Step)
    requires Inv(s) && e.Settle? && Enabled(s, e) && s.flight.value.job.sidecarPath != NO_PATH
    ensures var p := s.flight.value.job.sidecarPath;
            && Stores(s.files, p, File(s.flight.value.job.kind, s.flight.value.job.body))
            && (p in Next(s, e).files <==> !(IsFinal(s.flight.value.answer.value) && e.removeWorks))
  {
    var job := s.flight.value.job;
    assert Backed(s.files, FlightJobs(s)[0]);
    SettleIsLawful(job, s.flight.value.answer.value, s.claimed, e.c);
  }

  /**
   * Over every run - captures, uploads, overflow, kills, clean stops, relaunches - a stored report
   * keeps its exact body until a success or a rejection arrives for that body.
   */
  lemma {:induction false} StoredUntilAnswered(s: System, run: seq<Step>, p: Path)
    requires Inv(s) && Possible(s, run) && p in s.files && Open(s, p)
    ensures Stores(After(s, run).files, p, s.files[p]) || Resolved(s, run, p, s.files[p].body)
    decreases |run|
  {
    if run != [] && !FinalAnswer(s, run[0], p, s.files[p].body) {
      StepKeepsInv(s, run[0]);
      StepKeepsFile(s, run[0], p);
      StepKeepsOpen(s, run[0], p);
      StoredUntilAnswered(Next(s, run[0]), run[1..], p);
    }
  }

  /** Nobody holds the name a capture draws, so its file starts out open. */
  lemma FreshIsOpen(s: System, p: Path)
    requires Inv(s) && p != NO_PATH && p !in s.files
    ensures Open(s, p)
  {
    if s.flight.Some? {
      assert Backed(s.files, FlightJobs(s)[0]);
    }
  }

  lemma CaptureStores(s: System, e: Step)
    requires Inv(s) && e.Capture? && Enabled(s, e) && CapturePath(s, e) != NO_PATH
    ensures Stores(Next(s, e).files, CapturePath(s, e), File(e.kind, e.body))
    ensures Inv(Next(s, e)) && Open(Next(s, e), CapturePath(s, e))
  {
    StepKeepsInv(s, e);
    FreshIsOpen(s, CapturePath(s, e));
  }

  /** A report captured with write-ahead durability, whenever its file could be written. */
  lemma CapturedUntilAnswered(s: System, e: Step, run: seq<Step>)
    requires Inv(s) && e.Capture? && Enabled(s, e) && CapturePath(s, e) != NO_PATH
    requires Possible(Next(s, e), run)
    ensures var p, t := CapturePath(s, e), Next(s, e);
            Stores(After(t, run).files, p, File(e.kind, e.body)) || Resolved(t, run, p, e.body)
  {
    CaptureStores(s, e);
    StoredUntilAnswered(Next(s, e), run, CapturePath(s, e));
  }

  /** A relaunch over usable storage hands every stored report to exactly one job. */
  lemma RelaunchHoldsAll(s: System, e: Step, p: Path)
    requires Inv(s) && e.Launch? && Enabled(s, e) && e.usable && p in s.files && s.files[p].body != ""
    ensures Holders(Next(s, e), p) == 1 && !Next(s, e).claimed
  {
    ScanIsComplete(s.files, e.listing);
    var rs := Scanned(s.files, true, e.listing);
    assert Finds(rs, p);
    var i :| 0 <= i < |rs| && rs[i].path == p;
    CountRecordsHeld(rs, i);
    CountRecordsDistinct(rs, p);
  }

  /** A clean stop stores each leftover that needs a file, if a file may be made for it. */
  lemma {:induction false} StopStoresLeftovers(files: Directory, configured: bool, jobs: seq<Job>, names: seq<Option<Path>>, i: nat, n: nat)
    requires |jobs| == |names| && i < n <= |jobs| && DrawableAll(files, names)
    requires !jobs[i].isLogUpload && !jobs[i].noPersist && jobs[i].sidecarPath == NO_PATH && jobs[i].durability != Ephemeral
    requires names[i].Some? && configured
    requires |OfKind(LeftoverFiles(files, configured, jobs[..i], names[..i]), jobs[i].kind)| < 64
    ensures Stores(LeftoverFiles(files, configured, jobs[..n], names[..n]), names[i].value, File(jobs[i].kind, jobs[i].body))
  {
    assert jobs[..n][..n - 1] == jobs[..n - 1] && names[..n][..n - 1] == names[..n - 1];
    assert Drawable(files, names[i]);
    if i < n - 1 {
      StopStoresLeftovers(files, configured, jobs, names, i, n - 1);
    }
  }

  /** A report that may be stored and fails for the fifth time is stored then, if a file may be made for it. */
  lemma FifthFailureStores(s: System, e: Step)
    requires Inv(s) && e.Settle? && Enabled(s, e) && !IsFinal(s.flight.value.answer.value)
    requires var job := s.flight.value.job;
             && !job.isLogUpload && !job.noPersist && job.sidecarPath == NO_PATH && job.durability != Ephemeral && job.attempt >= 4
             && s.configured && e.name.Some? && |OfKind(s.files, job.kind)| < 64
    ensures Stores(Next(s, e).files, e.name.value, File(s.flight.value.job.kind, s.flight.value.job.body))
  {
    SettleByStatus(s.flight.value.job, s.flight.value.answer.value, s.claimed, e.c);
  }

  // ------------------------------------------------- who holds a report

  /** The live job that holds the file ends: by a final answer, a fifth failure, or the drop-oldest rule. */
  predicate LetsGo(s: System, e: Step, p: Path) {
    || (&& e.Settle? && s.flight.Some? && s.flight.value.answer.Some? && s.flight.value.job.sidecarPath == p
        && var job := s.flight.value.job;
           IsFinal(s.flight.value.answer.value) || job.attempt >= 4 || job.durability == Ephemeral)
    || ((e.Push? || e.Restore?) && |s.queue| >= 256 && s.queue[0].sidecarPath == p)
  }

  lemma CountEnqueuedExactly(q: seq<Job>, job: Job, p: Path)
    ensures Count(Enqueued(q, job), p)
         == Count(q, p) + (if job.sidecarPath == p then 1 else 0) - (if |q| >= 256 && q[0].sidecarPath == p then 1 else 0)
  {
    if |q| >= 256 {
      CountSplit(q, 0, p);
      assert Without(q, 0) == q[1..];
      CountPush(q[1..], job, p);
    } else {
      CountPush(q, job, p);
    }
  }

  lemma SettleHolds(job: Job, r: Response, claimed: bool, c: Context, p: Path)
    requires p != NO_PATH && (job.isLogUpload ==> job.sidecarPath == NO_PATH)
    ensures Count(SettleEffects(job, r, claimed, c).spawned, p)
         == if job.sidecarPath == p && !IsFinal(r) && job.attempt < 4 && job.durability != Ephemeral then 1 else 0
  {
    hide SettleEffects, IsFinal, Hint;
    var spawned := SettleEffects(job, r, claimed, c).spawned;
    SettleIsLawful(job, r, claimed, c);
    if job.isLogUpload {
      LogUploadByStatus(job, r, claimed, c);
    } else {
      SettleByStatus(job, r, claimed, c);
    }
    if Loose(spawned) {
      CountUnheld(spawned, p);
    } else {
      CountOne(spawned[0], p);
    }
  }

  lemma StagedHolds(s: System, s': System, jobs: seq<Job>, p: Path)
    requires s'.queue == s.queue && s'.restoring == s.restoring && s'.flight == s.flight && s'.staged == s.staged + jobs
    requires forall i :: 0 <= i < |jobs| ==> jobs[i].sidecarPath != p
    ensures Holders(s', p) == Holders(s, p)
  {
    CountAppend(s.staged, jobs, p);
    CountUnheld(jobs, p);
  }

  lemma CaptureIsAnother(s: System, e: Step, p: Path)
    requires Inv(s) && e.Capture? && Enabled(s, e) && p != NO_PATH && Holders(s, p) == 1
    ensures CapturePath(s, e) != p
  {
    if CapturePath(s, e) == p {
      UnheldName(s, p);
    }
  }

  lemma ClientStepHolds(s: System, e: Step, p: Path)
    requires Inv(s) && Enabled(s, e) && (e.Capture? || e.Submit? || e.Drain? || e.Buffer? || e.OpenGate?)
    requires p != NO_PATH && Holders(s, p) == 1
    ensures Holders(Next(s, e), p) == 1
  {
    hide Inv, Holders;
    match e
    case Capture(_, _, _, _, _, _, _) =>
      CaptureIsAnother(s, e, p);
      StagedHolds(s, Next(s, e), [IngestJob(e, CapturePath(s, e))], p);
    case Submit(job) => StagedHolds(s, Next(s, e), [job], p);
    case Drain(metric, url, bodies) =>
      EnvelopesLoose(url, bodies, metric);
      StagedHolds(s, Next(s, e), EnvelopeJobs(url, bodies, metric), p);
    case Buffer(_) => StagedHolds(s, Next(s, e), [], p);
    case OpenGate => StagedHolds(s, Next(s, e), [], p);
  }

  lemma RestoreHolds(s: System, e: Step, p: Path)
    requires Enabled(s, e) && e.Restore? && p != NO_PATH && Holders(s, p) == 1
    ensures Holders(Next(s, e), p) == if LetsGo(s, e, p) then 0 else 1
  {
    CountEnqueuedExactly(s.queue, RestoredJob(s.restoring[0], e.endpoint), p);
  }

  lemma PushHolds(s: System, e: Step, p: Path)
    requires Enabled(s, e) && e.Push? && p != NO_PATH && Holders(s, p) == 1
    ensures Holders(Next(s, e), p) == if LetsGo(s, e, p) then 0 else 1
  {
    CountSplit(s.staged, e.i, p);
    CountEnqueuedExactly(s.queue, s.staged[e.i], p);
  }

  lemma TakeHolds(s: System, e: Step, p: Path)
    requires Enabled(s, e) && (e.Take? || e.Answer?)
    ensures Holders(Next(s, e), p) == Holders(s, p)
  {
    if e.Take? {
      CountSplit(s.queue, FirstReady(s.queue, e.now), p);
      CountOne(s.queue[FirstReady(s.queue, e.now)], p);
    } else {
      assert FlightJobs(Next(s, e)) == FlightJobs(s);
    }
  }

  lemma SettleStepHolds(s: System, e: Step, p: Path)
    requires Inv(s) && Enabled(s, e) && e.Settle? && p != NO_PATH && Holders(s, p) == 1
    ensures Holders(Next(s, e), p) == if LetsGo(s, e, p) then 0 else 1
  {
    assert Backed(s.files, FlightJobs(s)[0]);
    SettleHolds(s.flight.value.job, s.flight.value.answer.value, s.claimed, e.c, p);
    CountOne(s.flight.value.job, p);
    CountAppend(s.staged, Settling(s, e.c).spawned, p);
  }

  /** While the process lives, a held report stays with exactly one live job up to such an end, and no longer. */
  lemma HolderStays(s: System, e: Step, p: Path)
    requires Inv(s) && Enabled(s, e) && !e.Launch? && !e.Kill? && !e.Stop? && p != NO_PATH && Holders(s, p) == 1
    ensures Holders(Next(s, e), p) == if LetsGo(s, e, p) then 0 else 1
  {
    if e.Settle? {
      SettleStepHolds(s, e, p);
    } else if e.Restore? {
      RestoreHolds(s, e, p);
    } else if e.Push? {
      PushHolds(s, e, p);
    } else if e.Take? || e.Answer? {
      TakeHolds(s, e, p);
    } else {
      ClientStepHolds(s, e, p);
    }
  }

  ghost predicate NeverLetsGo(s: System, run: seq<Step>, p: Path)
    requires Possible(s, run)
    decreases |run|
  {
    run == [] || (!LetsGo(s, run[0], p) && NeverLetsGo(Next(s, run[0]), run[1..], p))
  }

  /** Over every run of a living process: no interleaving of threads, retries and refills loses the job of a report. */
  lemma {:induction false} HeldThroughout(s: System, run: seq<Step>, p: Path)
    requires Inv(s) && Possible(s, run) && forall i :: 0 <= i < |run| ==> !run[i].Launch? && !run[i].Kill? && !run[i].Stop?
    requires p != NO_PATH && Holders(s, p) == 1 && NeverLetsGo(s, run, p)
    ensures Holders(After(s, run), p) == 1
    decreases |run|
  {
    if run != [] {
      HolderStays(s, run[0], p);
      StepKeepsInv(s, run[0]);
      HeldThroughout(Next(s, run[0]), run[1..], p);
    }
  }

  // ------------------------------------------------- the previous session's log

  /** The step settles a success that grants the last session's log a slot and spawns its upload. */
  predicate UploadsPrevious(s: System, e: Step) {
    && e.Settle? && s.flight.Some? && s.flight.value.answer.Some?
    && var job, r := s.flight.value.job, s.flight.value.answer.value;
    && !job.isLogUpload && job.requestLog && job.logFromPrevious && Succeeds(r) && LogJobs(job, r.body, s.claimed, e.c) != []
  }

  ghost function PreviousUploads(s: System, run: seq<Step>): nat
    requires Possible(s, run)
    decreases |run|
  {
    if run == [] then 0
    else (if UploadsPrevious(s, run[0]) then 1 else 0) + PreviousUploads(Next(s, run[0]), run[1..])
  }

  /** However many restored reports are granted a slot, one launch uploads the last session's log once at most. */
  lemma {:induction false} PreviousLogOnce(s: System, run: seq<Step>)
    requires Possible(s, run) && forall i :: 0 <= i < |run| ==> !run[i].Launch? && !run[i].Kill? && !run[i].Stop?
    ensures PreviousUploads(s, run) <= if s.claimed then 0 else 1
    decreases |run|
  {
    if run != [] {
      PreviousLogOnce(Next(s, run[0]), run[1..]);
      ClaimStays(s, run[0]);
    }
  }

  lemma ClaimStays(s: System, e: Step)
    requires Enabled(s, e) && !e.Launch? && !e.Kill? && !e.Stop?
    ensures s.claimed || UploadsPrevious(s, e) ==> Next(s, e).claimed
    ensures s.claimed ==> !UploadsPrevious(s, e)
  {
  }

  // ------------------------------------------------- bounds

  lemma {:induction false} LeftoversKeepBound(files: Directory, configured: bool, jobs: seq<Job>, names: seq<Option<Path>>, n: nat)
    requires |jobs| == |names| && n <= |jobs| && DrawableAll(files, names) && WithinBound(files)
    ensures WithinBound(LeftoverFiles(files, configured, jobs[..n], names[..n]))
  {
    if n == 0 {
      assert jobs[..0] == [];
    } else {
      assert jobs[..n][..n - 1] == jobs[..n - 1] && names[..n][..n - 1] == names[..n - 1];
      LeftoversKeepBound(files, configured, jobs, names, n - 1);
      LeftoverNames(files, configured, jobs, names, n - 1);
      var before := LeftoverFiles(files, configured, jobs[..n - 1], names[..n - 1]);
      WriteKeepsBound(before, configured, jobs[n - 1].kind, names[n - 1], jobs[n - 1].body);
    }
  }

  lemma LandingKeepsBound(files: Directory, configured: bool, job: Job, e: Effects, name: Option<Path>, works: bool)
    requires WithinBound(files) && Drawable(files, name)
    ensures WithinBound(FilesAfter(files, configured, job, e, name, works))
  {
    if e.removes {
      RemoveKeepsBound(files, job.sidecarPath, works);
    } else if e.persists {
      WriteKeepsBound(files, configured, job.kind, name, job.body);
    }
  }

  lemma StepKeepsBound(s: System, e: Step)
    requires Enabled(s, e) && WithinBound(s.files)
    ensures WithinBound(Next(s, e).files)
  {
    match e
    case Capture(_, body, durability, kind, _, _, name) =>
      if durability == WriteAhead {
        WriteKeepsBound(s.files, s.configured, kind, name, body);
      }
    case Settle(c, name, works, _) =>
      LandingKeepsBound(s.files, s.configured, s.flight.value.job, Settling(s, c), name, works);
    case Stop(names) =>
      LeftoversKeepBound(s.files, s.configured, s.queue, names, |names|);
      assert s.queue[..|names|] == s.queue && names[..|names|] == names;
    case _ =>
  }

  /** However the process runs and dies, no kind ever has more than 64 files. */
  lemma {:induction false} RunKeepsBound(s: System, run: seq<Step>)
    requires Possible(s, run) && WithinBound(s.files)
    ensures WithinBound(After(s, run).files)
    decreases |run|
  {
    if run != [] {
      StepKeepsBound(s, run[0]);
      RunKeepsBound(Next(s, run[0]), run[1..]);
    }
  }

  lemma {:induction false} RecordsWithin(rs: seq<Record>, paths: set<Path>)
    requires DistinctPaths(rs) && forall i :: 0 <= i < |rs| ==> rs[i].path in paths
    ensures |rs| <= |paths|
  {
    if rs != [] {
      var last := rs[|rs| - 1].path;
      RecordsWithin(rs[..|rs| - 1], paths - {last});
    }
  }

  lemma KindFits(files: Directory, listing: seq<Path>, kind: Kind)
    requires Lists(files, listing) && WithinBound(files)
    ensures |Records(files, listing, kind)| <= MAX_FILES_PER_KIND
  {
    RecordsOfKind(files, listing, kind);
    var rs := Records(files, listing, kind);
    forall i | 0 <= i < |rs|
      ensures rs[i].path in OfKind(files, kind)
    {
    }
    RecordsWithin(rs, OfKind(files, kind));
  }

  /** What a launch restores fits the queue: the drop-oldest rule never costs a restored report. */
  lemma RestoredFit(files: Directory, usable: bool, listing: seq<Path>, jobs: seq<Job>)
    requires Lists(files, listing) && WithinBound(files) && |jobs| == |Scanned(files, usable, listing)|
    ensures EnqueuedAll([], jobs) == jobs
  {
    KindFits(files, listing, Crash);
    KindFits(files, listing, BugReport);
    KindFits(files, listing, Event);
    QueueKeepsNewest([], jobs);
    assert [] + jobs == jobs;
  }
}
