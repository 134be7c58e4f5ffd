/**
 * The whole delivery protocol as a step system: capture threads, the worker, the server, hard kills,
 * clean stops and relaunches over one directory. Every step is one block that the code runs under a
 * lock (or one file operation), so a run is any interleaving of the threads.
 */
module DeliverySystem {
  import opened Base
  import opened JsonFields
  import opened Sidecars
  import opened Delivery
  import Batching

  /** The job being posted; `answer` is set from the response's arrival until it is settled. */
  datatype Flight = Flight(job: Job, answer: Option<Response>)

  datatype System = System(
    files: Directory, configured: bool,  // on disk
    alive: bool,                         // the rest is the memory of a running process
    queue: seq<Job>, flight: Option<Flight>,
    staged: seq<Job>,                    // built by some thread and about to be enqueued
    restoring: seq<Record>,              // scanned at launch and not yet enqueued
    claimed: bool, gate: bool,
    events: nat, metrics: nat)           // buffered batch items

  datatype Step =
    | Launch(usable: bool, listing: seq<Path>, open: bool)
    | Restore(endpoint: string)
    | Capture(url: string, body: string, durability: Durability, kind: Kind,
              requestLog: bool, logFromPrevious: bool, name: Option<Path>)
    | Submit(job: Job)
    | Push(i: nat)
    | Buffer(metric: bool)
    | OpenGate
    | Drain(metric: bool, url: string, bodies: seq<string>)
    | Take(now: int)
    | Answer(r: Response)
    | Settle(c: Context, name: Option<Path>, removeWorks: bool, sampleKept: bool)
    | Kill
    | Stop(names: seq<Option<Path>>)

  // ------------------------------------------------- jobs the client builds

  function IngestPath(kind: Kind): string {
    match kind
    case Crash => "/api/v1/ingest/crashes"
    case BugReport => "/api/v1/ingest/bug-reports"
    case Event => "/api/v1/ingest/events"
  }

  function RestoredJob(record: Record, endpoint: string): Job {
    BLANK_JOB.(url := endpoint + IngestPath(record.kind), body := record.body, durability := WriteAhead,
               kind := record.kind, sidecarPath := record.path,
               requestLog := record.kind != Event && BoolField(record.body, "log").GetOr(false),
               logFromPrevious := true, signBody := true)
  }

  function IngestJob(e: Step, path: Path): Job
    requires e.Capture?
  {
    BLANK_JOB.(url := e.url, body := e.body, durability := e.durability, kind := e.kind, sidecarPath := path,
               requestLog := e.requestLog, logFromPrevious := e.logFromPrevious, signBody := true)
  }

  /** Where a captured report is written before it is enqueued. */
  function CapturePath(s: System, e: Step): Path
    requires e.Capture?
  {
    if e.durability == WriteAhead then Written(s.files, s.configured, e.kind, e.name) else NO_PATH
  }

  function EnvelopeJob(url: string, body: string, metric: bool): Job {
    BLANK_JOB.(url := url, body := body, noPersist := true, signBody := true, suppressRtt := metric)
  }

  function EnvelopeJobs(url: string, bodies: seq<string>, metric: bool): seq<Job> {
    if bodies == [] then []
    else EnvelopeJobs(url, bodies[..|bodies| - 1], metric) + [EnvelopeJob(url, bodies[|bodies| - 1], metric)]
  }

  /** A job no file backs, as heartbeats and pull requests are built. */
  predicate Unbacked(job: Job) { job.sidecarPath == NO_PATH && job.attempt == 0 && !job.isLogUpload }

  // ------------------------------------------------- steps

  function Dead(s: System): System {
    s.(alive := false, queue := [], flight := None, staged := [], restoring := [], claimed := false, gate := false,
       events := 0, metrics := 0)
  }

  function Items(s: System, metric: bool): nat { if metric then s.metrics else s.events }

  ghost predicate Enabled(s: System, e: Step) {
    match e
    case Launch(_, listing, _) => !s.alive && Lists(s.files, listing)
    case Restore(_) => s.alive && s.restoring != []
    case Capture(_, _, _, _, _, _, name) => s.alive && s.restoring == [] && Drawable(s.files, name)
    case Submit(job) => s.alive && Unbacked(job)
    case Push(i) => s.alive && i < |s.staged|
    case Buffer(_) => s.alive
    case OpenGate => s.alive
    case Drain(metric, _, bodies) => s.alive && s.gate && 0 < |bodies| <= Items(s, metric)
    case Take(now) => s.alive && s.flight == None && FirstReady(s.queue, now) < |s.queue|
    case Answer(_) => s.alive && s.flight.Some? && s.flight.value.answer == None
    case Settle(_, name, _, _) => s.alive && s.flight.Some? && s.flight.value.answer.Some? && Drawable(s.files, name)
    case Kill => s.alive
    case Stop(names) =>
      s.alive && s.restoring == [] && s.staged == [] && s.flight == None
      && |names| == |s.queue| && DrawableAll(s.files, names)
  }

  ghost function Next(s: System, e: Step): System
    requires Enabled(s, e)
  {
    match e
    case Launch(usable, listing, open) =>
      Dead(s).(alive := true, configured := usable, restoring := Scanned(s.files, usable, listing), gate := open)
    case Restore(endpoint) =>
      s.(queue := Enqueued(s.queue, RestoredJob(s.restoring[0], endpoint)), restoring := s.restoring[1..])
    case Capture(_, body, _, kind, _, _, _) =>
      var path := CapturePath(s, e);
      s.(files := AfterWrite(s.files, path, kind, body), staged := s.staged + [IngestJob(e, path)])
    case Submit(job) => s.(staged := s.staged + [job])
    case Push(i) => s.(queue := Enqueued(s.queue, s.staged[i]), staged := Without(s.staged, i))
    case Buffer(metric) => Buffered(s, metric)
    case OpenGate => s.(gate := true)
    case Drain(metric, url, bodies) =>
      var drained := if metric then s.(metrics := 0) else s.(events := 0);
      drained.(staged := s.staged + EnvelopeJobs(url, bodies, metric))
    case Take(now) =>
      var i := FirstReady(s.queue, now);
      s.(flight := Some(Flight(s.queue[i], None)), queue := Without(s.queue, i))
    case Answer(r) => s.(flight := Some(Flight(s.flight.value.job, Some(r))))
    case Settle(c, name, removeWorks, sampleKept) =>
      var job, eff := s.flight.value.job, Settling(s, c);
      var settled := s.(files := FilesAfter(s.files, s.configured, job, eff, name, removeWorks),
                        staged := s.staged + eff.spawned, claimed := eff.claimed, flight := None);
      if eff.rtt && sampleKept then Buffered(settled, true) else settled
    case Kill => Dead(s)
    case Stop(names) => Dead(s.(files := LeftoverFiles(s.files, s.configured, s.queue, names)))
  }

  /** One more buffered item; the buffer is full at 256 and then drops its oldest. */
  function Buffered(s: System, metric: bool): System {
    if metric then s.(metrics := Min(Batching.MAX_ITEMS, s.metrics + 1)) else s.(events := Min(Batching.MAX_ITEMS, s.events + 1))
  }

  function Settling(s: System, c: Context): Effects
    requires s.flight.Some? && s.flight.value.answer.Some?
  {
    SettleEffects(s.flight.value.job, s.flight.value.answer.value, s.claimed, c)
  }

  // ------------------------------------------------- runs

  ghost predicate Possible(s: System, run: seq<Step>)
    decreases |run|
  {
    run == [] || (Enabled(s, run[0]) && Possible(Next(s, run[0]), run[1..]))
  }

  ghost function After(s: System, run: seq<Step>): System
    requires Possible(s, run)
    decreases |run|
  {
    if run == [] then s else After(Next(s, run[0]), run[1..])
  }

  // ------------------------------------------------- invariant

  /** Jobs of a list that hold a file. */
  function Count(jobs: seq<Job>, p: Path): nat {
    if jobs == [] then 0 else Count(jobs[..|jobs| - 1], p) + if jobs[|jobs| - 1].sidecarPath == p then 1 else 0
  }

  function CountRecords(rs: seq<Record>, p: Path): nat {
    if rs == [] then 0 else (if rs[0].path == p then 1 else 0) + CountRecords(rs[1..], p)
  }

  function FlightJobs(s: System): seq<Job> { if s.flight.Some? then [s.flight.value.job] else [] }

  /** Live jobs that hold file `p`, in the queue, on the wire, or on their way into the queue. */
  function Holders(s: System, p: Path): nat {
    Count(s.queue, p) + Count(s.staged, p) + Count(FlightJobs(s), p) + CountRecords(s.restoring, p)
  }

  /** The job's file, if it has one, stores exactly its kind and body. */
  predicate Backed(files: Directory, job: Job) {
    job.sidecarPath != NO_PATH ==>
      && job.sidecarPath in files && files[job.sidecarPath] == File(job.kind, job.body) && !job.isLogUpload
  }

  predicate AllBacked(files: Directory, jobs: seq<Job>) {
    forall i :: 0 <= i < |jobs| ==> Backed(files, jobs[i]) && jobs[i].attempt < MAX_ATTEMPTS
  }

  ghost predicate Inv(s: System) {
    && NO_PATH !in s.files
    && AllBacked(s.files, s.queue) && AllBacked(s.files, s.staged) && AllBacked(s.files, FlightJobs(s))
    && Faithful(s.files, s.restoring)
    && (forall p :: p != NO_PATH ==> Holders(s, p) <= 1)
    && |s.queue| <= MAX_QUEUE_SIZE
    && (!s.alive ==> s == Dead(s))
  }

  lemma CountPush(jobs: seq<Job>, job: Job, p: Path)
    ensures Count(jobs + [job], p) == Count(jobs, p) + if job.sidecarPath == p then 1 else 0
  {
    assert (jobs + [job])[..|jobs|] == jobs;
  }

  lemma {:induction false} CountAppend(a: seq<Job>, b: seq<Job>, p: Path)
    ensures Count(a + b, p) == Count(a, p) + Count(b, p)
  {
    if b == [] {
      assert a + b == a;
    } else {
      var front, last := b[..|b| - 1], b[|b| - 1];
      CountAppend(a, front, p);
      CountPush(a + front, last, p);
      assert a + front + [last] == a + b;
    }
  }

  lemma CountSplit(jobs: seq<Job>, i: nat, p: Path)
    requires i < |jobs|
    ensures Count(jobs, p) == Count(Without(jobs, i), p) + if jobs[i].sidecarPath == p then 1 else 0
  {
    CountAppend(jobs[..i], jobs[i + 1..], p);
    CountPush(jobs[..i], jobs[i], p);
    CountAppend(jobs[..i] + [jobs[i]], jobs[i + 1..], p);
    assert jobs[..i] + [jobs[i]] + jobs[i + 1..] == jobs;
  }

  lemma CountEnqueued(q: seq<Job>, job: Job, p: Path)
    ensures Count(Enqueued(q, job), p) <= Count(q, p) + if job.sidecarPath == p then 1 else 0
  {
    if |q| >= MAX_QUEUE_SIZE {
      CountSplit(q, 0, p);
      assert Without(q, 0) == q[1..];
      CountPush(q[1..], job, p);
    } else {
      CountPush(q, job, p);
    }
  }

  lemma {:induction false} CountUnheld(jobs: seq<Job>, p: Path)
    requires forall i :: 0 <= i < |jobs| ==> jobs[i].sidecarPath != p
    ensures Count(jobs, p) == 0
  {
    if jobs != [] {
      CountUnheld(jobs[..|jobs| - 1], p);
    }
  }

  lemma CountHeld(jobs: seq<Job>, i: nat, p: Path)
    requires i < |jobs| && jobs[i].sidecarPath == p
    ensures Count(jobs, p) >= 1
  {
    CountSplit(jobs, i, p);
  }

  lemma {:induction false} CountRecordsDistinct(rs: seq<Record>, p: Path)
    requires DistinctPaths(rs)
    ensures CountRecords(rs, p) <= 1
    ensures (forall i :: 0 <= i < |rs| ==> rs[i].path != p) ==> CountRecords(rs, p) == 0
  {
    if rs != [] {
      CountRecordsDistinct(rs[1..], p);
    }
  }

  lemma {:induction false} CountRecordsHeld(rs: seq<Record>, i: nat)
    requires i < |rs|
    ensures CountRecords(rs, rs[i].path) >= 1
  {
    if i > 0 {
      CountRecordsHeld(rs[1..], i - 1);
    }
  }

  lemma {:induction false} CountRecordsUnheld(rs: seq<Record>, p: Path)
    requires forall i :: 0 <= i < |rs| ==> rs[i].path != p
    ensures CountRecords(rs, p) == 0
  {
    if rs != [] {
      CountRecordsUnheld(rs[1..], p);
    }
  }

  /** A file that is not on disk is held by nobody. */
  lemma UnheldName(s: System, p: Path)
    requires Inv(s) && p != NO_PATH && p !in s.files
    ensures Holders(s, p) == 0
  {
    CountUnheld(s.queue, p);
    CountUnheld(s.staged, p);
    CountUnheld(FlightJobs(s), p);
    CountRecordsUnheld(s.restoring, p);
  }

  // ------------------------------------------------- every step keeps the invariant

  /** Jobs whose files are left alone stay backed. */
  lemma StillBacked(files: Directory, files': Directory, jobs: seq<Job>)
    requires AllBacked(files, jobs)
    requires forall i :: 0 <= i < |jobs| && jobs[i].sidecarPath != NO_PATH ==>
               jobs[i].sidecarPath in files' && files'[jobs[i].sidecarPath] == files[jobs[i].sidecarPath]
    ensures AllBacked(files', jobs)
  {
    forall i | 0 <= i < |jobs|
      ensures Backed(files', jobs[i])
    {
      assert Backed(files, jobs[i]);
    }
  }

  lemma EnqueuedBacked(files: Directory, q: seq<Job>, job: Job)
    requires AllBacked(files, q) && Backed(files, job) && job.attempt < MAX_ATTEMPTS
    ensures AllBacked(files, Enqueued(q, job))
  {
  }

  lemma KeepLaunch(s: System, e: Step)
    requires Inv(s) && e.Launch? && Enabled(s, e)
    ensures Inv(Next(s, e))
  {
    ScanIsComplete(s.files, e.listing);
    var rs := Scanned(s.files, e.usable, e.listing);
    forall p
      ensures CountRecords(rs, p) <= 1
    {
      CountRecordsDistinct(rs, p);
    }
  }

  lemma KeepRestore(s: System, s': System, job: Job)
    requires Inv(s) && s.alive && s.restoring != []
    requires Backed(s.files, job) && job.attempt == 0 && job.sidecarPath == s.restoring[0].path
    requires s' == s.(queue := Enqueued(s.queue, job), restoring := s.restoring[1..])
    ensures Inv(s')
  {
    EnqueuedBacked(s.files, s.queue, job);
    forall p | p != NO_PATH
      ensures Holders(s', p) <= 1
    {
      assert Holders(s, p) <= 1;
      CountEnqueued(s.queue, job, p);
    }
  }

  lemma RestoredIsBacked(files: Directory, rs: seq<Record>, endpoint: string)
    requires Faithful(files, rs) && rs != []
    ensures var job := RestoredJob(rs[0], endpoint);
            Backed(files, job) && job.attempt == 0 && job.sidecarPath == rs[0].path && job.body == rs[0].body
  {
  }

  lemma KeepCapture(s: System, s': System, job: Job)
    requires Inv(s) && s.alive && s.restoring == []
    requires job.attempt == 0 && !job.isLogUpload && job.sidecarPath !in s.files
    requires s' == s.(files := AfterWrite(s.files, job.sidecarPath, job.kind, job.body), staged := s.staged + [job])
    ensures Inv(s')
  {
    StillBacked(s.files, s'.files, s.queue);
    StillBacked(s.files, s'.files, s.staged);
    StillBacked(s.files, s'.files, FlightJobs(s));
    forall p | p != NO_PATH
      ensures Holders(s', p) <= 1
    {
      assert Holders(s, p) <= 1;
      CountPush(s.staged, job, p);
      if p == job.sidecarPath {
        UnheldName(s, p);
      }
    }
  }

  lemma KeepPush(s: System, s': System, i: nat)
    requires Inv(s) && s.alive && i < |s.staged|
    requires s' == s.(queue := Enqueued(s.queue, s.staged[i]), staged := Without(s.staged, i))
    ensures Inv(s')
  {
    EnqueuedBacked(s.files, s.queue, s.staged[i]);
    forall p | p != NO_PATH
      ensures Holders(s', p) <= 1
    {
      assert Holders(s, p) <= 1;
      CountSplit(s.staged, i, p);
      CountEnqueued(s.queue, s.staged[i], p);
    }
  }

  /** Jobs without files change nobody's claim to a file. */
  predicate Loose(jobs: seq<Job>) { forall i :: 0 <= i < |jobs| ==> jobs[i].sidecarPath == NO_PATH && jobs[i].attempt == 0 }

  lemma {:induction false} EnvelopesLoose(url: string, bodies: seq<string>, metric: bool)
    ensures Loose(EnvelopeJobs(url, bodies, metric)) && |EnvelopeJobs(url, bodies, metric)| == |bodies|
  {
    if bodies != [] {
      EnvelopesLoose(url, bodies[..|bodies| - 1], metric);
    }
  }

  lemma KeepStaged(s: System, s': System, jobs: seq<Job>)
    requires Inv(s) && s.alive && Loose(jobs)
    requires s'.staged == s.staged + jobs
    requires s' == s.(staged := s'.staged, events := s'.events, metrics := s'.metrics, gate := s'.gate)
    ensures Inv(s')
  {
    forall p | p != NO_PATH
      ensures Holders(s', p) <= 1
    {
      assert Holders(s, p) <= 1;
      CountAppend(s.staged, jobs, p);
      CountUnheld(jobs, p);
    }
  }

  lemma CountOne(job: Job, p: Path)
    ensures Count([job], p) == if job.sidecarPath == p then 1 else 0
  {
    assert [] + [job] == [job];
    CountPush([], job, p);
  }

  lemma KeepTake(s: System, s': System, i: nat)
    requires Inv(s) && s.alive && s.flight == None && i < |s.queue|
    requires s' == s.(flight := Some(Flight(s.queue[i], None)), queue := Without(s.queue, i))
    ensures Inv(s')
  {
    forall p | p != NO_PATH
      ensures Holders(s', p) <= 1
    {
      assert Holders(s, p) <= 1;
      CountSplit(s.queue, i, p);
      CountOne(s.queue[i], p);
    }
  }

  lemma KeepAnswer(s: System, s': System, r: Response)
    requires Inv(s) && s.alive && s.flight.Some?
    requires s' == s.(flight := Some(Flight(s.flight.value.job, Some(r))))
    ensures Inv(s')
  {
    assert FlightJobs(s') == FlightJobs(s);
    forall p | p != NO_PATH
      ensures Holders(s', p) <= 1
    {
      assert Holders(s, p) <= 1;
    }
  }

  lemma {:induction false} FulfilsLoose(rs: seq<JsonAck.PullRequest>, c: Context)
    ensures Loose(FulfilJobs(rs, c))
  {
    if rs != [] {
      FulfilsLoose(rs[..|rs| - 1], c);
    }
  }

  lemma DeliveredSpawnsLoose(job: Job, body: string, claimed: bool, c: Context)
    ensures Loose(DeliveredEffects(job, body, claimed, c).spawned)
  {
    var first, second := LogJobs(job, body, claimed, c), AckJobs(body, c);
    assert Loose(first);
    FulfilsLoose(JsonAck.Pending(body), c);
    assert Loose(second);
  }

  /** What the effects of a settled response can be. */
  predicate Lawful(job: Job, r: Response, c: Context, e: Effects) {
    && (e.removes <==> !job.isLogUpload && Classify(r) != Transient)
    && (e.removes ==> !e.persists && Loose(e.spawned))
    && (!e.removes ==> !e.rtt && (e.spawned == [] || (job.attempt + 1 < MAX_ATTEMPTS && e.spawned == [Retried(job, Hint(r), c.now)])))
    && (e.persists ==> NeedsFile(job) && e.spawned == [])
  }

  /** A success. */
  predicate Succeeds(r: Response) { !r.transportError && 200 <= r.status < 300 }

  /** A success or a rejection: an answer below 500 that does not ask to come back (408, 429). */
  predicate IsFinal(r: Response) { !r.transportError && r.status < 500 && r.status != 408 && r.status != 429 }

  /**
   * What any answer does to a job that is no log upload, by its status: a final one removes the file; a
   * success, and nothing else, spawns what the server grants; any other answer re-queues a job that is
   * not ephemeral until its fifth post, and then writes it to disk if it may be and has no file yet.
   */
  lemma SettleByStatus(job: Job, r: Response, claimed: bool, c: Context)
    requires !job.isLogUpload
    ensures var e := SettleEffects(job, r, claimed, c);
            && (e.removes <==> IsFinal(r))
            && (Succeeds(r) ==>
                  && e.spawned == (if job.requestLog then LogJobs(job, r.body, claimed, c) else [])
                                  + (if job.parseAck then AckJobs(r.body, c) else [])
                  && (e.rtt <==> c.rttHandler && job.signBody && !job.suppressRtt) && !e.persists)
            && (!Succeeds(r) ==> !e.rtt && e.claimed == claimed)
            && (IsFinal(r) && !Succeeds(r) ==> e.spawned == [] && !e.persists)
            && (!IsFinal(r) ==>
                  && e.spawned == (if job.durability != Ephemeral && job.attempt < 4 then [Retried(job, Hint(r), c.now)] else [])
                  && (e.persists <==> job.durability != Ephemeral && job.attempt >= 4
                                      && !job.noPersist && job.sidecarPath == NO_PATH))
  {
  }

  /**
   * A granted slot is used for one upload of the log the report belongs to - the last session's or this
   * one's - unless that log is empty, or the last session's has been claimed before in this launch.
   */
  lemma LogUploadIsGranted(job: Job, body: string, claimed: bool, c: Context)
    ensures var jobs := LogJobs(job, body, claimed, c);
            var log := if job.logFromPrevious then c.previousLog else c.currentLog;
            && (jobs == [] <==> JsonUpload.UploadOf(body).None? || log == "" || (job.logFromPrevious && claimed))
            && (jobs != [] ==>
                  && |jobs| == 1 && jobs[0].isLogUpload && jobs[0].raw == log && jobs[0].attempt == 0
                  && jobs[0].url == JsonUpload.UploadOf(body).value.url
                  && jobs[0].formFields == JsonUpload.UploadOf(body).value.fields)
  {
  }

  /** A log upload has no file; it is posted again after the same answers, and spawns nothing else. */
  lemma LogUploadByStatus(job: Job, r: Response, claimed: bool, c: Context)
    requires job.isLogUpload
    ensures var e := SettleEffects(job, r, claimed, c);
            && !e.removes && !e.persists && !e.rtt && e.claimed == claimed
            && e.spawned == if !IsFinal(r) && job.attempt < 4 then [Retried(job, Hint(r), c.now)] else []
  {
  }

  lemma SettleIsLawful(job: Job, r: Response, claimed: bool, c: Context)
    ensures Lawful(job, r, c, SettleEffects(job, r, claimed, c))
  {
    if !job.isLogUpload && Classify(r) == Delivered {
      DeliveredSpawnsLoose(job, r.body, claimed, c);
    }
  }

  /** Removing the in-flight job's file: nobody else holds it. */
  lemma RemoveKeepsOthers(s: System, path: Path, works: bool)
    requires Inv(s) && s.flight.Some? && s.flight.value.job.sidecarPath == path
    ensures AllBacked(AfterRemove(s.files, path, works), s.queue)
    ensures AllBacked(AfterRemove(s.files, path, works), s.staged)
    ensures Faithful(AfterRemove(s.files, path, works), s.restoring)
  {
    if path != NO_PATH {
      CountOne(s.flight.value.job, path);
      assert Holders(s, path) <= 1;
      NotHeld(s.queue, path);
      NotHeld(s.staged, path);
      forall i | 0 <= i < |s.restoring|
        ensures s.restoring[i].path != path
      {
        CountRecordsHeld(s.restoring, i);
      }
      var files := AfterRemove(s.files, path, works);
      StillBacked(s.files, files, s.queue);
      StillBacked(s.files, files, s.staged);
    }
  }

  lemma NotHeld(jobs: seq<Job>, p: Path)
    requires Count(jobs, p) == 0
    ensures forall i :: 0 <= i < |jobs| ==> jobs[i].sidecarPath != p
  {
    forall i | 0 <= i < |jobs|
      ensures jobs[i].sidecarPath != p
    {
      if jobs[i].sidecarPath == p {
        CountHeld(jobs, i, p);
      }
    }
  }

  /** A new file next to the others. */
  lemma AddKeepsOthers(s: System, path: Path, file: File)
    requires Inv(s) && path !in s.files && path != NO_PATH
    ensures AllBacked(s.files[path := file], s.queue) && AllBacked(s.files[path := file], s.staged)
    ensures Faithful(s.files[path := file], s.restoring)
  {
    StillBacked(s.files, s.files[path := file], s.queue);
    StillBacked(s.files, s.files[path := file], s.staged);
  }

  /** The flight is over: its job is gone, or goes on as `spawned`. */
  lemma KeepLanding(s: System, s': System, spawned: seq<Job>)
    requires Inv(s) && s.alive && s.flight.Some?
    requires s'.queue == s.queue && s'.restoring == s.restoring && s'.flight == None && s'.alive
    requires s'.staged == s.staged + spawned
    requires NO_PATH !in s'.files && AllBacked(s'.files, s.queue) && AllBacked(s'.files, s.staged)
    requires Faithful(s'.files, s.restoring) && AllBacked(s'.files, spawned)
    requires forall p :: p != NO_PATH ==> Count(spawned, p) <= Count(FlightJobs(s), p)
    ensures Inv(s')
  {
    forall p | p != NO_PATH
      ensures Holders(s', p) <= 1
    {
      assert Holders(s, p) <= 1;
      CountAppend(s.staged, spawned, p);
    }
  }

  lemma KeepSettle(s: System, s': System, r: Response, c: Context, e: Effects, name: Option<Path>, works: bool)
    requires Inv(s) && s.alive && s.flight.Some? && Drawable(s.files, name)
    requires Lawful(s.flight.value.job, r, c, e)
    requires s'.queue == s.queue && s'.restoring == s.restoring && s'.flight == None && s'.alive
    requires s'.staged == s.staged + e.spawned
    requires s'.files == FilesAfter(s.files, s.configured, s.flight.value.job, e, name, works)
    ensures Inv(s')
  {
    var job := s.flight.value.job;
    if e.removes {
      RemoveKeepsOthers(s, job.sidecarPath, works);
      LooseIsFree(s'.files, e.spawned);
    } else if e.spawned != [] {
      assert FlightJobs(s)[0] == job;
      RetryIsBacked(s.files, job, e.spawned[0]);
    } else if e.persists && s'.files != s.files {
      AddKeepsOthers(s, name.value, File(job.kind, job.body));
    }
    KeepLanding(s, s', e.spawned);
  }

  lemma LooseIsFree(files: Directory, jobs: seq<Job>)
    requires Loose(jobs)
    ensures AllBacked(files, jobs) && forall p :: p != NO_PATH ==> Count(jobs, p) == 0
  {
    forall p | p != NO_PATH
      ensures Count(jobs, p) == 0
    {
      CountUnheld(jobs, p);
    }
  }

  lemma RetryIsBacked(files: Directory, job: Job, again: Job)
    requires Backed(files, job) && job.attempt + 1 < MAX_ATTEMPTS
    requires again == job.(attempt := job.attempt + 1, notBefore := again.notBefore)
    ensures AllBacked(files, [again]) && forall p :: Count([again], p) == Count([job], p)
  {
    forall p
      ensures Count([again], p) == Count([job], p)
    {
      CountOne(job, p);
      CountOne(again, p);
    }
  }

  /** What a process that is gone leaves: files, and no memory. */
  lemma KeepDead(s: System)
    requires NO_PATH !in s.files
    ensures Inv(Dead(s))
  {
  }

  lemma LeftoversKeepNoPath(files: Directory, configured: bool, jobs: seq<Job>, names: seq<Option<Path>>)
    requires |jobs| == |names| && DrawableAll(files, names) && NO_PATH !in files
    ensures NO_PATH !in LeftoverFiles(files, configured, jobs, names)
  {
    LeftoverKeys(files, configured, jobs, names, |names|);
    assert jobs[..|jobs|] == jobs && names[..|names|] == names;
    forall i | 0 <= i < |names|
      ensures names[i] != Some(NO_PATH)
    {
      assert Drawable(files, names[i]);
    }
  }

  /** Steps of the worker and of the threads that hand it jobs. */
  lemma QueueStepKeepsInv(s: System, e: Step)
    requires Inv(s) && Enabled(s, e) && (e.Restore? || e.Push? || e.Take? || e.Answer?)
    ensures Inv(Next(s, e))
  {
    var s' := Next(s, e);
    match e
    case Restore(endpoint) =>
      RestoredIsBacked(s.files, s.restoring, endpoint);
      KeepRestore(s, s', RestoredJob(s.restoring[0], endpoint));
    case Push(i) => KeepPush(s, s', i);
    case Take(now) => KeepTake(s, s', FirstReady(s.queue, now));
    case Answer(r) => KeepAnswer(s, s', r);
  }

  /** Steps that bring new jobs or items. */
  lemma ClientStepKeepsInv(s: System, e: Step)
    requires Inv(s) && Enabled(s, e) && (e.Capture? || e.Submit? || e.Drain? || e.Buffer? || e.OpenGate?)
    ensures Inv(Next(s, e))
  {
    var s' := Next(s, e);
    match e
    case Capture(_, _, _, _, _, _, _) => KeepCapture(s, s', IngestJob(e, CapturePath(s, e)));
    case Submit(job) => KeepStaged(s, s', [job]);
    case Drain(metric, url, bodies) =>
      EnvelopesLoose(url, bodies, metric);
      KeepStaged(s, s', EnvelopeJobs(url, bodies, metric));
    case _ => KeepStaged(s, s', []);
  }

  lemma SettleStepKeepsInv(s: System, e: Step)
    requires Inv(s) && Enabled(s, e) && e.Settle?
    ensures Inv(Next(s, e))
  {
    var flight := s.flight.value;
    SettleIsLawful(flight.job, flight.answer.value, s.claimed, e.c);
    KeepSettle(s, Next(s, e), flight.answer.value, e.c, Settling(s, e.c), e.name, e.removeWorks);
  }

  lemma StepKeepsInv(s: System, e: Step)
    requires Inv(s) && Enabled(s, e)
    ensures Inv(Next(s, e))
  {
    match e
    case Launch(_, _, _) => KeepLaunch(s, e);
    case Settle(_, _, _, _) => SettleStepKeepsInv(s, e);
    case Kill => KeepDead(s);
    case Stop(names) =>
      LeftoversKeepNoPath(s.files, s.configured, s.queue, names);
      KeepDead(s.(files := Next(s, e).files));
    case Capture(_, _, _, _, _, _, _) => ClientStepKeepsInv(s, e);
    case Submit(_) => ClientStepKeepsInv(s, e);
    case Drain(_, _, _) => ClientStepKeepsInv(s, e);
    case Buffer(_) => ClientStepKeepsInv(s, e);
    case OpenGate => ClientStepKeepsInv(s, e);
    case _ => QueueStepKeepsInv(s, e);
  }
}
