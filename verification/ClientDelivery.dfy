/**
 * How the client hands work to the worker (src/client.cpp, src/client_reports.cpp): reports written
 * ahead and enqueued, files restored at launch, batches flushed as envelopes.
 */
module ClientDelivery {
  import opened Base
  import opened JsonFields
  import opened Sidecars
  import opened Delivery
  import opened DeliverySystem
  import opened Batching
  import DeliveryRuns

  function RestoredJobs(rs: seq<Record>, endpoint: string): (jobs: seq<Job>)
    ensures |jobs| == |rs|
  {
    if rs == [] then [] else RestoredJobs(rs[..|rs| - 1], endpoint) + [RestoredJob(rs[|rs| - 1], endpoint)]
  }

  predicate HasCrash(rs: seq<Record>) { exists i :: 0 <= i < |rs| && rs[i].kind == Crash }

  /** The report is on disk before it is in the queue, if it is to be and can be. */
  method EnqueueIngest(w: Worker, url: string, body: string, durability: Durability, kind: Kind,
                       requestLog: bool, logFromPrevious: bool, storageAvailable: bool, name: Option<Path>)
    requires Drawable(w.sidecars.files, name)
    modifies w`queue, w.sidecars
    ensures var e := Step.Capture(url, body, durability, kind, requestLog, logFromPrevious, name);
            var path := if durability == WriteAhead && storageAvailable
                        then Written(old(w.sidecars.files), w.sidecars.configured, kind, name) else NO_PATH;
            && w.queue == Enqueued(old(w.queue), IngestJob(e, path))
            && w.sidecars.files == AfterWrite(old(w.sidecars.files), path, kind, body)
    ensures w.sidecars.configured == old(w.sidecars.configured)
  {
    var job := BLANK_JOB.(url := url, body := body);
    job := job.(durability := durability, kind := kind);
    job := job.(requestLog := requestLog, logFromPrevious := logFromPrevious);
    job := job.(signBody := true);
    if durability == WriteAhead && storageAvailable {
      var path := w.sidecars.Write(kind, job.body, name);
      job := job.(sidecarPath := path);
    }
    w.Enqueue(job);
  }

  /** Each stored report becomes one job again; whether a crash was among them is remembered. */
  method DrainSidecars(w: Worker, listing: seq<Path>, endpoint: string) returns (hasRestoredCrash: bool)
    requires Lists(w.sidecars.files, listing)
    modifies w`queue
    ensures var rs := Scanned(w.sidecars.files, w.sidecars.configured, listing);
            w.queue == EnqueuedAll(old(w.queue), RestoredJobs(rs, endpoint)) && hasRestoredCrash == HasCrash(rs)
  {
    hide RestoredJobs, RestoredJob, EnqueuedAll, HasCrash;
    var records := w.sidecars.Scan(listing);
    hasRestoredCrash := false;
    NothingYet(w.queue, records, endpoint);
    for i := 0 to |records|
      invariant w.queue == EnqueuedAll(old(w.queue), RestoredJobs(records[..i], endpoint))
      invariant hasRestoredCrash == HasCrash(records[..i])
    {
      var record := records[i];
      OneMoreRecord(records, i);
      if record.kind == Crash {
        hasRestoredCrash := true;
      }
      RestoreNext(w, records, i, endpoint, old(w.queue));
    }
    assert records[..|records|] == records;
  }

  /** Some crash report is on disk, and not empty. */
  ghost predicate StoresCrash(files: Directory) { exists p :: p in files && files[p].kind == Crash && files[p].body != "" }

  /** A crash is restored exactly when one is on disk. */
  lemma CrashAmongFiles(files: Directory, configured: bool, listing: seq<Path>)
    requires Lists(files, listing)
    ensures HasCrash(Scanned(files, configured, listing)) <==> configured && StoresCrash(files)
  {
    if configured {
      hide Scanned;
      ScanIsComplete(files, listing);
      var rs := Scanned(files, true, listing);
      if HasCrash(rs) {
        var i :| 0 <= i < |rs| && rs[i].kind == Crash;
        assert files[rs[i].path] == File(Crash, rs[i].body);
      }
      if StoresCrash(files) {
        var p :| p in files && files[p].kind == Crash && files[p].body != "";
        var i :| 0 <= i < |rs| && rs[i].path == p;
        assert files[p] == File(rs[i].kind, rs[i].body);
      }
    }
  }

  lemma NothingYet(q: seq<Job>, rs: seq<Record>, endpoint: string)
    ensures EnqueuedAll(q, RestoredJobs(rs[..0], endpoint)) == q && !HasCrash(rs[..0])
  {
  }

  method RestoreNext(w: Worker, records: seq<Record>, i: nat, endpoint: string, ghost q: seq<Job>)
    requires i < |records| && w.queue == EnqueuedAll(q, RestoredJobs(records[..i], endpoint))
    modifies w`queue
    ensures w.queue == EnqueuedAll(q, RestoredJobs(records[..i + 1], endpoint))
  {
    OneMoreRestored(q, records, i, endpoint);
    Restore(w, records[i], endpoint);
  }

  method Restore(w: Worker, record: Record, endpoint: string)
    modifies w`queue
    ensures w.queue == Enqueued(old(w.queue), RestoredJob(record, endpoint))
  {
    var job := BLANK_JOB.(url := endpoint + IngestPath(record.kind), body := record.body);
    job := job.(durability := WriteAhead, kind := record.kind, sidecarPath := record.path);
    var flag := FindBoolField(job.body, "log");
    job := job.(requestLog := record.kind != Event && flag.GetOr(false), logFromPrevious := true);
    job := job.(signBody := true);
    w.Enqueue(job);
  }

  lemma OneMoreJob(rs: seq<Record>, i: nat, endpoint: string)
    requires i < |rs|
    ensures RestoredJobs(rs[..i + 1], endpoint) == RestoredJobs(rs[..i], endpoint) + [RestoredJob(rs[i], endpoint)]
  {
    var longer := rs[..i + 1];
    assert longer[..i] == rs[..i] && longer[i] == rs[i];
  }

  lemma OneMoreRestored(q: seq<Job>, rs: seq<Record>, i: nat, endpoint: string)
    requires i < |rs|
    ensures EnqueuedAll(q, RestoredJobs(rs[..i + 1], endpoint))
         == Enqueued(EnqueuedAll(q, RestoredJobs(rs[..i], endpoint)), RestoredJob(rs[i], endpoint))
  {
    OneMoreJob(rs, i, endpoint);
    EnqueueMore(q, RestoredJobs(rs[..i], endpoint), RestoredJob(rs[i], endpoint));
  }

  lemma OneMoreRecord(rs: seq<Record>, i: nat)
    requires i < |rs|
    ensures HasCrash(rs[..i + 1]) <==> HasCrash(rs[..i]) || rs[i].kind == Crash
  {
    if HasCrash(rs[..i]) {
      var k :| 0 <= k < i && rs[..i][k].kind == Crash;
      assert rs[..i + 1][k].kind == Crash;
    } else if rs[i].kind == Crash {
      assert rs[..i + 1][i].kind == Crash;
    }
  }

  /** Into an empty queue, a drain puts every stored report and loses none. */
  lemma DrainLosesNothing(files: Directory, listing: seq<Path>, endpoint: string)
    requires Lists(files, listing) && WithinBound(files)
    ensures var jobs := RestoredJobs(Scanned(files, true, listing), endpoint); EnqueuedAll([], jobs) == jobs
  {
    DeliveryRuns.RestoredFit(files, true, listing, RestoredJobs(Scanned(files, true, listing), endpoint));
  }

  /** Every envelope of a ready batch is enqueued, in order. */
  method MaybeFlushBatch(w: Worker, batch: Batch, url: string, sentAtIso: string, now: int, force: bool, suppressRtt: bool)
    modifies w`queue, batch`items
    ensures !old(batch.Ready(now, force)) ==> w.queue == old(w.queue) && batch.items == old(batch.items)
    ensures old(batch.Ready(now, force)) ==>
              var envelopes := Envelopes(sentAtIso, Split(|Envelope(sentAtIso, [])|, old(batch.items)));
              batch.items == [] && w.queue == EnqueuedAll(old(w.queue), EnvelopeJobs(url, envelopes, suppressRtt))
  {
    if batch.items == [] {
      return;
    }
    var envelopes := batch.DrainEnvelopesIfReady(sentAtIso, now, force);
    PostEnvelopes(w, url, envelopes, suppressRtt);
  }

  /** A captured report's job, whose file is the one written for it. */
  lemma CaptureIsOneJob(url: string, body: string, durability: Durability, kind: Kind, requestLog: bool,
                        logFromPrevious: bool, name: Option<Path>, path: Path)
    ensures var job := IngestJob(Step.Capture(url, body, durability, kind, requestLog, logFromPrevious, name), path);
            && job.url == url && job.body == body && job.durability == durability && job.kind == kind && job.sidecarPath == path
            && job.requestLog == requestLog && job.logFromPrevious == logFromPrevious
            && job.signBody && !job.suppressRtt && !job.noPersist && !job.parseAck && !job.isLogUpload
            && job.attempt == 0 && job.notBefore == 0
  {
  }

  /** Each envelope is one signed job, in order and never stored; only a batch of metrics makes no metric itself. */
  lemma {:induction false} EnvelopesAreJobs(url: string, bodies: seq<string>, metric: bool)
    ensures var jobs := EnvelopeJobs(url, bodies, metric);
            |jobs| == |bodies| && forall i :: 0 <= i < |jobs| ==> EnvelopeIsJob(jobs[i], url, bodies[i], metric)
  {
    if bodies != [] {
      EnvelopesAreJobs(url, bodies[..|bodies| - 1], metric);
    }
  }

  predicate EnvelopeIsJob(job: Job, url: string, body: string, metric: bool) {
    && job.url == url && job.body == body && job.signBody && job.noPersist && job.suppressRtt == metric
    && job.sidecarPath == NO_PATH && job.durability != Ephemeral && !job.requestLog && !job.parseAck && !job.isLogUpload
    && job.attempt == 0 && job.notBefore == 0
  }

  method PostEnvelopes(w: Worker, url: string, envelopes: seq<string>, suppressRtt: bool)
    modifies w`queue
    ensures w.queue == EnqueuedAll(old(w.queue), EnvelopeJobs(url, envelopes, suppressRtt))
  {
    for i := 0 to |envelopes|
      invariant w.queue == EnqueuedAll(old(w.queue), EnvelopeJobs(url, envelopes[..i], suppressRtt))
    {
      var job := BLANK_JOB.(url := url, body := envelopes[i], noPersist := true);
      job := job.(signBody := true, suppressRtt := suppressRtt);
      assert envelopes[..i + 1][..i] == envelopes[..i];
      EnqueueMore(old(w.queue), EnvelopeJobs(url, envelopes[..i], suppressRtt), job);
      w.Enqueue(job);
    }
    assert envelopes[..|envelopes|] == envelopes;
  }
}
