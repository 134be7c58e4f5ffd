/**
 * The delivery worker of src/worker.cpp with the acknowledgement handler of src/client.cpp: a
 * bounded queue, one job at a time, retries with backoff, write-ahead files and the jobs that a
 * delivery spawns. The functions are what one settled response does; the class does it.
 */
module Delivery {
  import opened Base
  import opened JsonTree
  import opened JsonAck
  import opened JsonUpload
  import opened PullRequests
  import opened RetryAfter
  import opened Sidecars

  datatype Durability = Ephemeral | PersistOnFailure | WriteAhead

  datatype Job = Job(
    isLogUpload: bool, formFields: seq<Field>, url: string, body: string, raw: string,
    durability: Durability, kind: Kind, sidecarPath: Path, requestLog: bool, logFromPrevious: bool,
    noPersist: bool, parseAck: bool, signBody: bool, suppressRtt: bool, attempt: nat, notBefore: int)

  /** A job as its declaration leaves it; every creator sets what it needs. */
  const BLANK_JOB := Job(false, [], "", "", "", PersistOnFailure, Event, NO_PATH,
                         false, false, false, false, false, false, 0, 0)

  datatype Response = Response(transportError: bool, status: int, body: string, retryAfter: string)

  datatype Outcome = Delivered | Transient | Poison

  /** What a settled response may consult: the clock, the logs on disk and the client. */
  datatype Context = Context(
    now: int, currentLog: string, previousLog: string,
    endpoint: string, captureAllowed: bool, identity: Identity, rttHandler: bool)

  const MAX_QUEUE_SIZE := 256
  const MAX_ATTEMPTS := 5

  function Classify(r: Response): Outcome {
    if r.transportError then Transient
    else if 200 <= r.status < 300 then Delivered
    else if r.status == 408 || r.status == 429 || r.status >= 500 then Transient
    else Poison
  }

  /** Only 429 and 503 mean "come back later". */
  function Hint(r: Response): int {
    if r.status != 429 && r.status != 503 then -1 else Seconds(r.retryAfter)
  }

  // ------------------------------------------------- the queue

  /** The newest 256 jobs, oldest first. */
  function Enqueued(q: seq<Job>, job: Job): seq<Job> {
    (if |q| >= MAX_QUEUE_SIZE then q[1..] else q) + [job]
  }

  function EnqueuedAll(q: seq<Job>, jobs: seq<Job>): seq<Job> {
    if jobs == [] then q else Enqueued(EnqueuedAll(q, jobs[..|jobs| - 1]), jobs[|jobs| - 1])
  }

  /** Index of the oldest job whose wait is over; the queue's length when there is none. */
  function FirstReady(q: seq<Job>, now: int): (i: nat)
    ensures i <= |q|
    ensures i < |q| ==> q[i].notBefore <= now
    ensures forall k :: 0 <= k < i ==> q[k].notBefore > now
  {
    if q == [] || q[0].notBefore <= now then 0 else 1 + FirstReady(q[1..], now)
  }

  function Without(q: seq<Job>, i: nat): seq<Job>
    requires i < |q|
  {
    q[..i] + q[i + 1..]
  }

  // ------------------------------------------------- what a settled response does

  /** `removes` and `persists` concern the job's file, `spawned` is enqueued in order. */
  datatype Effects = Effects(removes: bool, persists: bool, spawned: seq<Job>, claimed: bool, rtt: bool)

  function Retried(job: Job, hint: int, now: int): Job {
    job.(attempt := job.attempt + 1, notBefore := now + RetryDelay(job.attempt + 1, hint))
  }

  /** Whether an undelivered job still has to be written to disk. */
  predicate NeedsFile(job: Job) {
    !job.isLogUpload && !job.noPersist && job.sidecarPath == NO_PATH && job.durability != Ephemeral
  }

  function RetryOrGiveUpEffects(job: Job, hint: int, now: int, claimed: bool): Effects {
    if job.attempt + 1 < MAX_ATTEMPTS then Effects(false, false, [Retried(job, hint, now)], claimed, false)
    else Effects(false, NeedsFile(job), [], claimed, false)
  }

  function LogJob(upload: LogUpload, bytes: string): Job {
    BLANK_JOB.(isLogUpload := true, url := upload.url, formFields := upload.fields, raw := bytes)
  }

  function LogBytes(job: Job, c: Context): string { if job.logFromPrevious then c.previousLog else c.currentLog }

  /** The previous log goes out at most once a launch: the first granted slot claims it. */
  function LogJobs(job: Job, responseBody: string, claimed: bool, c: Context): seq<Job> {
    var upload := UploadOf(responseBody);
    if upload.None? || (job.logFromPrevious && claimed) || LogBytes(job, c) == "" then []
    else [LogJob(upload.value, LogBytes(job, c))]
  }

  function ClaimedAfter(job: Job, responseBody: string, claimed: bool): bool {
    claimed || (UploadOf(responseBody).Some? && job.logFromPrevious)
  }

  function FulfilJob(r: PullRequest, c: Context): Job {
    BLANK_JOB.(url := c.endpoint + "/api/v1/pull-requests" + "/" + r.requestId + "/fulfill",
               body := Print(FulfilTree(c.identity, r.fulfillNonce, r.nonceExpiry)),
               requestLog := true, noPersist := true)
  }

  predicate Honoured(r: PullRequest, id: Identity) { r.requestId != "" && Targets(r, id) }

  function FulfilJobs(rs: seq<PullRequest>, c: Context): (jobs: seq<Job>)
    ensures |jobs| <= |rs|
  {
    if rs == [] then []
    else
      var rest, r := FulfilJobs(rs[..|rs| - 1], c), rs[|rs| - 1];
      if Honoured(r, c.identity) then rest + [FulfilJob(r, c)] else rest
  }

  function AckJobs(responseBody: string, c: Context): seq<Job> {
    if !c.captureAllowed || responseBody == "" then [] else FulfilJobs(Pending(responseBody), c)
  }

  function DeliveredEffects(job: Job, body: string, claimed: bool, c: Context): Effects {
    Effects(true, false,
            (if job.requestLog then LogJobs(job, body, claimed, c) else [])
            + (if job.parseAck then AckJobs(body, c) else []),
            if job.requestLog then ClaimedAfter(job, body, claimed) else claimed,
            c.rttHandler && job.signBody && !job.suppressRtt)
  }

  function PostEffects(job: Job, r: Response, claimed: bool, c: Context): Effects {
    match Classify(r)
    case Delivered => DeliveredEffects(job, r.body, claimed, c)
    case Poison => Effects(true, false, [], claimed, false)
    case Transient =>
      if job.durability == Ephemeral then Effects(false, false, [], claimed, false)
      else RetryOrGiveUpEffects(job, Hint(r), c.now, claimed)
  }

  function SettleEffects(job: Job, r: Response, claimed: bool, c: Context): Effects {
    if !job.isLogUpload then PostEffects(job, r, claimed, c)
    else if Classify(r) == Transient && job.attempt + 1 < MAX_ATTEMPTS
    then RetryOrGiveUpEffects(job, Hint(r), c.now, claimed)
    else Effects(false, false, [], claimed, false)
  }

  /** The directory after the effects on the job's file; `name` is what a write draws. */
  function FilesAfter(files: Directory, configured: bool, job: Job, e: Effects,
                      name: Option<Path>, removeWorks: bool): Directory {
    if e.removes then AfterRemove(files, job.sidecarPath, removeWorks)
    else if e.persists then AfterWrite(files, Written(files, configured, job.kind, name), job.kind, job.body)
    else files
  }

  /** The names that writing a list of leftovers may draw: unused and all different. */
  ghost predicate DrawableAll(files: Directory, names: seq<Option<Path>>) {
    && (forall i :: 0 <= i < |names| ==> Drawable(files, names[i]))
    && (forall i, j :: 0 <= i < j < |names| && names[i].Some? ==> names[i] != names[j])
  }

  /** What a clean stop leaves on disk. */
  function LeftoverFiles(files: Directory, configured: bool, jobs: seq<Job>, names: seq<Option<Path>>): Directory
    requires |jobs| == |names|
  {
    if jobs == [] then files
    else
      var n := |jobs| - 1;
      var before, job := LeftoverFiles(files, configured, jobs[..n], names[..n]), jobs[n];
      if NeedsFile(job) then AfterWrite(before, Written(before, configured, job.kind, names[n]), job.kind, job.body)
      else before
  }

  // ------------------------------------------------- the code

  class Worker {
    const sidecars: SidecarQueue
    var queue: seq<Job>
    var running: bool
    var previousLogClaimed: bool

    constructor (store: SidecarQueue)
      ensures sidecars == store && queue == [] && !running && !previousLogClaimed
    {
      sidecars, queue, running, previousLogClaimed := store, [], false, false;
    }

    method Start()
      modifies `running
      ensures running
    {
      running := true;
    }

    method Enqueue(job: Job)
      modifies `queue
      ensures queue == Enqueued(old(queue), job)
    {
      if |queue| >= MAX_QUEUE_SIZE {
        queue := queue[1..];
      }
      queue := queue + [job];
    }

    method TakeReadyJob(now: int) returns (out: Option<Job>)
      modifies `queue
      ensures var i := FirstReady(old(queue), now);
              if i == |old(queue)| then out == None && queue == old(queue)
              else out == Some(old(queue)[i]) && queue == Without(old(queue), i)
    {
      var it := 0;
      while it < |queue|
        invariant 0 <= it <= |queue| && queue == old(queue)
        invariant FirstReady(queue, now) == it + FirstReady(queue[it..], now)
      {
        assert queue[it..][1..] == queue[it + 1..];
        if queue[it].notBefore <= now {
          out := Some(queue[it]);
          queue := queue[..it] + queue[it + 1..];
          return;
        }
        it := it + 1;
      }
      out := None;
    }

    method RetryOrGiveUp(job: Job, hint: int, c: Context, name: Option<Path>)
      requires Drawable(sidecars.files, name)
      modifies `queue, sidecars
      ensures var e := RetryOrGiveUpEffects(job, hint, c.now, previousLogClaimed);
              && queue == EnqueuedAll(old(queue), e.spawned)
              && sidecars.files == FilesAfter(old(sidecars.files), sidecars.configured, job, e, name, true)
      ensures sidecars.configured == old(sidecars.configured)
    {
      if job.attempt + 1 < MAX_ATTEMPTS {
        var attempt := job.attempt + 1;
        var delay := ComputeRetryDelay(attempt, hint);
        var again := job.(attempt := attempt, notBefore := c.now + delay);
        EnqueueOne(queue, again);
        Enqueue(again);
        return;
      }
      if !job.isLogUpload && !job.noPersist && job.sidecarPath == NO_PATH && job.durability != Ephemeral {
        var _ := sidecars.Write(job.kind, job.body, name);
      }
    }

    method ScheduleLogUpload(job: Job, responseBody: string, c: Context)
      modifies `queue, `previousLogClaimed
      ensures queue == EnqueuedAll(old(queue), LogJobs(job, responseBody, old(previousLogClaimed), c))
      ensures previousLogClaimed == ClaimedAfter(job, responseBody, old(previousLogClaimed))
    {
      var upload := FindLogUpload(responseBody);
      if upload == None {
        return;
      }
      if job.logFromPrevious {
        var was := previousLogClaimed;
        previousLogClaimed := true;
        if was {
          return;
        }
      }
      var bytes := if job.logFromPrevious then c.previousLog else c.currentLog;
      if bytes == "" {
        return;
      }
      var put := BLANK_JOB.(isLogUpload := true, url := upload.value.url);
      put := put.(formFields := upload.value.fields);
      put := put.(raw := bytes);
      EnqueueOne(queue, put);
      Enqueue(put);
    }

    /** The fulfilments an acknowledgement asks for, one enqueued after another. */
    method HandleHeartbeatAck(responseBody: string, c: Context)
      modifies `queue
      ensures queue == EnqueuedAll(old(queue), AckJobs(responseBody, c))
    {
      if !c.captureAllowed || responseBody == "" {
        return;
      }
      var pending := FindPendingRequests(responseBody);
      for i := 0 to |pending|
        invariant queue == EnqueuedAll(old(queue), FulfilJobs(pending[..i], c))
      {
        FulfilNext(old(queue), pending, i, c);
        EnqueueFulfilment(pending[i], c);
      }
      assert pending[..|pending|] == pending;
    }

    /** A request without an id, or for somebody else, is passed over. */
    method EnqueueFulfilment(request: PullRequest, c: Context)
      modifies `queue
      ensures queue == if Honoured(request, c.identity) then Enqueued(old(queue), FulfilJob(request, c)) else old(queue)
    {
      if request.requestId == "" {
        return;
      }
      var mine := PullRequestTargetsClient(request, c.identity);
      if !mine {
        return;
      }
      var job := BLANK_JOB.(url := c.endpoint + "/api/v1/pull-requests" + "/" + request.requestId + "/fulfill");
      var body := BuildPullFulfillJson(c.identity, request.fulfillNonce, request.nonceExpiry);
      job := job.(body := body, requestLog := true, noPersist := true);
      Enqueue(job);
    }

    method HandlePostResult(job: Job, r: Response, c: Context, name: Option<Path>, removeWorks: bool)
      requires Drawable(sidecars.files, name)
      modifies `queue, `previousLogClaimed, sidecars
      ensures var e := PostEffects(job, r, old(previousLogClaimed), c);
              && queue == EnqueuedAll(old(queue), e.spawned) && previousLogClaimed == e.claimed
              && sidecars.files == FilesAfter(old(sidecars.files), sidecars.configured, job, e, name, removeWorks)
      ensures sidecars.configured == old(sidecars.configured)
    {
      match Classify(r) {
        case Delivered =>
          sidecars.Remove(job.sidecarPath, removeWorks);
          ghost var first := if job.requestLog then LogJobs(job, r.body, previousLogClaimed, c) else [];
          ghost var second := if job.parseAck then AckJobs(r.body, c) else [];
          if job.requestLog {
            ScheduleLogUpload(job, r.body, c);
          }
          if job.parseAck {
            HandleHeartbeatAck(r.body, c);
          }
          EnqueueBoth(old(queue), first, second);
        case Poison =>
          sidecars.Remove(job.sidecarPath, removeWorks);
        case Transient =>
          if job.durability == Ephemeral {
            return;
          }
          RetryOrGiveUp(job, Hint(r), c, name);
      }
    }

    /** Settles one job with its response; `emitted` says whether the round-trip handler ran. */
    method Process(job: Job, r: Response, c: Context, name: Option<Path>, removeWorks: bool) returns (emitted: bool)
      requires Drawable(sidecars.files, name)
      modifies `queue, `previousLogClaimed, sidecars
      ensures var e := SettleEffects(job, r, old(previousLogClaimed), c);
              && queue == EnqueuedAll(old(queue), e.spawned) && previousLogClaimed == e.claimed && emitted == e.rtt
              && sidecars.files == FilesAfter(old(sidecars.files), sidecars.configured, job, e, name, removeWorks)
      ensures sidecars.configured == old(sidecars.configured)
    {
      if job.isLogUpload {
        var outcome := Classify(r);
        if outcome == Transient && job.attempt + 1 < MAX_ATTEMPTS {
          RetryOrGiveUp(job, Hint(r), c, name);
        }
        return false;
      }
      emitted := c.rttHandler && job.signBody && !job.suppressRtt && Classify(r) == Delivered;
      HandlePostResult(job, r, c, name, removeWorks);
    }

    /** Writes every leftover that has no file yet; the queue is emptied first. */
    method PersistLeftovers(names: seq<Option<Path>>)
      requires |names| == |queue| && DrawableAll(sidecars.files, names)
      modifies `queue, sidecars
      ensures queue == [] && sidecars.configured == old(sidecars.configured)
      ensures sidecars.files == LeftoverFiles(old(sidecars.files), sidecars.configured, old(queue), names)
    {
      var leftovers := queue;
      queue := [];
      for i := 0 to |leftovers|
        invariant queue == [] && sidecars.configured == old(sidecars.configured)
        invariant sidecars.files == LeftoverFiles(old(sidecars.files), sidecars.configured, leftovers[..i], names[..i])
      {
        var job := leftovers[i];
        LeftoverNames(old(sidecars.files), sidecars.configured, leftovers, names, i);
        assert leftovers[..i + 1][..i] == leftovers[..i] && names[..i + 1][..i] == names[..i];
        if !job.isLogUpload && !job.noPersist && job.sidecarPath == NO_PATH && job.durability != Ephemeral {
          var _ := sidecars.Write(job.kind, job.body, names[i]);
        }
      }
      assert leftovers[..|leftovers|] == leftovers && names[..|names|] == names;
    }

    method Stop(names: seq<Option<Path>>)
      requires |names| == |queue| && DrawableAll(sidecars.files, names)
      modifies `queue, `running, sidecars
      ensures !running && sidecars.configured == old(sidecars.configured)
      ensures !old(running) ==> queue == old(queue) && sidecars.files == old(sidecars.files)
      ensures old(running) ==>
                queue == [] &&
                sidecars.files == LeftoverFiles(old(sidecars.files), sidecars.configured, old(queue), names)
    {
      if !running {
        return;
      }
      running := false;
      PersistLeftovers(names);
    }
  }

  lemma FulfilNext(q: seq<Job>, rs: seq<PullRequest>, i: nat, c: Context)
    requires i < |rs|
    ensures EnqueuedAll(q, FulfilJobs(rs[..i + 1], c))
         == if Honoured(rs[i], c.identity) then Enqueued(EnqueuedAll(q, FulfilJobs(rs[..i], c)), FulfilJob(rs[i], c))
            else EnqueuedAll(q, FulfilJobs(rs[..i], c))
  {
    assert rs[..i + 1][..i] == rs[..i];
    EnqueueMore(q, FulfilJobs(rs[..i], c), FulfilJob(rs[i], c));
  }

  /** Where the requests stand that have an id and are for this client. */
  function HonouredAt(rs: seq<PullRequest>, id: Identity): seq<nat> {
    if rs == [] then []
    else
      var n := |rs| - 1;
      HonouredAt(rs[..n], id) + if rs[n].requestId != "" && Targets(rs[n], id) then [n] else []
  }

  lemma {:induction false} HonouredInOrder(rs: seq<PullRequest>, id: Identity)
    ensures var at := HonouredAt(rs, id);
            && (forall k :: 0 <= k < |at| ==> at[k] < |rs|) && (forall k, l :: 0 <= k < l < |at| ==> at[k] < at[l])
            && forall i :: 0 <= i < |rs| ==> (i in at <==> rs[i].requestId != "" && Targets(rs[i], id))
  {
    if rs != [] {
      var n := |rs| - 1;
      HonouredInOrder(rs[..n], id);
      assert forall i :: 0 <= i < n ==> rs[..n][i] == rs[i];
    }
  }

  /** The job posts the fulfilment to the request's own address, is never stored, and may be granted a log slot. */
  predicate Fulfils(job: Job, r: PullRequest, c: Context) {
    && job.url == c.endpoint + "/api/v1/pull-requests" + "/" + r.requestId + "/fulfill"
    && job.body == Print(FulfilTree(c.identity, r.fulfillNonce, r.nonceExpiry))
    && job.requestLog && !job.logFromPrevious && job.noPersist && job.sidecarPath == NO_PATH && !job.isLogUpload
    && job.durability != Ephemeral && !job.parseAck && !job.signBody && job.attempt == 0
  }

  lemma {:induction false} FulfilsAt(rs: seq<PullRequest>, c: Context)
    ensures |FulfilJobs(rs, c)| == |HonouredAt(rs, c.identity)|
    ensures forall k :: 0 <= k < |HonouredAt(rs, c.identity)| ==>
              HonouredAt(rs, c.identity)[k] < |rs| && FulfilJobs(rs, c)[k] == FulfilJob(rs[HonouredAt(rs, c.identity)[k]], c)
  {
    hide FulfilJob, Targets;
    if rs != [] {
      var n := |rs| - 1;
      FulfilsAt(rs[..n], c);
    }
  }

  lemma FulfilJobIs(r: PullRequest, c: Context)
    ensures Fulfils(FulfilJob(r, c), r, c)
  {
  }

  /**
   * An acknowledgement spawns one fulfilment for each request of its body that has an id and is for
   * this client, in the requests' order; and none while capture is not allowed.
   */
  lemma AckJobsInOrder(body: string, c: Context)
    ensures var rs, jobs := if c.captureAllowed then Pending(body) else [], AckJobs(body, c);
            var at := HonouredAt(rs, c.identity);
            && |jobs| == |at| && (forall k, l :: 0 <= k < l < |at| ==> at[k] < at[l])
            && (forall i :: 0 <= i < |rs| ==> (i in at <==> rs[i].requestId != "" && Targets(rs[i], c.identity)))
            && forall k :: 0 <= k < |at| ==> at[k] < |rs| && Fulfils(jobs[k], rs[at[k]], c)
  {
    hide HonouredAt, Targets;
    if body == "" {
      assert Pending(body) == [];
    }
    var rs := if c.captureAllowed then Pending(body) else [];
    FulfilsAt(rs, c);
    HonouredInOrder(rs, c.identity);
    forall k | 0 <= k < |HonouredAt(rs, c.identity)|
      ensures Fulfils(FulfilJobs(rs, c)[k], rs[HonouredAt(rs, c.identity)[k]], c)
    {
      FulfilJobIs(rs[HonouredAt(rs, c.identity)[k]], c);
    }
  }

  lemma EnqueueOne(q: seq<Job>, job: Job)
    ensures EnqueuedAll(q, [job]) == Enqueued(q, job)
  {
    assert [job][..0] == [];
    assert EnqueuedAll(q, []) == q;
  }

  lemma EnqueueMore(q: seq<Job>, jobs: seq<Job>, job: Job)
    ensures EnqueuedAll(q, jobs + [job]) == Enqueued(EnqueuedAll(q, jobs), job)
  {
    assert (jobs + [job])[..|jobs|] == jobs;
  }

  lemma {:induction false} EnqueueBoth(q: seq<Job>, a: seq<Job>, b: seq<Job>)
    ensures EnqueuedAll(q, a + b) == EnqueuedAll(EnqueuedAll(q, a), b)
  {
    if b == [] {
      assert a + b == a;
    } else {
      var front, last := b[..|b| - 1], b[|b| - 1];
      EnqueueBoth(q, a, front);
      EnqueueMore(q, a + front, last);
      assert a + front + [last] == a + b;
    }
  }

  /** Each name is still unused when its turn comes. */
  lemma LeftoverNames(files: Directory, configured: bool, jobs: seq<Job>, names: seq<Option<Path>>, i: nat)
    requires |jobs| == |names| && DrawableAll(files, names) && i < |names|
    ensures Drawable(LeftoverFiles(files, configured, jobs[..i], names[..i]), names[i])
  {
    LeftoverKeys(files, configured, jobs, names, i);
  }

  lemma {:induction false} LeftoverKeys(files: Directory, configured: bool, jobs: seq<Job>, names: seq<Option<Path>>, i: nat)
    requires |jobs| == |names| && i <= |names|
    ensures forall p :: p in LeftoverFiles(files, configured, jobs[..i], names[..i]) ==> p in files || Some(p) in names[..i]
  {
    if i > 0 {
      assert jobs[..i][..i - 1] == jobs[..i - 1] && names[..i][..i - 1] == names[..i - 1];
      LeftoverKeys(files, configured, jobs, names, i - 1);
    }
  }

  /** However many jobs arrive, the queue holds exactly the newest 256 in order. */
  lemma {:induction false} QueueKeepsNewest(q: seq<Job>, jobs: seq<Job>)
    requires |q| <= 256
    ensures var all := q + jobs;
            EnqueuedAll(q, jobs) == all[Max(0, |all| - 256)..]
  {
    if jobs == [] {
      assert q + jobs == q;
    } else {
      var front, last := jobs[..|jobs| - 1], jobs[|jobs| - 1];
      QueueKeepsNewest(q, front);
      assert q + jobs == q + front + [last];
    }
  }
}
