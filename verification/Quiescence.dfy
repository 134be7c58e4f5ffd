/**
 * The worker comes to rest. A delivery spawns further jobs - a heartbeat up to 32 fulfilments, a
 * fulfilment or a report a log upload, an ingest post a round-trip metric and so a metrics batch -
 * and a failure re-queues its job, yet without new captures every run of the worker is finite.
 */
module Quiescence {
  import opened Base
  import opened RetryAfter
  import opened Sidecars
  import opened Delivery
  import opened DeliverySystem

  // ------------------------------------------------- the ranking function

  /** Posts that can still come of a job: its own attempts, and those of all it may spawn. */
  function Potential(job: Job): (n: int)
    ensures n >= 0 && (job.attempt < MAX_ATTEMPTS ==> n >= 1)
  {
    Max(0, MAX_ATTEMPTS - job.attempt)
    + (if job.isLogUpload then 0
       else (if job.requestLog then 5 else 0)
            + (if job.parseAck then 320 else 0)
            + (if job.signBody && !job.suppressRtt then 6 else 0))
  }

  predicate Fresh(jobs: seq<Job>) { forall i :: 0 <= i < |jobs| ==> jobs[i].attempt < MAX_ATTEMPTS }

  function Sum(f: Job -> int, jobs: seq<Job>): int {
    if jobs == [] then 0 else Sum(f, jobs[..|jobs| - 1]) + f(jobs[|jobs| - 1])
  }

  function Total(jobs: seq<Job>): int { Sum(Potential, jobs) }

  function TotalRestoring(rs: seq<Record>): (n: int)
    ensures n >= |rs|
  {
    if rs == [] then 0 else Potential(RestoredJob(rs[0], "")) + TotalRestoring(rs[1..])
  }

  predicate Sound(s: System) { Fresh(s.queue) && Fresh(s.staged) && Fresh(FlightJobs(s)) }

  /** Everything that may still be posted; a buffered item counts for the envelope that carries it. */
  function Load(s: System): (n: int)
    ensures n >= 0
  {
    TotalCounts(s.queue);
    TotalCounts(s.staged);
    TotalCounts(FlightJobs(s));
    Total(s.queue) + Total(s.staged) + Total(FlightJobs(s)) + TotalRestoring(s.restoring) + 12 * s.events + 6 * s.metrics
  }

  /** Steps each job has before its next settling. */
  function Rank(s: System): nat {
    3 * |s.queue| + 4 * |s.staged| + 4 * |s.restoring|
    + if s.flight.None? then 0 else if s.flight.value.answer.None? then 2 else 1
  }

  /** 1 + 4n, summed: what a load of `n` is worth when every job's rank is at most 4. */
  function Worth(n: nat): nat { if n == 0 then 0 else Worth(n - 1) + 4 * n + 1 }

  function Measure(s: System): nat
    requires Sound(s)
  {
    Worth(Load(s)) + Rank(s)
  }

  /** Steps of the worker, the server and the threads that finish what they began. */
  predicate Internal(e: Step) { e.Restore? || e.Push? || e.Drain? || e.Take? || e.Answer? || e.Settle? }

  // ------------------------------------------------- sums

  lemma SumPush(f: Job -> int, jobs: seq<Job>, job: Job)
    ensures Sum(f, jobs + [job]) == Sum(f, jobs) + f(job)
  {
    assert (jobs + [job])[..|jobs|] == jobs;
  }

  lemma {:induction false} SumAppend(f: Job -> int, a: seq<Job>, b: seq<Job>)
    ensures Sum(f, a + b) == Sum(f, a) + Sum(f, b)
  {
    if b == [] {
      assert a + b == a;
    } else {
      var front, last := b[..|b| - 1], b[|b| - 1];
      SumAppend(f, a, front);
      SumPush(f, a + front, last);
      assert a + front + [last] == a + b;
    }
  }

  lemma SumMiddle(f: Job -> int, before: seq<Job>, job: Job, after: seq<Job>)
    ensures Sum(f, before + [job] + after) == Sum(f, before + after) + f(job)
  {
    SumPush(f, before, job);
    SumAppend(f, before + [job], after);
    SumAppend(f, before, after);
  }

  lemma AroundAt(jobs: seq<Job>, i: nat)
    requires i < |jobs|
    ensures jobs[..i] + [jobs[i]] + jobs[i + 1..] == jobs
  {
  }

  lemma SumSplit(f: Job -> int, jobs: seq<Job>, i: nat)
    requires i < |jobs|
    ensures Sum(f, jobs) == Sum(f, Without(jobs, i)) + f(jobs[i])
  {
    SumMiddle(f, jobs[..i], jobs[i], jobs[i + 1..]);
    AroundAt(jobs, i);
  }

  lemma TotalPush(jobs: seq<Job>, job: Job)
    ensures Total(jobs + [job]) == Total(jobs) + Potential(job)
  {
    SumPush(Potential, jobs, job);
  }

  lemma TotalAppend(a: seq<Job>, b: seq<Job>)
    ensures Total(a + b) == Total(a) + Total(b)
  {
    SumAppend(Potential, a, b);
  }

  lemma TotalOne(job: Job)
    ensures Total([job]) == Potential(job)
  {
    assert [] + [job] == [job];
    TotalPush([], job);
  }

  lemma TotalSplit(jobs: seq<Job>, i: nat)
    requires i < |jobs|
    ensures Total(jobs) == Total(Without(jobs, i)) + Potential(jobs[i])
  {
    SumSplit(Potential, jobs, i);
  }

  lemma TotalEnqueued(q: seq<Job>, job: Job)
    ensures Total(Enqueued(q, job)) <= Total(q) + Potential(job)
    ensures |Enqueued(q, job)| <= |q| + 1
  {
    if |q| >= MAX_QUEUE_SIZE {
      TotalSplit(q, 0);
      assert Without(q, 0) == q[1..];
      TotalPush(q[1..], job);
    } else {
      TotalPush(q, job);
    }
  }

  /** A job that may still be posted weighs at least one. */
  lemma {:induction false} TotalCounts(jobs: seq<Job>)
    ensures Total(jobs) >= 0 && (Fresh(jobs) ==> Total(jobs) >= |jobs|)
  {
    if jobs != [] {
      TotalCounts(jobs[..|jobs| - 1]);
    }
  }

  // ------------------------------------------------- what settling spawns

  lemma {:induction false} FulfilPotential(rs: seq<JsonAck.PullRequest>, c: Context)
    ensures Fresh(FulfilJobs(rs, c)) && Total(FulfilJobs(rs, c)) <= 10 * |rs|
  {
    if rs != [] {
      var rest, r := FulfilJobs(rs[..|rs| - 1], c), rs[|rs| - 1];
      FulfilPotential(rs[..|rs| - 1], c);
      TotalPush(rest, FulfilJob(r, c));
    }
  }

  lemma AckPotential(body: string, c: Context)
    ensures Fresh(AckJobs(body, c)) && Total(AckJobs(body, c)) <= 320
  {
    FulfilPotential(JsonAck.Pending(body), c);
    JsonAck.PendingBound(body);
  }

  lemma LogPotential(job: Job, body: string, claimed: bool, c: Context)
    ensures Fresh(LogJobs(job, body, claimed, c)) && Total(LogJobs(job, body, claimed, c)) <= 5
  {
    var jobs := LogJobs(job, body, claimed, c);
    if jobs != [] {
      TotalOne(jobs[0]);
    }
  }

  lemma DeliveredPotential(job: Job, body: string, claimed: bool, c: Context)
    requires job.attempt < MAX_ATTEMPTS && !job.isLogUpload
    ensures var e := DeliveredEffects(job, body, claimed, c);
            Fresh(e.spawned) && Total(e.spawned) + (if e.rtt then 6 else 0) < Potential(job)
  {
    var first := if job.requestLog then LogJobs(job, body, claimed, c) else [];
    var second := if job.parseAck then AckJobs(body, c) else [];
    LogPotential(job, body, claimed, c);
    AckPotential(body, c);
    TotalAppend(first, second);
  }

  lemma RetryPotential(job: Job, hint: int, now: int, claimed: bool)
    requires job.attempt < MAX_ATTEMPTS
    ensures var e := RetryOrGiveUpEffects(job, hint, now, claimed);
            Fresh(e.spawned) && Total(e.spawned) < Potential(job) && !e.rtt
  {
    if job.attempt + 1 < MAX_ATTEMPTS {
      TotalOne(Retried(job, hint, now));
    }
  }

  /** Whatever the response, what is left to post afterwards is less than the job was worth. */
  lemma SettlePotential(job: Job, r: Response, claimed: bool, c: Context)
    requires job.attempt < MAX_ATTEMPTS
    ensures var e := SettleEffects(job, r, claimed, c);
            Fresh(e.spawned) && Total(e.spawned) + (if e.rtt then 6 else 0) < Potential(job)
  {
    RetryPotential(job, Hint(r), c.now, claimed);
    if !job.isLogUpload && Classify(r) == Delivered {
      DeliveredPotential(job, r.body, claimed, c);
    }
  }

  /** A job is posted again only after a transient failure, at most four times, 2 to 300 seconds later. */
  lemma RetriesAreBounded(job: Job, r: Response, claimed: bool, c: Context)
    requires job.attempt < 5 && !IsFinal(r)
    ensures var jobs := SettleEffects(job, r, claimed, c).spawned;
            if (job.isLogUpload || job.durability != Ephemeral) && job.attempt < 4
            then |jobs| == 1 && IsRetry(job, jobs[0], c.now)
            else jobs == []
  {
    RetryWait(job, Hint(r), c.now);
  }

  predicate IsRetry(job: Job, again: Job, now: int) {
    again == job.(attempt := job.attempt + 1, notBefore := again.notBefore)
    && now + 2 <= again.notBefore <= now + 300
  }

  lemma RetryWait(job: Job, hint: int, now: int)
    ensures IsRetry(job, Retried(job, hint, now), now)
  {
    DelayBounds(job.attempt + 1, hint);
  }

  lemma RetrySpawned(job: Job, r: Response, claimed: bool, c: Context)
    requires (job.isLogUpload || job.durability != Ephemeral) && job.attempt < 4 && !IsFinal(r)
    ensures SettleEffects(job, r, claimed, c).spawned == [Retried(job, Hint(r), c.now)]
  {
    if job.isLogUpload {
      LogUploadByStatus(job, r, claimed, c);
    } else {
      SettleByStatus(job, r, claimed, c);
    }
  }

  /** The waits are 2, 4, 8 and 16 seconds, or what the server asks for if that is longer, up to five minutes. */
  lemma RetryWaits(job: Job, r: Response, claimed: bool, c: Context)
    requires (job.isLogUpload || job.durability != Ephemeral) && job.attempt < 4 && !IsFinal(r)
    ensures var jobs := SettleEffects(job, r, claimed, c).spawned;
            |jobs| == 1 && jobs[0].notBefore - c.now == Min(300, Max(Hint(r), [2, 4, 8, 16][job.attempt]))
  {
    hide SettleEffects, RetryDelay;
    RetrySpawned(job, r, claimed, c);
    DelayExactly(job.attempt, Hint(r));
  }

  /** It asks with a 429 or a 503 whose Retry-After, whitespace aside, is one to nine digits, and in no other way. */
  lemma HintedExactly(r: Response, before: string, t: string, after: string)
    requires r.retryAfter == before + t + after && Blank(before) && Blank(after)
    requires t != "" ==> !Blank([t[0]]) && !Blank([t[|t| - 1]])
    ensures Hint(r) == if r.status in {429, 503} && 1 <= |t| <= 9 && Decimal.AllDigits(t) then Decimal.Value(t) else -1
  {
    SecondsExactly(before, t, after);
  }

  lemma {:induction false} EnvelopePotential(url: string, bodies: seq<string>, metric: bool)
    ensures Fresh(EnvelopeJobs(url, bodies, metric))
    ensures Total(EnvelopeJobs(url, bodies, metric)) == (if metric then 5 else 11) * |bodies|
  {
    if bodies != [] {
      var front := bodies[..|bodies| - 1];
      EnvelopePotential(url, front, metric);
      TotalPush(EnvelopeJobs(url, front, metric), EnvelopeJob(url, bodies[|bodies| - 1], metric));
    }
  }

  // ------------------------------------------------- every internal step goes down

  lemma InvIsSound(s: System)
    requires Inv(s)
    ensures Sound(s)
  {
  }

  lemma {:induction false} WorthGrows(m: nat, n: nat)
    requires m < n
    ensures Worth(m) + 4 * m < Worth(n)
  {
    if m + 1 < n {
      WorthGrows(m, n - 1);
    }
  }

  lemma RankIsSmall(s: System)
    requires Sound(s)
    ensures Rank(s) <= 4 * Load(s)
  {
    TotalCounts(s.queue);
    TotalCounts(s.staged);
    if s.flight.Some? {
      assert FlightJobs(s)[0] == s.flight.value.job;
      TotalOne(s.flight.value.job);
    }
  }

  /** A smaller load, or the same load closer to its next settling. */
  predicate Lower(s: System, s': System)
    requires Sound(s) && Sound(s')
  {
    Load(s') < Load(s) || (Load(s') == Load(s) && Rank(s') < Rank(s))
  }

  lemma LowerMeasure(s: System, s': System)
    requires Sound(s) && Sound(s') && Lower(s, s')
    ensures Measure(s') < Measure(s)
  {
    RankIsSmall(s');
    if Load(s') < Load(s) {
      WorthGrows(Load(s'), Load(s));
    }
  }

  lemma RestoreLowers(s: System, s': System, job: Job)
    requires Sound(s) && s.restoring != [] && job.attempt < MAX_ATTEMPTS
    requires Potential(job) == Potential(RestoredJob(s.restoring[0], ""))
    requires s' == s.(queue := Enqueued(s.queue, job), restoring := s.restoring[1..])
    ensures Sound(s') && Lower(s, s')
  {
    TotalEnqueued(s.queue, job);
  }

  lemma PushLowers(s: System, s': System, i: nat)
    requires Sound(s) && i < |s.staged|
    requires s' == s.(queue := Enqueued(s.queue, s.staged[i]), staged := Without(s.staged, i))
    ensures Sound(s') && Lower(s, s')
  {
    TotalEnqueued(s.queue, s.staged[i]);
    TotalSplit(s.staged, i);
  }

  lemma TakeLowers(s: System, s': System, i: nat)
    requires Sound(s) && s.flight == None && i < |s.queue|
    requires s' == s.(flight := Some(Flight(s.queue[i], None)), queue := Without(s.queue, i))
    ensures Sound(s') && Lower(s, s')
  {
    TotalSplit(s.queue, i);
    TotalOne(s.queue[i]);
  }

  lemma DrainLowers(s: System, s': System, jobs: seq<Job>, metric: bool, n: nat)
    requires Sound(s) && Fresh(jobs) && Total(jobs) == (if metric then 5 else 11) * n && 0 < n <= Items(s, metric)
    requires s'.staged == s.staged + jobs
    requires s' == (if metric then s.(metrics := 0, staged := s'.staged) else s.(events := 0, staged := s'.staged))
    ensures Sound(s') && Lower(s, s')
  {
    TotalAppend(s.staged, jobs);
    assert FlightJobs(s') == FlightJobs(s);
  }

  lemma SettleLowers(s: System, s': System, job: Job, spawned: seq<Job>, rtt: bool)
    requires Sound(s) && FlightJobs(s) == [job] && job.attempt < MAX_ATTEMPTS && Fresh(spawned)
    requires Total(spawned) + (if rtt then 6 else 0) < Potential(job)
    requires s'.queue == s.queue && s'.staged == s.staged + spawned && s'.flight == None && s'.restoring == s.restoring
    requires s'.events == s.events && s'.metrics <= s.metrics + if rtt then 1 else 0
    ensures Sound(s') && Load(s') < Load(s)
  {
    TotalAppend(s.staged, spawned);
    TotalOne(job);
    assert FlightJobs(s') == [];
  }

  lemma InternalStepLowers(s: System, e: Step)
    requires Inv(s) && Enabled(s, e) && Internal(e)
    ensures Sound(s) && Sound(Next(s, e)) && Lower(s, Next(s, e))
  {
    InvIsSound(s);
    var s' := Next(s, e);
    match e
    case Restore(endpoint) => RestoreLowers(s, s', RestoredJob(s.restoring[0], endpoint));
    case Push(i) => PushLowers(s, s', i);
    case Drain(metric, url, bodies) =>
      EnvelopePotential(url, bodies, metric);
      DrainLowers(s, s', EnvelopeJobs(url, bodies, metric), metric, |bodies|);
    case Take(now) => TakeLowers(s, s', FirstReady(s.queue, now));
    case Answer(_) => assert FlightJobs(s') == FlightJobs(s);
    case Settle(_, _, _, _) => SettleStepLowers(s, e);
  }

  lemma SettleStepLowers(s: System, e: Step)
    requires Inv(s) && Enabled(s, e) && e.Settle?
    ensures Sound(s) && Sound(Next(s, e)) && Load(Next(s, e)) < Load(s)
  {
    InvIsSound(s);
    var job, r := s.flight.value.job, s.flight.value.answer.value;
    assert FlightJobs(s)[0] == job;
    SettlePotential(job, r, s.claimed, e.c);
    SettleLowers(s, Next(s, e), job, Settling(s, e.c).spawned, Settling(s, e.c).rtt);
  }

  predicate AllInternal(run: seq<Step>) { forall i :: 0 <= i < |run| ==> Internal(run[i]) }

  /** Without new captures no run is longer than the measure of the state it starts in. */
  lemma {:induction false} RunsAreFinite(s: System, run: seq<Step>)
    requires Inv(s) && Possible(s, run) && AllInternal(run)
    ensures Inv(After(s, run)) && Sound(s) && Sound(After(s, run))
    ensures |run| + Measure(After(s, run)) <= Measure(s)
    decreases |run|
  {
    InvIsSound(s);
    if run != [] {
      StepKeepsInv(s, run[0]);
      InternalStepLowers(s, run[0]);
      LowerMeasure(s, Next(s, run[0]));
      RunsAreFinite(Next(s, run[0]), run[1..]);
    }
  }

  function Settled(run: seq<Step>): nat {
    if run == [] then 0 else (if run[0].Settle? then 1 else 0) + Settled(run[1..])
  }

  /** The load bounds the posts of any such run. */
  lemma {:induction false} PostsAreBounded(s: System, run: seq<Step>)
    requires Inv(s) && Possible(s, run) && AllInternal(run)
    ensures Sound(s) && Settled(run) <= Load(s)
    decreases |run|
  {
    InvIsSound(s);
    if run != [] {
      StepKeepsInv(s, run[0]);
      InternalStepLowers(s, run[0]);
      if run[0].Settle? {
        SettleStepLowers(s, run[0]);
      }
      PostsAreBounded(Next(s, run[0]), run[1..]);
    }
  }

  // ------------------------------------------------- and it ends at rest

  /** Nothing queued, nothing on the wire, nothing on its way; nothing buffered unless the gate holds it. */
  predicate AtRest(s: System) {
    && s.queue == [] && s.staged == [] && s.restoring == [] && s.flight == None
    && (s.gate ==> s.events == 0 && s.metrics == 0)
  }

  const LATE_CONTEXT := Context(0, "", "", "", false, PullRequests.Identity("", "", "", ""), false)

  /** Until then some internal step is possible, at any time from `now` on that is late enough. */
  lemma NotStuck(s: System, now: int) returns (e: Step)
    requires Inv(s) && s.alive && !AtRest(s)
    ensures Internal(e) && Enabled(s, e) && (e.Take? ==> e.now >= now)
  {
    if s.restoring != [] {
      e := Restore("");
    } else if s.staged != [] {
      e := Push(0);
    } else if s.flight.Some? {
      e := if s.flight.value.answer.None? then Answer(Response(true, 0, "", ""))
           else Settle(LATE_CONTEXT.(now := now), None, true, false);
    } else if s.queue != [] {
      e := Take(Max(now, s.queue[0].notBefore));
    } else {
      e := Drain(s.metrics > 0, "", [""]);
    }
  }

  /** A run that cannot go on has delivered, dropped or given up everything. */
  lemma MaximalRunsRest(s: System, run: seq<Step>)
    requires Inv(s) && Possible(s, run) && AllInternal(run) && After(s, run).alive
    requires forall e :: Internal(e) ==> !Enabled(After(s, run), e)
    ensures AtRest(After(s, run))
  {
    RunsAreFinite(s, run);
    if !AtRest(After(s, run)) {
      var _ := NotStuck(After(s, run), 0);
    }
  }
}
