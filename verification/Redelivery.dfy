/**
 * Durability and rest together: a launch that finds stored reports and is given nothing else to do
 * posts every one of them before it comes to rest. The queue drops its oldest job when it is full, so
 * this needs that what the reports spawn never fills it.
 */
module Redelivery {
  import opened Base
  import opened Sidecars
  import opened Delivery
  import opened DeliverySystem
  import opened Quiescence
  import DeliveryRuns

  /** A delivery spawns one log upload at most, and that only by claiming the previous session's log. */
  predicate Modest(job: Job) { !job.parseAck && (job.requestLog ==> job.logFromPrevious) }

  predicate AllModest(jobs: seq<Job>) { forall i :: 0 <= i < |jobs| ==> Modest(jobs[i]) }

  predicate ModestSystem(s: System) { AllModest(s.queue) && AllModest(s.staged) && AllModest(FlightJobs(s)) }

  /** Jobs, records and items there are, and the one log upload that may still come. */
  function Weight(s: System): nat {
    |s.queue| + |s.staged| + |s.restoring| + |FlightJobs(s)| + s.events + s.metrics + if s.claimed then 0 else 1
  }

  predicate Queued(q: seq<Job>, p: Path, body: string) {
    exists i :: 0 <= i < |q| && q[i].sidecarPath == p && q[i].body == body
  }

  predicate Scheduled(rs: seq<Record>, p: Path, body: string) {
    exists i :: 0 <= i < |rs| && rs[i].path == p && rs[i].body == body
  }

  /** The report is on its way to its first post. */
  predicate Waits(s: System, p: Path, body: string) { Queued(s.queue, p, body) || Scheduled(s.restoring, p, body) }

  /** The worker takes the report to post it. */
  predicate Posts(s: System, e: Step, p: Path, body: string) {
    && e.Take? && FirstReady(s.queue, e.now) < |s.queue|
    && s.queue[FirstReady(s.queue, e.now)].sidecarPath == p && s.queue[FirstReady(s.queue, e.now)].body == body
  }

  ghost predicate Posted(s: System, run: seq<Step>, p: Path, body: string)
    requires Possible(s, run)
    decreases |run|
  {
    run != [] && (Posts(s, run[0], p, body) || Posted(Next(s, run[0]), run[1..], p, body))
  }

  // ------------------------------------------------- what one settling leaves

  lemma SettleWeight(job: Job, r: Response, claimed: bool, c: Context)
    requires Modest(job)
    ensures var e := SettleEffects(job, r, claimed, c);
            && AllModest(e.spawned)
            && |e.spawned| + (if e.rtt then 1 else 0) + (if e.claimed then 0 else 1) <= 1 + if claimed then 0 else 1
  {
  }

  lemma {:induction false} EnvelopesModest(url: string, bodies: seq<string>, metric: bool)
    ensures |EnvelopeJobs(url, bodies, metric)| == |bodies| && AllModest(EnvelopeJobs(url, bodies, metric))
  {
    if bodies != [] {
      EnvelopesModest(url, bodies[..|bodies| - 1], metric);
    }
  }

  // ------------------------------------------------- one internal step

  lemma SettleKeepsWait(s: System, e: Step, p: Path, body: string)
    requires ModestSystem(s) && Enabled(s, e) && e.Settle? && Waits(s, p, body)
    ensures ModestSystem(Next(s, e)) && Weight(Next(s, e)) <= Weight(s) && Waits(Next(s, e), p, body)
  {
    var job := s.flight.value.job;
    assert FlightJobs(s)[0] == job;
    SettleWeight(job, s.flight.value.answer.value, s.claimed, e.c);
    assert Next(s, e).queue == s.queue && Next(s, e).restoring == s.restoring;
  }

  lemma RestoreKeepsWait(s: System, s': System, job: Job, p: Path, body: string)
    requires ModestSystem(s) && Weight(s) <= MAX_QUEUE_SIZE && Waits(s, p, body) && s.restoring != []
    requires Modest(job) && job.sidecarPath == s.restoring[0].path && job.body == s.restoring[0].body
    requires s' == s.(queue := Enqueued(s.queue, job), restoring := s.restoring[1..])
    ensures ModestSystem(s') && Weight(s') <= Weight(s) && Waits(s', p, body)
  {
    assert s'.queue == s.queue + [job];
    if Queued(s.queue, p, body) {
      var i :| 0 <= i < |s.queue| && s.queue[i].sidecarPath == p && s.queue[i].body == body;
      assert s'.queue[i] == s.queue[i];
    } else {
      var i :| 0 <= i < |s.restoring| && s.restoring[i].path == p && s.restoring[i].body == body;
      assert if i == 0 then s'.queue[|s.queue|] == job else s'.restoring[i - 1] == s.restoring[i];
    }
  }

  lemma PushKeepsWait(s: System, s': System, i: nat, p: Path, body: string)
    requires ModestSystem(s) && Weight(s) <= MAX_QUEUE_SIZE && Waits(s, p, body) && i < |s.staged|
    requires s' == s.(queue := Enqueued(s.queue, s.staged[i]), staged := Without(s.staged, i))
    ensures ModestSystem(s') && Weight(s') <= Weight(s) && Waits(s', p, body)
  {
    assert s'.queue == s.queue + [s.staged[i]];
    if Queued(s.queue, p, body) {
      var k :| 0 <= k < |s.queue| && s.queue[k].sidecarPath == p && s.queue[k].body == body;
      assert s'.queue[k] == s.queue[k];
    }
  }

  lemma TakeKeepsWait(s: System, s': System, i: nat, p: Path, body: string)
    requires ModestSystem(s) && Waits(s, p, body) && s.flight == None && i < |s.queue|
    requires !(s.queue[i].sidecarPath == p && s.queue[i].body == body)
    requires s' == s.(flight := Some(Flight(s.queue[i], None)), queue := Without(s.queue, i))
    ensures Waits(s', p, body)
  {
    if Queued(s.queue, p, body) {
      var k :| 0 <= k < |s.queue| && s.queue[k].sidecarPath == p && s.queue[k].body == body;
      assert s'.queue[if k < i then k else k - 1] == s.queue[k];
    }
  }

  lemma TakeKeepsModest(s: System, s': System, i: nat)
    requires ModestSystem(s) && s.flight == None && i < |s.queue|
    requires s' == s.(flight := Some(Flight(s.queue[i], None)), queue := Without(s.queue, i))
    ensures ModestSystem(s') && Weight(s') <= Weight(s)
  {
  }

  lemma DrainKeepsWait(s: System, e: Step, p: Path, body: string)
    requires ModestSystem(s) && Enabled(s, e) && e.Drain? && Waits(s, p, body)
    ensures ModestSystem(Next(s, e)) && Weight(Next(s, e)) <= Weight(s) && Waits(Next(s, e), p, body)
  {
    EnvelopesModest(e.url, e.bodies, e.metric);
    assert FlightJobs(Next(s, e)) == FlightJobs(s);
  }

  lemma StepKeepsWait(s: System, e: Step, p: Path, body: string)
    requires ModestSystem(s) && Weight(s) <= MAX_QUEUE_SIZE && Waits(s, p, body)
    requires Enabled(s, e) && Internal(e)
    ensures Posts(s, e, p, body) || (ModestSystem(Next(s, e)) && Weight(Next(s, e)) <= Weight(s) && Waits(Next(s, e), p, body))
  {
    var s' := Next(s, e);
    match e
    case Restore(endpoint) => RestoreKeepsWait(s, s', RestoredJob(s.restoring[0], endpoint), p, body);
    case Push(i) => PushKeepsWait(s, s', i, p, body);
    case Drain(_, _, _) => DrainKeepsWait(s, e, p, body);
    case Take(now) =>
      if !Posts(s, e, p, body) {
        TakeKeepsWait(s, s', FirstReady(s.queue, now), p, body);
        TakeKeepsModest(s, s', FirstReady(s.queue, now));
      }
    case Answer(_) => assert FlightJobs(s') == FlightJobs(s);
    case Settle(_, _, _, _) => SettleKeepsWait(s, e, p, body);
  }

  // ------------------------------------------------- runs

  lemma {:induction false} WaitsUntilPosted(s: System, run: seq<Step>, p: Path, body: string)
    requires ModestSystem(s) && Weight(s) <= MAX_QUEUE_SIZE && Waits(s, p, body)
    requires Possible(s, run) && AllInternal(run)
    ensures Posted(s, run, p, body) || Waits(After(s, run), p, body)
    decreases |run|
  {
    if run != [] && !Posts(s, run[0], p, body) {
      StepKeepsWait(s, run[0], p, body);
      WaitsUntilPosted(Next(s, run[0]), run[1..], p, body);
    }
  }

  lemma {:induction false} RunStaysAlive(s: System, run: seq<Step>)
    requires s.alive && Possible(s, run) && AllInternal(run)
    ensures After(s, run).alive
    decreases |run|
  {
    if run != [] {
      RunStaysAlive(Next(s, run[0]), run[1..]);
    }
  }

  lemma LaunchWaits(s: System, e: Step, p: Path)
    requires Inv(s) && WithinBound(s.files) && Enabled(s, e) && e.Launch? && e.usable
    requires p in s.files && s.files[p].body != ""
    ensures ModestSystem(Next(s, e)) && Weight(Next(s, e)) <= MAX_QUEUE_SIZE && Waits(Next(s, e), p, s.files[p].body)
  {
    DeliveryRuns.KindFits(s.files, e.listing, Crash);
    DeliveryRuns.KindFits(s.files, e.listing, BugReport);
    DeliveryRuns.KindFits(s.files, e.listing, Event);
    ScanIsComplete(s.files, e.listing);
    var rs := Scanned(s.files, true, e.listing);
    assert Finds(rs, p);
    var i :| 0 <= i < |rs| && rs[i].path == p;
    assert rs[i].body == s.files[p].body;
  }

  /**
   * A launch over usable storage, left to itself until it cannot go on, is at rest and has posted the
   * exact body of every stored report - whatever the server answers and however the threads interleave.
   */
  lemma RelaunchPostsAll(s: System, e: Step, run: seq<Step>, p: Path)
    requires Inv(s) && WithinBound(s.files) && Enabled(s, e) && e.Launch? && e.usable
    requires p in s.files && s.files[p].body != ""
    requires Possible(Next(s, e), run) && AllInternal(run)
    requires forall next :: Internal(next) ==> !Enabled(After(Next(s, e), run), next)
    ensures AtRest(After(Next(s, e), run)) && Posted(Next(s, e), run, p, s.files[p].body)
  {
    StepKeepsInv(s, e);
    RunStaysAlive(Next(s, e), run);
    MaximalRunsRest(Next(s, e), run);
    LaunchWaits(s, e, p);
    WaitsUntilPosted(Next(s, e), run, p, s.files[p].body);
  }
}
