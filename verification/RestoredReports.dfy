/**
 * A report that survives its process keeps its intent: the body on disk, scanned at the next launch,
 * asks for the session log exactly when the payload did (src/client.cpp, src/payloads.cpp).
 */
module RestoredReports {
  import opened JsonTree
  import opened Payloads
  import opened Sidecars
  import opened Delivery
  import opened DeliverySystem

  /** The job posts this body to this address as the holder of its file, for the last session's log. */
  predicate Restores(job: Job, url: string, body: string, path: Path) {
    && job.url == url && job.body == body && job.sidecarPath == path && job.durability == WriteAhead
    && job.logFromPrevious && job.signBody && !job.suppressRtt && !job.noPersist && !job.parseAck && !job.isLogUpload
    && job.attempt == 0 && job.notBefore == 0
  }

  /** For every payload, whatever its strings contain. */
  lemma RestoredCrashAsksForLog(p: CrashPayload, path: Path, endpoint: string)
    ensures var body := Print(CrashTree(p));
            var job := RestoredJob(Record(Crash, path, body), endpoint);
            job.requestLog == p.log && Restores(job, endpoint + "/api/v1/ingest/crashes", body, path)
  {
    LogFlagOfCrash(p);
  }

  lemma RestoredBugReportAsksForLog(p: BugReportPayload, path: Path, endpoint: string)
    ensures var body := Print(BugTree(p));
            var job := RestoredJob(Record(BugReport, path, body), endpoint);
            job.requestLog == p.log && Restores(job, endpoint + "/api/v1/ingest/bug-reports", body, path)
  {
    LogFlagOfBug(p);
  }

  /** An event never asks, whatever is in it. */
  lemma RestoredEventAsksForNothing(body: string, path: Path, endpoint: string)
    ensures var job := RestoredJob(Record(Event, path, body), endpoint);
            !job.requestLog && Restores(job, endpoint + "/api/v1/ingest/events", body, path)
  {
  }
}
