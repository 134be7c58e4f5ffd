# Tombstone telemetry SDK: a verified model

The Tombstone SDK captures crashes, bug reports, events and metrics inside a game process and delivers them
over HTTP. It must not lose a report when the process dies, must not send one twice from memory, must come to
rest, and reads its own JSON back with a textual search instead of a parser. This project models that behaviour
in Dafny and proves it.

What is modelled, module by module:

- **JSON out and in.** `JsonText`, `JsonTree`, `JsonParse`, `JsonWriting`, `WriterCalls`: escaping, the
  comma-stack writer, an RFC 8259 (sections 2 to 7) reference printer and parser, and the search for `"key"`
  followed by `:`. `JsonFields`, `JsonAck`, `JsonUpload`: the scanners. `Payloads`, `PayloadBuilders`,
  `PayloadAttributes`, `PullRequests`, `UserMetadata`, `SessionMarkers`: the documents that are written and read
  back. `Utf8`: safe truncation (RFC 3629, section 4).
- **Delivery.** `RetryAfter`, `Sidecars`, `Delivery`, `ClientDelivery`: backoff, write-ahead files, the worker
  and the client's side of it, each class method proved against a function on values. `DeliverySystem` puts the
  same functions into a step system - capture threads, worker, server, hard kill, clean stop, relaunch - where a
  step is one block run under a lock; `DeliveryRuns` proves durability and ownership over all runs,
  `Quiescence` termination, `Redelivery` that a relaunch posts all it finds before it rests, `RestoredReports` that a
  restored report keeps its intent.
- **Identity.** `Heartbeats`: user id, provisional id and metadata committed on acknowledgements.
- **Algorithms.** `ShaBlocks`, `Sha256` (FIPS 180-4, RFC 2104), `ShaConstants` (where its constants come from),
  `ShaExample` (one message through all rounds), `Calendar`, `Clock` (ISO 8601, RFC 3339 section 5.6), `Batching`,
  `NativeCrash`, `NativeDump`, `DumpRecovery`.
- **Long-lived helpers.** `SessionLogs`, `Dedupe`, `Launches`.

Text is a sequence of characters; the theorems hold for all of them, and a byte string is the case where each is
below 256. Steady-clock times are integers that callers pass in.

Assumptions, stated where they are used:

- a write draws a file name that no file has (the code truncates whatever it opens);
- a file operation succeeds or fails as a whole. Any of them may fail - writing, reading and removing a marker or
  a dump, writing and removing a report's file, opening, reading back, rewriting and renaming the session log - and
  the theorems say what a failure can cost (`Launches.AtMostOneDeathReport`, `SessionLogs.LogIsFaithful`). One read
  is taken to succeed: a launch's scan of usable report storage;
- building a heartbeat, and taking its acknowledgement, are one step each. The code holds the user's lock and then
  the metadata's (`src/client.cpp:444-451`, `src/client.cpp:479-487`, `src/client.cpp:546-568`), so a change of user
  between the two would put the new user's metadata on a beat with the old id;
- times given to the dedupe window do not decrease (`Dedupe.InOrder`);
- for broken-off dumps, module names contain no space and no newline (`DumpRecovery.OneWord`).

Where the code and its comments differ, the model follows the code:

- `src/json_scan.h` and `src/json_scan.cpp` speak of a search by key. A member whose name merely ends in a quote
  and the key is found too; `JsonFields.DisguisedNameIsRead` shows it, `JsonTree.ScanTree` says exactly what is
  found and `JsonFields.SearchIsByName` exactly when that is the member meant. The SDK's own documents have no such
  names.
- `src/client.cpp:558-564` says a lost beat simply re-carries. It need not: `Heartbeats.LostMapIsCommitted` and
  `Heartbeats.OverlappingBeatsCommitTooMuch` are runs in which a map counts as delivered although no acknowledged
  beat carried it, and `Heartbeats.AlwaysInSyncExactly` says, over every run, exactly which acknowledgements do
  that. `Heartbeats.LoginDuringBeatLosesMarker` is such a run for the marker, and `Heartbeats.AckClearsMarker` says
  exactly when a marker is cleared for a beat that did not carry it.
- `src/client.cpp:548-552` says a late acknowledgement cannot clear a marker that a newer login stamped again. Both
  markers read the same, so it can: `Heartbeats.EarlierLoginClearsMarker`.
- `src/client.cpp:331-334` says a restored crash means that the death is already represented. Any session's crash
  file counts: `Launches.CrashSilencesLaterDeath`, with the exact condition in `Launches.UncleanDeathIsReported`.
- `src/worker.h` and `src/retry_after.cpp` mention a 32-second wait. A job is re-queued at most four times, so the
  longest wait without a server hint is 16 seconds (`Quiescence.RetryWaits`).
- `src/json_scan.cpp:33-44` writes each `\u` escape as a UTF-8 sequence of its own. RFC 8259, section 7, joins an
  escaped surrogate pair into one character; `JsonParse.ReadStringIsRfc` says that this is the only difference.
- `src/client.cpp:345-350` reports a dump for the session whose marker was found. That is the same session exactly
  when the dead session had the handler installed and no later one installed it before the report; the second half
  can fail only where a marker could not be read or removed (`Launches.DumpIsOfTheDeadSession`,
  `Launches.SkippedLaunchMixesDumps`).
- `src/session_marker.cpp:41` ignores a removal that fails, so a marker on a file system that became read-only
  is reported by every launch (`Launches.KeptMarkerRepeatsReport`).
- `src/session_log.cpp:36-42` restarts the tracked size even when the rename failed; the size is then not the
  file's (`SessionLogs.RotationStartsAfresh`).

## Model

| member | source | states |
|---|---|---|
| JsonText.JsonEscape | src/json_writer.cpp:9-48 | the escaping loop computes Escape, the per-character escape of the whole text |
| JsonText.UnescapeEscape | src/json_writer.cpp:9-48 | reading an escaped text up to its closing quote gives the original text back, for every text without exception |
| JsonText.ReadHex | src/json_scan.cpp:110-122 | four hexadecimal digits are read as the number they spell; any other character refuses |
| JsonText.ReadEscape | src/json_scan.cpp:80-128 | one escape sequence is decoded as the suffix specification says, UTF-8 encoding of `\u` included; an invalid or cut one refuses |
| JsonText.ReadString | src/json_scan.cpp:61-131 | the string-reading loop returns exactly the unescaped string and the position after its quote, or nothing for a missing quote, a control character, a bad escape or a missing end |
| JsonText.FindValueStart | src/json_scan.cpp:10-32 | the search loop finds the value after the first occurrence of the quoted key that is followed by a colon, resuming after each failed occurrence; no result when there is none |
| JsonText.ScanSpaced | src/json_scan.cpp:10-32 | whatever whitespace stands before and after the colon, the search returns the text that follows at the first occurrence |
| JsonTree.ScanTree | src/json_scan.cpp:10-32 | over any printed JSON tree, whatever its strings contain, the textual search for a key stops exactly at the first member (in document order) whose name is the key or ends in a quote and the key, and nowhere when there is none |
| JsonTree.ScanQuote | src/json_scan.cpp:10-32 | at any quote of a printed literal the search stops only if the literal is taken for the key and a colon follows: escaped quotes and closing quotes never mislead it |
| JsonTree.EscapeIsKey | src/json_writer.cpp:9-48 | an escaped text followed by its quote begins with a plain key and a quote exactly when the text is that key |
| JsonParse.CharsOfEscape | src/json_writer.cpp:9-48 | an RFC 8259 string decoder of its own, surrogate pairs included, decodes every escaped text to the original |
| JsonParse.ReadStringIsRfc | src/json_scan.cpp:33-131 | on any text, not only printed ones, the SDK's string reader and that decoder refuse together or stop at the same place, and then give the same characters exactly when no escaped surrogate pair stands before it |
| JsonParse.EncodedIsUtf8 | src/json_scan.cpp:33-44 | that decoder, and with it the SDK, turns every code point that is no surrogate into one UTF-8 sequence (RFC 3629, section 4) |
| JsonParse.ParseOfPrint | src/json_writer.cpp:62-169 | an RFC 8259 parser reads every printed well-formed tree back to the same tree, every string unescaped to its original characters |
| JsonParse.PrintInjective | src/json_writer.cpp:62-169 | two well-formed trees print alike exactly when they are the same |
| JsonWriting.JsonWriter.BeginObject | src/json_writer.cpp:64-68 | opens an object as an element of the scope around it: comma if one is due, and a new scope that owes none |
| JsonWriting.JsonWriter.BeginObjectField | src/json_writer.cpp:70-74 | likewise for a named object |
| JsonWriting.JsonWriter.BeginArrayField | src/json_writer.cpp:76-80 | likewise for a named array |
| JsonWriting.JsonWriter.EndObject | src/json_writer.cpp:82-85 | closes the innermost scope and forgets its comma flag |
| JsonWriting.JsonWriter.EndArray | src/json_writer.cpp:87-90 | likewise for an array |
| JsonWriting.JsonWriter.StringField | src/json_writer.cpp:92-97 | appends the printed member, after a comma exactly when the scope has one already |
| JsonWriting.JsonWriter.BoolField | src/json_writer.cpp:99-102 | likewise for a boolean |
| JsonWriting.JsonWriter.IntField | src/json_writer.cpp:130-135 | likewise for an integer |
| JsonWriting.JsonWriter.RawElement | src/json_writer.cpp:137-140 | appends a raw array element with its comma |
| JsonWriting.JsonWriter.RawField | src/json_writer.cpp:142-145 | appends a member whose value is spliced in verbatim |
| WriterCalls.BalancedCallsPrint | src/json_writer.cpp:62-169 | every balanced sequence of writer calls leaves the print of the tree the calls describe, and an RFC 8259 parse of that text gives the tree back |
| WriterCalls.Replay | src/json_writer.cpp:62-169 | running calls on the writer object follows the step function call by call |
| Utf8.Utf8SafeTruncate | src/json_writer.cpp:50-60 | the back-off loop cuts at the last position within the limit that is no continuation byte |
| Utf8.TruncateIsLongestValidPrefix | src/json_writer.cpp:50-60 | for valid UTF-8 (RFC 3629) the cut is valid, within the limit, and no longer valid prefix is |
| Utf8.TruncateIdempotent | src/json_writer.cpp:50-60 | cutting again changes nothing, for any bytes |
| Payloads.LogFlagOfCrash | src/payloads.cpp:172-195 | for every crash payload, whatever its strings, breadcrumbs and device say, scanning the body for `log` gives the payload's flag |
| Payloads.LogFlagOfBug | src/payloads.cpp:197-213 | likewise for every bug report payload |
| PayloadBuilders.BuildCrashJson | src/payloads.cpp:172-195 | the builder's text is the print of the payload's tree: fields in order, clamped, unset ones omitted |
| PayloadBuilders.BuildBugReportJson | src/payloads.cpp:197-213 | likewise for bug reports |
| PayloadBuilders.BreadcrumbsField | src/payloads.cpp:23-38 | the breadcrumb loop adds the array of breadcrumb objects in order, and nothing for an empty trail |
| PayloadBuilders.DeviceObject | src/payloads.cpp:79-109 | adds the device object exactly when some dimension carries content |
| PayloadAttributes.CrashBodySays | src/payloads.cpp:23-195 | an RFC 8259 parser reads from every crash body, under its own name and cut to its own limit, every attribute the payload has: report, player, match, machine, breadcrumbs in order and the log flag |
| PayloadAttributes.BugBodySays | src/payloads.cpp:23-213 | likewise from every bug report body |
| JsonFields.FindStringField | src/json_scan.cpp:135-141 | the scan equals its specification on every text, malformed ones included |
| JsonFields.FindBoolField | src/json_scan.cpp:143-155 | likewise for booleans |
| JsonFields.FindIntField | src/json_scan.cpp:157-187 | likewise for integers: at most 18 digits, no fraction or exponent |
| JsonFields.FindObjectField | src/json_scan.cpp:189-223 | the brace-counting loop returns the text of the object that starts at the value, strings and escapes skipped |
| JsonFields.StringFieldOfPrint | src/json_scan.cpp:135-141 | from a printed tree the scan returns the original string of the member it finds, and nothing for another kind of value |
| JsonFields.BoolFieldOfPrint | src/json_scan.cpp:143-155 | from a printed tree: exactly the found member's boolean |
| JsonFields.IntFieldOfPrint | src/json_scan.cpp:157-187 | from a printed tree: exactly the found integer, below 10^18 in magnitude |
| JsonFields.IntFieldExactly | src/json_scan.cpp:157-187 | from any printed tree: an integer exactly when the found member is a number of at most 18 digits without fraction or exponent, and then its value |
| JsonFields.ObjectFieldOfPrint | src/json_scan.cpp:189-223 | from a printed tree: exactly the print of the found object |
| JsonFields.SearchIsByName | src/json_scan.cpp:10-32 | over any tree the member the search reads is the first one named by the key, or none when there is none, exactly when no name ending in a quote and the key stands before it in document order |
| JsonFields.UndisguisedIsByName | src/json_scan.cpp:10-32 | so in a document without such names the search is a search by name |
| JsonFields.DisguisedNameIsRead | src/json_scan.cpp:10-32 | a document in which a member whose name ends in a quote and the key is read in the key's place |
| JsonFields.LaterDisguiseIsHarmless | src/json_scan.cpp:10-32 | a document in which such a name stands behind the member and does no harm |
| JsonAck.FindPendingRequests | src/json_scan.cpp:269-323 | the walk over the array, with its depth and string flags, returns the first 32 isolated objects' requests; never more, on any input |
| JsonAck.CollectObjects | src/json_scan.cpp:278-321 | the walk isolates the top-level objects of the array in order, up to 32 |
| JsonAck.PendingBound | src/json_scan.cpp:278-315 | no text yields more than 32 requests |
| JsonAck.PendingOfPrint | src/json_scan.cpp:269-323 | from any printed acknowledgement, whatever its request array holds, exactly the first min(n, 32) objects among its elements come out, in order; from the first element that is itself an array on, only the objects in that one |
| JsonAck.PendingRoundTrip | src/json_scan.cpp:269-323 | requests with arbitrary strings and expiries below 10^18 in magnitude are returned exactly, the first min(n, 32) of them |
| JsonUpload.FindLogUpload | src/json_scan.cpp:230-267 | the descriptor reader equals its specification on every text |
| JsonUpload.ReadFormFields | src/json_scan.cpp:242-266 | the form-field loop accepts exactly what the specification accepts; any defect refuses all |
| JsonUpload.AcceptedUploadIsSound | src/json_scan.cpp:230-267 | whatever the input: an accepted POST descriptor has 1 to 32 distinct, allowed, non-`file` names with bounded values, a PUT none, and a non-empty URL |
| JsonUpload.UploadOfPrint | src/json_scan.cpp:230-267 | what any printed response grants, exactly: nothing over 128 KiB or without a descriptor object and a URL; a PUT with no fields; a POST with every field in order when its fields are 1 to 32 distinct allowed names with string values within the limit, else nothing |
| JsonUpload.ReadPairSpaced | src/json_scan.cpp:242-266 | a name and its value are read whatever whitespace stands around them, the colon and the comma |
| SessionMarkers.SessionMarker.Write | src/session_marker.cpp:59-82 | stores the marker's printed text when configured and the file can be opened; otherwise the file stays as it was |
| SessionMarkers.SessionMarker.TakePrevious | src/session_marker.cpp:24-57 | returns what the stored text says and removes the file; a file that cannot be opened is neither read nor removed, one that cannot be removed is read and stays |
| SessionMarkers.SessionMarker.Remove | src/session_marker.cpp:84-94 | removes the file when configured and the removal works |
| SessionMarkers.MarkerRoundTrip | src/session_marker.cpp:43-71 | a written marker with a non-empty session id is read back with all five fields, for any strings |
| UserMetadata.ClampUserMetadata | src/payloads.cpp:113-146 | the in-place loop computes: keys in order of first use, the last value of each, up to the key that would be the 17th |
| UserMetadata.ClampBounds | src/payloads.cpp:113-146 | at most 16 entries, distinct keys, clamped lengths |
| UserMetadata.ClampMeaning | src/payloads.cpp:113-146 | the map, for any pairs: all pairs before the 17th new key count; every key they give stands in it, in the order of first use, with the value given last |
| UserMetadata.ClampIdempotent | src/payloads.cpp:113-146 | clamping a clamped list changes nothing exactly when, among the pairs that count, no usable key and no winning value is longer than its limit with only continuation bytes from its second byte up to there |
| UserMetadata.ClampTwiceLosesKey | src/payloads.cpp:113-146 | a pair for which it does not hold: the second clamping drops the key |
| UserMetadata.ClampIdempotentOnUtf8 | src/payloads.cpp:113-146 | which is always so when the caller's pairs are valid UTF-8 |
| UserMetadata.BuildUserMetadataJson | src/payloads.cpp:148-157 | the text is the canonical print of the entries |
| UserMetadata.CanonicalInjective | src/payloads.cpp:148-157 | two bounded entry lists have the same canonical text exactly when they are equal |
| UserMetadata.CanonicalDetectsChange | src/client.cpp:481-485 | comparing canonical texts of clamped maps is exact change detection |
| UserMetadata.CanonicalParses | src/payloads.cpp:148-157 | an RFC 8259 parser reads the map from its text, each value under its key |
| ShaBlocks.ShaState.ProcessBlock | src/signature.cpp:31-69 | one in-place block step is the FIPS 180-4 compression (section 6.2.2) |
| ShaBlocks.FillSchedule | src/signature.cpp:32-43 | the schedule array, filled with the sum in another order, is the standard's message schedule |
| ShaBlocks.RunRounds | src/signature.cpp:44-60 | the eight rotating variables go through the 64 rounds |
| ShaBlocks.FillTail | src/signature.cpp:91-105 | the one- or two-block tail is the rest of the message and its padding |
| ShaBlocks.WriteLength | src/signature.cpp:102-105 | the eight bytes before the end are the bit length modulo 2^64, big-endian |
| ShaBlocks.ZeroCountIsLeast | src/signature.cpp:91-105 | the zero bytes are the fewest that satisfy section 5.1.1 |
| ShaBlocks.PadFillsBlocks | src/signature.cpp:91-105 | a padded message fills whole blocks |
| ShaBlocks.TwoBuffers | src/signature.cpp:83-108 | feeding the full blocks and then the tail is folding the compression over the padded message |
| Sha256.Sha256Raw | src/signature.cpp:83-115 | for every message the blockwise digest is the FIPS 180-4 hash |
| ShaConstants.ConstantsAreCubeRoots | src/signature.cpp:13-24 | round constant i is the first 32 bits of the fraction of the cube root of the i-th number of a table (FIPS 180-4, section 4.2.2) |
| ShaConstants.FirstPrimes | src/signature.cpp:13-24 | and that table is 2 and then always the next prime, 64 in all |
| ShaConstants.InitialHashIsSquareRoots | src/signature.cpp:26-29 | the initial words are those bits of the square roots of the first eight (section 5.3.3) |
| ShaExample.DigestOfAbc | src/signature.cpp:31-115 | the digest of "abc", worked through all 64 rounds, is ba7816bf...f20015ad |
| Sha256.HmacSha256 | src/signature.cpp:135-162 | for a key of any length the keyed digest is the RFC 2104 construction |
| Sha256.HmacByDefinition | src/signature.cpp:135-162 | which is, byte by byte, the inner and outer digest over the key padded to 64 bytes - a longer key's digest in its place - with 0x36 and 0x5c |
| Sha256.WriteHex | src/signature.cpp:117-126 | two lowercase hexadecimal digits per byte, in order |
| Sha256.HexByIndex | src/signature.cpp:117-133 | the digits of byte i stand at 2i and 2i + 1, the high one first |
| Sha256.ToHexInjective | src/signature.cpp:117-133 | different digests have different hexadecimal texts |
| Sha256.BuildIngestSignatureHeader | src/signature.cpp:164-173 | the header carries the time and the keyed digest of time, dot and body |
| Sha256.SignedInputSpelled | src/signature.cpp:164-173 | what is signed spells the time in decimal, then has a dot and the body unchanged |
| Sha256.SignedInputInjective | src/signature.cpp:164-173 | no other time and body give the same signed input |
| Calendar.CivilIsInverse | src/clock.cpp:19-30 | for every integer day the closed form gives a valid date whose day number is that day |
| Calendar.NumberIsInverse | src/clock.cpp:19-30 | and for every valid date the date of its day number |
| Calendar.CivilFollowsCalendar | src/clock.cpp:19-30 | consecutive days have consecutive dates under the leap rule and month lengths |
| Calendar.DayNumberCounts | src/clock.cpp:18-30 | the reference count is 0 at 1970-01-01 and grows by one with each successor date |
| Calendar.YearOfEraIs | src/clock.cpp:23-25 | the three-quotient year formula is exact for every day of an era |
| Clock.FormatIso8601UtcMs | src/clock.cpp:34-52 | truncating division with its sign fix-up gives the floor day and time of day, printed field by field |
| Clock.TimestampRoundTrip | src/clock.cpp:34-52 | for years 0000 to 9999 the timestamp reads back to the same millisecond |
| Clock.TimestampsSort | src/clock.cpp:34-52 | and timestamps sort byte by byte in time order |
| Clock.PaddedNegative | src/clock.cpp:34-52 | a negative number, as in a year before 0000, is padded with zeros behind its sign to its width |
| RetryAfter.ParseRetryAfterSeconds | src/retry_after.cpp:13-36 | the trimming and digit loops return 1 to 9 digits' value between optional whitespace, otherwise -1 |
| RetryAfter.SecondsExactly | src/retry_after.cpp:13-36 | for every text: 1 to 9 digits between whitespace are their value, anything else is no hint |
| RetryAfter.SecondsOfText | src/retry_after.cpp:13-36 | so every number below 10^9 is read back through any surrounding whitespace |
| RetryAfter.OtherTextIsNoHint | src/retry_after.cpp:28-34 | any other visible character makes it no hint |
| RetryAfter.ComputeRetryDelay | src/retry_after.cpp:38-53 | clamped exponential backoff raised to the hint and capped |
| RetryAfter.DelayBounds | src/retry_after.cpp:38-53 | every delay is in [2, 300], honours a hint up to the cap, and is 2, 4, 8, 16 or 32 seconds without one |
| RetryAfter.DelayMonotone | src/retry_after.cpp:38-53 | a later attempt or larger hint never shortens the wait |
| PullRequests.PullRequestTargetsClient | src/payloads.cpp:355-374 | true exactly when the request names a non-empty part of the client's identity |
| PullRequests.BuildPullFulfillJson | src/payloads.cpp:335-353 | the print of the fulfilment tree: identity parts that are set, nonce and expiry together or not at all |
| PullRequests.FulfilNamesTarget | src/payloads.cpp:335-374 | a fulfilment names the part of the identity its request was for, cut to that part's limit, and hands the nonce back with its expiry |
| Sidecars.SidecarQueue.Write | src/sidecar_queue.cpp:83-107 | adds exactly one file with the kind and body under an unused name, or nothing when unconfigured, at the bound or refused |
| Sidecars.SidecarQueue.Remove | src/sidecar_queue.cpp:109-120 | removes exactly the named file, if any |
| Sidecars.SidecarQueue.Scan | src/sidecar_queue.cpp:135-164 | records by kind, in directory order, of every file that holds a body |
| Sidecars.ScanIsComplete | src/sidecar_queue.cpp:135-164 | a scan finds every stored payload exactly once with its exact body, in any directory order |
| Sidecars.ScanKeepsOrder | src/sidecar_queue.cpp:135-164 | crashes come before bug reports and those before events, each kind in directory order |
| Sidecars.WrittenExactly | src/sidecar_queue.cpp:83-107 | a payload gets a file exactly when storage is usable, its kind has fewer than 64 files and one can be opened |
| Sidecars.WriteKeepsBound | src/sidecar_queue.cpp:83-93 | no write takes a kind past 64 files |
| Delivery.Worker.Enqueue | src/worker.cpp:94-104 | appends, dropping the oldest at 256 |
| Delivery.QueueKeepsNewest | src/worker.cpp:94-104 | after any arrivals the queue is exactly the newest 256 in order |
| Delivery.Worker.TakeReadyJob | src/worker.cpp:169-179 | takes the oldest job whose wait is over and leaves the rest in order |
| Delivery.Worker.RetryOrGiveUp | src/worker.cpp:293-311 | re-queues with one more attempt and its wait, or at the fifth writes a file if the job needs one |
| Delivery.Worker.ScheduleLogUpload | src/worker.cpp:271-291 | a granted slot enqueues the right log once; the previous log is claimed at most once a launch |
| Delivery.Worker.HandleHeartbeatAck | src/client.cpp:569-597 | enqueues exactly the fulfilments of the requests that target this client, in order, none without consent |
| Delivery.AckJobsInOrder | src/client.cpp:569-597 | which are, in order, one job per request of the body with an id that is for this client, posted to the request's own address and never stored, and none at all while capture is not allowed |
| Delivery.Worker.HandlePostResult | src/worker.cpp:241-269 | delivered removes the file and spawns; rejected removes; transient retries, gives up or drops by durability |
| Delivery.Worker.Process | src/worker.cpp:200-239 | one job settled: queue, files, claim and round-trip emission are exactly the specified effects |
| Delivery.Worker.PersistLeftovers | src/worker.cpp:313-325 | empties the queue and writes each leftover that needs a file, in order |
| Delivery.Worker.Stop | src/worker.cpp:62-75 | once: stops and persists; a second call does nothing |
| ClientDelivery.EnqueueIngest | src/client_reports.cpp:104-119 | the report is written before it is enqueued, and the job holds the file it was written to |
| ClientDelivery.CaptureIsOneJob | src/client_reports.cpp:104-119 | a captured report is one signed job of its url, body, kind and durability, and is its file's holder |
| ClientDelivery.DrainSidecars | src/client.cpp:291-308 | every scanned record is enqueued as a restored job, and a crash among them is remembered |
| ClientDelivery.CrashAmongFiles | src/client.cpp:291-308 | and there is one among them exactly when usable storage holds a crash report that is not empty |
| ClientDelivery.DrainLosesNothing | src/client.cpp:291-308 | what a bounded directory restores fits an empty queue: the drop-oldest rule costs no restored report |
| ClientDelivery.MaybeFlushBatch | src/client.cpp:799-822 | a ready batch is emptied and its envelopes enqueued in order with their flags |
| ClientDelivery.EnvelopesAreJobs | src/client.cpp:799-822 | each envelope is one signed job, in order, never stored, and only a batch of metrics emits no metric itself |
| RestoredReports.RestoredCrashAsksForLog | src/client.cpp:291-308 | a restored crash is posted, body unchanged, to the crash address by the holder of its file, and requests the last session's log exactly when its payload did |
| RestoredReports.RestoredBugReportAsksForLog | src/client.cpp:291-308 | likewise a bug report, to the bug report address |
| RestoredReports.RestoredEventAsksForNothing | src/client.cpp:291-308 | and an event, whatever it holds, which never requests one |
| DeliverySystem.StepKeepsInv | src/worker.cpp:94-325 | every step of threads, worker, server, kill, stop or relaunch keeps: live jobs' files store their bodies, no file has two holders, at most 256 queued, at most five attempts |
| DeliverySystem.SettleIsLawful | src/worker.cpp:200-311 | a settled response removes the file exactly on a final answer, and otherwise spawns at most the job's own retry |
| DeliverySystem.SettleByStatus | src/worker.cpp:18-311 | by the status alone: a report's file goes exactly on an answer below 500 that is neither 408 nor 429 nor a transport error; log upload, fulfilments and round trip are spawned for 200 to 299 only; every other answer re-queues a job that is not ephemeral until its fifth post, and then stores it if it may be stored and has no file |
| DeliverySystem.LogUploadByStatus | src/worker.cpp:200-311 | the same statuses re-queue a log upload; it is never stored and spawns nothing else |
| DeliverySystem.LogUploadIsGranted | src/worker.cpp:271-291 | a success that grants a slot spawns one upload of the log the report belongs to, to the address and with the fields granted, unless that log is empty or is the last session's and claimed before |
| DeliveryRuns.StoredUntilAnswered | src/worker.cpp:18-325 | over every run a stored report keeps its exact body until an answer to a post of that body arrives that is no transport error, below 500, and neither 408 nor 429 |
| DeliveryRuns.FileGoesOnFinalAnswer | src/worker.cpp:241-269 | and when that answer is acted on its file goes, exactly if the removal works; on any other answer it stays |
| DeliveryRuns.CapturedUntilAnswered | src/client_reports.cpp:104-119 | in particular every report whose write-ahead file was written |
| DeliveryRuns.OneHolderPerFile | src/client.cpp:291-308 | in every reachable state at most one live job holds a given file, and holds its body |
| DeliveryRuns.HolderStays | src/worker.cpp:94-311 | and no step of a living process ends that but a final answer, a fifth failure, or the drop-oldest rule reaching that very job; each of them does |
| DeliveryRuns.HeldThroughout | src/worker.cpp:94-311 | so over every run of a living process without such a step a report has exactly one live job, whatever the interleaving of threads, retries and refills |
| DeliveryRuns.RelaunchHoldsAll | src/client.cpp:291-308 | a relaunch over usable storage hands every stored report to exactly one job |
| DeliveryRuns.StopStoresLeftovers | src/worker.cpp:313-325 | a clean stop stores each leftover that needs a file, when a file may be made for it |
| DeliveryRuns.FifthFailureStores | src/worker.cpp:293-311 | a report that may be stored and has no file yet is stored at its fifth failure, body unchanged, when a file may be made for it |
| DeliveryRuns.PreviousLogOnce | src/worker.cpp:271-291 | however many restored reports are granted a slot, one launch uploads the last session's log at most once |
| DeliveryRuns.RunKeepsBound | src/sidecar_queue.cpp:83-93 | in every run no kind exceeds 64 files |
| Quiescence.RetriesAreBounded | src/worker.cpp:293-302 | a transient failure re-queues the same job only, at most four times, 2 to 300 seconds later |
| Quiescence.RetryWaits | src/worker.cpp:293-302 | the waits are 2, 4, 8 and 16 seconds, or the server's hint if that is longer, at most 300 |
| Quiescence.HintedExactly | src/worker.cpp:31-38 | the server hints exactly with a 429 or a 503 whose Retry-After is 1 to 9 digits between whitespace, and hints that number |
| Quiescence.SettlePotential | src/worker.cpp:200-311 | whatever the response, what a job spawns weighs less than the job: heartbeat to 32 fulfilments to log upload, ingest to metric |
| Quiescence.InternalStepLowers | src/worker.cpp:118-311 | every step without new captures lowers the measure, across all spawned jobs and batches |
| Quiescence.RunsAreFinite | src/worker.cpp:118-311 | no run without new captures is longer than the measure of its first state |
| Quiescence.PostsAreBounded | src/worker.cpp:200-311 | and it settles at most as many posts as that state's load |
| Quiescence.NotStuck | src/worker.cpp:118-179 | until everything is at rest some step is possible, at any late enough time |
| Quiescence.MaximalRunsRest | src/worker.cpp:118-311 | a run that cannot go on ends with nothing queued, staged, in flight or (gate open) buffered |
| Redelivery.RelaunchPostsAll | src/client.cpp:291-308 | durability and rest together: a launch over usable storage that is given nothing else to do posts the exact body of every stored report before it comes to rest, whatever the server answers; the drop-oldest rule never gets there first |
| Heartbeats.ClientIdentity.SetUser | src/client_reports.cpp:43-81 | identity change resets the baseline, bumps the epoch, drops the map when leaving a real id, and stamps or drops the marker |
| Heartbeats.ClientIdentity.SetUserMetadata | src/client.cpp:636-648 | replaces the whole map by the clamped one; refuses, changing nothing, a positive count with a null array |
| Heartbeats.ClientIdentity.BuildBeat | src/client.cpp:444-487 | a beat carries the marker while pending and the map when it differs from the baseline, and records both in the slots |
| Heartbeats.ClientIdentity.HandleAck | src/client.cpp:546-568 | any acknowledgement commits what the slots hold, guarded by value and by epoch, and empties them |
| Heartbeats.BeatCarriesOwnMap | src/client_reports.cpp:43-81 | over every run a beat that carries any attribute carries the map set last, and that was set since a real user was last left: no player's attributes are sent under another's id |
| Heartbeats.ChangeOfUser | src/client_reports.cpp:43-81 | after any run, a change away from a real user leaves nothing to carry, while a first login from the provisional id keeps the map and carries it; the next beat names the provisional id as prior exactly when the change is from it to another |
| Heartbeats.BaselineAndMarker | src/client.cpp:546-568 | in every run the baseline is `{}` or a map a beat of the current identity carried, and the marker is empty or the provisional id, empty when logged out |
| Heartbeats.MarkerCleared | src/client.cpp:546-557 | only a logout or an acknowledgement after a carrying beat clears the marker |
| Heartbeats.StaysInSync | src/client.cpp:546-568 | with any number of beats under way a step keeps the baseline equal to what was delivered exactly when it is no acknowledgement, or the acknowledged beat carried the live slot's map under this identity, or no slot is live and the beat carried nothing new under it |
| Heartbeats.AlwaysInSyncExactly | src/client.cpp:546-568 | over every run the baseline is what was delivered throughout exactly when every acknowledgement is such a one |
| Heartbeats.CarriesExactlyChanges | src/client.cpp:479-487 | over every run of such acknowledgements a beat carries metadata exactly when the map differs from the last one delivered under this identity |
| Heartbeats.SerialFits | src/client.cpp:546-568 | when each beat resolves before the next is built, the other acknowledgements are exactly those of empty-handed beats over a live slot |
| Heartbeats.NoReturnNoStaleAck | src/client.cpp:479-487 | which do not occur when the map never returns to the baseline while a carried one is unresolved |
| Heartbeats.SerialCarriesExactlyChanges | src/client.cpp:479-487 | so in such runs a beat carries metadata exactly when the map differs from the last one delivered |
| Heartbeats.LostMapIsCommitted | src/client.cpp:558-568 | without that condition any map can be committed undelivered, and then is never sent |
| Heartbeats.OverlappingBeatsCommitTooMuch | src/client.cpp:558-568 | with two beats under way the first acknowledgement commits the second's map |
| Heartbeats.AckClearsMarker | src/client.cpp:444-557 | over every run, with any number of beats under way: an acknowledgement clears the pending marker exactly when a beat that carried a marker was built since the last acknowledgement, and clears it on behalf of a beat that did not carry this login's marker exactly when, besides, the acknowledged beat carried none or is of an epoch before the last login stamped it |
| Heartbeats.StampSeparates | src/client_reports.cpp:43-81 | the epoch tells them apart: no beat under way when a marker is stamped carries it, and the next one built does |
| Heartbeats.ClearingAckCarriedMarker | src/client.cpp:546-557 | so with one beat at a time and no login stamping a marker while a beat is under way, the acknowledgement that clears the marker belongs to a beat that carried it and was built since it was stamped |
| Heartbeats.LoginDuringBeatLosesMarker | src/client.cpp:546-557 | a run from the start in which it does not: the first login's beat is lost, and a logout and a login around the next beat let that empty-handed beat clear the new marker |
| Heartbeats.EarlierLoginClearsMarker | src/client.cpp:546-557 | a run without a lost beat: a logout and a second login while the first login's beat is under way, and that beat's acknowledgement clears the second login's marker, which no beat ever carries |
| Batching.BuildBatchEnvelope | src/payloads.cpp:260-272 | the envelope text: send time and the raw items joined by commas |
| Batching.EnvelopeReadsBack | src/payloads.cpp:260-272 | an RFC 8259 parser reads the envelope of any printed items as the send time and those very items |
| Batching.Batch.Add | src/batch.cpp:10-20 | appends, dropping the oldest at 256, starts the age clock with the first, reports the count trigger |
| Batching.Batch.DrainLocked | src/batch.cpp:57-71 | takes the greedy prefix into one envelope and keeps the rest |
| Batching.Batch.DrainIfReady | src/batch.cpp:32-40 | when ready, takes the greedy prefix out as one envelope and keeps the rest; otherwise changes nothing |
| Batching.Batch.DrainEnvelopesIfReady | src/batch.cpp:47-55 | when ready, empties the buffer into the greedy split's envelopes |
| Batching.SizeIsLength | src/batch.cpp:60-66 | the running byte count is the real envelope length |
| Batching.SplitIsSound | src/batch.cpp:47-71 | the chunks are the items in order, each non-empty and within the rule |
| Batching.EnvelopesAreBounded | src/batch.cpp:61-69 | an envelope exceeds 512 KiB only when it holds a single item |
| Batching.SplitIsMinimal | src/batch.cpp:47-71 | no order-preserving split under the same rule has fewer envelopes |
| Dedupe.DedupeWindow.Check | src/dedupe.cpp:7-26 | one check: suppress and count within the window, else allow, clearing a full table first |
| Dedupe.TableSize | src/dedupe.cpp:21-24 | tracked signatures are insertions less 64 per reset, never more than 64 |
| Dedupe.ResetsAreRare | src/dedupe.cpp:21-24 | r resets need at least 64r + 1 insertions |
| Dedupe.UntrackedIsAllowed | src/dedupe.cpp:10-25 | an untracked signature is always allowed |
| Dedupe.AllowedExactly | src/dedupe.cpp:7-26 | over every history a check is suppressed exactly when the signature was last allowed less than the window before and the table was not cleared since |
| Dedupe.TwoAllowedNeedReset | src/dedupe.cpp:7-26 | two allowed checks of one signature within the window have a reset between them, for nondecreasing times |
| Dedupe.ReportedCount | src/dedupe.cpp:13-15 | the reported count is the number suppressed since the last allowed check |
| NativeCrash.HexTo | src/native_crash.cpp:102-113 | the nibble loop writes `0x` and the shortest digits |
| NativeCrash.DecTo | src/native_crash.cpp:49-63 | the reversed-digit loops write the shortest decimal |
| NativeCrash.ParseHex | src/native_crash.cpp:440-454 | the value of the leading digits, modulo 2^64 |
| NativeCrash.HexCharsAre | src/native_crash.cpp:440-454 | digits of either case are read, and no other character |
| NativeCrash.HexIsModular | src/native_crash.cpp:440-454 | letting the top bits go is arithmetic modulo 2^64, for any number of digits |
| NativeCrash.ParseDec | src/native_crash.cpp:456-466 | sign and leading digits |
| NativeCrash.HexRoundTrip | src/native_crash.cpp:102-113 | every 64-bit value is read back from its text |
| NativeCrash.DecRoundTrip | src/native_crash.cpp:49-63 | every integer is read back from its text |
| NativeDump.ResolveModule | src/native_crash.cpp:216-225 | the first module that holds the address, with the offset into it |
| NativeDump.WriteFrame | src/native_crash.cpp:275-301 | one frame line: module, offset and build id, or `??` and the address |
| NativeDump.HandlerDump | src/native_crash.cpp:347-368 | the handler's writes add up to the dump's lines |
| NativeDump.ParseDump | src/native_crash.cpp:470-515 | the line loop equals the specification on every text |
| NativeDump.TrimsTheEnd | src/native_crash.cpp:470-515 | a build id loses the spaces at its end and nothing else |
| DumpRecovery.DumpRoundTrip | src/native_crash.cpp:470-515 | a dump of 32-bit numbers, 64-bit addresses and hexadecimal build ids is recovered exactly if and only if no module name in it has a space or a newline |
| DumpRecovery.CapturedRoundTrip | src/native_crash.cpp:275-368 | so for whatever signal, registers and module table, the dump the handler captures is recovered exactly if and only if the names of its frames are such |
| DumpRecovery.PrefixRecovery | src/native_crash.cpp:470-515 | for such names and every byte prefix past the magic word all fully written lines are recovered exactly, and at most one frame is added |
| DumpRecovery.CapturedIsCapturable | src/native_crash.cpp:275-368 | what the handler captures has numbers, addresses and build ids of that kind |
| DumpRecovery.CapturedPlaces | src/native_crash.cpp:216-368 | what is captured: the signal as it came, then the program counter's place and after it the link register's, each the first module that holds the address, the offset into it and its build id, or the address alone |
| SessionLogs.SessionLog.Append | src/session_log.cpp:47-65 | buffers one terminated line, or counts it as dropped when the buffer is full |
| SessionLogs.LineTellsParts | src/session_log.cpp:47-65 | a line tells the time, the level and the message it was made of |
| SessionLogs.SessionLog.TakePending | src/session_log.cpp:85-98 | takes the buffer and, after drops, the overflow note; resets the count |
| SessionLogs.NoteTellsCount | src/session_log.cpp:85-98 | the overflow note tells how many lines were dropped |
| SessionLogs.SessionLog.WriteChunk | src/session_log.cpp:100-120 | appends and trims past 512 KiB; changes nothing when the file cannot be opened |
| SessionLogs.SessionLog.ReadCurrent | src/session_log.cpp:74-78 | flushes what is buffered and returns the whole current file |
| SessionLogs.SessionLog.TrimFromFront | src/session_log.cpp:123-142 | keeps what follows the first line end in the newest 256 KiB; keeps everything when the file cannot be rewritten, and takes its size for 0 when it cannot be read back |
| SessionLogs.KeptIsLongest | src/session_log.cpp:123-142 | of a text over 256 KiB a trim keeps the longest end below 256 KiB that starts at a line start |
| SessionLogs.SessionLog.RotateForNewSession | src/session_log.cpp:25-45 | the current file becomes the previous one, a stale one goes, the size restarts; a removal or a rename that fails leaves its file |
| SessionLogs.RotationStartsAfresh | src/session_log.cpp:25-45 | the restarted size is that of the current file exactly when the rename worked or the file held nothing; the last session's log is kept either way, as the previous file or where it was |
| SessionLogs.EveryLineAccountedFor | src/session_log.cpp:47-120 | every non-empty append is in the stream, on its way, in a chunk whose file could not be opened, or counted as dropped, exactly once, under any interleaving of flushes |
| SessionLogs.LogIsFaithful | src/session_log.cpp:85-142 | after a rotation the file is a line-aligned end of everything written, from which the front is missing only after more than 512 KiB, and then all whole lines of the last 256 KiB before the cut are there; its size is tracked while every due read-back works, it is at most 512 KiB when every due rewrite works besides, and lines are lost exactly when some chunk found the file could not be opened |
| Launches.SessionTracker.ConfigureStorage | src/client.cpp:187-216 | marker and dump are read and removed as the options say and as far as opening and removing work |
| Launches.SessionTracker.Install | src/native_crash.cpp:378-423 | the dump file is emptied exactly when it can be opened, and the handler installed exactly when a signal action can be registered besides |
| Launches.SessionTracker.Initialise | src/client.cpp:112-216 | the straight-line start-up leaves every field as the four start-up steps do, whatever fails |
| Launches.StartUpIsReady | src/client.cpp:112-216 | those four steps, between any of which the process can be killed, in one |
| Launches.SessionTracker.StartSessionTracking | src/client.cpp:315-329 | once a launch: writes the marker, then reports the previous death if there was one |
| Launches.SessionTracker.ReportUncleanShutdown | src/client.cpp:337-368 | nothing when a crash was restored, the native report when a dump was, else the synthetic one |
| Launches.SessionTracker.RemoveMarker | src/client.cpp:104-106 | the last step of a clean shutdown deletes the marker if it can be deleted |
| Launches.AtMostOneDeathReport | src/client.cpp:315-368 | over any launches, kills, exits and failing file operations: at most one death report per session, only if tracked, none after a clean exit - and one more at most for each time its marker outlived the step that should have taken or deleted it; none by a launch that restored a crash |
| Launches.WatchingLaunchReports | src/client.cpp:315-368 | over every run, a launch that watches for unclean deaths and gets through session tracking reports a session exactly when the marker it finds is that session's and it restores no crash |
| Launches.ReportTellsDump | src/client.cpp:337-368 | its report is a native one exactly when it watches native crashes and found a dump, and then tells that dump |
| Launches.LeftOnDisk | src/client.cpp:187-216 | a marker outlives the step that should have taken or deleted it exactly when it could not be removed, or not opened where it had to be read; a dump that was read is gone once it could be removed, or emptied for the new handler |
| Launches.RepeatNeedsKeptMarker | src/client.cpp:315-368 | so a second report, or one after a clean exit, happens exactly there, and only where that marker outlived the step that should have taken or deleted it |
| Launches.KeptMarkerRepeatsReport | src/session_marker.cpp:24-57 | on a file system that became read-only the same session is reported again and again |
| Launches.UncleanDeathIsReported | src/client.cpp:315-368 | a tracked session that dies at any moment is reported by the next such launch exactly when it restores no crash, once in all when its marker was never kept; its death is represented by neither a report nor a restored crash exactly when crashes were restored and all are other sessions' |
| Launches.UnrepresentedForGood | src/client.cpp:331-341 | and then it is never reported by any later launch, unless its marker was kept |
| Launches.CrashSilencesLaterDeath | src/client.cpp:331-341 | the run in which the first session's crash report, still undelivered, silences the death of the second session |
| Launches.DumpIsOfTheDeadSession | src/client.cpp:337-350 | over every run a native report describes the session it is about exactly when no later session before the reporting one installed the handler after it did; while no marker is kept, exactly when the dead session had the handler installed |
| Launches.SkippedLaunchMixesDumps | src/client.cpp:337-350 | a session without the handler, after one that left a dump, is reported with that other session's dump |

## Left out

- JsonAck.FindPendingRequests: the walk collects the isolated objects first and extracts their fields afterwards; the code extracts each object as soon as it is isolated. The results are the same list.
- JsonWriting.JsonWriter.RawField: a printed floating-point number arrives as opaque text; `number_field` with its `%.17g` and locale repair is library behaviour.
- NativeCrash.ParseDec: values are unbounded integers; in C++ a number beyond the range of `long` in a damaged dump overflows. Every number the handler writes is in range.
- Clock.FormatIso8601UtcMs: the 64-bit intermediate sums of the closed form are unbounded here; they cannot overflow for a day number that comes from 64-bit milliseconds.
- ShaBlocks.RunHash: the length field is modulo 2^64 bits as in the code, while the message itself may be of any length.
- Quiescence.RunsAreFinite: counts steps of the worker, the server and threads that finish what they began; new captures, beats and buffered items are not such steps.
- Launches.AtMostOneDeathReport: one client per process, one process per data directory; a client that is still shutting down while another starts in the same process is not modelled. The same holds for DeliveryRuns.
- Launches.SessionTracker: the marker and the dump are the session they belong to; their texts are the subject of SessionMarkers and NativeDump.
- Delivery.Worker: threads, condition variables and the wake-up time; the steps between two locks are atomic.
- src/transport_curl.cpp: the server is an arbitrary response.
- Sidecars.SidecarQueue.Scan: every file in a kind's directory is taken to be one the queue wrote, readable and named with its extension; the skipping of others is not modelled. An unreadable or empty one is not restored.
- Delivery.Worker.Stop: the join, during which a job in flight still settles, is a step of DeliverySystem and not of this method.
- Heartbeats.ClientIdentity.BuildBeat: one step, where the code takes the user and the metadata under two locks in turn; HandleAck likewise.
- Launches.SessionTracker.Initialise: a launch without usable storage is one in which nothing can be opened or removed.
- Partial reads and writes and the text of file names.
- src/tombstone_api.cpp, src/platform.cpp, src/sdk_log.cpp, src/preinit.cpp, src/start_gate.h and the C header: glue, probing and callbacks; the send gate is one flag of DeliverySystem.
- Signal installation, handler chaining, ELF note walking and module capture in src/native_crash.cpp; `signal_name`.
- src/sampler.cpp, src/frame_stats.cpp, src/breadcrumb_ring.cpp, src/device_identity.cpp, random ids: breadcrumbs are a plain sequence, names are drawn by the environment, a sampled-out metric is a step that keeps none.
- Heartbeat, event and metric bodies of src/payloads.cpp and the device-on-heartbeat flag: the same builders and the same commit rule again.
- `compute_crash_signature` in src/signature.cpp: line splitting in front of the hash.
- Setters, diagnostics and log mirroring in src/client.cpp and src/client_reports.cpp: one-branch members.
