/** Ingestion of a file batch into the knowledge store (app.js:546-580):
    submit the batch, poll its status every two seconds while it is
    in_progress, give up after five minutes.  Whatever happens, the caller
    carries on: the outcome is only logged. */
module Ingest {
  import opened Outcomes
  import opened Clock
  import Runs

  /** The ceiling on batch polling, measured from before the first fetch (ms). */
  const BatchMaxWaitMs: int := 5 * 60 * 1000
  /** Sleep between two batch status fetches (ms). */
  const BatchIntervalMs: int := 2000

  /** A file batch as `fileBatches.retrieve` reports it. */
  datatype Batch = Batch(status: string, error: Option<string>)

  /** How ingestion ended.  None of these aborts the assistant request. */
  datatype IngestOutcome =
    | Ingested(status: string)       // left in_progress with a status other than failed
    | IngestTimedOut                 // still in_progress at the ceiling
    | IngestFailed(message: string)  // the service reported the batch failed
    | IngestError(message: string)   // a remote call threw

  /** The batch `fileBatches.create` is asked for: these files, into that store. */
  datatype BatchRequest = BatchRequest(store: string, fileIds: seq<string>)

  /** What the remote service answers during ingestion. */
  datatype IngestScript = IngestScript(
    batch: Reply<string>,          // fileBatches.create: the batch id
    pollStart: int,                // Date.now() before the first fetch
    first: Reply<Batch>,           // the fileBatches.retrieve before the loop
    batches: nat -> Reply<Batch>,  // the k-th fileBatches.retrieve inside the loop
    clock: nat -> int)             // Date.now() at the k-th ceiling check

  /** The batch poll from its k-th ceiling check on, with `last` the batch in hand. */
  function BatchPoll(last: Batch, batches: nat -> Reply<Batch>, clock: nat -> int, pollStart: int, k: nat)
    : (o: IngestOutcome)
    requires Advancing(clock, BatchIntervalMs)
    ensures o.IngestFailed? ==>
              (last.status == "failed" && o.message == Runs.FailureDetails(last.error)) ||
              exists j: nat :: k <= j && batches(j).Ok? && batches(j).value.status == "failed" &&
                               o.message == Runs.FailureDetails(batches(j).value.error)
    ensures o.IngestTimedOut? ==> exists j: nat :: k <= j && clock(j) - pollStart > BatchMaxWaitMs
    ensures o.Ingested? ==> o.status != "in_progress" && o.status != "failed"
    decreases pollStart + BatchMaxWaitMs - clock(k)
  {
    if last.status != "in_progress" then
      if last.status == "failed" then IngestFailed(Runs.FailureDetails(last.error)) else Ingested(last.status)
    else if clock(k) - pollStart > BatchMaxWaitMs then IngestTimedOut
    else match batches(k)
      case Err(m) => IngestError(m)
      case Ok(b) => BatchPoll(b, batches, clock, pollStart, k + 1)
  }

  /** Ingestion as a whole: a failing create or first fetch is an error too. */
  function IngestSpec(s: IngestScript): (o: IngestOutcome)
    requires Advancing(s.clock, BatchIntervalMs)
    ensures s.batch.Err? ==> o == IngestError(s.batch.message)
    ensures s.batch.Ok? && s.first.Err? ==> o == IngestError(s.first.message)
    ensures !o.IngestError? ==> s.batch.Ok? && s.first.Ok?
  {
    if s.batch.Err? then IngestError(s.batch.message)
    else if s.first.Err? then IngestError(s.first.message)
    else BatchPoll(s.first.value, s.batches, s.clock, s.pollStart, 0)
  }

  /** Submits `fileIds` as one batch to `store` and polls it (app.js:546-576);
      `request` is the batch submitted. */
  method IngestFiles(store: string, fileIds: seq<string>, s: IngestScript)
    returns (o: IngestOutcome, request: BatchRequest)
    requires Advancing(s.clock, BatchIntervalMs)
    ensures o == IngestSpec(s)
    ensures request.store == store && request.fileIds == fileIds
  {
    request := BatchRequest(store, fileIds);
    if s.batch.Err? { return IngestError(s.batch.message), request; }
    if s.first.Err? { return IngestError(s.first.message), request; }
    var b := s.first.value;
    var k: nat := 0;
    while b.status == "in_progress"
      invariant BatchPoll(b, s.batches, s.clock, s.pollStart, k) == IngestSpec(s)
      decreases s.pollStart + BatchMaxWaitMs - s.clock(k)
    {
      if s.clock(k) - s.pollStart > BatchMaxWaitMs {
        return IngestTimedOut, request;
      }
      match s.batches(k)
      case Err(m) =>
        return IngestError(m), request;
      case Ok(next) =>
        b := next;
        k := k + 1;
    }
    if b.status == "failed" {
      o := IngestFailed(Runs.FailureDetails(b.error));
    } else {
      o := Ingested(b.status);
    }
  }
}
