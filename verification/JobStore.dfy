/** `ingest/job_store.py`: the job row, its merged payload, and the two stores. Every method of one
    store has the contract of the other's, over the same table of rows. */
module JobStores {
  import opened Wrappers
  import opened Uuids

  datatype JobPhase = Pending | Parsed | Chunked | Indexing | Ready | Failed

  datatype JobStatus = StatusPending | InProgress | Complete | StatusFailed

  /** The two ways a document can refuse to be parsed (`ingest/parsing.py`). */
  datatype ParseError = DocumentDecodeError | UnsupportedFormatError

  /** Every way an ingest attempt can raise. */
  datatype PipelineError =
    | ParseFailed(cause: ParseError)
    | CheckpointError          // no pointer in the payload, no such file, or another step's file
    | AclLookupError
    | TransportError           // the embedding service is unreachable: the only retried error
    | EmbeddingServiceError    // an HTTP error response, raised at once
    | ResultCountsDisagree     // dense and sparse answers of different lengths
    | ChunkCountMismatch       // zip(..., strict=True) over chunks and embeddings
    | IndexWriteError
    | UnknownJob               // KeyError / LookupError on the job row

  /** The payload keys. Phase and progress are there from creation on; the rest once merged in. */
  datatype Payload = Payload(
    phase: JobPhase,
    progress: real,
    parsedPath: Option<string>,
    chunkedPath: Option<string>,
    parserFallback: Option<bool>,
    retryCount: Option<nat>,
    errors: Option<seq<PipelineError>>)

  /** The right-hand dictionary of a merge: only the keys it holds. */
  datatype Updates = Updates(
    phase: Option<JobPhase>,
    progress: Option<real>,
    parsedPath: Option<string>,
    chunkedPath: Option<string>,
    parserFallback: Option<bool>,
    retryCount: Option<nat>,
    errors: Option<seq<PipelineError>>)

  datatype Row = Row(payload: Payload, status: JobStatus)

  const INITIAL_ROW := Row(Payload(Pending, 0.0, None, None, None, None, None), StatusPending)

  const NO_UPDATES := Updates(None, None, None, None, None, None, None)

  function Over<T>(update: Option<T>, current: Option<T>): Option<T> {
    if update.Some? then update else current
  }

  /** `{**payload, **updates}`. */
  function Merge(payload: Payload, updates: Updates): Payload {
    Payload(
      if updates.phase.Some? then updates.phase.value else payload.phase,
      if updates.progress.Some? then updates.progress.value else payload.progress,
      Over(updates.parsedPath, payload.parsedPath),
      Over(updates.chunkedPath, payload.chunkedPath),
      Over(updates.parserFallback, payload.parserFallback),
      Over(updates.retryCount, payload.retryCount),
      Over(updates.errors, payload.errors))
  }

  /** Merging nothing changes nothing, merging twice is merging once, and of two updates the later one
      wins key by key: a key once there is never lost. */
  lemma MergeLaws(payload: Payload, first: Updates, second: Updates)
    ensures Merge(payload, NO_UPDATES) == payload
    ensures Merge(Merge(payload, first), first) == Merge(payload, first)
    ensures Merge(Merge(payload, first), second)
         == Merge(payload, Updates(Over(second.phase, first.phase), Over(second.progress, first.progress),
                                   Over(second.parsedPath, first.parsedPath),
                                   Over(second.chunkedPath, first.chunkedPath),
                                   Over(second.parserFallback, first.parserFallback),
                                   Over(second.retryCount, first.retryCount), Over(second.errors, first.errors)))
    ensures payload.parsedPath.Some? ==> Merge(payload, first).parsedPath.Some?
    ensures payload.chunkedPath.Some? ==> Merge(payload, first).chunkedPath.Some?
  {
  }

  /** Key by key: a key the update holds gets its value, and one it does not hold keeps what it had. */
  lemma MergeKeyByKey(payload: Payload, updates: Updates)
    ensures var merged := Merge(payload, updates);
      && merged.phase == (match updates.phase case Some(given) => given case None => payload.phase)
      && merged.progress == (match updates.progress case Some(given) => given case None => payload.progress)
      && merged.parsedPath == (if updates.parsedPath.Some? then updates.parsedPath else payload.parsedPath)
      && merged.chunkedPath == (if updates.chunkedPath.Some? then updates.chunkedPath else payload.chunkedPath)
      && merged.parserFallback == (if updates.parserFallback.Some? then updates.parserFallback
                                   else payload.parserFallback)
      && merged.retryCount == (if updates.retryCount.Some? then updates.retryCount else payload.retryCount)
      && merged.errors == (if updates.errors.Some? then updates.errors else payload.errors)
  {
  }

  function Advanced(row: Row, updates: Updates): Row {
    Row(Merge(row.payload, updates), InProgress)
  }

  function Completed(row: Row): Row {
    Row(Merge(row.payload, NO_UPDATES.(phase := Some(Ready), progress := Some(1.0))), Complete)
  }

  function FailedWith(row: Row, error: PipelineError): Row {
    Row(Merge(row.payload, NO_UPDATES.(phase := Some(Failed), errors := Some([error]))), StatusFailed)
  }

  /** The rows of `job_queue` as one session sees them, committed or not. */
  class SqlAlchemyJobStore {
    var rows: map<Uuid, Row>

    constructor (rows: map<Uuid, Row>)
      ensures this.rows == rows
    {
      this.rows := rows;
    }

    /** `uuid.uuid4()` is the parameter `newId`: an id the table has not seen. */
    method CreateJob(jobType: string, newId: Uuid) returns (jobId: Uuid)
      requires newId !in rows
      modifies this
      ensures jobId == newId && rows == old(rows)[newId := INITIAL_ROW]
      ensures rows[newId] == Row(Payload(Pending, 0.0, None, None, None, None, None), StatusPending)
    {
      jobId := newId;
      rows := rows[jobId := Row(INITIAL_ROW.payload, StatusPending)];
    }

    method Fetch(jobId: Uuid) returns (r: Result<Row, PipelineError>)
      ensures r == if jobId in rows then Success(rows[jobId]) else Failure(UnknownJob)
    {
      r := if jobId in rows then Success(rows[jobId]) else Failure(UnknownJob);
    }

    method GetPayload(jobId: Uuid) returns (r: Result<Payload, PipelineError>)
      ensures r == if jobId in rows then Success(rows[jobId].payload) else Failure(UnknownJob)
    {
      var job := Fetch(jobId);
      match job {
        case Failure(error) => r := Failure(error);
        case Success(row) => r := Success(row.payload);
      }
    }

    method GetStatus(jobId: Uuid) returns (r: Result<JobStatus, PipelineError>)
      ensures r == if jobId in rows then Success(rows[jobId].status) else Failure(UnknownJob)
    {
      var job := Fetch(jobId);
      match job {
        case Failure(error) => r := Failure(error);
        case Success(row) => r := Success(row.status);
      }
    }

    method Advance(jobId: Uuid, updates: Updates) returns (r: Result<(), PipelineError>)
      modifies this
      ensures jobId in old(rows) ==> r == Success(()) && rows == old(rows)[jobId := Advanced(old(rows)[jobId], updates)]
      ensures jobId !in old(rows) ==> r == Failure(UnknownJob) && rows == old(rows)
    {
      var job := Fetch(jobId);
      match job {
        case Failure(error) => r := Failure(error);
        case Success(row) =>
          rows := rows[jobId := Row(Merge(row.payload, updates), InProgress)];
          r := Success(());
      }
    }

    method MarkComplete(jobId: Uuid) returns (r: Result<(), PipelineError>)
      modifies this
      ensures jobId in old(rows) ==> r == Success(()) && rows == old(rows)[jobId := Completed(old(rows)[jobId])]
      ensures jobId in old(rows) ==>
        rows[jobId] == Row(old(rows)[jobId].payload.(phase := Ready, progress := 1.0), Complete)
      ensures jobId !in old(rows) ==> r == Failure(UnknownJob) && rows == old(rows)
    {
      var job := Fetch(jobId);
      match job {
        case Failure(error) => r := Failure(error);
        case Success(row) =>
          rows := rows[jobId := Row(Merge(row.payload, NO_UPDATES.(phase := Some(Ready), progress := Some(1.0))),
            Complete)];
          r := Success(());
      }
    }

    method Fail(jobId: Uuid, error: PipelineError) returns (r: Result<(), PipelineError>)
      modifies this
      ensures jobId in old(rows) ==> r == Success(()) && rows == old(rows)[jobId := FailedWith(old(rows)[jobId], error)]
      ensures jobId in old(rows) ==>
        rows[jobId] == Row(old(rows)[jobId].payload.(phase := Failed, errors := Some([error])), StatusFailed)
      ensures jobId !in old(rows) ==> r == Failure(UnknownJob) && rows == old(rows)
    {
      var job := Fetch(jobId);
      match job {
        case Failure(unknown) => r := Failure(unknown);
        case Success(row) =>
          rows := rows[jobId := Row(Merge(row.payload, NO_UPDATES.(phase := Some(Failed), errors := Some([error]))),
            StatusFailed)];
          r := Success(());
      }
    }
  }

  class InMemoryJobStore {
    var payloads: map<Uuid, Payload>
    var statuses: map<Uuid, JobStatus>
    var jobTypes: map<Uuid, string>

    /** The store as a table of rows. */
    ghost var rows: map<Uuid, Row>

    ghost predicate Valid()
      reads this
    {
      && payloads.Keys == statuses.Keys == jobTypes.Keys == rows.Keys
      && forall id :: id in rows ==> rows[id] == Row(payloads[id], statuses[id])
    }

    constructor ()
      ensures Valid() && rows == map[]
    {
      payloads, statuses, jobTypes, rows := map[], map[], map[], map[];
    }

    /** `uuid.uuid4()` is the parameter `newId`: an id the store has not seen. */
    method CreateJob(jobType: string, newId: Uuid) returns (jobId: Uuid)
      requires Valid() && newId !in rows
      modifies this
      ensures Valid() && jobId == newId
      ensures rows == old(rows)[newId := INITIAL_ROW]
      ensures rows[newId] == Row(Payload(Pending, 0.0, None, None, None, None, None), StatusPending)
    {
      jobId := newId;
      payloads := payloads[jobId := INITIAL_ROW.payload];
      statuses := statuses[jobId := StatusPending];
      jobTypes := jobTypes[jobId := jobType];
      rows := rows[jobId := INITIAL_ROW];
    }

    method GetPayload(jobId: Uuid) returns (r: Result<Payload, PipelineError>)
      requires Valid()
      ensures r == if jobId in rows then Success(rows[jobId].payload) else Failure(UnknownJob)
    {
      r := if jobId in payloads then Success(payloads[jobId]) else Failure(UnknownJob);
    }

    method GetStatus(jobId: Uuid) returns (r: Result<JobStatus, PipelineError>)
      requires Valid()
      ensures r == if jobId in rows then Success(rows[jobId].status) else Failure(UnknownJob)
    {
      r := if jobId in statuses then Success(statuses[jobId]) else Failure(UnknownJob);
    }

    method Advance(jobId: Uuid, updates: Updates) returns (r: Result<(), PipelineError>)
      requires Valid()
      modifies this
      ensures Valid()
      ensures jobId in old(rows) ==> r == Success(()) && rows == old(rows)[jobId := Advanced(old(rows)[jobId], updates)]
      ensures jobId !in old(rows) ==> r == Failure(UnknownJob) && rows == old(rows)
    {
      if jobId !in payloads {
        return Failure(UnknownJob);
      }
      payloads := payloads[jobId := Merge(payloads[jobId], updates)];
      statuses := statuses[jobId := InProgress];
      rows := rows[jobId := Advanced(rows[jobId], updates)];
      r := Success(());
    }

    method MarkComplete(jobId: Uuid) returns (r: Result<(), PipelineError>)
      requires Valid()
      modifies this
      ensures Valid()
      ensures jobId in old(rows) ==> r == Success(()) && rows == old(rows)[jobId := Completed(old(rows)[jobId])]
      ensures jobId in old(rows) ==>
        rows[jobId] == Row(old(rows)[jobId].payload.(phase := Ready, progress := 1.0), Complete)
      ensures jobId !in old(rows) ==> r == Failure(UnknownJob) && rows == old(rows)
    {
      if jobId !in payloads {
        return Failure(UnknownJob);
      }
      payloads := payloads[jobId := Merge(payloads[jobId], NO_UPDATES.(phase := Some(Ready), progress := Some(1.0)))];
      statuses := statuses[jobId := Complete];
      rows := rows[jobId := Completed(rows[jobId])];
      r := Success(());
    }

    method Fail(jobId: Uuid, error: PipelineError) returns (r: Result<(), PipelineError>)
      requires Valid()
      modifies this
      ensures Valid()
      ensures jobId in old(rows) ==> r == Success(()) && rows == old(rows)[jobId := FailedWith(old(rows)[jobId], error)]
      ensures jobId in old(rows) ==>
        rows[jobId] == Row(old(rows)[jobId].payload.(phase := Failed, errors := Some([error])), StatusFailed)
      ensures jobId !in old(rows) ==> r == Failure(UnknownJob) && rows == old(rows)
    {
      if jobId !in payloads {
        return Failure(UnknownJob);
      }
      payloads := payloads[jobId := Merge(payloads[jobId],
        NO_UPDATES.(phase := Some(Failed), errors := Some([error])))];
      statuses := statuses[jobId := StatusFailed];
      rows := rows[jobId := FailedWith(rows[jobId], error)];
      r := Success(());
    }
  }
}
