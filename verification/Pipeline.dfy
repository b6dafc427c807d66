/** `ingest/pipeline.py` itself, on mutable stores. Every method is proved against the machine in
    `PipelineModel`: what an attempt leaves behind is what its uninterrupted run leaves. */
module Pipelines {
  import opened Wrappers
  import opened Uuids
  import Identity
  import Chunking
  import opened JobStores
  import Checkpoints
  import Embeddings
  import EmbeddingServices
  import AclLookups
  import opened VectorIndexes
  import opened Retry
  import opened PipelineModel
  import opened AttemptSteps
  import opened RetryCounts

  const SUPPORTED_EXTENSIONS: seq<string> := [".md", ".txt", ".pdf", ".docx"]

  function LowerChar(c: char): char {
    if 'A' <= c <= 'Z' then c - 'A' + 'a' else c
  }

  predicate HasSuffix(s: string, suffix: string) {
    |suffix| <= |s| && forall k :: 0 <= k < |suffix| ==> LowerChar(s[|s| - |suffix| + k]) == suffix[k]
  }

  /** `filename.lower().endswith(...)`: no letter outside ASCII lower-cases to a letter of the list. */
  predicate HasSupportedExtension(filename: string) {
    exists k :: 0 <= k < |SUPPORTED_EXTENSIONS| && HasSuffix(filename, SUPPORTED_EXTENSIONS[k])
  }

  /** Equal but for the case of ASCII letters. */
  predicate SameButCase(s: string, t: string) {
    |s| == |t| && forall k :: 0 <= k < |s| ==>
      || s[k] == t[k]
      || ('A' <= s[k] <= 'Z' && t[k] as int == s[k] as int + 32)
      || ('A' <= t[k] <= 'Z' && s[k] as int == t[k] as int + 32)
  }

  /** The four formats, in whatever case their ending is written. */
  lemma SupportedIff(filename: string)
    ensures HasSupportedExtension(filename) <==>
      exists ending, stem :: ending in {".md", ".txt", ".pdf", ".docx"} && EndsIn(filename, stem, ending)
  {
    forall k | 0 <= k < |SUPPORTED_EXTENSIONS|
      ensures HasSuffix(filename, SUPPORTED_EXTENSIONS[k]) <==>
        exists stem :: EndsIn(filename, stem, SUPPORTED_EXTENSIONS[k])
    {
      SuffixIff(filename, SUPPORTED_EXTENSIONS[k]);
    }
    assert SUPPORTED_EXTENSIONS[0] == ".md" && SUPPORTED_EXTENSIONS[1] == ".txt";
    assert SUPPORTED_EXTENSIONS[2] == ".pdf" && SUPPORTED_EXTENSIONS[3] == ".docx";
  }

  predicate EndsIn(filename: string, stem: string, ending: string) {
    stem <= filename && SameButCase(filename[|stem|..], ending)
  }

  lemma SuffixIff(filename: string, ending: string)
    requires forall k :: 0 <= k < |ending| ==> !('A' <= ending[k] <= 'Z')
    ensures HasSuffix(filename, ending) <==> exists stem :: EndsIn(filename, stem, ending)
  {
    if HasSuffix(filename, ending) {
      var stem := filename[..|filename| - |ending|];
      forall k | 0 <= k < |ending|
        ensures filename[|stem|..][k] == filename[|filename| - |ending| + k]
      {
      }
      assert EndsIn(filename, stem, ending);
    }
    if stem :| EndsIn(filename, stem, ending) {
      var tail := filename[|stem|..];
      assert forall k :: 0 <= k < |ending| ==> filename[|filename| - |ending| + k] == tail[k];
    }
  }

  /** A second write to a row hides the first. */
  lemma Overwritten(rows: map<Uuid, Row>, jobId: Uuid, first: Row, second: Row)
    ensures rows[jobId := first][jobId := second] == rows[jobId := second]
  {
  }

  lemma RetryRow(rows: map<Uuid, Row>, jobId: Uuid, retries: nat)
    requires jobId in rows
    ensures var row := RowAfterRetries(rows[jobId], retries);
      rows[jobId := row][jobId := Advanced(row, RetryUpdates(retries + 1))]
        == rows[jobId := RowAfterRetries(rows[jobId], retries + 1)]
  {
    RetriedAgain(rows[jobId], retries);
    Overwritten(rows, jobId, RowAfterRetries(rows[jobId], retries), RowAfterRetries(rows[jobId], retries + 1));
  }

  class PipelineDependencies {
    const parse: (seq<Byte>, string) -> Result<ParseResult, ParseError>
    const tokenizer: Chunking.Tokenizer
    const jobStore: SqlAlchemyJobStore
    const aclLookup: AclLookups.SqlAlchemyAclLookup
    const embeddingClient: EmbeddingServices.HybridEmbeddingClient
    const index: VectorIndex
    const checkpoints: Checkpoints.CheckpointDir
    const clock: EmbeddingServices.Clock
    const draws: nat -> Draw
    const upsertStopsAt: Option<nat>

    constructor (parse: (seq<Byte>, string) -> Result<ParseResult, ParseError>, tokenizer: Chunking.Tokenizer,
                 jobStore: SqlAlchemyJobStore,
                 aclLookup: AclLookups.SqlAlchemyAclLookup, embeddingClient: EmbeddingServices.HybridEmbeddingClient,
                 index: VectorIndex, checkpoints: Checkpoints.CheckpointDir, clock: EmbeddingServices.Clock,
                 draws: nat -> Draw, upsertStopsAt: Option<nat>)
      ensures this.jobStore == jobStore && this.aclLookup == aclLookup && this.embeddingClient == embeddingClient
      ensures this.index == index && this.checkpoints == checkpoints && this.clock == clock
      ensures this.parse == parse && this.tokenizer == tokenizer && this.draws == draws
        && this.upsertStopsAt == upsertStopsAt
    {
      this.parse, this.tokenizer, this.jobStore, this.aclLookup := parse, tokenizer, jobStore, aclLookup;
      this.embeddingClient, this.index, this.checkpoints, this.clock := embeddingClient, index, checkpoints, clock;
      this.draws, this.upsertStopsAt := draws, upsertStopsAt;
    }

    ghost function Env(): Services {
      Services(parse, tokenizer, embeddingClient.dense, embeddingClient.sparse, checkpoints.baseDir)
    }

    /** `script` is what an attempt starting now is going to meet. */
    ghost predicate Scripted(script: Script, calls: nat) {
      script.upsertStopsAt == upsertStopsAt && forall n: nat :: script.calls(n) == embeddingClient.outcomes(calls + n)
    }

    /** The stores hold what the machine holds at `c`; the other job rows are as in `rows`. */
    ghost predicate Shows(c: Config, jobId: Uuid, rows: map<Uuid, Row>)
      reads jobStore, checkpoints, index, embeddingClient
    {
      && jobId in rows && jobStore.rows == rows[jobId := c.row]
      && checkpoints.files == c.files && index.points == c.index && embeddingClient.sent == c.sent
    }

    /** A step returns the payload it leaves, or what it raised. */
    ghost function Outcome(c: Config): Result<Payload, PipelineError> {
      if c.pc.Failing? then Failure(c.pc.error) else Success(c.row.payload)
    }

    /** The payload points to the windows of the text that the parsed checkpoint held. */
    ghost predicate StoresWindows(job: Job, parsedPath: Option<string>, was: map<string, Checkpoints.CheckpointData>,
      payload: Payload)
      reads checkpoints
    {
      && parsedPath.Some? && parsedPath.value in was && was[parsedPath.value].TextData?
      && payload.chunkedPath.Some? && payload.chunkedPath.value in checkpoints.files
      && checkpoints.files[payload.chunkedPath.value].ChunkData?
      && Chunking.CutInWindows(checkpoints.files[payload.chunkedPath.value].chunks, was[parsedPath.value].text,
        job.identity, tokenizer)
    }

    method RunParseStep(job: Job, ghost c: Config, ghost rows: map<Uuid, Row>)
      returns (r: Result<Payload, PipelineError>)
      requires Shows(c, job.jobId, rows) && !c.pc.Failing?
      modifies jobStore, checkpoints
      ensures Shows(AfterParse(Env(), job, c), job.jobId, rows)
      ensures r == Outcome(AfterParse(Env(), job, c))
    {
      var result := parse(job.fileBytes, job.filename);
      if result.Failure? {
        return Failure(ParseFailed(result.error));
      }
      var checkpointPath := checkpoints.WriteCheckpoint(job.jobId, Checkpoints.ParsedStep,
        Checkpoints.TextData(result.value.text));
      var _ := jobStore.Advance(job.jobId, ParsedUpdates(checkpointPath, result.value.usedFallback));
      r := jobStore.GetPayload(job.jobId);
    }

    method RunChunkStep(job: Job, payload: Payload, ghost c: Config, ghost rows: map<Uuid, Row>)
      returns (r: Result<Payload, PipelineError>)
      requires Shows(c, job.jobId, rows) && !c.pc.Failing? && payload == c.row.payload
      modifies jobStore, checkpoints
      ensures Shows(AfterChunk(Env(), job, c), job.jobId, rows)
      ensures r == Outcome(AfterChunk(Env(), job, c))
      ensures r.Success? ==> StoresWindows(job, payload.parsedPath, old(checkpoints.files), r.value)
    {
      hide Chunking.CutInWindows;
      var parsed := Failure(CheckpointError);
      if payload.parsedPath.Some? {
        parsed := checkpoints.ReadCheckpoint(payload.parsedPath.value);
      }
      if parsed.Failure? || !parsed.value.TextData? {
        return Failure(CheckpointError);
      }
      var chunks := Chunking.SplitIntoChunks(parsed.value.text, job.identity, tokenizer);
      SplitTextCuts(Env(), job, parsed.value.text);
      var checkpointPath := checkpoints.WriteCheckpoint(job.jobId, Checkpoints.ChunkedStep,
        Checkpoints.ChunkData(chunks));
      var _ := jobStore.Advance(job.jobId, ChunkedUpdates(checkpointPath));
      r := jobStore.GetPayload(job.jobId);
    }

    /** The retry bound, for every budget, base and cap: the first call that is not cut off decides,
        among at most one more than the budget; every cut but a last exhausting one is counted in the row
        and slept for, and all the sleep together stays within the bound. */
    method EmbedWithRetry(jobId: Uuid, chunkTexts: seq<string>, ghost script: Script,
      budget: nat := MAX_EMBEDDING_RETRY_ATTEMPTS, base: real := DEFAULT_BASE_DELAY_SECONDS,
      cap: real := DEFAULT_MAX_DELAY_SECONDS)
      returns (r: Result<seq<Embeddings.EmbeddingResult>, PipelineError>)
      requires jobId in jobStore.rows && Scripted(script, embeddingClient.calls) && base >= 0.0 && cap >= 0.0
      modifies jobStore, embeddingClient, clock
      ensures r == EmbedOutcome(Env(), script, chunkTexts, budget)
      ensures jobStore.rows
        == old(jobStore.rows)[jobId := RowAfterRetries(old(jobStore.rows)[jobId], Retries(script, budget))]
      ensures forall n: nat :: Retried(script, budget, n) ==>
        && CountsRetries(old(jobStore.rows)[jobId], n, jobStore.rows[jobId])
        && embeddingClient.calls == old(embeddingClient.calls) + n + 1
      ensures embeddingClient.calls == old(embeddingClient.calls) + Retries(script, budget) + 1
      ensures embeddingClient.calls <= old(embeddingClient.calls) + budget + 1
      ensures clock.slept == old(clock.slept) + TotalDelay(Retries(script, budget), draws, base, cap)
      ensures clock.slept <= old(clock.slept) + SleepBound(budget, base, cap)
      ensures embeddingClient.sent == old(embeddingClient.sent) + {Batch(jobId, chunkTexts)}
    {
      hide Embeddings.CallResult, ComputeBackoffDelay, Advanced, RetryUpdates, EmbedOutcome, Absorbed, Retries,
        SleepBound, Retried, CountsRetries;
      ghost var rows := jobStore.rows;
      assert rows == rows[jobId := rows[jobId]];
      var attempt: nat := 0;
      while true
        invariant attempt <= budget
        invariant forall m :: 0 <= m < attempt ==> script.calls(m).Unreachable?
        invariant embeddingClient.calls == old(embeddingClient.calls) + attempt
        invariant jobStore.rows == rows[jobId := RowAfterRetries(rows[jobId], attempt)]
        invariant clock.slept == old(clock.slept) + TotalDelay(attempt, draws, base, cap)
        invariant attempt == 0 ==> embeddingClient.sent == old(embeddingClient.sent)
        invariant attempt > 0 ==> embeddingClient.sent == old(embeddingClient.sent) + {Batch(jobId, chunkTexts)}
        decreases budget - attempt
      {
        assert script.calls(attempt) == embeddingClient.outcomes(embeddingClient.calls);
        r := embeddingClient.Embed(chunkTexts, jobId);
        if r.Success? || r.error != TransportError || attempt + 1 > budget {
          LoopEndsAt(Env(), script, chunkTexts, attempt, budget);
          SleepWithinBound(attempt, budget, draws, base, cap);
          RetriedOnce(script, budget, attempt);
          RowCountsRetries(rows[jobId], attempt);
          return;
        }
        RetryRow(rows, jobId, attempt);
        attempt := attempt + 1;
        BackOff(jobId, attempt, base, cap);
      }
    }

    /** The retry count in the row, then the delay. */
    method BackOff(jobId: Uuid, attempt: nat, base: real, cap: real)
      requires jobId in jobStore.rows && base >= 0.0 && cap >= 0.0
      modifies jobStore, clock
      ensures jobStore.rows == old(jobStore.rows)[jobId := Advanced(old(jobStore.rows)[jobId], RetryUpdates(attempt))]
      ensures clock.slept == old(clock.slept) + ComputeBackoffDelay(attempt, draws(attempt), base, cap)
    {
      var _ := jobStore.Advance(jobId, RetryUpdates(attempt));
      clock.Sleep(ComputeBackoffDelay(attempt, draws(attempt), base, cap));
    }

    /** The two ACL lookups, either of which may raise. */
    method ReadAcl(identity: Identity.DocumentIdentity) returns (r: Result<AclRead, PipelineError>)
      ensures r == if AclLookups.KeyOf(identity) in aclLookup.table
                   then Success(AclRead(aclLookup.table[AclLookups.KeyOf(identity)].acl,
                     aclLookup.table[AclLookups.KeyOf(identity)].retentionState))
                   else Failure(AclLookupError)
    {
      var acl := aclLookup.GetEffectiveAcl(identity);
      if acl.Failure? {
        return Failure(acl.error);
      }
      var retentionState := aclLookup.GetRetentionState(identity);
      match retentionState {
        case Failure(error) => r := Failure(error);
        case Success(state) => r := Success(AclRead(acl.value, state));
      }
    }

    /** The rest of the step, once everything is read. */
    method EmbedAndUpsert(job: Job, chunks: seq<Chunking.Chunk>, read: AclRead, ghost script: Script, ghost c: Config,
                          ghost rows: map<Uuid, Row>)
      returns (r: Result<(), PipelineError>)
      requires Scripted(script, embeddingClient.calls) && Shows(c, job.jobId, rows)
        && c.pc == Embedding(read, chunks, 0)
      modifies jobStore, embeddingClient, clock, index
      ensures var end := AfterEmbedding(Env(), job, script, c);
        Shows(end, job.jobId, rows) && r == if end.pc.Failing? then Failure(end.pc.error) else Success(())
    {
      hide EmbedOutcome, Retries, RowAfterRetries, Upserted, BuildPoints, Chunking.Texts;
      ghost var embedded := AfterEmbed(Env(), job, script, c);
      var embeddings := EmbedWithRetry(job.jobId, Chunking.Texts(chunks), script);
      assert Shows(embedded, job.jobId, rows);
      if embeddings.Failure? {
        return Failure(embeddings.error);
      }
      ghost var advanced := AfterAdvance(job, embedded);
      var _ := jobStore.Advance(job.jobId, INDEXING_UPDATES);
      assert Shows(advanced, job.jobId, rows);
      if |chunks| != |embeddings.value| {
        return Failure(ChunkCountMismatch);
      }
      var points := BuildPoints(job.identity, job.target, chunks, embeddings.value, read);
      r := index.Upsert(job.target.collectionName, points, upsertStopsAt);
    }

    method RunEmbedAndIndexStep(job: Job, payload: Payload, ghost script: Script, ghost c: Config,
                              ghost rows: map<Uuid, Row>)
      returns (r: Result<(), PipelineError>)
      requires Scripted(script, embeddingClient.calls) && Shows(c, job.jobId, rows) && !c.pc.Failing?
        && payload == c.row.payload
      modifies jobStore, embeddingClient, clock, index
      ensures var end := AfterIndex(Env(), job, aclLookup.table, script, c);
        Shows(end, job.jobId, rows) && r == if end.pc.Failing? then Failure(end.pc.error) else Success(())
    {
      var read := ReadAcl(job.identity);
      if read.Failure? {
        return Failure(read.error);
      }
      var chunked := Failure(CheckpointError);
      if payload.chunkedPath.Some? {
        chunked := checkpoints.ReadCheckpoint(payload.chunkedPath.value);
      }
      if chunked.Failure? || !chunked.value.ChunkData? {
        return Failure(CheckpointError);
      }
      ghost var reading := AfterReads(job, aclLookup.table, c);
      r := EmbedAndUpsert(job, chunked.value.chunks, read.value, script, reading, rows);
    }

    /** What the body of the `try` raises, if anything. */
    ghost function Raised(c: Config): Result<(), PipelineError> {
      if c.pc.Failing? then Failure(c.pc.error) else Success(())
    }

    /** The steps that the job's phase calls for. */
    method RunSteps(job: Job, fetched: Payload, ghost script: Script, ghost c: Config, ghost rows: map<Uuid, Row>)
      returns (r: Result<(), PipelineError>)
      requires Scripted(script, embeddingClient.calls) && Shows(c, job.jobId, rows) && c.pc.Begin?
        && fetched == c.row.payload
      modifies jobStore, checkpoints, embeddingClient, clock, index
      ensures var end := AfterIndexing(Env(), job, aclLookup.table, script, c);
        Shows(end, job.jobId, rows) && r == Raised(end)
    {
      var payload := fetched;
      if payload.phase.Pending? {
        var parsed := RunParseStep(job, c, rows);
        if parsed.Failure? {
          return Failure(parsed.error);
        }
        payload := parsed.value;
      }
      ghost var parsing := AfterParsing(Env(), job, c);
      if payload.phase.Parsed? {
        var chunked := RunChunkStep(job, payload, parsing, rows);
        if chunked.Failure? {
          return Failure(chunked.error);
        }
        payload := chunked.value;
      }
      ghost var chunking := AfterChunking(Env(), job, c);
      if payload.phase.Chunked? || payload.phase.Indexing? {
        r := RunEmbedAndIndexStep(job, payload, script, chunking, rows);
      } else {
        r := Success(());
      }
    }

    ghost function Opening(jobId: Uuid): Config
      requires jobId in jobStore.rows
      reads jobStore, checkpoints, index, embeddingClient
    {
      Config(Begin, jobStore.rows[jobId], checkpoints.files, index.points, embeddingClient.sent)
    }

    /** One attempt, whatever the stores hold: they end up, and it raises, exactly as the machine's
        uninterrupted run says; on an unknown job it raises and touches nothing. */
    method RunPipeline(job: Job, ghost script: Script) returns (r: Result<(), PipelineError>)
      requires Scripted(script, embeddingClient.calls)
      modifies jobStore, checkpoints, embeddingClient, clock, index
      ensures job.jobId !in old(jobStore.rows) ==>
        && r == Failure(UnknownJob)
        && jobStore.rows == old(jobStore.rows) && unchanged(checkpoints) && unchanged(embeddingClient)
        && unchanged(index)
      ensures job.jobId in old(jobStore.rows) ==>
        var end := RunToEnd(Env(), job, aclLookup.table, script, old(Opening(job.jobId)));
        r == end.pc.outcome && Shows(end, job.jobId, old(jobStore.rows))
    {
      ghost var rows := jobStore.rows;
      var fetched := jobStore.GetPayload(job.jobId);
      if fetched.Failure? {
        r := jobStore.Fail(job.jobId, fetched.error);
        return;
      }
      ghost var c := Opening(job.jobId);
      assert rows == rows[job.jobId := rows[job.jobId]];
      AttemptIsRun(Env(), job, aclLookup.table, script, c);
      ghost var steps := AfterIndexing(Env(), job, aclLookup.table, script, c);
      r := RunSteps(job, fetched.value, script, c, rows);
      Overwritten(rows, job.jobId, steps.row, Ended(steps).row);
      if r.Failure? {
        var _ := jobStore.Fail(job.jobId, r.error);
      } else {
        var _ := jobStore.MarkComplete(job.jobId);
      }
    }

    /** A new job: refused before any row exists if the extension is not supported, and otherwise
        created and run. */
    method IngestDocument(fileBytes: seq<Byte>, filename: string, identity: Identity.DocumentIdentity,
      target: Identity.IndexTarget, newId: Uuid, ghost script: Script)
      returns (r: Result<Uuid, PipelineError>)
      requires newId !in jobStore.rows && Scripted(script, embeddingClient.calls)
      modifies jobStore, checkpoints, embeddingClient, clock, index
      ensures !HasSupportedExtension(filename) ==>
        && r == Failure(ParseFailed(UnsupportedFormatError))
        && jobStore.rows == old(jobStore.rows) && unchanged(checkpoints) && unchanged(embeddingClient)
        && unchanged(index)
      ensures HasSupportedExtension(filename) ==>
        var job := Job(newId, fileBytes, filename, identity, target);
        var start := Config(Begin, INITIAL_ROW, old(checkpoints.files), old(index.points), old(embeddingClient.sent));
        var end := RunToEnd(Env(), job, aclLookup.table, script, start);
        && r == (if end.pc.outcome.Success? then Success(newId) else Failure(end.pc.outcome.error))
        && Shows(end, newId, old(jobStore.rows)[newId := INITIAL_ROW])
    {
      if !HasSupportedExtension(filename) {
        return Failure(ParseFailed(UnsupportedFormatError));
      }
      var jobId := jobStore.CreateJob("ingest", newId);
      var outcome := RunPipeline(Job(jobId, fileBytes, filename, identity, target), script);
      r := if outcome.Failure? then Failure(outcome.error) else Success(jobId);
    }

    /** Going on with an earlier job is the same attempt, on the row it left. */
    method ResumeIngestJob(job: Job, ghost script: Script) returns (r: Result<(), PipelineError>)
      requires Scripted(script, embeddingClient.calls)
      modifies jobStore, checkpoints, embeddingClient, clock, index
      ensures job.jobId !in old(jobStore.rows) ==>
        && r == Failure(UnknownJob)
        && jobStore.rows == old(jobStore.rows) && unchanged(checkpoints) && unchanged(embeddingClient)
        && unchanged(index)
      ensures job.jobId in old(jobStore.rows) ==>
        var end := RunToEnd(Env(), job, aclLookup.table, script, old(Opening(job.jobId)));
        r == end.pc.outcome && Shows(end, job.jobId, old(jobStore.rows))
    {
      r := RunPipeline(job, script);
    }
  }
}
