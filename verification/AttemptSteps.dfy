/** The pipeline's three steps as whole strides of the machine: each function says where a step takes
    an attempt, and its lemma that the machine's ticks take it there too. */
module AttemptSteps {
  import Wrappers
  import Chunking
  import opened JobStores
  import Checkpoints
  import Embeddings
  import opened AclLookups
  import VectorIndexes
  import Retry
  import opened PipelineModel

  function AfterParse(sv: Services, job: Job, c: Config): Config {
    match sv.parse(job.fileBytes, job.filename)
    case Failure(cause) => c.(pc := Failing(ParseFailed(cause)))
    case Success(result) =>
      var path := Checkpoints.CheckpointPath(sv.baseDir, job.jobId, Checkpoints.ParsedStep);
      c.(pc := ChunkStep, row := Advanced(c.row, ParsedUpdates(path, result.usedFallback)),
        files := c.files[path := Checkpoints.TextData(result.text)])
  }

  lemma ParseTicks(sv: Services, job: Job, acls: map<VersionKey, AclRow>, script: Script, c: Config)
    requires c.pc.Begin? && c.row.payload.phase.Pending?
    ensures RunToEnd(sv, job, acls, script, c) == RunToEnd(sv, job, acls, script, AfterParse(sv, job, c))
  {
    if sv.parse(job.fileBytes, job.filename).Success? {
      var stored := Tick(sv, job, acls, script, c);
      assert RunToEnd(sv, job, acls, script, stored)
        == RunToEnd(sv, job, acls, script, Tick(sv, job, acls, script, stored));
    }
  }

  function AfterChunk(sv: Services, job: Job, c: Config): Config {
    match c.row.payload.parsedPath
    case None => c.(pc := Failing(CheckpointError))
    case Some(parsedPath) =>
      if parsedPath !in c.files || !c.files[parsedPath].TextData? then c.(pc := Failing(CheckpointError))
      else
        var path := Checkpoints.CheckpointPath(sv.baseDir, job.jobId, Checkpoints.ChunkedStep);
        var chunks := SplitText(sv, job, c.files[parsedPath].text);
        c.(pc := IndexStep, row := Advanced(c.row, ChunkedUpdates(path)),
          files := c.files[path := Checkpoints.ChunkData(chunks)])
  }

  /** What the chunk step stores: the windows of the parsed checkpoint's text. */
  lemma SplitTextCuts(sv: Services, job: Job, text: string)
    ensures Chunking.CutInWindows(SplitText(sv, job, text), text, job.identity, sv.tokenizer)
  {
    Chunking.ShippedWindows(text, job.identity, sv.tokenizer);
  }

  lemma ChunkTicks(sv: Services, job: Job, acls: map<VersionKey, AclRow>, script: Script, c: Config)
    requires c.pc.ChunkStep?
    ensures RunToEnd(sv, job, acls, script, c) == RunToEnd(sv, job, acls, script, AfterChunk(sv, job, c))
  {
    var stored := Tick(sv, job, acls, script, c);
    if !stored.pc.Failing? {
      assert RunToEnd(sv, job, acls, script, stored)
        == RunToEnd(sv, job, acls, script, Tick(sv, job, acls, script, stored));
    }
  }

  /** Both ACL lookups and the chunk checkpoint. */
  function AfterReads(job: Job, acls: map<VersionKey, AclRow>, c: Config): Config {
    var key := KeyOf(job.identity);
    if key !in acls then c.(pc := Failing(AclLookupError))
    else match c.row.payload.chunkedPath
      case None => c.(pc := Failing(CheckpointError))
      case Some(chunkedPath) =>
        if chunkedPath !in c.files || !c.files[chunkedPath].ChunkData? then c.(pc := Failing(CheckpointError))
        else c.(pc := Embedding(VectorIndexes.AclRead(acls[key].acl, acls[key].retentionState),
          c.files[chunkedPath].chunks, 0))
  }

  lemma ReadTicks(sv: Services, job: Job, acls: map<VersionKey, AclRow>, script: Script, c: Config)
    requires c.pc.IndexStep?
    ensures RunToEnd(sv, job, acls, script, c) == RunToEnd(sv, job, acls, script, AfterReads(job, acls, c))
  {
    var read := Tick(sv, job, acls, script, c);
    if !read.pc.Failing? {
      assert RunToEnd(sv, job, acls, script, read)
        == RunToEnd(sv, job, acls, script, Tick(sv, job, acls, script, read));
    }
  }

  /** The calls that find the embedding services unreachable, counted from call `attempt` on and up
      to the one that exhausts a budget of `budget` retries. */
  function Absorbed(script: Script, attempt: nat, budget: nat): (n: nat)
    ensures attempt <= budget + 1 ==> attempt <= n <= budget + 1
    ensures forall m :: attempt <= m < n ==> script.calls(m).Unreachable?
    ensures n <= budget ==> !script.calls(n).Unreachable?
    decreases budget + 1 - attempt
  {
    if attempt <= budget && script.calls(attempt).Unreachable? then Absorbed(script, attempt + 1, budget)
    else if attempt <= budget then attempt
    else budget + 1
  }

  /** What the retry loop comes to: the first answer that is not a cut connection decides. */
  function EmbedOutcome(sv: Services, script: Script, texts: seq<string>, budget: nat)
    : Wrappers.Result<seq<Embeddings.EmbeddingResult>, PipelineError>
  {
    var n := Absorbed(script, 0, budget);
    if n > budget then Wrappers.Failure(TransportError)
    else Embeddings.CallResult(script.calls(n), sv.dense(texts), sv.sparse(texts))
  }

  /** The transport errors that were followed by a retry. */
  function Retries(script: Script, budget: nat): (n: nat)
    ensures n <= budget
  {
    var n := Absorbed(script, 0, budget);
    if n > budget then budget else n
  }

  /** The loop is over with the call after `attempt` cut ones, because that call is not cut or because
      the budget is. */
  lemma LoopEndsAt(sv: Services, script: Script, texts: seq<string>, attempt: nat, budget: nat)
    requires attempt <= budget && forall m :: 0 <= m < attempt ==> script.calls(m).Unreachable?
    requires attempt == budget || !script.calls(attempt).Unreachable?
    ensures Retries(script, budget) == attempt
    ensures EmbedOutcome(sv, script, texts, budget)
      == Embeddings.CallResult(script.calls(attempt), sv.dense(texts), sv.sparse(texts))
  {
    hide Embeddings.CallResult;
    var n := Absorbed(script, 0, budget);
    assert n <= budget ==> !script.calls(n).Unreachable?;
  }

  function RowAfterRetries(row: Row, retries: nat): Row {
    if retries == 0 then row else Advanced(row, RetryUpdates(retries))
  }

  /** Each retry count overwrites the one before. */
  lemma RetriedAgain(row: Row, retries: nat)
    ensures Advanced(RowAfterRetries(row, retries), RetryUpdates(retries + 1)) == RowAfterRetries(row, retries + 1)
  {
  }

  function AfterEmbed(sv: Services, job: Job, script: Script, c: Config): Config
    requires c.pc.Embedding?
  {
    var called := c.(sent := c.sent + {Batch(job.jobId, Chunking.Texts(c.pc.chunks))},
      row := RowAfterRetries(c.row, Retries(script, Retry.MAX_EMBEDDING_RETRY_ATTEMPTS)));
    match EmbedOutcome(sv, script, Chunking.Texts(c.pc.chunks), Retry.MAX_EMBEDDING_RETRY_ATTEMPTS)
    case Success(vectors) => called.(pc := AdvanceIndexing(c.pc.read, c.pc.chunks, vectors))
    case Failure(error) => called.(pc := Failing(error))
  }

  /** A call that is cut off: the machine after `attempt` of them. */
  function AfterCuts(job: Job, c: Config, attempt: nat): Config
    requires c.pc.Embedding?
  {
    if attempt == 0 then c
    else c.(pc := c.pc.(attempt := attempt), row := RowAfterRetries(c.row, attempt),
      sent := c.sent + {Batch(job.jobId, Chunking.Texts(c.pc.chunks))})
  }

  lemma {:induction false} CutTicks(sv: Services, job: Job, acls: map<VersionKey, AclRow>, script: Script, c: Config,
                              attempt: nat)
    requires c.pc.Embedding? && c.pc.attempt == 0 && attempt <= Retries(script, Retry.MAX_EMBEDDING_RETRY_ATTEMPTS)
    ensures RunToEnd(sv, job, acls, script, c) == RunToEnd(sv, job, acls, script, AfterCuts(job, c, attempt))
  {
    hide BeginTick, ChunkTick, ReadTick, UpsertTick, Embed, Embeddings.CallResult, Advanced, RetryUpdates;
    if attempt > 0 {
      CutTicks(sv, job, acls, script, c, attempt - 1);
      RetriedAgain(c.row, attempt - 1);
      var cut := AfterCuts(job, c, attempt - 1);
      assert script.calls(attempt - 1).Unreachable?;
      assert Tick(sv, job, acls, script, cut) == AfterCuts(job, c, attempt);
    }
  }

  lemma EmbedTicks(sv: Services, job: Job, acls: map<VersionKey, AclRow>, script: Script, c: Config)
    requires c.pc.Embedding? && c.pc.attempt == 0
    ensures RunToEnd(sv, job, acls, script, c) == RunToEnd(sv, job, acls, script, AfterEmbed(sv, job, script, c))
  {
    var n := Retries(script, Retry.MAX_EMBEDDING_RETRY_ATTEMPTS);
    CutTicks(sv, job, acls, script, c, n);
    assert Tick(sv, job, acls, script, AfterCuts(job, c, n)) == AfterEmbed(sv, job, script, c);
  }

  function AfterAdvance(job: Job, c: Config): Config
    requires c.pc.AdvanceIndexing?
  {
    var advanced := c.(row := Advanced(c.row, INDEXING_UPDATES));
    if |c.pc.chunks| != |c.pc.vectors| then advanced.(pc := Failing(ChunkCountMismatch))
    else advanced.(pc := Upserting(c.pc.read,
      VectorIndexes.BuildPoints(job.identity, job.target, c.pc.chunks, c.pc.vectors, c.pc.read), 0))
  }

  function AfterUpsert(job: Job, script: Script, c: Config): Config
    requires c.pc.Upserting?
  {
    var points, collection := c.pc.points, job.target.collectionName;
    if script.upsertStopsAt.Some? && script.upsertStopsAt.value <= |points| then
      c.(pc := Failing(IndexWriteError), index := VectorIndexes.Upserted(c.index, collection, points,
        script.upsertStopsAt.value))
    else c.(pc := c.pc.(written := |points|), index := VectorIndexes.Upserted(c.index, collection, points, |points|))
  }

  lemma {:induction false} PutTicks(sv: Services, job: Job, acls: map<VersionKey, AclRow>, script: Script, c: Config,
                              count: nat)
    requires c.pc.Upserting? && c.pc.written == 0 && count <= |c.pc.points|
    requires script.upsertStopsAt.Some? ==> count <= script.upsertStopsAt.value
    ensures RunToEnd(sv, job, acls, script, c)
         == RunToEnd(sv, job, acls, script, c.(pc := c.pc.(written := count),
              index := VectorIndexes.Upserted(c.index, job.target.collectionName, c.pc.points, count)))
  {
    hide BeginTick, ChunkTick, ReadTick, EmbedTick, Advanced, Completed, FailedWith, VectorIndexes.BuildPoints,
      Chunking.Texts, Embed;
    if count > 0 {
      PutTicks(sv, job, acls, script, c, count - 1);
    }
  }

  lemma UpsertTicks(sv: Services, job: Job, acls: map<VersionKey, AclRow>, script: Script, c: Config)
    requires c.pc.Upserting? && c.pc.written == 0
    ensures RunToEnd(sv, job, acls, script, c) == RunToEnd(sv, job, acls, script, AfterUpsert(job, script, c))
  {
    if script.upsertStopsAt.Some? && script.upsertStopsAt.value <= |c.pc.points| {
      PutTicks(sv, job, acls, script, c, script.upsertStopsAt.value);
    } else {
      PutTicks(sv, job, acls, script, c, |c.pc.points|);
    }
  }

  /** Embedding, the advance to `indexing`, and the upsert. */
  function AfterEmbedding(sv: Services, job: Job, script: Script, c: Config): Config
    requires c.pc.Embedding?
  {
    var embedded := AfterEmbed(sv, job, script, c);
    if !embedded.pc.AdvanceIndexing? then embedded
    else
      var advanced := AfterAdvance(job, embedded);
      if !advanced.pc.Upserting? then advanced else AfterUpsert(job, script, advanced)
  }

  /** The whole embed-and-index step. */
  function AfterIndex(sv: Services, job: Job, acls: map<VersionKey, AclRow>, script: Script, c: Config): Config {
    var read := AfterReads(job, acls, c);
    if !read.pc.Embedding? then read else AfterEmbedding(sv, job, script, read)
  }

  lemma AdvanceTicks(sv: Services, job: Job, acls: map<VersionKey, AclRow>, script: Script, c: Config)
    requires c.pc.AdvanceIndexing?
    ensures RunToEnd(sv, job, acls, script, c) == RunToEnd(sv, job, acls, script, AfterAdvance(job, c))
  {
  }

  lemma IndexTicks(sv: Services, job: Job, acls: map<VersionKey, AclRow>, script: Script, c: Config)
    requires c.pc.IndexStep?
    ensures RunToEnd(sv, job, acls, script, c) == RunToEnd(sv, job, acls, script, AfterIndex(sv, job, acls, script, c))
  {
    ReadTicks(sv, job, acls, script, c);
    var read := AfterReads(job, acls, c);
    if read.pc.Embedding? {
      EmbedTicks(sv, job, acls, script, read);
      var embedded := AfterEmbed(sv, job, script, read);
      if embedded.pc.AdvanceIndexing? {
        AdvanceTicks(sv, job, acls, script, embedded);
        var advanced := AfterAdvance(job, embedded);
        if advanced.pc.Upserting? {
          UpsertTicks(sv, job, acls, script, advanced);
        }
      }
    }
  }

  /** The body of the `try`: each step runs if the phase it finds is the one it waits for. */
  function AfterParsing(sv: Services, job: Job, c: Config): Config {
    if c.row.payload.phase.Pending? then AfterParse(sv, job, c) else c
  }

  function AfterChunking(sv: Services, job: Job, c: Config): Config {
    var parsed := AfterParsing(sv, job, c);
    if !parsed.pc.Failing? && parsed.row.payload.phase.Parsed? then AfterChunk(sv, job, parsed) else parsed
  }

  function AfterIndexing(sv: Services, job: Job, acls: map<VersionKey, AclRow>, script: Script, c: Config): Config {
    var chunked := AfterChunking(sv, job, c);
    if !chunked.pc.Failing? && (chunked.row.payload.phase.Chunked? || chunked.row.payload.phase.Indexing?)
    then AfterIndex(sv, job, acls, script, chunked) else chunked
  }

  /** `complete` if nothing was raised, `fail` otherwise. */
  function Ended(c: Config): Config {
    if c.pc.Failing? then c.(pc := Done(Wrappers.Failure(c.pc.error)), row := FailedWith(c.row, c.pc.error))
    else c.(pc := Done(Wrappers.Success(())), row := Completed(c.row))
  }

  /** The whole attempt. */
  function AttemptEnd(sv: Services, job: Job, acls: map<VersionKey, AclRow>, script: Script, c: Config): Config {
    Ended(AfterIndexing(sv, job, acls, script, c))
  }

  lemma EndTicks(sv: Services, job: Job, acls: map<VersionKey, AclRow>, script: Script, c: Config)
    requires c.pc.Failing? || c.pc.FallThrough?
      || (c.pc.Upserting? && c.pc.written == |c.pc.points| && script.upsertStopsAt != Wrappers.Some(c.pc.written))
    ensures RunToEnd(sv, job, acls, script, c) == Ended(c)
  {
    var end := Tick(sv, job, acls, script, c);
    assert RunToEnd(sv, job, acls, script, end) == end;
  }

  lemma FromIndexStep(sv: Services, job: Job, acls: map<VersionKey, AclRow>, script: Script, c: Config)
    requires c.pc.IndexStep?
    ensures RunToEnd(sv, job, acls, script, c) == Ended(AfterIndex(sv, job, acls, script, c))
  {
    hide Tick, RunToEnd, EmbedOutcome;
    IndexTicks(sv, job, acls, script, c);
    EndTicks(sv, job, acls, script, AfterIndex(sv, job, acls, script, c));
  }

  lemma OneTick(sv: Services, job: Job, acls: map<VersionKey, AclRow>, script: Script, c: Config)
    requires c.pc.Begin? && !c.row.payload.phase.Pending?
    ensures RunToEnd(sv, job, acls, script, c) == RunToEnd(sv, job, acls, script, c.(pc :=
      if c.row.payload.phase.Parsed? then ChunkStep
      else if c.row.payload.phase.Chunked? || c.row.payload.phase.Indexing? then IndexStep else FallThrough))
  {
  }

  lemma FromChunkStep(sv: Services, job: Job, acls: map<VersionKey, AclRow>, script: Script, c: Config)
    requires c.pc.ChunkStep?
    ensures var chunked := AfterChunk(sv, job, c);
      RunToEnd(sv, job, acls, script, c) == Ended(if chunked.pc.Failing? then chunked
        else AfterIndex(sv, job, acls, script, chunked))
  {
    ChunkTicks(sv, job, acls, script, c);
    var chunked := AfterChunk(sv, job, c);
    if chunked.pc.Failing? {
      EndTicks(sv, job, acls, script, chunked);
    } else {
      FromIndexStep(sv, job, acls, script, chunked);
    }
  }

  lemma PendingIsRun(sv: Services, job: Job, acls: map<VersionKey, AclRow>, script: Script, c: Config)
    requires c.pc.Begin? && c.row.payload.phase.Pending?
    ensures RunToEnd(sv, job, acls, script, c) == AttemptEnd(sv, job, acls, script, c)
  {
    hide Tick, RunToEnd, AfterChunk, AfterIndex, SplitText;
    ParseTicks(sv, job, acls, script, c);
    var parsed := AfterParse(sv, job, c);
    if parsed.pc.Failing? {
      EndTicks(sv, job, acls, script, parsed);
    } else {
      FromChunkStep(sv, job, acls, script, parsed);
      ChunkedPhase(sv, job, parsed);
    }
  }

  lemma ChunkedPhase(sv: Services, job: Job, c: Config)
    ensures AfterChunk(sv, job, c).pc.Failing? || AfterChunk(sv, job, c).row.payload.phase.Chunked?
  {
    hide SplitText;
  }

  lemma ParsedIsRun(sv: Services, job: Job, acls: map<VersionKey, AclRow>, script: Script, c: Config)
    requires c.pc.Begin? && c.row.payload.phase.Parsed?
    ensures RunToEnd(sv, job, acls, script, c) == AttemptEnd(sv, job, acls, script, c)
  {
    hide Tick, RunToEnd, AfterIndex, SplitText;
    OneTick(sv, job, acls, script, c);
    FromChunkStep(sv, job, acls, script, c.(pc := ChunkStep));
    ChunkedPhase(sv, job, c);
    ChunkIgnoresPc(sv, job, c, ChunkStep);
    IndexIgnoresPc(sv, job, acls, script, AfterChunk(sv, job, c), IndexStep);
  }

  /** The steps look at the stores and the row, not at where the attempt is. */
  lemma ChunkIgnoresPc(sv: Services, job: Job, c: Config, pc: Pc)
    ensures AfterChunk(sv, job, c.(pc := pc)) == AfterChunk(sv, job, c)
  {
    hide SplitText;
  }

  lemma IndexIgnoresPc(sv: Services, job: Job, acls: map<VersionKey, AclRow>, script: Script, c: Config, pc: Pc)
    ensures AfterIndex(sv, job, acls, script, c.(pc := pc)) == AfterIndex(sv, job, acls, script, c)
  {
    hide AfterEmbedding;
  }

  lemma LateIsRun(sv: Services, job: Job, acls: map<VersionKey, AclRow>, script: Script, c: Config)
    requires c.pc.Begin? && (c.row.payload.phase.Chunked? || c.row.payload.phase.Indexing?)
    ensures RunToEnd(sv, job, acls, script, c) == AttemptEnd(sv, job, acls, script, c)
  {
    hide Tick, RunToEnd, AfterIndex, AfterChunk, AfterParse;
    OneTick(sv, job, acls, script, c);
    FromIndexStep(sv, job, acls, script, c.(pc := IndexStep));
    IndexIgnoresPc(sv, job, acls, script, c, IndexStep);
  }

  lemma EndedIsRun(sv: Services, job: Job, acls: map<VersionKey, AclRow>, script: Script, c: Config)
    requires c.pc.Begin? && (c.row.payload.phase.Ready? || c.row.payload.phase.Failed?)
    ensures RunToEnd(sv, job, acls, script, c) == AttemptEnd(sv, job, acls, script, c)
  {
    hide Tick, RunToEnd, AfterIndex, AfterChunk, AfterParse;
    OneTick(sv, job, acls, script, c);
    EndTicks(sv, job, acls, script, c.(pc := FallThrough));
  }

  /** The steps, run one after the other as the code runs them, are the machine's uninterrupted run. */
  lemma AttemptIsRun(sv: Services, job: Job, acls: map<VersionKey, AclRow>, script: Script, c: Config)
    requires c.pc.Begin?
    ensures RunToEnd(sv, job, acls, script, c) == AttemptEnd(sv, job, acls, script, c)
  {
    hide RunToEnd, AttemptEnd;
    match c.row.payload.phase
    case Pending => PendingIsRun(sv, job, acls, script, c);
    case Parsed => ParsedIsRun(sv, job, acls, script, c);
    case Chunked => LateIsRun(sv, job, acls, script, c);
    case Indexing => LateIsRun(sv, job, acls, script, c);
    case Ready => EndedIsRun(sv, job, acls, script, c);
    case Failed => EndedIsRun(sv, job, acls, script, c);
  }
}
