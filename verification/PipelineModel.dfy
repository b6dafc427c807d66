/** The ingest pipeline (`ingest/pipeline.py`) as a machine that takes one durable effect at a time.

    `Tick` is one step of one attempt on one job: a payload read, a checkpoint write, a row update,
    an ACL read, one embedding call, one point written. Between two ticks an attempt can be cut. */
module PipelineModel {
  import opened Wrappers
  import Uuids
  import Identity
  import opened Chunking
  import opened JobStores
  import opened Checkpoints
  import Embeddings
  import opened AclLookups
  import opened VectorIndexes
  import Retry

  /** `usedFallback` is absent for the formats that have no rescue parser. */
  datatype ParseResult = ParseResult(text: string, usedFallback: Option<bool>)

  /** Everything outside the pipeline that answers the same question the same way every time. */
  datatype Services = Services(
    parse: (seq<Byte>, string) -> Result<ParseResult, ParseError>,
    tokenizer: Tokenizer,
    dense: seq<string> -> seq<seq<real>>,
    sparse: seq<string> -> seq<Embeddings.SparseEmbedding>,
    baseDir: string)

  /** What an attempt is called with. */
  datatype Job = Job(jobId: Uuids.Uuid, fileBytes: seq<Byte>, filename: string, identity: Identity.DocumentIdentity,
    target: Identity.IndexTarget)

  /** How the outside world behaves during one attempt: the outcome of each embedding call in turn,
      and after how many points, if at all, the index write breaks off. */
  datatype Script = Script(calls: nat -> Embeddings.CallOutcome, upsertStopsAt: Option<nat>)

  /** A batch of texts that went to the embedding services on behalf of a job. */
  datatype Batch = Batch(jobId: Uuids.Uuid, texts: seq<string>)

  /** Where an attempt is: what it holds in local variables and which effect comes next. */
  datatype Pc =
    | Begin
    | AdvanceParsed(path: string, usedFallback: Option<bool>)
    | ChunkStep
    | AdvanceChunked(path: string)
    | IndexStep
    | HaveAcl(acl: EffectiveAcl)
    | Embedding(read: AclRead, chunks: seq<Chunk>, attempt: nat)
    | AdvanceIndexing(read: AclRead, chunks: seq<Chunk>, vectors: seq<Embeddings.EmbeddingResult>)
    | Upserting(read: AclRead, points: seq<Point>, written: nat)
    | FallThrough
    | Failing(error: PipelineError)
    | Done(outcome: Result<(), PipelineError>)

  /** An attempt in the middle of its run: its own view of the row, and the shared stores. */
  datatype Config = Config(
    pc: Pc,
    row: Row,
    files: map<string, CheckpointData>,
    index: map<IndexKey, Point>,
    sent: set<Batch>)

  function Embed(sv: Services, texts: seq<string>): Result<seq<Embeddings.EmbeddingResult>, PipelineError> {
    Embeddings.PairAnswers(sv.dense(texts), sv.sparse(texts))
  }

  function SplitText(sv: Services, job: Job, text: string): seq<Chunk> {
    Chunks(text, job.identity, sv.tokenizer, CHUNK_SIZE_TOKENS, CHUNK_OVERLAP_TOKENS)
  }

  function ParsedUpdates(path: string, usedFallback: Option<bool>): Updates {
    NO_UPDATES.(phase := Some(Parsed), progress := Some(0.2), parserFallback := usedFallback, parsedPath := Some(path))
  }

  function ChunkedUpdates(path: string): Updates {
    NO_UPDATES.(phase := Some(Chunked), progress := Some(0.4), chunkedPath := Some(path))
  }

  const INDEXING_UPDATES := NO_UPDATES.(phase := Some(Indexing), progress := Some(0.7))

  function RetryUpdates(attempt: nat): Updates {
    NO_UPDATES.(retryCount := Some(attempt))
  }

  /** The dispatch, and the parse step's file. */
  function BeginTick(sv: Services, job: Job, c: Config): (next: Config)
    ensures next.row == c.row && next.index == c.index && next.sent == c.sent
  {
    match c.row.payload.phase
    case Pending =>
      (match sv.parse(job.fileBytes, job.filename)
       case Failure(cause) => c.(pc := Failing(ParseFailed(cause)))
       case Success(result) =>
         var path := CheckpointPath(sv.baseDir, job.jobId, ParsedStep);
         c.(pc := AdvanceParsed(path, result.usedFallback), files := c.files[path := TextData(result.text)]))
    case Parsed => c.(pc := ChunkStep)
    case Chunked => c.(pc := IndexStep)
    case Indexing => c.(pc := IndexStep)
    case Ready => c.(pc := FallThrough)
    case Failed => c.(pc := FallThrough)
  }

  /** The chunk step's file. */
  function ChunkTick(sv: Services, job: Job, c: Config): (next: Config)
    ensures next.row == c.row && next.index == c.index && next.sent == c.sent
  {
    match c.row.payload.parsedPath
    case None => c.(pc := Failing(CheckpointError))
    case Some(parsedPath) =>
      if parsedPath !in c.files || !c.files[parsedPath].TextData? then c.(pc := Failing(CheckpointError))
      else
        var path := CheckpointPath(sv.baseDir, job.jobId, ChunkedStep);
        var chunks := SplitText(sv, job, c.files[parsedPath].text);
        c.(pc := AdvanceChunked(path), files := c.files[path := ChunkData(chunks)])
  }

  /** The second ACL lookup and the chunk checkpoint. */
  function ReadTick(job: Job, acls: map<VersionKey, AclRow>, c: Config, acl: EffectiveAcl): (next: Config)
    ensures next == c.(pc := next.pc)
  {
    if KeyOf(job.identity) !in acls then c.(pc := Failing(AclLookupError))
    else match c.row.payload.chunkedPath
      case None => c.(pc := Failing(CheckpointError))
      case Some(chunkedPath) =>
        if chunkedPath !in c.files || !c.files[chunkedPath].ChunkData? then c.(pc := Failing(CheckpointError))
        else c.(pc := Embedding(AclRead(acl, acls[KeyOf(job.identity)].retentionState), c.files[chunkedPath].chunks, 0))
  }

  /** One embedding call, and the retry count when it is cut off. */
  function EmbedTick(sv: Services, job: Job, script: Script, c: Config): (next: Config)
    requires c.pc.Embedding?
    ensures next.files == c.files && next.index == c.index
  {
    var read, chunks, attempt := c.pc.read, c.pc.chunks, c.pc.attempt;
    var called := c.(sent := c.sent + {Batch(job.jobId, Texts(chunks))});
    match script.calls(attempt)
    case Answered =>
      (match Embed(sv, Texts(chunks))
       case Success(vectors) => called.(pc := AdvanceIndexing(read, chunks, vectors))
       case Failure(error) => called.(pc := Failing(error)))
    case ErrorResponse => called.(pc := Failing(EmbeddingServiceError))
    case Unreachable =>
      if attempt + 1 > Retry.MAX_EMBEDDING_RETRY_ATTEMPTS then called.(pc := Failing(TransportError))
      else called.(pc := Embedding(read, chunks, attempt + 1), row := Advanced(c.row, RetryUpdates(attempt + 1)))
  }

  /** One point, or the end of the batch. */
  function UpsertTick(job: Job, script: Script, c: Config): (next: Config)
    requires c.pc.Upserting?
    ensures next.files == c.files && next.sent == c.sent
  {
    var points, written := c.pc.points, c.pc.written;
    if script.upsertStopsAt == Some(written) then c.(pc := Failing(IndexWriteError))
    else if written >= |points| then c.(pc := Done(Success(())), row := Completed(c.row))
    else
      var key := IndexKey(job.target.collectionName, points[written].chunkId);
      c.(pc := c.pc.(written := written + 1), index := c.index[key := points[written]])
  }

  function Tick(sv: Services, job: Job, acls: map<VersionKey, AclRow>, script: Script, c: Config): Config {
    match c.pc
    case Begin => BeginTick(sv, job, c)
    case AdvanceParsed(path, usedFallback) =>
      c.(pc := ChunkStep, row := Advanced(c.row, ParsedUpdates(path, usedFallback)))
    case ChunkStep => ChunkTick(sv, job, c)
    case AdvanceChunked(path) =>
      c.(pc := IndexStep, row := Advanced(c.row, ChunkedUpdates(path)))
    case IndexStep =>
      if KeyOf(job.identity) in acls then c.(pc := HaveAcl(acls[KeyOf(job.identity)].acl))
      else c.(pc := Failing(AclLookupError))
    case HaveAcl(acl) => ReadTick(job, acls, c, acl)
    case Embedding(_, _, _) => EmbedTick(sv, job, script, c)
    case AdvanceIndexing(read, chunks, vectors) =>
      var advanced := c.(row := Advanced(c.row, INDEXING_UPDATES));
      if |chunks| != |vectors| then advanced.(pc := Failing(ChunkCountMismatch))
      else advanced.(pc := Upserting(read, BuildPoints(job.identity, job.target, chunks, vectors, read), 0))
    case Upserting(_, _, _) => UpsertTick(job, script, c)
    case FallThrough => c.(pc := Done(Success(())), row := Completed(c.row))
    case Failing(error) => c.(pc := Done(Failure(error)), row := FailedWith(c.row, error))
    case Done(_) => c
  }

  /** How far an attempt still has to go. */
  function Rank(pc: Pc): nat {
    match pc
    case Begin => 20
    case AdvanceParsed(_, _) => 19
    case ChunkStep => 18
    case AdvanceChunked(_) => 17
    case IndexStep => 16
    case HaveAcl(_) => 15
    case Embedding(_, _, attempt) => if attempt > Retry.MAX_EMBEDDING_RETRY_ATTEMPTS then 8
      else 8 + Retry.MAX_EMBEDDING_RETRY_ATTEMPTS - attempt
    case AdvanceIndexing(_, _, _) => 7
    case Upserting(_, _, _) => 6
    case FallThrough => 3
    case Failing(_) => 2
    case Done(_) => 1
  }

  function PointsLeft(pc: Pc): nat {
    match pc
    case Upserting(_, points, written) => if written < |points| then |points| - written else 0
    case _ => 0
  }

  ghost predicate Nearer(next: Pc, pc: Pc) {
    Rank(next) < Rank(pc) || (Rank(next) == Rank(pc) && PointsLeft(next) < PointsLeft(pc))
  }

  lemma StoreTicksNearer(sv: Services, job: Job, acls: map<VersionKey, AclRow>, c: Config, acl: EffectiveAcl)
    ensures c.pc.Begin? ==> Nearer(BeginTick(sv, job, c).pc, c.pc)
    ensures c.pc.ChunkStep? ==> Nearer(ChunkTick(sv, job, c).pc, c.pc)
    ensures c.pc.HaveAcl? ==> Nearer(ReadTick(job, acls, c, acl).pc, c.pc)
  {
    hide SplitText;
  }

  lemma ServiceTicksNearer(sv: Services, job: Job, script: Script, c: Config)
    ensures c.pc.Embedding? ==> Nearer(EmbedTick(sv, job, script, c).pc, c.pc)
    ensures c.pc.Upserting? ==> Nearer(UpsertTick(job, script, c).pc, c.pc)
  {
    hide Advanced, Completed, Embed, Texts;
  }

  /** Every tick brings the end nearer. */
  lemma TickNearer(sv: Services, job: Job, acls: map<VersionKey, AclRow>, script: Script, c: Config)
    requires !c.pc.Done?
    ensures Nearer(Tick(sv, job, acls, script, c).pc, c.pc)
  {
    hide BeginTick, ChunkTick, ReadTick, EmbedTick, UpsertTick, Advanced, Completed, FailedWith, BuildPoints;
    if c.pc.HaveAcl? {
      StoreTicksNearer(sv, job, acls, c, c.pc.acl);
    } else {
      StoreTicksNearer(sv, job, acls, c, EffectiveAcl([], [], ""));
    }
    ServiceTicksNearer(sv, job, script, c);
  }

  /** An attempt run without a cut: the ticks up to `Done`. */
  function RunToEnd(sv: Services, job: Job, acls: map<VersionKey, AclRow>, script: Script, c: Config): (end: Config)
    ensures end.pc.Done?
    decreases Rank(c.pc), PointsLeft(c.pc)
  {
    if c.pc.Done? then c
    else
      hide Tick;
      TickNearer(sv, job, acls, script, c);
      RunToEnd(sv, job, acls, script, Tick(sv, job, acls, script, c))
  }
}
