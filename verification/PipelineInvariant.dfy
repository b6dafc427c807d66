/** What every effect of every attempt keeps. */
module PipelineInvariant {
  import Wrappers
  import Identity
  import opened Chunking
  import opened JobStores
  import opened Checkpoints
  import opened AclLookups
  import opened VectorIndexes
  import Retry
  import opened PipelineModel
  import opened CrashMachine

  // ---- What a job's document determines ----

  ghost predicate Parses(sv: Services, job: Job) {
    sv.parse(job.fileBytes, job.filename).Success?
  }

  function ParsedDocument(sv: Services, job: Job): ParseResult
    requires Parses(sv, job)
  {
    sv.parse(job.fileBytes, job.filename).value
  }

  function JobChunks(sv: Services, job: Job): seq<Chunk>
    requires Parses(sv, job)
  {
    SplitText(sv, job, ParsedDocument(sv, job).text)
  }

  function Expected(sv: Services, job: Job, step: CheckpointStep): CheckpointData
    requires Parses(sv, job)
  {
    match step
    case ParsedStep => TextData(ParsedDocument(sv, job).text)
    case ChunkedStep => ChunkData(JobChunks(sv, job))
  }

  function PathOf(sv: Services, job: Job, step: CheckpointStep): string {
    CheckpointPath(sv.baseDir, job.jobId, step)
  }

  /** The embedding services answer for every chunk of the document. */
  ghost predicate Embeds(sv: Services, job: Job) {
    && Parses(sv, job)
    && Embed(sv, Texts(JobChunks(sv, job))).Success?
    && |Embed(sv, Texts(JobChunks(sv, job))).value| == |JobChunks(sv, job)|
  }

  function JobKey(job: Job, k: nat): IndexKey {
    IndexKey(job.target.collectionName, Identity.BuildChunkId(job.identity.documentId, job.identity.versionId, k))
  }

  function JobPoints(sv: Services, job: Job, read: AclRead): (points: seq<Point>)
    requires Embeds(sv, job)
    ensures |points| == |JobChunks(sv, job)|
    ensures forall k :: 0 <= k < |points| ==> IndexKey(job.target.collectionName, points[k].chunkId) == JobKey(job, k)
  {
    var chunks := JobChunks(sv, job);
    BuildPoints(job.identity, job.target, chunks, Embed(sv, Texts(chunks)).value, read)
  }

  // ---- The invariant, job by job ----

  ghost predicate Stored(sv: Services, job: Job, files: map<string, CheckpointData>, step: CheckpointStep) {
    Parses(sv, job) && PathOf(sv, job, step) in files && files[PathOf(sv, job, step)] == Expected(sv, job, step)
  }

  /** The pair was read from rows the ACL table held for this very identity. */
  ghost predicate Logged(job: Job, aclLog: set<AclEntry>, read: AclRead) {
    && (exists e :: e in aclLog && e.key == KeyOf(job.identity) && e.row.acl == read.acl)
    && (exists e :: e in aclLog && e.key == KeyOf(job.identity) && e.row.retentionState == read.retentionState)
  }

  ghost predicate PointOk(sv: Services, job: Job, aclLog: set<AclEntry>, k: nat, point: Point) {
    && Embeds(sv, job) && k < |JobChunks(sv, job)|
    && exists read :: Logged(job, aclLog, read) && point == JobPoints(sv, job, read)[k]
  }

  ghost predicate PointsOk(sv: Services, job: Job, index: map<IndexKey, Point>, aclLog: set<AclEntry>) {
    forall k: nat :: JobKey(job, k) in index ==> PointOk(sv, job, aclLog, k, index[JobKey(job, k)])
  }

  /** Every chunk's point is in the index, all of them under one read of the ACL. */
  ghost predicate Indexed(sv: Services, job: Job, index: map<IndexKey, Point>, read: AclRead, count: nat) {
    && Embeds(sv, job) && count <= |JobChunks(sv, job)|
    && forall k :: 0 <= k < count ==> JobKey(job, k) in index && index[JobKey(job, k)] == JobPoints(sv, job, read)[k]
  }

  ghost predicate FullyIndexed(sv: Services, job: Job, index: map<IndexKey, Point>, aclLog: set<AclEntry>) {
    Parses(sv, job) && exists read :: Logged(job, aclLog, read) && Indexed(sv, job, index, read, |JobChunks(sv, job)|)
  }

  ghost predicate SentOk(sv: Services, job: Job, sent: set<Batch>) {
    forall batch ::
      batch in sent && batch.jobId == job.jobId ==> Parses(sv, job) && batch.texts == Texts(JobChunks(sv, job))
  }

  /** Phase, status and progress of a row go together. */
  predicate Coupled(row: Row) {
    var payload := row.payload;
    match payload.phase
    case Pending => row.status == StatusPending && payload.progress == 0.0
    case Parsed => row.status == InProgress && payload.progress == 0.2
    case Chunked => row.status == InProgress && payload.progress == 0.4
    case Indexing => row.status == InProgress && payload.progress == 0.7
    case Ready => row.status == Complete && payload.progress == 1.0
    case Failed => row.status == StatusFailed && payload.errors.Some? && payload.progress in {0.0, 0.2, 0.4, 0.7}
  }

  /** The two ends of a job share the top rank. */
  function PhaseRank(phase: JobPhase): nat {
    match phase
    case Pending => 0
    case Parsed => 1
    case Chunked => 2
    case Indexing => 3
    case Ready => 4
    case Failed => 4
  }

  /** `resumed`: an attempt was once started on this job while its row said `failed`. */
  ghost predicate RowOk(sv: Services, job: Job, resumed: bool, aclLog: set<AclEntry>,
                        files: map<string, CheckpointData>, index: map<IndexKey, Point>, row: Row) {
    var payload := row.payload;
    && Coupled(row)
    && (payload.parsedPath.Some?
      ==> payload.parsedPath.value == PathOf(sv, job, ParsedStep) && Stored(sv, job, files, ParsedStep))
    && (payload.chunkedPath.Some?
      ==> payload.chunkedPath.value == PathOf(sv, job, ChunkedStep) && Stored(sv, job, files, ChunkedStep))
    && (payload.phase in {Parsed, Chunked, Indexing} || (payload.phase.Ready? && !resumed) ==>
          payload.parsedPath.Some? && payload.parserFallback == ParsedDocument(sv, job).usedFallback)
    && (payload.phase in {Chunked, Indexing} || (payload.phase.Ready? && !resumed) ==> payload.chunkedPath.Some?)
    && (payload.phase.Pending? ==> payload.parserFallback.None? && payload.parsedPath.None?)
    && (payload.phase in {Pending, Parsed} ==> payload.chunkedPath.None?)
    && (payload.phase.Ready? && !resumed ==> FullyIndexed(sv, job, index, aclLog))
    && (!payload.phase.Failed? && !resumed ==> payload.errors.None?)
    && (payload.phase.Failed? || payload.phase.Ready? || !resumed)
  }

  ghost predicate PcOk(sv: Services, job: Job, resumed: bool, aclLog: set<AclEntry>, c: Config) {
    var phase := c.row.payload.phase;
    match c.pc
    case Begin => phase.Failed? ==> resumed
    case AdvanceParsed(path, usedFallback) =>
      && phase.Pending? && path == PathOf(sv, job, ParsedStep) && Stored(sv, job, c.files, ParsedStep)
      && usedFallback == ParsedDocument(sv, job).usedFallback
    case ChunkStep => phase.Parsed?
    case AdvanceChunked(path) => phase.Parsed? && path == PathOf(sv, job, ChunkedStep)
      && Stored(sv, job, c.files, ChunkedStep)
    case IndexStep => phase in {Chunked, Indexing}
    case HaveAcl(acl) =>
      && phase in {Chunked, Indexing}
      && exists e :: e in aclLog && e.key == KeyOf(job.identity) && e.row.acl == acl
    case Embedding(read, chunks, attempt) =>
      && phase in {Chunked, Indexing} && Logged(job, aclLog, read) && attempt <= Retry.MAX_EMBEDDING_RETRY_ATTEMPTS
      && Parses(sv, job) && chunks == JobChunks(sv, job)
    case AdvanceIndexing(read, chunks, vectors) =>
      && phase in {Chunked, Indexing} && Logged(job, aclLog, read)
      && Parses(sv, job) && chunks == JobChunks(sv, job) && Embed(sv, Texts(chunks)) == Wrappers.Success(vectors)
    case Upserting(read, points, written) =>
      && phase.Indexing? && Logged(job, aclLog, read)
      && Embeds(sv, job) && points == JobPoints(sv, job, read) && Indexed(sv, job, c.index, read, written)
    case FallThrough => phase.Ready? || (phase.Failed? && resumed)
    case Failing(error) => phase in {Pending, Parsed, Chunked, Indexing} && error != CheckpointError
    case Done(outcome) => if outcome.Success? then phase.Ready?
      else phase.Failed? && c.row.payload.errors == Wrappers.Some([outcome.error])
  }

  /** A job in the middle of an attempt. */
  ghost predicate ConfigOk(sv: Services, job: Job, resumed: bool, aclLog: set<AclEntry>, c: Config) {
    && RowOk(sv, job, resumed, aclLog, c.files, c.index, c.row)
    && PcOk(sv, job, resumed, aclLog, c)
    && PointsOk(sv, job, c.index, aclLog)
    && SentOk(sv, job, c.sent)
  }

  ghost predicate AclsLogged(acls: map<VersionKey, AclRow>, aclLog: set<AclEntry>) {
    forall key :: key in acls ==> AclEntry(key, acls[key]) in aclLog
  }

  // ---- One tick ----

  lemma PathsDiffer(sv: Services, job: Job)
    ensures PathOf(sv, job, ParsedStep) != PathOf(sv, job, ChunkedStep)
  {
    if PathOf(sv, job, ParsedStep) == PathOf(sv, job, ChunkedStep) {
      CheckpointPathInjective(sv.baseDir, job.jobId, ParsedStep, job.jobId, ChunkedStep);
    }
  }

  lemma KeysDiffer(job: Job, k: nat, other: Job, j: nat)
    requires JobKey(job, k) == JobKey(other, j)
    ensures KeyOf(job.identity) == KeyOf(other.identity) && k == j
  {
    Identity.ChunkNameInjective(job.identity.documentId, job.identity.versionId, k, other.identity.documentId,
      other.identity.versionId, j);
  }

  /** Storing the right content under a job's own path keeps everything about its files. */
  lemma StoreKeeps(sv: Services, job: Job, files: map<string, CheckpointData>, step: CheckpointStep)
    requires Parses(sv, job)
    ensures var files' := files[PathOf(sv, job, step) := Expected(sv, job, step)];
      && Stored(sv, job, files', step)
      && forall other :: Stored(sv, job, files, other) ==> Stored(sv, job, files', other)
  {
    PathsDiffer(sv, job);
  }

  lemma PutKeeps(sv: Services, job: Job, index: map<IndexKey, Point>, aclLog: set<AclEntry>, read: AclRead, k: nat)
    requires Logged(job, aclLog, read) && PointsOk(sv, job, index, aclLog)
    requires Embeds(sv, job) && k < |JobChunks(sv, job)| && Indexed(sv, job, index, read, k)
    ensures var index' := index[JobKey(job, k) := JobPoints(sv, job, read)[k]];
      PointsOk(sv, job, index', aclLog) && Indexed(sv, job, index', read, k + 1)
  {
    var index' := index[JobKey(job, k) := JobPoints(sv, job, read)[k]];
    assert PointOk(sv, job, aclLog, k, JobPoints(sv, job, read)[k]);
    forall j: nat | JobKey(job, j) in index'
      ensures PointOk(sv, job, aclLog, j, index'[JobKey(job, j)])
    {
      if JobKey(job, j) == JobKey(job, k) {
        KeysDiffer(job, j, job, k);
      }
    }
    forall j | 0 <= j < k + 1
      ensures JobKey(job, j) in index' && index'[JobKey(job, j)] == JobPoints(sv, job, read)[j]
    {
      if JobKey(job, j) == JobKey(job, k) {
        KeysDiffer(job, j, job, k);
      }
    }
  }

  /** A row that is not yet ready says nothing about the index, and asks of the files only that
      what is stored stays stored. */
  lemma RowKeeps(sv: Services, job: Job, resumed: bool, aclLog: set<AclEntry>, row: Row,
                 files: map<string, CheckpointData>, index: map<IndexKey, Point>,
                 files': map<string, CheckpointData>, index': map<IndexKey, Point>)
    requires RowOk(sv, job, resumed, aclLog, files, index, row)
    requires forall step :: Stored(sv, job, files, step) ==> Stored(sv, job, files', step)
    requires row.payload.phase.Ready? ==> index' == index
    ensures RowOk(sv, job, resumed, aclLog, files', index', row)
  {
  }

  lemma TickKeepsParsing(sv: Services, job: Job, acls: map<VersionKey, AclRow>, script: Script, resumed: bool,
                         aclLog: set<AclEntry>, c: Config)
    requires ConfigOk(sv, job, resumed, aclLog, c)
    requires c.pc.Begin? || c.pc.AdvanceParsed?
    ensures ConfigOk(sv, job, resumed, aclLog, Tick(sv, job, acls, script, c))
  {
    hide ChunkTick, ReadTick, EmbedTick, UpsertTick, PointsOk, SentOk, FullyIndexed;
    if c.pc.Begin? && c.row.payload.phase.Pending? && Parses(sv, job) {
      StoreKeeps(sv, job, c.files, ParsedStep);
      RowKeeps(sv, job, resumed, aclLog, c.row, c.files, c.index, Tick(sv, job, acls, script, c).files, c.index);
    }
  }

  lemma TickKeepsChunking(sv: Services, job: Job, acls: map<VersionKey, AclRow>, script: Script, resumed: bool,
                          aclLog: set<AclEntry>, c: Config)
    requires ConfigOk(sv, job, resumed, aclLog, c)
    requires c.pc.ChunkStep? || c.pc.AdvanceChunked?
    ensures ConfigOk(sv, job, resumed, aclLog, Tick(sv, job, acls, script, c))
  {
    hide BeginTick, ReadTick, EmbedTick, UpsertTick, PointsOk, SentOk, FullyIndexed;
    if c.pc.ChunkStep? {
      StoreKeeps(sv, job, c.files, ChunkedStep);
      RowKeeps(sv, job, resumed, aclLog, c.row, c.files, c.index, Tick(sv, job, acls, script, c).files, c.index);
    }
  }

  lemma TickKeepsReading(sv: Services, job: Job, acls: map<VersionKey, AclRow>, script: Script, resumed: bool,
                         aclLog: set<AclEntry>, c: Config)
    requires ConfigOk(sv, job, resumed, aclLog, c) && AclsLogged(acls, aclLog)
    requires c.pc.IndexStep? || c.pc.HaveAcl?
    ensures ConfigOk(sv, job, resumed, aclLog, Tick(sv, job, acls, script, c))
  {
    hide BeginTick, ChunkTick, EmbedTick, UpsertTick, PointsOk, SentOk, FullyIndexed;
    if KeyOf(job.identity) in acls {
      assert AclEntry(KeyOf(job.identity), acls[KeyOf(job.identity)]) in aclLog;
    }
  }

  lemma LateRowsKeep(sv: Services, job: Job, resumed: bool, aclLog: set<AclEntry>, files: map<string, CheckpointData>,
                     index: map<IndexKey, Point>, row: Row, attempt: nat)
    requires RowOk(sv, job, resumed, aclLog, files, index, row) && row.payload.phase in {Chunked, Indexing}
    ensures RowOk(sv, job, resumed, aclLog, files, index, Advanced(row, RetryUpdates(attempt)))
    ensures RowOk(sv, job, resumed, aclLog, files, index, Advanced(row, INDEXING_UPDATES))
    ensures Advanced(row, RetryUpdates(attempt)).payload.phase == row.payload.phase
    ensures Advanced(row, INDEXING_UPDATES).payload.phase.Indexing?
  {
    hide Stored, FullyIndexed, PathOf, ParsedDocument;
  }

  lemma TickKeepsEmbedding(sv: Services, job: Job, acls: map<VersionKey, AclRow>, script: Script, resumed: bool,
                           aclLog: set<AclEntry>, c: Config)
    requires ConfigOk(sv, job, resumed, aclLog, c) && c.pc.Embedding?
    ensures ConfigOk(sv, job, resumed, aclLog, Tick(sv, job, acls, script, c))
  {
    hide RowOk, PointsOk, Logged, Advanced, RetryUpdates, Embed, JobChunks, Embeds, BeginTick, ChunkTick, ReadTick,
      UpsertTick;
    LateRowsKeep(sv, job, resumed, aclLog, c.files, c.index, c.row, c.pc.attempt + 1);
    if script.calls(c.pc.attempt).Answered? {
      match Embed(sv, Texts(c.pc.chunks))
      case Success(_) =>
      case Failure(error) => EmbedRaises(sv, Texts(c.pc.chunks));
    }
  }

  lemma EmbedRaises(sv: Services, texts: seq<string>)
    ensures Embed(sv, texts).Failure? ==> Embed(sv, texts).error == ResultCountsDisagree
  {
  }

  lemma TickKeepsAdvancing(sv: Services, job: Job, acls: map<VersionKey, AclRow>, script: Script, resumed: bool,
                           aclLog: set<AclEntry>, c: Config)
    requires ConfigOk(sv, job, resumed, aclLog, c) && c.pc.AdvanceIndexing?
    ensures ConfigOk(sv, job, resumed, aclLog, Tick(sv, job, acls, script, c))
  {
    hide BeginTick, ChunkTick, ReadTick, EmbedTick, UpsertTick;
    hide RowOk, PointsOk, SentOk, Logged, Advanced, Embed, JobChunks, BuildPoints, JobKey;
    LateRowsKeep(sv, job, resumed, aclLog, c.files, c.index, c.row, 0);
  }

  /** One more point. */
  lemma PutTickKeeps(sv: Services, job: Job, script: Script, resumed: bool, aclLog: set<AclEntry>, c: Config)
    requires ConfigOk(sv, job, resumed, aclLog, c) && c.pc.Upserting?
    requires script.upsertStopsAt != Wrappers.Some(c.pc.written) && c.pc.written < |c.pc.points|
    ensures ConfigOk(sv, job, resumed, aclLog, UpsertTick(job, script, c))
  {
    hide RowOk, PointsOk, SentOk, Logged, Indexed, Embeds, JobPoints, JobChunks;
    var next := UpsertTick(job, script, c);
    PutKeeps(sv, job, c.index, aclLog, c.pc.read, c.pc.written);
    assert next.index == c.index[JobKey(job, c.pc.written) := JobPoints(sv, job, c.pc.read)[c.pc.written]];
    RowKeeps(sv, job, resumed, aclLog, c.row, c.files, c.index, c.files, next.index);
  }

  /** The last point is in. */
  lemma CompletedKeeps(sv: Services, job: Job, resumed: bool, aclLog: set<AclEntry>, files: map<string, CheckpointData>,
                       index: map<IndexKey, Point>, row: Row, read: AclRead)
    requires RowOk(sv, job, resumed, aclLog, files, index, row) && row.payload.phase.Indexing? && Parses(sv, job)
    requires Logged(job, aclLog, read) && Indexed(sv, job, index, read, |JobChunks(sv, job)|)
    ensures RowOk(sv, job, resumed, aclLog, files, index, Completed(row))
  {
    hide Stored, Logged, Indexed, PathOf, ParsedDocument;
  }

  lemma TickKeepsUpserting(sv: Services, job: Job, acls: map<VersionKey, AclRow>, script: Script, resumed: bool,
                           aclLog: set<AclEntry>, c: Config)
    requires ConfigOk(sv, job, resumed, aclLog, c) && c.pc.Upserting?
    ensures ConfigOk(sv, job, resumed, aclLog, Tick(sv, job, acls, script, c))
  {
    hide BeginTick, ChunkTick, ReadTick, EmbedTick, RowOk, PointsOk, SentOk, Logged, Indexed, Embeds, JobPoints,
      JobChunks;
    if script.upsertStopsAt != Wrappers.Some(c.pc.written) {
      if c.pc.written < |c.pc.points| {
        PutTickKeeps(sv, job, script, resumed, aclLog, c);
      } else {
        WrittenAtMost(sv, job, c.index, c.pc.read, c.pc.written);
        CompletedKeeps(sv, job, resumed, aclLog, c.files, c.index, c.row, c.pc.read);
      }
    }
  }

  lemma WrittenAtMost(sv: Services, job: Job, index: map<IndexKey, Point>, read: AclRead, count: nat)
    requires Indexed(sv, job, index, read, count)
    ensures Parses(sv, job) && count <= |JobChunks(sv, job)|
  {
  }

  /** Every effect of an attempt keeps its job's invariant. */
  lemma TickKeeps(sv: Services, job: Job, acls: map<VersionKey, AclRow>, script: Script, resumed: bool,
                  aclLog: set<AclEntry>, c: Config)
    requires ConfigOk(sv, job, resumed, aclLog, c) && AclsLogged(acls, aclLog)
    ensures ConfigOk(sv, job, resumed, aclLog, Tick(sv, job, acls, script, c))
  {
    match c.pc
    case Begin => TickKeepsParsing(sv, job, acls, script, resumed, aclLog, c);
    case AdvanceParsed(_, _) => TickKeepsParsing(sv, job, acls, script, resumed, aclLog, c);
    case ChunkStep => TickKeepsChunking(sv, job, acls, script, resumed, aclLog, c);
    case AdvanceChunked(_) => TickKeepsChunking(sv, job, acls, script, resumed, aclLog, c);
    case IndexStep => TickKeepsReading(sv, job, acls, script, resumed, aclLog, c);
    case HaveAcl(_) => TickKeepsReading(sv, job, acls, script, resumed, aclLog, c);
    case Embedding(_, _, _) => TickKeepsEmbedding(sv, job, acls, script, resumed, aclLog, c);
    case AdvanceIndexing(_, _, _) => TickKeepsAdvancing(sv, job, acls, script, resumed, aclLog, c);
    case Upserting(_, _, _) => TickKeepsUpserting(sv, job, acls, script, resumed, aclLog, c);
    case FallThrough => TickKeepsEnding(sv, job, acls, script, resumed, aclLog, c);
    case Failing(_) => TickKeepsEnding(sv, job, acls, script, resumed, aclLog, c);
    case Done(_) =>
  }

  lemma TickKeepsEnding(sv: Services, job: Job, acls: map<VersionKey, AclRow>, script: Script, resumed: bool,
                        aclLog: set<AclEntry>, c: Config)
    requires ConfigOk(sv, job, resumed, aclLog, c)
    requires c.pc.FallThrough? || c.pc.Failing?
    ensures ConfigOk(sv, job, resumed, aclLog, Tick(sv, job, acls, script, c))
  {
    hide BeginTick, ChunkTick, ReadTick, EmbedTick, UpsertTick, PointsOk, SentOk, Stored;
  }
}
