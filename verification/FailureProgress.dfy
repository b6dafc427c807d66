/** How far a failed job says it got: the progress that an attempt leaves with each error. */
module FailureProgress {
  import Chunking
  import opened JobStores
  import opened AclLookups
  import VectorIndexes
  import opened PipelineModel

  /** The row advances to a step only when the step is over: a parse error leaves nothing done; a failure
      of a lookup or of the embedding services leaves the chunks, unless an earlier attempt came further;
      a mismatch of answers and chunks and a broken-off write come after the advance to indexing. */
  predicate ProgressAt(error: PipelineError, indexing: bool, progress: real) {
    match error
    case ParseFailed(_) => progress == 0.0
    case ChunkCountMismatch => progress == 0.7
    case IndexWriteError => progress == 0.7
    case CheckpointError => true
    case UnknownJob => true
    case _ => progress == if indexing then 0.7 else 0.4
  }

  /** The progress a phase stands for. */
  predicate InStep(row: Row) {
    match row.payload.phase
    case Pending => row.payload.progress == 0.0
    case Parsed => row.payload.progress == 0.2
    case Chunked => row.payload.progress == 0.4
    case Indexing => row.payload.progress == 0.7
    case _ => false
  }

  ghost predicate OnTrack(c: Config, indexing: bool) {
    var progress := c.row.payload.progress;
    match c.pc
    case Begin => InStep(c.row) && (indexing <==> c.row.payload.phase.Indexing?)
    case AdvanceParsed(_, _) => !indexing
    case ChunkStep => !indexing
    case AdvanceChunked(_) => !indexing
    case IndexStep => progress == if indexing then 0.7 else 0.4
    case HaveAcl(_) => progress == if indexing then 0.7 else 0.4
    case Embedding(_, _, _) => progress == if indexing then 0.7 else 0.4
    case AdvanceIndexing(_, _, _) => true
    case Upserting(_, _, _) => progress == 0.7
    case FallThrough => false
    case Failing(error) => ProgressAt(error, indexing, progress)
    case Done(outcome) => outcome.Failure? ==> ProgressAt(outcome.error, indexing, progress)
  }

  lemma StoresOnTrack(sv: Services, job: Job, acls: map<VersionKey, AclRow>, c: Config, acl: EffectiveAcl,
    indexing: bool)
    requires OnTrack(c, indexing)
    ensures c.pc.Begin? ==> OnTrack(BeginTick(sv, job, c), indexing)
    ensures c.pc.ChunkStep? ==> OnTrack(ChunkTick(sv, job, c), indexing)
    ensures c.pc.HaveAcl? ==> OnTrack(ReadTick(job, acls, c, acl), indexing)
  {
    hide SplitText;
  }

  lemma CallOnTrack(sv: Services, job: Job, script: Script, c: Config, indexing: bool)
    requires OnTrack(c, indexing) && c.pc.Embedding?
    ensures OnTrack(EmbedTick(sv, job, script, c), indexing)
  {
    hide Chunking.Texts;
  }

  lemma UpdatesOnTrack(row: Row, path: string, error: PipelineError)
    ensures Advanced(row, ChunkedUpdates(path)).payload.progress == 0.4
    ensures Advanced(row, INDEXING_UPDATES).payload.progress == 0.7
    ensures FailedWith(row, error).payload.progress == row.payload.progress
  {
  }

  lemma TickOnTrack(sv: Services, job: Job, acls: map<VersionKey, AclRow>, script: Script, c: Config, indexing: bool)
    requires OnTrack(c, indexing)
    ensures OnTrack(Tick(sv, job, acls, script, c), indexing)
  {
    hide BeginTick, ChunkTick, ReadTick, EmbedTick, VectorIndexes.BuildPoints, Advanced, Completed, FailedWith;
    match c.pc
    case Embedding(_, _, _) => CallOnTrack(sv, job, script, c, indexing);
    case AdvanceChunked(path) => UpdatesOnTrack(c.row, path, UnknownJob);
    case AdvanceIndexing(_, _, _) => UpdatesOnTrack(c.row, "", UnknownJob);
    case Failing(error) => UpdatesOnTrack(c.row, "", error);
    case HaveAcl(acl) => StoresOnTrack(sv, job, acls, c, acl, indexing);
    case _ => StoresOnTrack(sv, job, acls, c, EffectiveAcl([], [], ""), indexing);
  }

  lemma {:induction false} RunOnTrack(sv: Services, job: Job, acls: map<VersionKey, AclRow>, script: Script,
    c: Config, indexing: bool)
    requires OnTrack(c, indexing)
    ensures OnTrack(RunToEnd(sv, job, acls, script, c), indexing)
    decreases Rank(c.pc), PointsLeft(c.pc)
  {
    hide Tick, OnTrack, Rank, PointsLeft;
    if !c.pc.Done? {
      TickNearer(sv, job, acls, script, c);
      TickOnTrack(sv, job, acls, script, c, indexing);
      RunOnTrack(sv, job, acls, script, Tick(sv, job, acls, script, c), indexing);
    }
  }

  /** An attempt that fails, from any row the store methods leave a live job with, says in the row's
      progress how far it came. */
  lemma FailedAttemptShowsProgress(sv: Services, job: Job, acls: map<VersionKey, AclRow>, script: Script, c: Config)
    requires c.pc.Begin? && InStep(c.row)
    ensures var end := RunToEnd(sv, job, acls, script, c);
      end.pc.outcome.Failure? ==>
        ProgressAt(end.pc.outcome.error, c.row.payload.phase.Indexing?, end.row.payload.progress)
  {
    hide RunToEnd, ProgressAt;
    RunOnTrack(sv, job, acls, script, c, c.row.payload.phase.Indexing?);
  }
}
