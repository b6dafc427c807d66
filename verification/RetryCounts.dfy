/** The `retry_count` of a job's row: the number of embedding calls that were cut off and tried again. */
module RetryCounts {
  import opened Wrappers
  import Chunking
  import opened JobStores
  import AclLookups
  import VectorIndexes
  import Retry
  import opened PipelineModel
  import opened AttemptSteps

  /** The first `n` calls are cut off and retried; the next one is answered or refused, or the budget is
      used up. */
  ghost predicate Retried(script: Script, budget: nat, n: nat) {
    && n <= budget && (forall m: nat :: m < n ==> script.calls(m).Unreachable?)
    && (n == budget || !script.calls(n).Unreachable?)
  }

  /** The count is written over the row the loop found, and nothing else is, but that the job is now in
      progress; without a retry nothing is written. */
  predicate CountsRetries(was: Row, n: nat, row: Row) {
    && row.payload.retryCount == (if n == 0 then was.payload.retryCount else Some(n))
    && row.status == (if n == 0 then was.status else InProgress)
    && row.payload.phase == was.payload.phase && row.payload.progress == was.payload.progress
    && row.payload.parsedPath == was.payload.parsedPath && row.payload.chunkedPath == was.payload.chunkedPath
    && row.payload.parserFallback == was.payload.parserFallback && row.payload.errors == was.payload.errors
  }

  lemma RetriedOnce(script: Script, budget: nat, n: nat)
    requires n <= budget && (forall m: nat :: m < n ==> script.calls(m).Unreachable?)
    requires n == budget || !script.calls(n).Unreachable?
    ensures forall other: nat :: Retried(script, budget, other) ==> other == n
  {
  }

  lemma RowCountsRetries(was: Row, n: nat)
    ensures CountsRetries(was, n, RowAfterRetries(was, n))
  {
  }

  // ---- Over a whole attempt ----

  /** What the row holds of the count, at each point of an attempt that found `before` in it. */
  ghost predicate Counted(c: Config, n: nat, before: Option<nat>) {
    var count, after := c.row.payload.retryCount, if n == 0 then before else Some(n);
    match c.pc
    case Embedding(_, _, attempt) => attempt <= n && count == if attempt == 0 then before else Some(attempt)
    case AdvanceIndexing(_, _, _) => count == after
    case Upserting(_, _, _) => count == after
    case Failing(error) => error in {TransportError, IndexWriteError} ==> count == after
    case FallThrough => false
    case Done(outcome) => outcome == Success(()) || outcome == Failure(TransportError) ==> count == after
    case _ => count == before
  }

  lemma TickCounts(sv: Services, job: Job, acls: map<AclLookups.VersionKey, AclLookups.AclRow>, script: Script,
    c: Config, n: nat, before: Option<nat>)
    requires Retried(script, Retry.MAX_EMBEDDING_RETRY_ATTEMPTS, n) && Counted(c, n, before)
    requires c.pc.Begin? ==> !c.row.payload.phase.Ready? && !c.row.payload.phase.Failed?
    ensures Counted(Tick(sv, job, acls, script, c), n, before) && !Tick(sv, job, acls, script, c).pc.Begin?
  {
    hide BeginTick, ChunkTick, ReadTick, EmbedTick, UpsertTick, VectorIndexes.BuildPoints, Advanced, Completed,
      FailedWith, Retried;
    match c.pc
    case Embedding(_, _, _) => CallCounts(sv, job, script, c, n, before);
    case Upserting(_, _, _) => PutCounts(job, script, c, n, before);
    case Begin => StoreCounts(sv, job, acls, c, AclLookups.EffectiveAcl([], [], ""), n, before);
    case ChunkStep => StoreCounts(sv, job, acls, c, AclLookups.EffectiveAcl([], [], ""), n, before);
    case HaveAcl(acl) => StoreCounts(sv, job, acls, c, acl, n, before);
    case AdvanceParsed(path, usedFallback) => OtherUpdatesKeepCount(c.row, ParsedUpdates(path, usedFallback));
    case AdvanceChunked(path) => OtherUpdatesKeepCount(c.row, ChunkedUpdates(path));
    case AdvanceIndexing(_, _, _) => OtherUpdatesKeepCount(c.row, INDEXING_UPDATES);
    case Failing(error) => EndsKeepCount(c.row, error);
    case _ =>
  }

  lemma StoreCounts(sv: Services, job: Job, acls: map<AclLookups.VersionKey, AclLookups.AclRow>, c: Config,
    acl: AclLookups.EffectiveAcl, n: nat, before: Option<nat>)
    requires Counted(c, n, before)
    requires c.pc.Begin? ==> !c.row.payload.phase.Ready? && !c.row.payload.phase.Failed?
    ensures c.pc.Begin? ==> Counted(BeginTick(sv, job, c), n, before) && !BeginTick(sv, job, c).pc.Begin?
    ensures c.pc.ChunkStep? ==> Counted(ChunkTick(sv, job, c), n, before) && !ChunkTick(sv, job, c).pc.Begin?
    ensures c.pc.HaveAcl? ==> Counted(ReadTick(job, acls, c, acl), n, before) && !ReadTick(job, acls, c, acl).pc.Begin?
  {
    hide SplitText;
  }

  lemma PutCounts(job: Job, script: Script, c: Config, n: nat, before: Option<nat>)
    requires Counted(c, n, before) && c.pc.Upserting?
    ensures Counted(UpsertTick(job, script, c), n, before) && !UpsertTick(job, script, c).pc.Begin?
  {
    EndsKeepCount(c.row, UnknownJob);
  }

  lemma CallCounts(sv: Services, job: Job, script: Script, c: Config, n: nat, before: Option<nat>)
    requires Retried(script, Retry.MAX_EMBEDDING_RETRY_ATTEMPTS, n) && Counted(c, n, before) && c.pc.Embedding?
    ensures Counted(EmbedTick(sv, job, script, c), n, before) && !EmbedTick(sv, job, script, c).pc.Begin?
  {
    hide Chunking.Texts;
  }

  lemma OtherUpdatesKeepCount(row: Row, updates: Updates)
    ensures updates.retryCount.None? ==> Advanced(row, updates).payload.retryCount == row.payload.retryCount
  {
  }

  lemma EndsKeepCount(row: Row, error: PipelineError)
    ensures Completed(row).payload.retryCount == FailedWith(row, error).payload.retryCount == row.payload.retryCount
  {
  }

  lemma {:induction false} RunCounts(sv: Services, job: Job, acls: map<AclLookups.VersionKey, AclLookups.AclRow>,
    script: Script, c: Config, n: nat, before: Option<nat>)
    requires Retried(script, Retry.MAX_EMBEDDING_RETRY_ATTEMPTS, n) && Counted(c, n, before)
    requires c.pc.Begin? ==> !c.row.payload.phase.Ready? && !c.row.payload.phase.Failed?
    ensures Counted(RunToEnd(sv, job, acls, script, c), n, before)
    decreases Rank(c.pc), PointsLeft(c.pc)
  {
    hide Tick, Counted, Retried, Rank, PointsLeft;
    if !c.pc.Done? {
      TickNearer(sv, job, acls, script, c);
      TickCounts(sv, job, acls, script, c, n, before);
      RunCounts(sv, job, acls, script, Tick(sv, job, acls, script, c), n, before);
    }
  }

  /** An attempt on a job that has not ended, when it succeeds or runs out of retries, leaves the number
      of calls it retried -- at most five -- or, if it retried none, the count it found. */
  lemma AttemptCountsRetries(sv: Services, job: Job, acls: map<AclLookups.VersionKey, AclLookups.AclRow>,
    script: Script, c: Config, n: nat)
    requires c.pc.Begin? && !c.row.payload.phase.Ready? && !c.row.payload.phase.Failed?
    requires n <= 5 && (forall m: nat :: m < n ==> script.calls(m).Unreachable?)
    requires n == 5 || !script.calls(n).Unreachable?
    ensures var end := RunToEnd(sv, job, acls, script, c);
      end.pc.outcome == Success(()) || end.pc.outcome == Failure(TransportError) ==>
        end.row.payload.retryCount == if n == 0 then c.row.payload.retryCount else Some(n)
  {
    hide RunToEnd;
    RunCounts(sv, job, acls, script, c, n, c.row.payload.retryCount);
  }
}
