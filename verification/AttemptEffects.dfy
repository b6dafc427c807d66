/** What a successful attempt writes to the index, point by point. */
module AttemptEffects {
  import opened AclLookups
  import opened VectorIndexes
  import opened PipelineModel
  import opened PipelineInvariant
  import CrashMachine
  import AttemptRuns

  /** The key of one of a job's first `count` chunks. */
  ghost predicate OwnBelow(job: Job, key: IndexKey, count: nat) {
    exists k: nat :: k < count && key == JobKey(job, k)
  }

  /** The index before, with the points of a job's first `count` chunks put over it. */
  ghost predicate PutOver(sv: Services, job: Job, read: AclRead, before: map<IndexKey, Point>,
    after: map<IndexKey, Point>, count: nat) {
    && Indexed(sv, job, after, read, count)
    && (forall key :: key in before ==> key in after)
    && (forall key :: key in after && !OwnBelow(job, key, count) ==> key in before && after[key] == before[key])
  }

  lemma PutOneMore(sv: Services, job: Job, read: AclRead, before: map<IndexKey, Point>, after: map<IndexKey, Point>,
                   count: nat)
    requires PutOver(sv, job, read, before, after, count) && count < |JobChunks(sv, job)|
    ensures PutOver(sv, job, read, before, after[JobKey(job, count) := JobPoints(sv, job, read)[count]], count + 1)
  {
    hide JobPoints, JobChunks, JobKey, OwnBelow;
    var after' := after[JobKey(job, count) := JobPoints(sv, job, read)[count]];
    forall k: nat | k < count
      ensures JobKey(job, k) != JobKey(job, count)
    {
      if JobKey(job, k) == JobKey(job, count) {
        KeysDiffer(job, k, job, count);
      }
    }
    forall key | key in after' && !OwnBelow(job, key, count + 1)
      ensures key in before && after'[key] == before[key]
    {
      OneMoreOwn(job, key, count);
    }
  }

  lemma OneMoreOwn(job: Job, key: IndexKey, count: nat)
    ensures OwnBelow(job, key, count + 1) <==> OwnBelow(job, key, count) || key == JobKey(job, count)
  {
    hide JobKey;
    if key == JobKey(job, count) {
      assert count < count + 1;
    }
  }

  lemma {:induction false} UpsertWrites(sv: Services, job: Job, acls: map<VersionKey, AclRow>, script: Script,
    read: AclRead, before: map<IndexKey, Point>, c: Config)
    requires c.pc.Upserting? && Embeds(sv, job) && c.pc.points == JobPoints(sv, job, read)
    requires PutOver(sv, job, read, before, c.index, c.pc.written) && c.pc.written <= |c.pc.points|
    requires RunToEnd(sv, job, acls, script, c).pc.outcome.Success?
    ensures PutOver(sv, job, read, before, RunToEnd(sv, job, acls, script, c).index, |JobChunks(sv, job)|)
    decreases PointsLeft(c.pc)
  {
    hide PutOver, JobPoints, JobChunks, Embed;
    var next := Tick(sv, job, acls, script, c);
    if next.pc.Failing? {
      AttemptRuns.FailingFails(sv, job, acls, script, next);
    } else if next.pc.Done? {
      assert RunToEnd(sv, job, acls, script, next) == next;
    } else {
      PutOneMore(sv, job, read, before, c.index, c.pc.written);
      UpsertWrites(sv, job, acls, script, read, before, next);
    }
  }

  lemma {:induction false} EmbeddingWrites(sv: Services, job: Job, acls: map<VersionKey, AclRow>, script: Script,
    c: Config)
    requires c.pc.Embedding? && Parses(sv, job) && c.pc.chunks == JobChunks(sv, job)
    requires RunToEnd(sv, job, acls, script, c).pc.outcome.Success?
    ensures PutOver(sv, job, c.pc.read, c.index, RunToEnd(sv, job, acls, script, c).index, |JobChunks(sv, job)|)
    decreases Rank(c.pc)
  {
    var next := Tick(sv, job, acls, script, c);
    if next.pc.Failing? {
      AttemptRuns.FailingFails(sv, job, acls, script, next);
    } else if next.pc.Embedding? {
      EmbeddingWrites(sv, job, acls, script, next);
    } else {
      var upserting := Tick(sv, job, acls, script, next);
      if upserting.pc.Failing? {
        AttemptRuns.FailingFails(sv, job, acls, script, upserting);
      } else {
        UpsertWrites(sv, job, acls, script, c.pc.read, c.index, upserting);
      }
    }
  }

  lemma IndexStepWrites(sv: Services, job: Job, acls: map<VersionKey, AclRow>, script: Script, resumed: bool,
                        aclLog: set<CrashMachine.AclEntry>, c: Config)
    requires ConfigOk(sv, job, resumed, aclLog, c) && c.pc.IndexStep?
    requires RunToEnd(sv, job, acls, script, c).pc.outcome.Success?
    ensures KeyOf(job.identity) in acls
    ensures PutOver(sv, job, ReadNow(job, acls), c.index, RunToEnd(sv, job, acls, script, c).index,
      |JobChunks(sv, job)|)
  {
    AttemptRuns.IndexStepSucceedsIff(sv, job, acls, script, resumed, aclLog, c);
    var next := Tick(sv, job, acls, script, c);
    var embedding := Tick(sv, job, acls, script, next);
    assert RunToEnd(sv, job, acls, script, next) == RunToEnd(sv, job, acls, script, embedding);
    EmbeddingWrites(sv, job, acls, script, embedding);
  }

  /** What the two lookups of an attempt give, when the ACL table does not change under it. */
  function ReadNow(job: Job, acls: map<VersionKey, AclRow>): AclRead
    requires KeyOf(job.identity) in acls
  {
    AclRead(acls[KeyOf(job.identity)].acl, acls[KeyOf(job.identity)].retentionState)
  }

  lemma ChunkStepWrites(sv: Services, job: Job, acls: map<VersionKey, AclRow>, script: Script, resumed: bool,
                        aclLog: set<CrashMachine.AclEntry>, c: Config)
    requires ConfigOk(sv, job, resumed, aclLog, c) && c.pc.ChunkStep?
    requires RunToEnd(sv, job, acls, script, c).pc.outcome.Success?
    ensures KeyOf(job.identity) in acls
    ensures PutOver(sv, job, ReadNow(job, acls), c.index, RunToEnd(sv, job, acls, script, c).index,
      |JobChunks(sv, job)|)
  {
    var stored := Tick(sv, job, acls, script, c);
    TickKeepsChunking(sv, job, acls, script, resumed, aclLog, c);
    TickKeepsChunking(sv, job, acls, script, resumed, aclLog, stored);
    var indexing := Tick(sv, job, acls, script, stored);
    assert RunToEnd(sv, job, acls, script, stored) == RunToEnd(sv, job, acls, script, indexing);
    IndexStepWrites(sv, job, acls, script, resumed, aclLog, indexing);
  }

  /** A successful attempt on a job that had not ended puts exactly the job's points over the index,
      every one with the ACL and the retention state this attempt read, and touches no other point. */
  lemma AttemptWrites(sv: Services, job: Job, acls: map<VersionKey, AclRow>, script: Script, resumed: bool,
                      aclLog: set<CrashMachine.AclEntry>, c: Config)
    requires ConfigOk(sv, job, resumed, aclLog, c) && c.pc.Begin? && !c.row.payload.phase.Ready?
      && !c.row.payload.phase.Failed?
    requires RunToEnd(sv, job, acls, script, c).pc.outcome.Success?
    ensures KeyOf(job.identity) in acls && Parses(sv, job)
    ensures PutOver(sv, job, ReadNow(job, acls), c.index, RunToEnd(sv, job, acls, script, c).index,
      |JobChunks(sv, job)|)
  {
    var next := Tick(sv, job, acls, script, c);
    TickKeepsParsing(sv, job, acls, script, resumed, aclLog, c);
    match c.row.payload.phase
    case Pending =>
      if Parses(sv, job) {
        TickKeepsParsing(sv, job, acls, script, resumed, aclLog, next);
        var chunking := Tick(sv, job, acls, script, next);
        assert RunToEnd(sv, job, acls, script, next) == RunToEnd(sv, job, acls, script, chunking);
        ChunkStepWrites(sv, job, acls, script, resumed, aclLog, chunking);
      } else {
        AttemptRuns.FailingFails(sv, job, acls, script, next);
      }
    case Parsed => ChunkStepWrites(sv, job, acls, script, resumed, aclLog, next);
    case Chunked => IndexStepWrites(sv, job, acls, script, resumed, aclLog, next);
    case Indexing => IndexStepWrites(sv, job, acls, script, resumed, aclLog, next);
  }

  /** Doing it again changes nothing: where a document's points are already in the index under the ACL
      read now, a successful attempt leaves the whole index as it is. */
  lemma ReingestIsIdempotent(sv: Services, job: Job, acls: map<VersionKey, AclRow>, script: Script, resumed: bool,
                             aclLog: set<CrashMachine.AclEntry>, c: Config)
    requires ConfigOk(sv, job, resumed, aclLog, c) && c.pc.Begin? && !c.row.payload.phase.Ready?
      && !c.row.payload.phase.Failed?
    requires RunToEnd(sv, job, acls, script, c).pc.outcome.Success?
    requires KeyOf(job.identity) in acls && Parses(sv, job)
      && Indexed(sv, job, c.index, ReadNow(job, acls), |JobChunks(sv, job)|)
    ensures RunToEnd(sv, job, acls, script, c).index == c.index
  {
    AttemptWrites(sv, job, acls, script, resumed, aclLog, c);
    SamePut(sv, job, ReadNow(job, acls), c.index, RunToEnd(sv, job, acls, script, c).index);
  }

  lemma SamePut(sv: Services, job: Job, read: AclRead, before: map<IndexKey, Point>, after: map<IndexKey, Point>)
    requires Parses(sv, job) && Indexed(sv, job, before, read, |JobChunks(sv, job)|)
    requires PutOver(sv, job, read, before, after, |JobChunks(sv, job)|)
    ensures after == before
  {
    hide JobPoints, JobKey, JobChunks;
    forall key | key in after
      ensures key in before && after[key] == before[key]
    {
    }
  }
}
