/** The invariant of the whole system, kept by every action of every history. */
module CrashInvariant {
  import opened Wrappers
  import opened Uuids
  import opened JobStores
  import opened Checkpoints
  import opened AclLookups
  import opened VectorIndexes
  import opened PipelineModel
  import opened PipelineInvariant
  import opened CrashMachine

  /** A session's row is never behind the durable one, and a ready job stays ready. */
  ghost predicate Ahead(durable: Row, working: Row) {
    && PhaseRank(durable.payload.phase) <= PhaseRank(working.payload.phase)
    && durable.payload.progress <= working.payload.progress
    && (durable.payload.phase.Ready? ==> working.payload.phase.Ready?)
    && (durable.payload.parsedPath.Some? ==> working.payload.parsedPath.Some?)
    && (durable.payload.chunkedPath.Some? ==> working.payload.chunkedPath.Some?)
  }

  ghost predicate JobOk(sv: Services, job: Job, resumed: bool, s: State) {
    && job.jobId in s.rows
    && RowOk(sv, job, resumed, s.aclLog, s.files, s.index, s.rows[job.jobId])
    && PointsOk(sv, job, s.index, s.aclLog) && SentOk(sv, job, s.sent)
    && (job.jobId in s.attempts ==>
          && ConfigOk(sv, job, resumed, s.aclLog, ConfigOf(s, job.jobId))
          && Ahead(s.rows[job.jobId], s.attempts[job.jobId].row))
  }

  ghost predicate OwnPath(sv: Services, job: Job, path: string) {
    exists step :: path == PathOf(sv, job, step)
  }

  ghost predicate OwnKey(job: Job, key: IndexKey) {
    exists k: nat :: key == JobKey(job, k)
  }

  ghost predicate PathHasOwner(sv: Services, jobs: map<Uuid, Job>, path: string) {
    exists id :: id in jobs && OwnPath(sv, jobs[id], path)
  }

  ghost predicate KeyHasOwner(jobs: map<Uuid, Job>, key: IndexKey) {
    exists id :: id in jobs && OwnKey(jobs[id], key)
  }

  /** Nothing in the stores but what the known jobs put there. */
  ghost predicate NoStrays(sv: Services, jobs: map<Uuid, Job>, files: map<string, CheckpointData>,
                           index: map<IndexKey, Point>, sent: set<Batch>) {
    && (forall path :: path in files ==> PathHasOwner(sv, jobs, path))
    && (forall key :: key in index ==> KeyHasOwner(jobs, key))
    && (forall batch :: batch in sent ==> batch.jobId in jobs)
  }

  ghost predicate JobsDistinct(s: State) {
    && (forall id :: id in s.jobs ==> s.jobs[id].jobId == id)
    && (forall a, b :: a in s.jobs && b in s.jobs && a != b ==> KeyOf(s.jobs[a].identity) != KeyOf(s.jobs[b].identity))
  }

  ghost predicate Shape(sv: Services, s: State) {
    && s.rows.Keys == s.jobs.Keys && s.attempts.Keys <= s.jobs.Keys && s.resumedFailed <= s.jobs.Keys
    && JobsDistinct(s) && NoStrays(sv, s.jobs, s.files, s.index, s.sent) && AclsLogged(s.acls, s.aclLog)
  }

  ghost predicate JobsOk(sv: Services, s: State) {
    forall id :: id in s.jobs ==> JobOk(sv, s.jobs[id], id in s.resumedFailed, s)
  }

  ghost predicate Inv(sv: Services, s: State) {
    Shape(sv, s) && JobsOk(sv, s)
  }

  lemma JobIsOk(sv: Services, s: State, id: Uuid)
    requires Inv(sv, s) && id in s.jobs
    ensures s.jobs[id].jobId == id && JobOk(sv, s.jobs[id], id in s.resumedFailed, s)
  {
    hide JobOk, NoStrays;
  }

  // ---- What one tick can touch ----

  ghost predicate SameFiles(sv: Services, job: Job, files: map<string, CheckpointData>,
                            files': map<string, CheckpointData>) {
    forall step :: var path := PathOf(sv, job, step);
      (path in files <==> path in files') && (path in files ==> files'[path] == files[path])
  }

  ghost predicate SamePoints(job: Job, index: map<IndexKey, Point>, index': map<IndexKey, Point>) {
    forall k: nat :: var key := JobKey(job, k);
      (key in index <==> key in index') && (key in index ==> index'[key] == index[key])
  }

  ghost predicate SameSent(job: Job, sent: set<Batch>, sent': set<Batch>) {
    forall batch: Batch :: batch.jobId == job.jobId ==> (batch in sent <==> batch in sent')
  }

  lemma PathsOfJobsDiffer(sv: Services, job: Job, step: CheckpointStep, other: Job, step': CheckpointStep)
    requires job.jobId != other.jobId
    ensures PathOf(sv, job, step) != PathOf(sv, other, step')
  {
    if PathOf(sv, job, step) == PathOf(sv, other, step') {
      CheckpointPathInjective(sv.baseDir, job.jobId, step, other.jobId, step');
    }
  }

  lemma TickOnFiles(sv: Services, job: Job, acls: map<VersionKey, AclRow>, script: Script, c: Config, other: Job)
    requires job.jobId != other.jobId
    ensures SameFiles(sv, other, c.files, Tick(sv, job, acls, script, c).files)
  {
    hide ReadTick, EmbedTick, UpsertTick, Advanced, Completed, FailedWith, SplitText;
    forall step
      ensures PathOf(sv, other, step) != PathOf(sv, job, ParsedStep)
        && PathOf(sv, other, step) != PathOf(sv, job, ChunkedStep)
    {
      PathsOfJobsDiffer(sv, other, step, job, ParsedStep);
      PathsOfJobsDiffer(sv, other, step, job, ChunkedStep);
    }
    var files' := Tick(sv, job, acls, script, c).files;
    if c.pc.Begin? && files' != c.files {
      assert files' == c.files[PathOf(sv, job, ParsedStep) := files'[PathOf(sv, job, ParsedStep)]];
    } else if c.pc.ChunkStep? && files' != c.files {
      assert files' == c.files[PathOf(sv, job, ChunkedStep) := files'[PathOf(sv, job, ChunkedStep)]];
    } else {
      assert files' == c.files;
    }
  }

  /** The index changes by one point of the upsert or not at all. */
  lemma TickIndex(sv: Services, job: Job, acls: map<VersionKey, AclRow>, script: Script, c: Config)
    ensures var next := Tick(sv, job, acls, script, c).index;
      if c.pc.Upserting? && script.upsertStopsAt != Some(c.pc.written) && c.pc.written < |c.pc.points|
      then
        var point := c.pc.points[c.pc.written];
        next == c.index[IndexKey(job.target.collectionName, point.chunkId) := point]
      else next == c.index
  {
    hide BeginTick, ChunkTick, ReadTick, EmbedTick, Advanced, Completed, FailedWith;
  }

  lemma PcPoints(sv: Services, job: Job, resumed: bool, aclLog: set<AclEntry>, c: Config)
    requires PcOk(sv, job, resumed, aclLog, c) && c.pc.Upserting?
    ensures Embeds(sv, job) && c.pc.points == JobPoints(sv, job, c.pc.read) && Logged(job, aclLog, c.pc.read)
  {
  }

  lemma TickOnPoints(sv: Services, job: Job, acls: map<VersionKey, AclRow>, script: Script, resumed: bool,
                     aclLog: set<AclEntry>, c: Config, other: Job)
    requires PcOk(sv, job, resumed, aclLog, c) && KeyOf(job.identity) != KeyOf(other.identity)
    ensures SamePoints(other, c.index, Tick(sv, job, acls, script, c).index)
  {
    hide Tick, PcOk, JobPoints;
    TickIndex(sv, job, acls, script, c);
    if c.pc.Upserting? && c.pc.written < |c.pc.points| {
      PcPoints(sv, job, resumed, aclLog, c);
      forall k: nat
        ensures JobKey(other, k) != JobKey(job, c.pc.written)
      {
        if JobKey(other, k) == JobKey(job, c.pc.written) {
          KeysDiffer(other, k, job, c.pc.written);
        }
      }
    }
  }

  lemma TickAdvances(sv: Services, job: Job, acls: map<VersionKey, AclRow>, script: Script, resumed: bool,
                     aclLog: set<AclEntry>, c: Config)
    requires Coupled(c.row) && PcOk(sv, job, resumed, aclLog, c)
    ensures Ahead(c.row, Tick(sv, job, acls, script, c).row)
  {
    if c.pc.AdvanceParsed? || c.pc.AdvanceChunked? {
      CheckpointAdvances(sv, job, acls, script, resumed, aclLog, c);
    } else if c.pc.Embedding? {
      EmbeddingAdvances(sv, job, acls, script, resumed, aclLog, c);
    } else if c.pc.AdvanceIndexing? || c.pc.Upserting? {
      IndexingAdvances(sv, job, acls, script, resumed, aclLog, c);
    } else if c.pc.FallThrough? || c.pc.Failing? {
      EndingAdvances(sv, job, acls, script, resumed, aclLog, c);
    } else {
      assert Tick(sv, job, acls, script, c).row == c.row;
    }
  }

  lemma CheckpointAdvances(sv: Services, job: Job, acls: map<VersionKey, AclRow>, script: Script, resumed: bool,
                           aclLog: set<AclEntry>, c: Config)
    requires Coupled(c.row) && PcOk(sv, job, resumed, aclLog, c) && (c.pc.AdvanceParsed? || c.pc.AdvanceChunked?)
    ensures Ahead(c.row, Tick(sv, job, acls, script, c).row)
  {
    hide BeginTick, ChunkTick, ReadTick, EmbedTick, UpsertTick, Stored;
  }

  lemma EmbeddingAdvances(sv: Services, job: Job, acls: map<VersionKey, AclRow>, script: Script, resumed: bool,
                          aclLog: set<AclEntry>, c: Config)
    requires Coupled(c.row) && PcOk(sv, job, resumed, aclLog, c) && c.pc.Embedding?
    ensures Ahead(c.row, Tick(sv, job, acls, script, c).row)
  {
    hide BeginTick, ChunkTick, ReadTick, UpsertTick, Logged, JobChunks, Embed;
  }

  lemma IndexingAdvances(sv: Services, job: Job, acls: map<VersionKey, AclRow>, script: Script, resumed: bool,
                         aclLog: set<AclEntry>, c: Config)
    requires Coupled(c.row) && PcOk(sv, job, resumed, aclLog, c) && (c.pc.AdvanceIndexing? || c.pc.Upserting?)
    ensures Ahead(c.row, Tick(sv, job, acls, script, c).row)
  {
    hide JobPoints, JobChunks, Logged, Indexed, Embeds, Embed, BuildPoints, BeginTick, ChunkTick, ReadTick, EmbedTick;
  }

  lemma EndingAdvances(sv: Services, job: Job, acls: map<VersionKey, AclRow>, script: Script, resumed: bool,
                       aclLog: set<AclEntry>, c: Config)
    requires Coupled(c.row) && PcOk(sv, job, resumed, aclLog, c) && (c.pc.FallThrough? || c.pc.Failing?)
    ensures Ahead(c.row, Tick(sv, job, acls, script, c).row)
  {
    hide BeginTick, ChunkTick, ReadTick, EmbedTick, UpsertTick;
  }

  lemma TickKeepsReadyIndex(sv: Services, job: Job, acls: map<VersionKey, AclRow>, script: Script, resumed: bool,
                            aclLog: set<AclEntry>, c: Config)
    requires c.row.payload.phase.Ready? && PcOk(sv, job, resumed, aclLog, c)
    ensures Tick(sv, job, acls, script, c).index == c.index
  {
    hide BeginTick, ChunkTick, ReadTick, EmbedTick, Advanced, Completed, FailedWith;
  }

  lemma TickKeepsStored(sv: Services, job: Job, acls: map<VersionKey, AclRow>, script: Script, resumed: bool,
                        aclLog: set<AclEntry>, c: Config, step: CheckpointStep)
    requires ConfigOk(sv, job, resumed, aclLog, c) && Stored(sv, job, c.files, step)
    ensures Stored(sv, job, Tick(sv, job, acls, script, c).files, step)
  {
    hide ReadTick, EmbedTick, UpsertTick, Advanced, Completed, FailedWith, FullyIndexed, PointsOk, SentOk;
    if c.pc.Begin? && c.row.payload.phase.Pending? && Parses(sv, job) {
      StoreKeeps(sv, job, c.files, ParsedStep);
    } else if c.pc.ChunkStep? {
      StoreKeeps(sv, job, c.files, ChunkedStep);
    } else {
      assert Tick(sv, job, acls, script, c).files == c.files;
    }
  }

  // ---- Why a job keeps its invariant while others move ----

  lemma RowTransfers(sv: Services, job: Job, resumed: bool, row: Row, aclLog: set<AclEntry>, aclLog': set<AclEntry>,
                     files: map<string, CheckpointData>, files': map<string, CheckpointData>,
                     index: map<IndexKey, Point>, index': map<IndexKey, Point>)
    requires aclLog <= aclLog' && SameFiles(sv, job, files, files') && SamePoints(job, index, index')
    requires RowOk(sv, job, resumed, aclLog, files, index, row)
    ensures RowOk(sv, job, resumed, aclLog', files', index', row)
  {
    if row.payload.phase.Ready? && !resumed {
      var read :| Logged(job, aclLog, read) && Indexed(sv, job, index, read, |JobChunks(sv, job)|);
      assert Logged(job, aclLog', read) && Indexed(sv, job, index', read, |JobChunks(sv, job)|);
    }
  }

  lemma PcTransfers(sv: Services, job: Job, resumed: bool, aclLog: set<AclEntry>, aclLog': set<AclEntry>, c: Config,
                    c': Config)
    requires aclLog <= aclLog' && SameFiles(sv, job, c.files, c'.files) && SamePoints(job, c.index, c'.index)
    requires c'.pc == c.pc && c'.row == c.row
    requires PcOk(sv, job, resumed, aclLog, c)
    ensures PcOk(sv, job, resumed, aclLog', c')
  {
  }

  lemma PointsTransfer(sv: Services, job: Job, aclLog: set<AclEntry>, aclLog': set<AclEntry>,
    index: map<IndexKey, Point>, index': map<IndexKey, Point>)
    requires aclLog <= aclLog' && SamePoints(job, index, index') && PointsOk(sv, job, index, aclLog)
    ensures PointsOk(sv, job, index', aclLog')
  {
    forall k: nat | JobKey(job, k) in index'
      ensures PointOk(sv, job, aclLog', k, index'[JobKey(job, k)])
    {
      assert PointOk(sv, job, aclLog, k, index[JobKey(job, k)]);
    }
  }

  lemma JobTransfers(sv: Services, job: Job, resumed: bool, s: State, s': State)
    requires s.aclLog <= s'.aclLog
    requires SameFiles(sv, job, s.files, s'.files) && SamePoints(job, s.index, s'.index)
      && SameSent(job, s.sent, s'.sent)
    requires JobOk(sv, job, resumed, s)
    requires job.jobId in s'.rows && s'.rows[job.jobId] == s.rows[job.jobId]
    requires job.jobId in s'.attempts ==> job.jobId in s.attempts && s'.attempts[job.jobId] == s.attempts[job.jobId]
    ensures JobOk(sv, job, resumed, s')
  {
    RowTransfers(sv, job, resumed, s.rows[job.jobId], s.aclLog, s'.aclLog, s.files, s'.files, s.index, s'.index);
    PointsTransfer(sv, job, s.aclLog, s'.aclLog, s.index, s'.index);
    if job.jobId in s'.attempts {
      RowTransfers(sv, job, resumed, s.attempts[job.jobId].row, s.aclLog, s'.aclLog, s.files, s'.files, s.index,
        s'.index);
      PcTransfers(sv, job, resumed, s.aclLog, s'.aclLog, ConfigOf(s, job.jobId), ConfigOf(s', job.jobId));
    }
  }

  // ---- Every action ----

  lemma AheadTransitive(a: Row, b: Row, c: Row)
    requires Ahead(a, b) && Ahead(b, c)
    ensures Ahead(a, c)
  {
  }

  /** The durable row of the job whose attempt takes a step stays good. */
  lemma DurableRowKeeps(sv: Services, job: Job, acls: map<VersionKey, AclRow>, script: Script, resumed: bool,
                        aclLog: set<AclEntry>, c: Config, row: Row, c': Config)
    requires ConfigOk(sv, job, resumed, aclLog, c) && RowOk(sv, job, resumed, aclLog, c.files, c.index, row)
      && Ahead(row, c.row)
    requires c' == Tick(sv, job, acls, script, c)
    ensures RowOk(sv, job, resumed, aclLog, c'.files, c'.index, row)
  {
    if row.payload.phase.Ready? {
      TickKeepsReadyIndex(sv, job, acls, script, resumed, aclLog, c);
    }
    forall step | Stored(sv, job, c.files, step)
      ensures Stored(sv, job, c'.files, step)
    {
      TickKeepsStored(sv, job, acls, script, resumed, aclLog, c, step);
    }
    RowKeeps(sv, job, resumed, aclLog, row, c.files, c.index, c'.files, c'.index);
  }

  /** The job whose attempt takes a step keeps its invariant. */
  lemma TakenJobKeeps(sv: Services, s: State, id: Uuid, c': Config, s': State)
    requires Inv(sv, s) && id in s.jobs && id in s.attempts
    requires c' == Tick(sv, s.jobs[id], s.acls, s.attempts[id].script, ConfigOf(s, id))
    requires s' == WithEffect(s, id, c')
    ensures JobOk(sv, s.jobs[id], id in s.resumedFailed, s')
  {
    var job, script, resumed := s.jobs[id], s.attempts[id].script, id in s.resumedFailed;
    assert JobOk(sv, job, resumed, s);
    var c := ConfigOf(s, id);
    TickKeeps(sv, job, s.acls, script, resumed, s.aclLog, c);
    TickAdvances(sv, job, s.acls, script, resumed, s.aclLog, c);
    AheadTransitive(s.rows[id], c.row, c'.row);
    DurableRowKeeps(sv, job, s.acls, script, resumed, s.aclLog, c, s.rows[id], c');
    assert ConfigOf(s', id) == c';
  }

  lemma TickOnSent(sv: Services, job: Job, acls: map<VersionKey, AclRow>, script: Script, c: Config, other: Job)
    requires job.jobId != other.jobId
    ensures SameSent(other, c.sent, Tick(sv, job, acls, script, c).sent)
  {
    hide BeginTick, ChunkTick, ReadTick, UpsertTick, Advanced, Completed, FailedWith;
  }

  lemma AttemptPcOk(sv: Services, s: State, id: Uuid)
    requires Inv(sv, s) && id in s.jobs && id in s.attempts
    ensures PcOk(sv, s.jobs[id], id in s.resumedFailed, s.aclLog, ConfigOf(s, id))
  {
    assert JobOk(sv, s.jobs[id], id in s.resumedFailed, s);
  }

  lemma OtherJobKeeps(sv: Services, s: State, id: Uuid, other: Uuid, c': Config, s': State)
    requires Inv(sv, s) && id in s.jobs && id in s.attempts && other in s.jobs && other != id
    requires c' == Tick(sv, s.jobs[id], s.acls, s.attempts[id].script, ConfigOf(s, id))
    requires s' == WithEffect(s, id, c')
    ensures JobOk(sv, s.jobs[other], other in s.resumedFailed, s')
  {
    hide Tick, RowOk, PcOk, PointsOk, SentOk;
    AttemptPcOk(sv, s, id);
    TickOnFiles(sv, s.jobs[id], s.acls, s.attempts[id].script, ConfigOf(s, id), s.jobs[other]);
    TickOnSent(sv, s.jobs[id], s.acls, s.attempts[id].script, ConfigOf(s, id), s.jobs[other]);
    TickOnPoints(sv, s.jobs[id], s.acls, s.attempts[id].script, id in s.resumedFailed, s.aclLog, ConfigOf(s, id),
      s.jobs[other]);
    JobTransfers(sv, s.jobs[other], other in s.resumedFailed, s, s');
  }

  lemma TickPaths(sv: Services, job: Job, acls: map<VersionKey, AclRow>, script: Script, c: Config, path: string)
    requires path in Tick(sv, job, acls, script, c).files && path !in c.files
    ensures OwnPath(sv, job, path)
  {
    hide ReadTick, EmbedTick, UpsertTick, Advanced, Completed, FailedWith, SplitText;
    assert path == PathOf(sv, job, ParsedStep) || path == PathOf(sv, job, ChunkedStep);
  }

  lemma TickKeys(sv: Services, job: Job, acls: map<VersionKey, AclRow>, script: Script, resumed: bool,
    aclLog: set<AclEntry>, c: Config, key: IndexKey)
    requires PcOk(sv, job, resumed, aclLog, c)
    requires key in Tick(sv, job, acls, script, c).index && key !in c.index
    ensures OwnKey(job, key)
  {
    hide BeginTick, ChunkTick, ReadTick, EmbedTick, Advanced, Completed, FailedWith;
    assert key == JobKey(job, c.pc.written);
  }

  lemma TickAddsNoStrayFiles(sv: Services, s: State, id: Uuid, c': Config)
    requires NoStrays(sv, s.jobs, s.files, s.index, s.sent) && id in s.jobs && id in s.attempts
    requires c' == Tick(sv, s.jobs[id], s.acls, s.attempts[id].script, ConfigOf(s, id))
    ensures forall path :: path in c'.files ==> PathHasOwner(sv, s.jobs, path)
  {
    forall path | path in c'.files && path !in s.files
      ensures PathHasOwner(sv, s.jobs, path)
    {
      TickPaths(sv, s.jobs[id], s.acls, s.attempts[id].script, ConfigOf(s, id), path);
    }
  }

  lemma TickAddsNoStrayPoints(sv: Services, s: State, id: Uuid, c': Config)
    requires NoStrays(sv, s.jobs, s.files, s.index, s.sent) && id in s.jobs && id in s.attempts
    requires PcOk(sv, s.jobs[id], id in s.resumedFailed, s.aclLog, ConfigOf(s, id))
    requires c' == Tick(sv, s.jobs[id], s.acls, s.attempts[id].script, ConfigOf(s, id))
    ensures forall key :: key in c'.index ==> KeyHasOwner(s.jobs, key)
  {
    forall key | key in c'.index && key !in s.index
      ensures KeyHasOwner(s.jobs, key)
    {
      TickKeys(sv, s.jobs[id], s.acls, s.attempts[id].script, id in s.resumedFailed, s.aclLog, ConfigOf(s, id), key);
    }
  }

  lemma TickBatches(sv: Services, job: Job, acls: map<VersionKey, AclRow>, script: Script, c: Config, batch: Batch)
    requires batch in Tick(sv, job, acls, script, c).sent && batch !in c.sent
    ensures batch.jobId == job.jobId
  {
    hide BeginTick, ChunkTick, ReadTick, UpsertTick, Advanced, Completed, FailedWith;
  }

  lemma TickAddsNoStrayBatches(sv: Services, s: State, id: Uuid, c': Config)
    requires NoStrays(sv, s.jobs, s.files, s.index, s.sent) && JobsDistinct(s) && id in s.jobs && id in s.attempts
    requires c' == Tick(sv, s.jobs[id], s.acls, s.attempts[id].script, ConfigOf(s, id))
    ensures forall batch :: batch in c'.sent ==> batch.jobId in s.jobs
  {
    forall batch | batch in c'.sent && batch !in s.sent
      ensures batch.jobId in s.jobs
    {
      TickBatches(sv, s.jobs[id], s.acls, s.attempts[id].script, ConfigOf(s, id), batch);
    }
  }

  /** The invariant from its parts, for a state that differs by one job's effect. */
  lemma EffectKeeps(sv: Services, s: State, s': State, id: Uuid)
    requires Inv(sv, s) && id in s.jobs
    requires s' == s.(attempts := s'.attempts, files := s'.files, index := s'.index, sent := s'.sent)
    requires s'.attempts.Keys <= s.jobs.Keys && NoStrays(sv, s.jobs, s'.files, s'.index, s'.sent)
    requires forall other :: other in s.jobs ==> JobOk(sv, s.jobs[other], other in s.resumedFailed, s')
    ensures Inv(sv, s')
  {
  }

  lemma TakeKeeps(sv: Services, s: State, id: Uuid)
    requires Inv(sv, s) && Enabled(s, Take(id))
    ensures Inv(sv, Apply(sv, s, Take(id)))
  {
    var c' := Tick(sv, s.jobs[id], s.acls, s.attempts[id].script, ConfigOf(s, id));
    TakenStateKeeps(sv, s, id, c', WithEffect(s, id, c'));
  }

  lemma TakenStateKeeps(sv: Services, s: State, id: Uuid, c': Config, s': State)
    requires Inv(sv, s) && id in s.jobs && id in s.attempts
    requires c' == Tick(sv, s.jobs[id], s.acls, s.attempts[id].script, ConfigOf(s, id))
    requires s' == WithEffect(s, id, c')
    ensures Inv(sv, s')
  {
    AttemptPcOk(sv, s, id);
    TickAddsNoStrayFiles(sv, s, id, c');
    TickAddsNoStrayPoints(sv, s, id, c');
    TickAddsNoStrayBatches(sv, s, id, c');
    forall other | other in s.jobs
      ensures JobOk(sv, s.jobs[other], other in s.resumedFailed, s')
    {
      if other == id {
        TakenJobKeeps(sv, s, id, c', s');
      } else {
        OtherJobKeeps(sv, s, id, other, c', s');
      }
    }
    EffectKeeps(sv, s, s', id);
  }

  lemma FreshPath(sv: Services, s: State, job: Job, step: CheckpointStep)
    requires NoStrays(sv, s.jobs, s.files, s.index, s.sent) && JobsDistinct(s) && job.jobId !in s.jobs
    ensures PathOf(sv, job, step) !in s.files
  {
    if PathOf(sv, job, step) in s.files {
      assert PathHasOwner(sv, s.jobs, PathOf(sv, job, step));
      var id :| id in s.jobs && OwnPath(sv, s.jobs[id], PathOf(sv, job, step));
      var step' :| PathOf(sv, job, step) == PathOf(sv, s.jobs[id], step');
      PathsOfJobsDiffer(sv, job, step, s.jobs[id], step');
    }
  }

  lemma FreshKey(sv: Services, s: State, job: Job, k: nat)
    requires NoStrays(sv, s.jobs, s.files, s.index, s.sent)
    requires forall id :: id in s.jobs ==> KeyOf(s.jobs[id].identity) != KeyOf(job.identity)
    ensures JobKey(job, k) !in s.index
  {
    if JobKey(job, k) in s.index {
      assert KeyHasOwner(s.jobs, JobKey(job, k));
      var id :| id in s.jobs && OwnKey(s.jobs[id], JobKey(job, k));
      var j: nat :| JobKey(job, k) == JobKey(s.jobs[id], j);
      KeysDiffer(job, k, s.jobs[id], j);
    }
  }

  /** A fresh job finds no file, point or batch of its own. */
  lemma FreshJobOk(sv: Services, s: State, job: Job, s': State)
    requires Inv(sv, s) && Enabled(s, Create(job)) && s' == Created(s, job)
    ensures JobOk(sv, job, false, s')
  {
    hide PointsOk, SentOk, RowOk, ConfigOk, Tick, PathOf, JobKey, JobOk;
    forall step
      ensures PathOf(sv, job, step) !in s.files
    {
      FreshPath(sv, s, job, step);
    }
    forall k: nat
      ensures JobKey(job, k) !in s.index
    {
      FreshKey(sv, s, job, k);
    }
    assert forall batch :: batch in s.sent ==> batch.jobId != job.jobId;
    NothingStoredOk(sv, job, s');
  }

  lemma NothingStoredOk(sv: Services, job: Job, s: State)
    requires (forall step :: PathOf(sv, job, step) !in s.files) && (forall k: nat :: JobKey(job, k) !in s.index)
    requires forall batch :: batch in s.sent ==> batch.jobId != job.jobId
    requires job.jobId in s.rows && s.rows[job.jobId] == INITIAL_ROW && job.jobId !in s.attempts
    ensures JobOk(sv, job, false, s)
  {
    hide Tick, JobChunks, JobPoints, PathOf, JobKey;
    assert PointsOk(sv, job, s.index, s.aclLog) && SentOk(sv, job, s.sent);
  }

  lemma OwnersRemain(sv: Services, jobs: map<Uuid, Job>, job: Job, files: map<string, CheckpointData>,
                     index: map<IndexKey, Point>, sent: set<Batch>)
    requires NoStrays(sv, jobs, files, index, sent) && job.jobId !in jobs
    ensures NoStrays(sv, jobs[job.jobId := job], files, index, sent)
  {
    var jobs' := jobs[job.jobId := job];
    forall path | path in files
      ensures PathHasOwner(sv, jobs', path)
    {
      var id :| id in jobs && OwnPath(sv, jobs[id], path);
      assert id in jobs' && jobs'[id] == jobs[id];
    }
    forall key | key in index
      ensures KeyHasOwner(jobs', key)
    {
      var id :| id in jobs && OwnKey(jobs[id], key);
      assert id in jobs' && jobs'[id] == jobs[id];
    }
  }

  lemma CreateKeepsJobs(sv: Services, s: State, job: Job)
    requires Inv(sv, s) && Enabled(s, Create(job))
    ensures JobsOk(sv, Created(s, job))
  {
    hide JobOk, SameFiles, SamePoints, NoStrays;
    var s' := Created(s, job);
    FreshJobOk(sv, s, job, s');
    forall id | id in s.jobs
      ensures JobOk(sv, s.jobs[id], id in s.resumedFailed, s')
    {
      SameStores(sv, s.jobs[id], s.files, s.index);
      JobTransfers(sv, s.jobs[id], id in s.resumedFailed, s, s');
    }
  }

  lemma SameStores(sv: Services, job: Job, files: map<string, CheckpointData>, index: map<IndexKey, Point>)
    ensures SameFiles(sv, job, files, files) && SamePoints(job, index, index)
  {
  }

  lemma CreateKeeps(sv: Services, s: State, job: Job)
    requires Inv(sv, s) && Enabled(s, Create(job))
    ensures Inv(sv, Created(s, job))
  {
    hide JobsOk, NoStrays;
    CreateKeepsJobs(sv, s, job);
    OwnersRemain(sv, s.jobs, job, s.files, s.index, s.sent);
  }

  /** The actions that touch only sessions or the ACL table: every other job is as it was. */
  lemma SessionActionKeeps(sv: Services, s: State, s': State, own: Option<Uuid>)
    requires JobsOk(sv, s) && JobsDistinct(s) && s.rows.Keys == s.jobs.Keys == s'.rows.Keys
    requires s'.jobs == s.jobs && s'.files == s.files && s'.index == s.index && s'.sent == s.sent
      && s.aclLog <= s'.aclLog
    requires forall id :: id in s.jobs && own != Some(id) ==>
      && s'.rows[id] == s.rows[id] && (id in s'.resumedFailed <==> id in s.resumedFailed)
      && (id in s'.attempts ==> id in s.attempts && s'.attempts[id] == s.attempts[id])
    requires own.Some? && own.value in s.jobs ==> JobOk(sv, s.jobs[own.value], own.value in s'.resumedFailed, s')
    ensures JobsOk(sv, s')
  {
    forall id | id in s.jobs
      ensures JobOk(sv, s.jobs[id], id in s'.resumedFailed, s')
    {
      if own != Some(id) {
        JobTransfers(sv, s.jobs[id], id in s.resumedFailed, s, s');
      }
    }
  }

  lemma SessionActionKeepsShape(sv: Services, s: State, s': State)
    requires Shape(sv, s)
    requires s'.jobs == s.jobs && s'.files == s.files && s'.index == s.index && s'.sent == s.sent
    requires s'.rows.Keys == s.rows.Keys && s'.attempts.Keys <= s.jobs.Keys && s'.resumedFailed <= s.jobs.Keys
    requires AclsLogged(s'.acls, s'.aclLog)
    ensures Shape(sv, s')
  {
  }

  lemma StartedJobOk(sv: Services, s: State, id: Uuid, script: Script)
    requires JobsOk(sv, s) && JobsDistinct(s) && id in s.jobs && id in s.rows && id !in s.attempts
    ensures JobOk(sv, s.jobs[id], id in Started(s, id, script).resumedFailed, Started(s, id, script))
  {
    assert JobOk(sv, s.jobs[id], id in s.resumedFailed, s);
  }

  lemma StartKeeps(sv: Services, s: State, id: Uuid, script: Script)
    requires Inv(sv, s) && id in s.jobs && id !in s.attempts
    ensures Inv(sv, Started(s, id, script))
  {
    hide JobOk, PointsOk, NoStrays;
    StartedJobOk(sv, s, id, script);
    SessionActionKeeps(sv, s, Started(s, id, script), Some(id));
    SessionActionKeepsShape(sv, s, Started(s, id, script));
  }

  lemma CommittedJobOk(sv: Services, s: State, id: Uuid)
    requires JobsOk(sv, s) && JobsDistinct(s) && id in s.jobs && id in s.attempts
    ensures JobOk(sv, s.jobs[id], id in s.resumedFailed, Committed(s, id))
  {
    assert JobOk(sv, s.jobs[id], id in s.resumedFailed, s);
  }

  lemma CommitKeepsJobs(sv: Services, s: State, id: Uuid)
    requires JobsOk(sv, s) && JobsDistinct(s) && s.rows.Keys == s.jobs.Keys && id in s.jobs && id in s.attempts
    ensures JobsOk(sv, Committed(s, id))
  {
    hide JobOk, NoStrays;
    assert Committed(s, id).rows.Keys == s.rows.Keys;
    CommittedJobOk(sv, s, id);
    SessionActionKeeps(sv, s, Committed(s, id), Some(id));
  }

  lemma CommitKeepsShape(sv: Services, s: State, id: Uuid)
    requires Shape(sv, s) && id in s.jobs && id in s.attempts
    ensures Shape(sv, Committed(s, id))
  {
    assert Committed(s, id).rows.Keys == s.rows.Keys;
  }

  lemma CommitKeeps(sv: Services, s: State, id: Uuid)
    requires Inv(sv, s) && id in s.jobs && id in s.attempts
    ensures Inv(sv, Committed(s, id))
  {
    CommitKeepsJobs(sv, s, id);
    CommitKeepsShape(sv, s, id);
  }

  /** Losing one attempt, or all of them, harms nobody. */
  lemma CutKeeps(sv: Services, s: State, s': State)
    requires Inv(sv, s) && s' == s.(attempts := s'.attempts) && s'.attempts.Keys <= s.attempts.Keys
    requires forall id :: id in s'.attempts ==> s'.attempts[id] == s.attempts[id]
    ensures Inv(sv, s')
  {
    SessionActionKeeps(sv, s, s', None);
    SessionActionKeepsShape(sv, s, s');
  }

  lemma SetAclKeeps(sv: Services, s: State, key: VersionKey, row: AclRow)
    requires Inv(sv, s)
    ensures Inv(sv, WithAcl(s, key, row))
  {
    hide JobOk, PointsOk, SentOk;
    SessionActionKeeps(sv, s, WithAcl(s, key, row), None);
    SessionActionKeepsShape(sv, s, WithAcl(s, key, row));
  }

  /** The one write at a time: the text on a pending row, the chunks in the chunk step. */
  lemma NextWriteIs(sv: Services, s: State, id: Uuid, path: string)
    requires id in s.jobs && id in s.attempts && NextWrite(sv, s, id) == Some(path)
    ensures (s.attempts[id].pc.Begin? && s.attempts[id].row.payload.phase.Pending?
      && path == PathOf(sv, s.jobs[id], ParsedStep))
      || (s.attempts[id].pc.ChunkStep? && path == PathOf(sv, s.jobs[id], ChunkedStep))
  {
    hide ReadTick, EmbedTick, UpsertTick, SplitText, Advanced, Completed, FailedWith;
  }

  /** Rows that are not ahead of the session's have no pointer to what is being written. */
  lemma Unpointed(sv: Services, job: Job, resumed: bool, aclLog: set<AclEntry>, files: map<string, CheckpointData>,
                  index: map<IndexKey, Point>, row: Row, working: Row, path: string)
    requires RowOk(sv, job, resumed, aclLog, files, index, row) && Ahead(row, working)
    requires (working.payload.phase.Pending? && path == PathOf(sv, job, ParsedStep))
      || (working.payload.phase.Parsed? && path == PathOf(sv, job, ChunkedStep))
    ensures row.payload.parsedPath != Some(path) && row.payload.chunkedPath != Some(path)
  {
    hide Stored, FullyIndexed, PathOf;
    PathsDiffer(sv, job);
  }

  lemma ChunkStepParsed(sv: Services, job: Job, resumed: bool, aclLog: set<AclEntry>, c: Config)
    requires PcOk(sv, job, resumed, aclLog, c) && c.pc.ChunkStep?
    ensures c.row.payload.phase.Parsed?
  {
  }

  /** Whatever is left at a path a row does not point to, the row stays good. */
  lemma UnpointedFileIsFree(sv: Services, job: Job, resumed: bool, aclLog: set<AclEntry>,
    files: map<string, CheckpointData>, index: map<IndexKey, Point>, row: Row, path: string, left: CheckpointData)
    requires RowOk(sv, job, resumed, aclLog, files, index, row)
    requires row.payload.parsedPath != Some(path) && row.payload.chunkedPath != Some(path)
    ensures RowOk(sv, job, resumed, aclLog, files[path := left], index, row)
  {
  }

  lemma CutMidWriteKeepsOwn(sv: Services, s: State, id: Uuid, path: string, left: CheckpointData)
    requires Inv(sv, s) && id in s.jobs && id in s.attempts && NextWrite(sv, s, id) == Some(path)
    ensures JobOk(sv, s.jobs[id], id in s.resumedFailed, CutMidWrite(s, id, path, left))
  {
    hide Inv, NextWrite, RowOk, PcOk, PointsOk, SentOk, PathOf, Ahead;
    var job, resumed := s.jobs[id], id in s.resumedFailed;
    JobIsOk(sv, s, id);
    NextWriteIs(sv, s, id, path);
    if s.attempts[id].pc.ChunkStep? {
      ChunkStepParsed(sv, job, resumed, s.aclLog, ConfigOf(s, id));
    }
    Unpointed(sv, job, resumed, s.aclLog, s.files, s.index, s.rows[id], s.attempts[id].row, path);
    UnpointedFileIsFree(sv, job, resumed, s.aclLog, s.files, s.index, s.rows[id], path, left);
  }

  lemma OwnPathIsNoOthers(sv: Services, job: Job, path: string, other: Job, files: map<string, CheckpointData>,
    left: CheckpointData)
    requires job.jobId != other.jobId && OwnPath(sv, job, path)
    ensures SameFiles(sv, other, files, files[path := left])
  {
    forall step
      ensures PathOf(sv, other, step) != path
    {
      var step' :| path == PathOf(sv, job, step');
      PathsOfJobsDiffer(sv, other, step, job, step');
    }
  }

  lemma CutMidWriteKeepsOther(sv: Services, s: State, id: Uuid, path: string, left: CheckpointData, other: Uuid)
    requires Inv(sv, s) && id in s.jobs && id in s.attempts && OwnPath(sv, s.jobs[id], path) && other in s.jobs
      && other != id
    ensures JobOk(sv, s.jobs[other], other in s.resumedFailed, CutMidWrite(s, id, path, left))
  {
    hide RowOk, ConfigOk, PointsOk, SentOk, OwnPath, SameFiles, Ahead;
    assert JobOk(sv, s.jobs[other], other in s.resumedFailed, s);
    OwnPathIsNoOthers(sv, s.jobs[id], path, s.jobs[other], s.files, left);
    JobTransfers(sv, s.jobs[other], other in s.resumedFailed, s, CutMidWrite(s, id, path, left));
  }

  lemma CutMidWriteKeeps(sv: Services, s: State, id: Uuid, path: string, left: CheckpointData)
    requires Inv(sv, s) && id in s.jobs && id in s.attempts && NextWrite(sv, s, id) == Some(path)
    ensures Inv(sv, CutMidWrite(s, id, path, left))
  {
    hide NextWrite, JobOk, KeyHasOwner;
    var s' := CutMidWrite(s, id, path, left);
    NextWriteIs(sv, s, id, path);
    forall other | other in s.jobs
      ensures JobOk(sv, s.jobs[other], other in s.resumedFailed, s')
    {
      if other == id {
        CutMidWriteKeepsOwn(sv, s, id, path, left);
      } else {
        CutMidWriteKeepsOther(sv, s, id, path, left, other);
      }
    }
    assert PathHasOwner(sv, s.jobs, path);
    EffectKeeps(sv, s, s', id);
  }

  lemma CrashMidWriteKeeps(sv: Services, s: State, id: Uuid, left: CheckpointData)
    requires Inv(sv, s) && Enabled(s, CrashMidWrite(id, left))
    ensures Inv(sv, Apply(sv, s, CrashMidWrite(id, left)))
  {
    hide Inv, NextWrite, CutMidWrite, Tick;
    match NextWrite(sv, s, id)
    case None => CutKeeps(sv, s, Cut(s, id));
    case Some(path) => CutMidWriteKeeps(sv, s, id, path, left);
  }

  lemma CrashKeeps(sv: Services, s: State, id: Uuid)
    requires Inv(sv, s)
    ensures Inv(sv, Cut(s, id))
  {
    hide Inv;
    CutKeeps(sv, s, Cut(s, id));
  }

  lemma FinishKeeps(sv: Services, s: State, id: Uuid)
    requires Inv(sv, s) && id in s.jobs && id in s.attempts
    ensures Inv(sv, Cut(Committed(s, id), id))
  {
    hide Inv;
    CommitKeeps(sv, s, id);
    CutKeeps(sv, Committed(s, id), Cut(Committed(s, id), id));
  }

  lemma AttemptHasJob(sv: Services, s: State, id: Uuid)
    requires Inv(sv, s) && id in s.attempts
    ensures id in s.jobs
  {
    hide JobsOk;
  }

  lemma ActionKeeps(sv: Services, s: State, a: Action)
    requires Inv(sv, s)
    ensures Inv(sv, Apply(sv, s, a))
  {
    hide Inv, Created, Committed, Cut, Started, WithAcl, WithEffect, Tick, NextWrite, CutMidWrite;
    if Enabled(s, a) {
      match a
      case Create(job) => CreateKeeps(sv, s, job);
      case StartAttempt(id, script) => StartKeeps(sv, s, id, script);
      case Take(id) => TakeKeeps(sv, s, id);
      case Persist(id) =>
        AttemptHasJob(sv, s, id);
        CommitKeeps(sv, s, id);
      case Finish(id) =>
        AttemptHasJob(sv, s, id);
        FinishKeeps(sv, s, id);
      case Crash(id) => CrashKeeps(sv, s, id);
      case CrashMidWrite(id, left) => CrashMidWriteKeeps(sv, s, id, left);
      case CrashAll => CutKeeps(sv, s, s.(attempts := map[]));
      case SetAcl(key, row) => SetAclKeeps(sv, s, key, row);
    }
  }

  /** The invariant holds after every history. */
  lemma {:induction false} InvAlways(sv: Services, history: seq<Action>)
    ensures Inv(sv, After(sv, history))
  {
    if history != [] {
      InvAlways(sv, history[..|history| - 1]);
      ActionKeeps(sv, After(sv, history[..|history| - 1]), history[|history| - 1]);
    }
  }
}
