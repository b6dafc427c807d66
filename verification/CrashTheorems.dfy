/** The promises of the ingest pipeline, over every history of interleaved attempts and crashes. */
module CrashTheorems {
  import Wrappers
  import opened Uuids
  import Identity
  import opened Chunking
  import opened JobStores
  import ApiStatuses
  import opened Checkpoints
  import opened AclLookups
  import opened VectorIndexes
  import opened PipelineModel
  import opened PipelineInvariant
  import opened CrashMachine
  import opened CrashInvariant
  import opened AttemptRuns
  import AttemptSteps

  /** Field by field, what the point of chunk `k` has to say. */
  ghost predicate PointSays(sv: Services, job: Job, read: AclRead, k: nat, p: Point)
    requires Embeds(sv, job) && k < |JobChunks(sv, job)|
  {
    && p.documentId == job.identity.documentId && p.versionId == job.identity.versionId
    && p.repositoryId == job.identity.repositoryId
    && p.chunkId == Identity.BuildChunkId(job.identity.documentId, job.identity.versionId, k) && p.sequence == k
    && p.text == JobChunks(sv, job)[k].text
    && p.vector.dense == sv.dense(Texts(JobChunks(sv, job)))[k]
    && p.vector.sparse == sv.sparse(Texts(JobChunks(sv, job)))[k]
    && p.embeddingModelVersion == job.target.embeddingModelVersion
    && p.allowPrincipals == read.acl.allowPrincipals && p.denyPrincipals == read.acl.denyPrincipals
    && p.securityLabel == read.acl.securityLabel && p.retentionState == read.retentionState && p.frozenAt.None?
  }

  lemma JobPointsSay(sv: Services, job: Job, read: AclRead, k: nat)
    requires Embeds(sv, job) && k < |JobChunks(sv, job)|
    ensures k < |sv.dense(Texts(JobChunks(sv, job)))| == |sv.sparse(Texts(JobChunks(sv, job)))|
    ensures PointSays(sv, job, read, k, JobPoints(sv, job, read)[k])
  {
  }

  /** A durable row that says `ready`, on a job no attempt was ever started on while it was `failed`. */
  ghost predicate HonestlyReady(s: State, id: Uuid) {
    id in s.rows && s.rows[id].payload.phase.Ready? && id !in s.resumedFailed
  }

  /** The job's points in the index are exactly the points of its document's chunks -- the windows of
      the text its file parses to -- with the right texts, sequence numbers and vectors, all under one
      read of the ACL and retention state the table held for this document and version. */
  ghost predicate ExactlyIndexed(sv: Services, s: State, id: Uuid, read: AclRead) {
    && id in s.jobs && Embeds(sv, s.jobs[id]) && Logged(s.jobs[id], s.aclLog, read)
    && CutInWindows(JobChunks(sv, s.jobs[id]), sv.parse(s.jobs[id].fileBytes, s.jobs[id].filename).value.text,
      s.jobs[id].identity, sv.tokenizer)
    && (forall k: nat :: JobKey(s.jobs[id], k) in s.index <==> k < |JobChunks(sv, s.jobs[id])|)
    && (forall k: nat ::
      k < |JobChunks(sv, s.jobs[id])| ==> s.index[JobKey(s.jobs[id], k)] == JobPoints(sv, s.jobs[id], read)[k])
    && (forall k: nat ::
      k < |JobChunks(sv, s.jobs[id])| ==> PointSays(sv, s.jobs[id], read, k, s.index[JobKey(s.jobs[id], k)]))
  }

  lemma ReadyJobIndexed(sv: Services, s: State, job: Job) returns (read: AclRead)
    requires JobOk(sv, job, false, s) && s.rows[job.jobId].payload.phase.Ready?
    ensures Parses(sv, job) && Logged(job, s.aclLog, read) && Indexed(sv, job, s.index, read, |JobChunks(sv, job)|)
    ensures PointsOk(sv, job, s.index, s.aclLog)
  {
    hide PointsOk, SentOk, ConfigOk, Logged, Indexed;
    read :| Logged(job, s.aclLog, read) && Indexed(sv, job, s.index, read, |JobChunks(sv, job)|);
  }

  lemma ShippedWindowsOf(sv: Services, job: Job)
    requires Parses(sv, job)
    ensures CutInWindows(JobChunks(sv, job), sv.parse(job.fileBytes, job.filename).value.text, job.identity,
      sv.tokenizer)
  {
    AttemptSteps.SplitTextCuts(sv, job, ParsedDocument(sv, job).text);
  }

  lemma ReadyStateIndexed(sv: Services, s: State, id: Uuid) returns (read: AclRead)
    requires Inv(sv, s) && id in s.jobs && HonestlyReady(s, id)
    ensures ExactlyIndexed(sv, s, id, read)
  {
    hide Inv, JobOk, Logged, JobPoints, JobChunks, JobKey, PointSays, CutInWindows;
    JobIsOk(sv, s, id);
    var job := s.jobs[id];
    read := ReadyJobIndexed(sv, s, job);
    ShippedWindowsOf(sv, job);
    forall k: nat | JobKey(job, k) in s.index
      ensures k < |JobChunks(sv, job)|
    {
      assert PointOk(sv, job, s.aclLog, k, s.index[JobKey(job, k)]);
    }
    forall k: nat | k < |JobChunks(sv, job)|
      ensures PointSays(sv, job, read, k, s.index[JobKey(job, k)])
    {
      JobPointsSay(sv, job, read, k);
    }
  }

  lemma RowsHaveJobs(sv: Services, s: State, id: Uuid)
    requires Inv(sv, s) && id in s.rows
    ensures id in s.jobs
  {
    hide JobsOk, NoStrays;
  }

  /** Ready means indexed, after every history. */
  lemma ReadyMeansIndexed(sv: Services, history: seq<Action>, id: Uuid) returns (read: AclRead)
    requires HonestlyReady(After(sv, history), id)
    ensures ExactlyIndexed(sv, After(sv, history), id, read)
  {
    hide Inv, ExactlyIndexed;
    InvAlways(sv, history);
    RowsHaveJobs(sv, After(sv, history), id);
    read := ReadyStateIndexed(sv, After(sv, history), id);
  }

  /** The row every honestly ready job has: only its retry count depends on what happened. */
  function ReadyRow(sv: Services, job: Job, retryCount: Wrappers.Option<nat>): Row
    requires Parses(sv, job)
  {
    Row(Payload(Ready, 1.0, Wrappers.Some(PathOf(sv, job, ParsedStep)), Wrappers.Some(PathOf(sv, job, ChunkedStep)),
                ParsedDocument(sv, job).usedFallback, retryCount, Wrappers.None), Complete)
  }

  lemma ReadyRowIs(sv: Services, job: Job, aclLog: set<AclEntry>, files: map<string, CheckpointData>,
                   index: map<IndexKey, Point>, row: Row)
    requires RowOk(sv, job, false, aclLog, files, index, row) && row.payload.phase.Ready?
    ensures Parses(sv, job) && row == ReadyRow(sv, job, row.payload.retryCount)
    ensures Stored(sv, job, files, ParsedStep) && Stored(sv, job, files, ChunkedStep)
  {
  }

  /** A job's very first attempt, with nothing in the stores. */
  const FRESH := Config(Begin, INITIAL_ROW, map[], map[], {})

  lemma FreshOk(sv: Services, job: Job, aclLog: set<AclEntry>)
    ensures ConfigOk(sv, job, false, aclLog, FRESH)
  {
  }

  /** What an uninterrupted first attempt leaves, when it succeeds. */
  lemma UninterruptedRun(sv: Services, job: Job, row: AclRow, script: Script)
    requires RunToEnd(sv, job, map[KeyOf(job.identity) := row], script, FRESH).pc.outcome.Success?
    ensures var u := RunToEnd(sv, job, map[KeyOf(job.identity) := row], script, FRESH);
      && Parses(sv, job) && u.row == ReadyRow(sv, job, u.row.payload.retryCount)
      && Stored(sv, job, u.files, ParsedStep) && Stored(sv, job, u.files, ChunkedStep)
      && Indexed(sv, job, u.index, AclRead(row.acl, row.retentionState), |JobChunks(sv, job)|)
      && PointsOk(sv, job, u.index, {AclEntry(KeyOf(job.identity), row)})
  {
    var acls := map[KeyOf(job.identity) := row];
    var aclLog := {AclEntry(KeyOf(job.identity), row)};
    FreshOk(sv, job, aclLog);
    RunKeeps(sv, job, acls, script, false, aclLog, FRESH);
    var u := RunToEnd(sv, job, acls, script, FRESH);
    ReadyRowIs(sv, job, aclLog, u.files, u.index, u.row);
    var read :| Logged(job, aclLog, read) && Indexed(sv, job, u.index, read, |JobChunks(sv, job)|);
    assert read == AclRead(row.acl, row.retentionState);
  }

  ghost predicate SamePointAt(job: Job, index: map<IndexKey, Point>, index': map<IndexKey, Point>, k: nat) {
    var key := JobKey(job, k);
    (key in index <==> key in index') && (key in index ==> index[key] == index'[key])
  }

  /** The job looks as if it had run once, uninterrupted, on empty stores: the same row but for
      `retryCount`, the same checkpoint files, the same points, when that run reads the same ACL. And that
      run succeeds whenever the embedding services answer it in time and the index takes its points. */
  ghost predicate Converged(sv: Services, s: State, id: Uuid, read: AclRead, script: Script) {
    && id in s.jobs && id in s.rows && Parses(sv, s.jobs[id]) && Logged(s.jobs[id], s.aclLog, read)
    && var job := s.jobs[id];
      var u := RunToEnd(sv, job, map[KeyOf(job.identity) := AclRow(read.acl, read.retentionState)], script, FRESH);
      && (u.pc.outcome.Success? ==>
            && s.rows[id] == u.row.(payload := u.row.payload.(retryCount := s.rows[id].payload.retryCount))
            && (forall step :: SameFileAt(sv, job, s.files, u.files, step))
            && forall k: nat :: SamePointAt(job, s.index, u.index, k))
      && (AnswersInTime(script, 0) && WritesAll(script, |JobChunks(sv, job)|) ==> u.pc.outcome.Success?)
  }

  ghost predicate SameFileAt(sv: Services, job: Job, files: map<string, CheckpointData>,
    files': map<string, CheckpointData>, step: CheckpointStep) {
    var path := PathOf(sv, job, step);
    path in files && path in files' && files[path] == files'[path]
  }

  lemma PointsAgreeAt(sv: Services, job: Job, index: map<IndexKey, Point>, index': map<IndexKey, Point>, read: AclRead,
                   row: AclRow, k: nat)
    requires Embeds(sv, job) && read == AclRead(row.acl, row.retentionState)
    requires JobKey(job, k) in index <==> k < |JobChunks(sv, job)|
    requires k < |JobChunks(sv, job)| ==> index[JobKey(job, k)] == JobPoints(sv, job, read)[k]
    requires Indexed(sv, job, index', read, |JobChunks(sv, job)|)
      && PointsOk(sv, job, index', {AclEntry(KeyOf(job.identity), row)})
    ensures SamePointAt(job, index, index', k)
  {
    hide JobPoints, JobChunks, JobKey, Embeds;
    if JobKey(job, k) in index' {
      assert PointOk(sv, job, {AclEntry(KeyOf(job.identity), row)}, k, index'[JobKey(job, k)]);
    }
  }

  lemma ReadyStateConverged(sv: Services, s: State, id: Uuid, read: AclRead, script: Script)
    requires Inv(sv, s) && id in s.jobs && HonestlyReady(s, id) && ExactlyIndexed(sv, s, id, read)
    ensures Converged(sv, s, id, read, script)
  {
    hide Inv, RunToEnd, Logged, PointSays, JobPoints, JobChunks, JobKey, AnswersInTime, RowOk, PointsOk, SentOk,
      ConfigOk, Indexed, PointOk;
    JobIsOk(sv, s, id);
    var job := s.jobs[id];
    ReadyRowIs(sv, job, s.aclLog, s.files, s.index, s.rows[id]);
    var row := AclRow(read.acl, read.retentionState);
    var u := RunToEnd(sv, job, map[KeyOf(job.identity) := row], script, FRESH);
    ComparisonRunSucceedsIff(sv, job, row, script);
    if u.pc.outcome.Success? {
      UninterruptedRun(sv, job, row, script);
      forall k: nat
        ensures SamePointAt(job, s.index, u.index, k)
      {
        PointsAgreeAt(sv, job, s.index, u.index, read, row, k);
      }
    }
  }

  /** Crash convergence: whatever happened before -- attempts cut after any effect or in the middle of a
      checkpoint write, rows rolled back, other jobs in between, ACL edits -- a job that has become ready
      looks as if it had run once without interruption. */
  lemma CrashConvergence(sv: Services, history: seq<Action>, id: Uuid, script: Script) returns (read: AclRead)
    requires HonestlyReady(After(sv, history), id)
    ensures Converged(sv, After(sv, history), id, read, script)
  {
    hide Inv, ExactlyIndexed, Converged;
    read := ReadyMeansIndexed(sv, history, id);
    InvAlways(sv, history);
    RowsHaveJobs(sv, After(sv, history), id);
    ReadyStateConverged(sv, After(sv, history), id, read, script);
  }

  /** And that comparison run succeeds whenever the outside world lets it. */
  lemma ComparisonRunSucceedsIff(sv: Services, job: Job, row: AclRow, script: Script)
    ensures RunToEnd(sv, job, map[KeyOf(job.identity) := row], script, FRESH).pc.outcome.Success? <==>
      Parses(sv, job) && AnswersInTime(script, 0) && Embeds(sv, job) && WritesAll(script, |JobChunks(sv, job)|)
  {
    var aclLog := {AclEntry(KeyOf(job.identity), row)};
    FreshOk(sv, job, aclLog);
    AttemptSucceedsIff(sv, job, map[KeyOf(job.identity) := row], script, false, aclLog, FRESH);
  }

  /** No history strands a job: an attempt started now on a job that has not failed ends in `ready`,
      fully indexed, if and only if the outside world lets it -- as it would have the first time. */
  lemma ResumeSucceedsIff(sv: Services, history: seq<Action>, id: Uuid, script: Script)
    requires id in After(sv, history).jobs && id in After(sv, history).rows
    requires var phase := After(sv, history).rows[id].payload.phase; !phase.Ready? && !phase.Failed?
    ensures var s := After(sv, history);
      RunToEnd(sv, s.jobs[id], s.acls, script,
        Config(Begin, s.rows[id], s.files, s.index, s.sent)).pc.outcome.Success? <==>
        && Parses(sv, s.jobs[id]) && KeyOf(s.jobs[id].identity) in s.acls
        && AnswersInTime(script, 0) && Embeds(sv, s.jobs[id]) && WritesAll(script, |JobChunks(sv, s.jobs[id])|)
  {
    InvAlways(sv, history);
    var s := After(sv, history);
    assert JobOk(sv, s.jobs[id], id in s.resumedFailed, s);
    var c := Config(Begin, s.rows[id], s.files, s.index, s.sent);
    AttemptSucceedsIff(sv, s.jobs[id], s.acls, script, id in s.resumedFailed, s.aclLog, c);
  }

  /** The checkpoint pointers of a row name existing files that hold exactly what this job's document
      determines. */
  ghost predicate PointersHold(sv: Services, job: Job, files: map<string, CheckpointData>, payload: Payload) {
    && (payload.parsedPath.Some? ==>
          Parses(sv, job) && payload.parsedPath.value in files
            && files[payload.parsedPath.value] == TextData(ParsedDocument(sv, job).text))
    && (payload.chunkedPath.Some? ==>
          Parses(sv, job) && payload.chunkedPath.value in files
            && files[payload.chunkedPath.value] == ChunkData(JobChunks(sv, job)))
  }

  lemma RowPointersHold(sv: Services, job: Job, resumed: bool, aclLog: set<AclEntry>,
    files: map<string, CheckpointData>, index: map<IndexKey, Point>, row: Row)
    requires RowOk(sv, job, resumed, aclLog, files, index, row)
    ensures PointersHold(sv, job, files, row.payload)
  {
  }

  /** The write-ahead order: the pointers of every row, durable or in a session, hold; and no attempt
      ever stops for a missing or foreign checkpoint. */
  lemma WriteAhead(sv: Services, history: seq<Action>, id: Uuid)
    requires id in After(sv, history).jobs
    ensures var s := After(sv, history);
      && id in s.rows && PointersHold(sv, s.jobs[id], s.files, s.rows[id].payload)
      && (id in s.attempts ==> PointersHold(sv, s.jobs[id], s.files, s.attempts[id].row.payload))
      && (id in s.attempts && s.attempts[id].pc.Failing? ==> s.attempts[id].pc.error != CheckpointError)
  {
    InvAlways(sv, history);
    JobWritesAhead(sv, After(sv, history), id);
  }

  lemma JobWritesAhead(sv: Services, s: State, id: Uuid)
    requires Inv(sv, s) && id in s.jobs
    ensures id in s.rows && PointersHold(sv, s.jobs[id], s.files, s.rows[id].payload)
    ensures id in s.attempts ==> PointersHold(sv, s.jobs[id], s.files, s.attempts[id].row.payload)
    ensures id in s.attempts && s.attempts[id].pc.Failing? ==> s.attempts[id].pc.error != CheckpointError
  {
    hide Inv, RowOk, PcOk, PointsOk, SentOk, PointersHold, Ahead;
    var job, resumed := s.jobs[id], id in s.resumedFailed;
    JobIsOk(sv, s, id);
    RowPointersHold(sv, job, resumed, s.aclLog, s.files, s.index, s.rows[id]);
    if id in s.attempts {
      NoCheckpointError(sv, job, resumed, s.aclLog, ConfigOf(s, id));
      RowPointersHold(sv, job, resumed, s.aclLog, s.files, s.index, s.attempts[id].row);
    }
  }

  lemma NoCheckpointError(sv: Services, job: Job, resumed: bool, aclLog: set<AclEntry>, c: Config)
    requires PcOk(sv, job, resumed, aclLog, c)
    ensures c.pc.Failing? ==> c.pc.error != CheckpointError
  {
  }

  /** A failed attempt, from any state it can start in: the row says `failed` with this one error, and
      unless the index write itself broke off the index is untouched. */
  lemma FailedAttempt(sv: Services, job: Job, acls: map<VersionKey, AclRow>, script: Script, resumed: bool,
                      aclLog: set<AclEntry>, c: Config)
    requires ConfigOk(sv, job, resumed, aclLog, c) && AclsLogged(acls, aclLog) && c.pc.Begin?
    ensures var end := RunToEnd(sv, job, acls, script, c);
      end.pc.outcome.Failure? ==>
        && end.row.payload.phase.Failed? && end.row.status == StatusFailed
        && end.row.payload.errors == Wrappers.Some([end.pc.outcome.error])
        && (end.pc.outcome.error != IndexWriteError ==> end.index == c.index)
  {
    hide Tick, RunToEnd, ConfigOk;
    RunKeeps(sv, job, acls, script, resumed, aclLog, c);
    FailureLeavesIndex(sv, job, acls, script, c);
    FailedRow(sv, job, resumed, aclLog, RunToEnd(sv, job, acls, script, c));
  }

  lemma FailedRow(sv: Services, job: Job, resumed: bool, aclLog: set<AclEntry>, end: Config)
    requires ConfigOk(sv, job, resumed, aclLog, end) && end.pc.Done?
    ensures end.pc.outcome.Failure? ==>
      && end.row.payload.phase.Failed? && end.row.status == StatusFailed
      && end.row.payload.errors == Wrappers.Some([end.pc.outcome.error])
  {
    hide PointsOk, SentOk, Stored, FullyIndexed;
  }

  /** NFR-012 over two systems: jobs on the same file send the same texts to the embedding services,
      however their identities, ACLs and retention states differ. */
  lemma EmbeddingSeesTextOnly(sv: Services, history: seq<Action>, batch: Batch, history': seq<Action>, batch': Batch)
    requires batch in After(sv, history).sent && batch' in After(sv, history').sent
    requires batch.jobId in After(sv, history).jobs && batch'.jobId in After(sv, history').jobs
    requires var job, job' := After(sv, history).jobs[batch.jobId], After(sv, history').jobs[batch'.jobId];
      job.fileBytes == job'.fileBytes && job.filename == job'.filename
    ensures batch.texts == batch'.texts
  {
    InvAlways(sv, history);
    InvAlways(sv, history');
    var s, s' := After(sv, history), After(sv, history');
    var job, job' := s.jobs[batch.jobId], s'.jobs[batch'.jobId];
    assert JobOk(sv, job, batch.jobId in s.resumedFailed, s);
    assert JobOk(sv, job', batch'.jobId in s'.resumedFailed, s');
    TextsIgnoreIdentity(ParsedDocument(sv, job).text, job.identity, job'.identity, sv.tokenizer, CHUNK_SIZE_TOKENS,
      CHUNK_OVERLAP_TOKENS);
  }

  /** And the vectors stored at each sequence number are the same. */
  lemma VectorsDependOnTextOnly(sv: Services, history: seq<Action>, id: Uuid, history': seq<Action>, id': Uuid, k: nat)
    requires id in After(sv, history).jobs && id' in After(sv, history').jobs
    requires var job, job' := After(sv, history).jobs[id], After(sv, history').jobs[id'];
      && job.fileBytes == job'.fileBytes && job.filename == job'.filename
      && JobKey(job, k) in After(sv, history).index && JobKey(job', k) in After(sv, history').index
    ensures var s, s' := After(sv, history), After(sv, history');
      var p, p' := s.index[JobKey(s.jobs[id], k)], s'.index[JobKey(s'.jobs[id'], k)];
      p.vector == p'.vector && p.text == p'.text && p.sequence == p'.sequence == k
  {
    hide Inv, Logged, SentOk, RowOk, ConfigOk;
    InvAlways(sv, history);
    InvAlways(sv, history');
    var s, s' := After(sv, history), After(sv, history');
    var job, job' := s.jobs[id], s'.jobs[id'];
    var read := PointIsOneOf(sv, s, id, k);
    var read' := PointIsOneOf(sv, s', id', k);
    JobPointsSay(sv, job, read, k);
    JobPointsSay(sv, job', read', k);
    TextsIgnoreIdentity(ParsedDocument(sv, job).text, job.identity, job'.identity, sv.tokenizer, CHUNK_SIZE_TOKENS,
      CHUNK_OVERLAP_TOKENS);
  }

  lemma PointIsOneOf(sv: Services, s: State, id: Uuid, k: nat) returns (read: AclRead)
    requires Inv(sv, s) && id in s.jobs && JobKey(s.jobs[id], k) in s.index
    ensures Embeds(sv, s.jobs[id]) && k < |JobChunks(sv, s.jobs[id])|
      && s.index[JobKey(s.jobs[id], k)] == JobPoints(sv, s.jobs[id], read)[k]
  {
    hide Inv, RowOk, ConfigOk, SentOk, JobPoints, JobKey, JobChunks;
    JobIsOk(sv, s, id);
    assert PointOk(sv, s.jobs[id], s.aclLog, k, s.index[JobKey(s.jobs[id], k)]);
    read :| Logged(s.jobs[id], s.aclLog, read) && s.index[JobKey(s.jobs[id], k)] == JobPoints(sv, s.jobs[id], read)[k];
  }

  // ---- Rows over time ----

  /** Every durable row keeps phase, status and progress together. */
  lemma RowsCoupled(sv: Services, history: seq<Action>, id: Uuid)
    requires id in After(sv, history).rows
    ensures Coupled(After(sv, history).rows[id])
  {
    InvAlways(sv, history);
    var s := After(sv, history);
    assert JobOk(sv, s.jobs[id], id in s.resumedFailed, s);
  }

  ghost predicate NotBehind(earlier: Row, later: Row) {
    && earlier.payload.progress <= later.payload.progress
    && ApiStatuses.StatusRank(ApiStatuses.MapPhaseToStatus(earlier.payload.phase))
       <= ApiStatuses.StatusRank(ApiStatuses.MapPhaseToStatus(later.payload.phase))
    && (earlier.payload.phase.Ready? ==> later.payload.phase.Ready?)
    && (earlier.payload.parsedPath.Some? ==> later.payload.parsedPath.Some?)
    && (earlier.payload.chunkedPath.Some? ==> later.payload.chunkedPath.Some?)
  }

  /** A durable row changes only by a commit of its job's session. */
  lemma RowsChangeByCommit(sv: Services, s: State, a: Action, id: Uuid)
    requires id in s.rows && s.rows.Keys == s.jobs.Keys
    ensures id in Apply(sv, s, a).rows
    ensures Apply(sv, s, a).rows[id] == s.rows[id]
      || (id in s.attempts && Apply(sv, s, a).rows[id] == s.attempts[id].row)
  {
  }

  lemma AheadIsNotBehind(durable: Row, session: Row)
    requires Ahead(durable, session)
    ensures NotBehind(durable, session)
  {
  }

  lemma SessionAhead(sv: Services, s: State, id: Uuid)
    requires Inv(sv, s) && id in s.rows && id in s.attempts
    ensures Ahead(s.rows[id], s.attempts[id].row)
  {
    assert JobOk(sv, s.jobs[id], id in s.resumedFailed, s);
  }

  lemma ActionMovesForward(sv: Services, s: State, a: Action, id: Uuid)
    requires Inv(sv, s) && id in s.rows
    ensures id in Apply(sv, s, a).rows && NotBehind(s.rows[id], Apply(sv, s, a).rows[id])
  {
    RowsChangeByCommit(sv, s, a, id);
    if id in s.attempts {
      SessionAhead(sv, s, id);
      AheadIsNotBehind(s.rows[id], s.attempts[id].row);
    }
  }

  lemma AfterOneMore(sv: Services, history: seq<Action>, more: seq<Action>)
    requires more != []
    ensures After(sv, history + more) == Apply(sv, After(sv, history + more[..|more| - 1]), more[|more| - 1])
  {
    assert (history + more)[..|history + more| - 1] == history + more[..|more| - 1];
  }

  /** What a poll shows never moves backwards and no checkpoint pointer is dropped, over any continuation of any
      history -- attempts, failures, crashes and resumes included -- and a ready job stays ready. */
  lemma {:induction false} PollsMoveForward(sv: Services, history: seq<Action>, more: seq<Action>, id: Uuid)
    requires id in After(sv, history).rows
    ensures id in After(sv, history + more).rows
    ensures NotBehind(After(sv, history).rows[id], After(sv, history + more).rows[id])
  {
    if more == [] {
      assert history + more == history;
    } else {
      var earlier := more[..|more| - 1];
      PollsMoveForward(sv, history, earlier, id);
      AfterOneMore(sv, history, more);
      InvAlways(sv, history + earlier);
      ActionMovesForward(sv, After(sv, history + earlier), more[|more| - 1], id);
    }
  }
}
