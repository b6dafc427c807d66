/** `api/ingest_routes.py`: the upload request, the background task it schedules, and the poll. */
module IngestRoutes {
  import opened Wrappers
  import opened Uuids
  import Timestamps
  import Identity
  import Chunking
  import opened JobStores
  import Checkpoints
  import EmbeddingServices
  import AclLookups
  import VectorIndexes
  import Retry
  import opened PipelineModel
  import Pipelines
  import ApiStatuses
  import DocumentStores
  import opened Databases
  import SqlDocumentStores
  import opened Seam

  const SUPPORTED_MIME_TYPES := {
    "text/markdown", "text/plain", "application/pdf",
    "application/vnd.openxmlformats-officedocument.wordprocessingml.document"
  }

  /** `aclOverride` is the form field after its JSON was read and validated, if it was sent at all. */
  datatype Upload = Upload(
    contentType: string,
    repositoryId: string,
    aclOverride: Option<Result<DocumentStores.DocumentAcl, string>>,
    fileBytes: seq<Byte>,
    filename: Option<string>)

  datatype RequestError = UnsupportedMediaType | AclOverrideMissing | AclOverrideInvalid

  function Refused(upload: Upload): Option<RequestError> {
    if upload.contentType !in SUPPORTED_MIME_TYPES then Some(UnsupportedMediaType)
    else if upload.aclOverride.None? then Some(AclOverrideMissing)
    else if upload.aclOverride.value.Failure? then Some(AclOverrideInvalid)
    else None
  }

  /** `file.filename or "upload"`. */
  function NameOf(filename: Option<string>): string {
    if filename.Some? && filename.value != "" then filename.value else "upload"
  }

  /** The first thing wrong with an upload is what it is told; a file with a name keeps it, and one without
      goes by `upload`. */
  predicate RightReply(upload: Upload, r: Result<Job, RequestError>) {
    var known := upload.contentType in {"text/markdown", "text/plain", "application/pdf",
      "application/vnd.openxmlformats-officedocument.wordprocessingml.document"};
    && (!known <==> r == Failure(UnsupportedMediaType))
    && (known && upload.aclOverride == None <==> r == Failure(AclOverrideMissing))
    && (known && upload.aclOverride.Some? && upload.aclOverride.value.Failure? <==> r == Failure(AclOverrideInvalid))
    && (r.Success? ==>
          && r.value.fileBytes == upload.fileBytes && r.value.identity.repositoryId == upload.repositoryId
          && (upload.filename == None || upload.filename == Some("") ==> r.value.filename == "upload")
          && (upload.filename.Some? && |upload.filename.value| > 0 ==> r.value.filename == upload.filename.value))
  }

  lemma RepliesAreRight(upload: Upload, job: Job)
    requires job.fileBytes == upload.fileBytes && job.filename == NameOf(upload.filename)
    requires job.identity.repositoryId == upload.repositoryId
    ensures RightReply(upload, match Refused(upload) case Some(error) => Failure(error) case None => Success(job))
  {
  }

  /** A pending job with nothing done, and one more active document in the admin list, with the ACL that
      was sent. */
  ghost predicate ShowsUpload(t: Tables, id: Uuid, upload: Upload, now: Timestamps.DateTime, t': Tables)
    requires Refused(upload).None?
  {
    && t'.jobs == t.jobs[id := Row(Payload(Pending, 0.0, None, None, None, None, None), StatusPending)]
    && Sound(t) && Sound(t')
    && SqlDocumentStores.View(t') == SqlDocumentStores.View(t)[id := DocumentStores.DocumentSummary(id,
      upload.repositoryId, "active", None, now, now, Some(upload.aclOverride.value.value))]
  }

  lemma PostedShowsUpload(t: Tables, id: Uuid, newVersion: Uuid, upload: Upload, now: Timestamps.DateTime)
    requires SeamOk(t) && id !in t.jobs && Refused(upload).None?
    ensures ShowsUpload(t, id, upload, now,
      Posted(t, id, newVersion, upload.repositoryId, upload.aclOverride.value.value, now))
  {
    hide SqlDocumentStores.View, AtMostOneCurrent;
    PostedView(t, id, newVersion, upload.repositoryId, upload.aclOverride.value.value, now);
  }

  method CreateDocumentAndVersion(session: Session, documentId: Uuid, repositoryId: string,
    acl: DocumentStores.DocumentAcl, newVersion: Uuid, now: Timestamps.DateTime)
    returns (versionId: string)
    modifies session
    ensures versionId == Text(newVersion)
    ensures var t := old(session.Seen());
      session.Seen() == t.(
        documents := t.documents[documentId := DocumentRow(documentId, repositoryId, "active", None, now, now)],
        versions := t.versions[AclLookups.VersionKey(documentId, versionId) := VersionRow(true, acl, None)])
  {
    versionId := Text(newVersion);
    session.WriteDocument(DocumentRow(documentId, repositoryId, "active", None, now, now));
    session.WriteVersion(AclLookups.VersionKey(documentId, versionId), VersionRow(true, acl, None));
  }

  /** Refused uploads leave no row. An accepted one commits job, document and version together, before
      its task exists; `newId` and `newVersion` are what `uuid.uuid4()` returns. The result is the job
      the scheduled closure is going to run. */
  method PostIngest(db: Database, upload: Upload, target: Identity.IndexTarget, newId: Uuid, newVersion: Uuid,
    now: Timestamps.DateTime)
    returns (r: Result<Job, RequestError>)
    requires SeamOk(db.committed) && newId !in db.committed.jobs
    modifies db
    ensures Refused(upload).Some? ==> r == Failure(Refused(upload).value) && db.committed == old(db.committed)
    ensures Refused(upload).None? ==>
      && db.committed == Posted(old(db.committed), newId, newVersion, upload.repositoryId,
        upload.aclOverride.value.value, now)
      && r == Success(Job(newId, upload.fileBytes, NameOf(upload.filename),
        Identity.DocumentIdentity(newId, Text(newVersion), upload.repositoryId), target))
    ensures SeamOk(db.committed) && (r.Success? ==> Provisioned(db.committed, r.value.identity))
    ensures RightReply(upload, r)
    ensures r.Success? ==> ShowsUpload(old(db.committed), newId, upload, now, db.committed)
  {
    ghost var job := Job(newId, upload.fileBytes, NameOf(upload.filename),
      Identity.DocumentIdentity(newId, Text(newVersion), upload.repositoryId), target);
    RepliesAreRight(upload, job);
    hide RightReply;
    if upload.contentType !in SUPPORTED_MIME_TYPES {
      return Failure(UnsupportedMediaType);
    }
    if upload.aclOverride.None? {
      return Failure(AclOverrideMissing);
    }
    if upload.aclOverride.value.Failure? {
      return Failure(AclOverrideInvalid);
    }
    var acl := upload.aclOverride.value.value;
    PostKeeps(db.committed, newId, newVersion, upload.repositoryId, acl, now);
    PostedShowsUpload(db.committed, newId, newVersion, upload, now);
    hide ShowsUpload, SeamOk, Written;
    var session := new Session(db);
    session.WriteJob(newId, INITIAL_ROW);
    var versionId := CreateDocumentAndVersion(session, newId, upload.repositoryId, acl, newVersion, now);
    session.Commit();
    var identity := Identity.DocumentIdentity(newId, versionId, upload.repositoryId);
    r := Success(Job(newId, upload.fileBytes, NameOf(upload.filename), identity, target));
    session.Close();
  }

  /** No attempt on a job whose version is in the table is refused an ACL. */
  lemma {:induction false} AclIsFound(sv: Services, job: Job, acls: map<AclLookups.VersionKey, AclLookups.AclRow>,
    script: Script, c: Config)
    requires AclLookups.KeyOf(job.identity) in acls
    requires c.pc != Failing(AclLookupError) && c.pc != Done(Failure(AclLookupError))
    ensures RunToEnd(sv, job, acls, script, c).pc.outcome != Failure(AclLookupError)
    decreases Rank(c.pc), PointsLeft(c.pc)
  {
    hide Tick, Rank, PointsLeft;
    if !c.pc.Done? {
      TickNearer(sv, job, acls, script, c);
      TickFindsAcl(sv, job, acls, script, c);
      AclIsFound(sv, job, acls, script, Tick(sv, job, acls, script, c));
    }
  }

  lemma TickFindsAcl(sv: Services, job: Job, acls: map<AclLookups.VersionKey, AclLookups.AclRow>, script: Script,
    c: Config)
    requires AclLookups.KeyOf(job.identity) in acls
    requires c.pc != Failing(AclLookupError) && c.pc != Done(Failure(AclLookupError))
    ensures var pc := Tick(sv, job, acls, script, c).pc;
      pc != Failing(AclLookupError) && pc != Done(Failure(AclLookupError))
  {
    hide Advanced, Completed, FailedWith, VectorIndexes.BuildPoints, Chunking.Texts, SplitText;
  }

  /** What the process brings along for every task. */
  datatype Clients = Clients(
    parse: (seq<Byte>, string) -> Result<ParseResult, ParseError>,
    tokenizer: Chunking.Tokenizer,
    embeddingClient: EmbeddingServices.HybridEmbeddingClient,
    index: VectorIndexes.VectorIndex,
    checkpoints: Checkpoints.CheckpointDir,
    clock: EmbeddingServices.Clock,
    draws: nat -> Retry.Draw,
    upsertStopsAt: Option<nat>)

  ghost function ServicesOf(clients: Clients): Services {
    Services(clients.parse, clients.tokenizer, clients.embeddingClient.dense, clients.embeddingClient.sparse,
      clients.checkpoints.baseDir)
  }

  /** Where an attempt on this job starts and, by the machine, ends. */
  ghost function Opened(t: Tables, jobId: Uuid, clients: Clients): Config
    requires jobId in t.jobs
    reads clients.checkpoints, clients.index, clients.embeddingClient
  {
    Config(Begin, t.jobs[jobId], clients.checkpoints.files, clients.index.points, clients.embeddingClient.sent)
  }

  ghost function Closing(t: Tables, job: Job, clients: Clients, script: Script, start: Config): Config {
    RunToEnd(ServicesOf(clients), job, AclTable(t), script, start)
  }

  ghost predicate Meets(clients: Clients, script: Script)
    reads clients.embeddingClient
  {
    && script.upsertStopsAt == clients.upsertStopsAt
    && forall n: nat :: script.calls(n) == clients.embeddingClient.outcomes(clients.embeddingClient.calls + n)
  }

  /** The attempt, on stores bound to the session. */
  method RunInSession(session: Session, job: Job, clients: Clients, ghost script: Script)
    returns (r: Result<(), PipelineError>)
    requires job.jobId in session.Seen().jobs && Meets(clients, script)
    modifies session, clients.checkpoints, clients.embeddingClient, clients.clock, clients.index
    ensures var end := Closing(old(session.Seen()), job, clients, script,
      old(Opened(session.Seen(), job.jobId, clients)));
      && r == end.pc.outcome
      && session.Seen() == AfterCommit(old(session.Seen()), SaveJob(job.jobId, end.row))
      && clients.checkpoints.files == end.files && clients.index.points == end.index
  {
    hide RunToEnd, Written, AclTable;
    var t := session.Seen();
    var jobStore := new SqlAlchemyJobStore(t.jobs);
    var aclLookup := new AclLookups.SqlAlchemyAclLookup(AclTable(t));
    var deps := new Pipelines.PipelineDependencies(clients.parse, clients.tokenizer, jobStore, aclLookup,
      clients.embeddingClient, clients.index, clients.checkpoints, clients.clock, clients.draws, clients.upsertStopsAt);
    r := deps.ResumeIngestJob(job, script);
    session.WriteJob(job.jobId, jobStore.rows[job.jobId]);
  }

  /** The closure: its own session, one attempt, and a commit whether it succeeds or raises. On a
      provisioned job the row it commits is the end of the machine's run, and the ACL lookup does not
      fail. */
  method RunIngestPipeline(db: Database, job: Job, clients: Clients, ghost script: Script)
    returns (r: Result<(), PipelineError>)
    requires SeamOk(db.committed) && Provisioned(db.committed, job.identity) && job.identity.documentId == job.jobId
    requires Meets(clients, script)
    modifies db, clients.checkpoints, clients.embeddingClient, clients.clock, clients.index
    ensures var end := Closing(old(db.committed), job, clients, script, old(Opened(db.committed, job.jobId, clients)));
      && r == end.pc.outcome
      && db.committed == AfterCommit(old(db.committed), SaveJob(job.jobId, end.row))
      && clients.checkpoints.files == end.files && clients.index.points == end.index
    ensures r != Failure(AclLookupError) && SeamOk(db.committed)
  {
    hide RunToEnd, Written, CurrentVersion, AtMostOneCurrent, SqlDocumentStores.EditedTables, Posted, AclTable;
    ghost var t, start := db.committed, Opened(db.committed, job.jobId, clients);
    ProvisionedHasAcl(t, job.identity);
    AclIsFound(ServicesOf(clients), job, AclTable(t), script, start);
    CommitKeeps(t, SaveJob(job.jobId, Closing(t, job, clients, script, start).row));
    var session := new Session(db);
    r := RunInSession(session, job, clients, script);
    session.Commit();
    session.Close();
  }

  datatype StatusResponse = StatusResponse(status: ApiStatuses.ApiStatus, progress: real, errors: seq<string>)

  const GENERIC_FAILURE_MESSAGE := "Ingest failed. Contact support with this document_id for details."

  /** The poll. What went wrong stays inside: a failed job shows one fixed message. */
  method GetIngestStatus(jobStore: SqlAlchemyJobStore, documentId: Uuid) returns (r: Option<StatusResponse>)
    ensures r.None? <==> documentId !in jobStore.rows
    ensures r.Some? ==>
      && r.value.status == ApiStatuses.MapPhaseToStatus(jobStore.rows[documentId].payload.phase)
      && r.value.progress == jobStore.rows[documentId].payload.progress
      && r.value.errors == if jobStore.rows[documentId].payload.phase.Failed? then [GENERIC_FAILURE_MESSAGE] else []
  {
    var payload := jobStore.GetPayload(documentId);
    match payload {
      case Failure(_) => r := None;
      case Success(found) =>
        var status := ApiStatuses.MapPhaseToStatus(found.phase);
        var errors := if status == ApiStatuses.ShownFailed then [GENERIC_FAILURE_MESSAGE] else [];
        r := Some(StatusResponse(status, found.progress, errors));
    }
  }
}
