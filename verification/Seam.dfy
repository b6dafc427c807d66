/** The rows that two kinds of request write and a background task relies on: what every reachable
    state of the tables guarantees. */
module Seam {
  import opened Wrappers
  import opened Uuids
  import opened Timestamps
  import Identity
  import JobStores
  import opened AclLookups
  import opened DocumentStores
  import opened Databases
  import opened SqlDocumentStores

  /** What `_create_document_and_version` and `create_job` add for one upload. */
  function Posted(t: Tables, id: Uuid, versionId: Uuid, repositoryId: string, acl: DocumentAcl, now: DateTime): Tables {
    Tables(
      t.jobs[id := JobStores.INITIAL_ROW],
      t.documents[id := DocumentRow(id, repositoryId, "active", None, now, now)],
      t.versions[VersionKey(id, Text(versionId)) := VersionRow(true, acl, None)])
  }

  /** Every document belongs to a job, every version to a document, and every document has exactly one
      committed version that none supersedes. */
  ghost predicate SeamOk(t: Tables) {
    && Sound(t)
    && (forall id :: id in t.documents ==> id in t.jobs && CurrentVersion(t.versions, id).Some?)
    && (forall key :: key in t.versions ==> key.documentId in t.documents)
  }

  /** The commits that reach the tables: an upload, an admin edit, a background session's job row. */
  datatype Commit =
    | Post(id: Uuid, versionId: Uuid, repositoryId: string, acl: DocumentAcl, now: DateTime)
    | Put(id: Uuid, update: DocumentUpdate, now: DateTime)
    | SaveJob(id: Uuid, row: JobStores.Row)

  /** A random id is one the job table does not hold; a background session writes its own job. */
  predicate Possible(t: Tables, c: Commit) {
    match c
    case Post(id, _, _, _, _) => id !in t.jobs
    case Put(_, _, _) => Sound(t)
    case SaveJob(id, _) => id in t.jobs
  }

  function AfterCommit(t: Tables, c: Commit): Tables {
    if !Possible(t, c) then t
    else match c
      case Post(id, versionId, repositoryId, acl, now) => Posted(t, id, versionId, repositoryId, acl, now)
      case Put(id, update, now) => EditedTables(t, id, update, now)
      case SaveJob(id, row) => t.(jobs := t.jobs[id := row])
  }

  function TablesAfter(history: seq<Commit>): Tables {
    if history == [] then NO_ROWS else AfterCommit(TablesAfter(history[..|history| - 1]), history[|history| - 1])
  }

  lemma PostedCurrent(t: Tables, id: Uuid, versionId: Uuid, repositoryId: string, acl: DocumentAcl, now: DateTime,
    other: Uuid)
    requires SeamOk(t) && id !in t.jobs
    ensures var t' := Posted(t, id, versionId, repositoryId, acl, now);
      AtMostOneCurrent(t'.versions)
      && CurrentVersion(t'.versions, other) == if other == id then Some(VersionKey(id, Text(versionId)))
        else CurrentVersion(t.versions, other)
  {
    hide Text, AtMostOneCurrent, CurrentVersion;
    FirstVersionIsCurrent(t.versions, VersionKey(id, Text(versionId)), VersionRow(true, acl, None), other);
  }

  lemma PostKeeps(t: Tables, id: Uuid, versionId: Uuid, repositoryId: string, acl: DocumentAcl, now: DateTime)
    requires SeamOk(t) && id !in t.jobs
    ensures SeamOk(Posted(t, id, versionId, repositoryId, acl, now))
    ensures CurrentVersion(Posted(t, id, versionId, repositoryId, acl, now).versions, id)
      == Some(VersionKey(id, Text(versionId)))
  {
    hide Text, AtMostOneCurrent, CurrentVersion, IsCurrent;
    var t' := Posted(t, id, versionId, repositoryId, acl, now);
    PostedCurrent(t, id, versionId, repositoryId, acl, now, id);
    forall other | other in t'.documents
      ensures other in t'.jobs && CurrentVersion(t'.versions, other).Some?
    {
      PostedCurrent(t, id, versionId, repositoryId, acl, now, other);
    }
  }

  lemma OneMoreDocument(t: Tables, t': Tables, row: DocumentRow)
    requires Sound(t) && Sound(t') && t'.documents == t.documents[row.documentId := row]
    requires forall other :: other != row.documentId ==> CurrentAcl(t', other) == CurrentAcl(t, other)
    ensures View(t') == View(t)[row.documentId := SummaryOf(row, CurrentAcl(t', row.documentId))]
  {
    hide AtMostOneCurrent, CurrentAcl, SummaryOf;
  }

  lemma PostedAcl(t: Tables, id: Uuid, versionId: Uuid, repositoryId: string, acl: DocumentAcl, now: DateTime,
    other: Uuid)
    requires SeamOk(t) && id !in t.jobs
    ensures var t' := Posted(t, id, versionId, repositoryId, acl, now);
      Sound(t') && CurrentAcl(t', other) == if other == id then Some(acl) else CurrentAcl(t, other)
  {
    hide Text, AtMostOneCurrent, IsCurrent;
    PostKeeps(t, id, versionId, repositoryId, acl, now);
    FirstVersionIsCurrent(t.versions, VersionKey(id, Text(versionId)), VersionRow(true, acl, None), other);
  }

  /** What an upload adds to the admin list: one document, with the ACL that was sent. */
  lemma PostedView(t: Tables, id: Uuid, versionId: Uuid, repositoryId: string, acl: DocumentAcl, now: DateTime)
    requires SeamOk(t) && id !in t.jobs
    ensures Sound(Posted(t, id, versionId, repositoryId, acl, now))
    ensures View(Posted(t, id, versionId, repositoryId, acl, now))
         == View(t)[id := DocumentSummary(id, repositoryId, "active", None, now, now, Some(acl))]
  {
    hide Text, AtMostOneCurrent, CurrentVersion, CurrentAcl, View;
    var t' := Posted(t, id, versionId, repositoryId, acl, now);
    PostedAcl(t, id, versionId, repositoryId, acl, now, id);
    forall other: Uuid | other != id
      ensures CurrentAcl(t', other) == CurrentAcl(t, other)
    {
      PostedAcl(t, id, versionId, repositoryId, acl, now, other);
    }
    OneMoreDocument(t, t', DocumentRow(id, repositoryId, "active", None, now, now));
  }

  lemma EditKeepsCurrent(t: Tables, id: Uuid, update: DocumentUpdate, now: DateTime, other: Uuid)
    requires Sound(t)
    ensures Sound(EditedTables(t, id, update, now))
    ensures CurrentVersion(EditedTables(t, id, update, now).versions, other) == CurrentVersion(t.versions, other)
  {
    hide AtMostOneCurrent, EditedRow, MergedAcl;
    EditsOverlay(t, id, update, now);
    var version := CurrentVersion(t.versions, id);
    if version.Some? && update.acl.Some? {
      AclEditKeepsCurrent(t.versions, version.value, MergedAcl(t.versions[version.value].acl, update.acl.value), other);
    }
  }

  lemma PutKeeps(t: Tables, id: Uuid, update: DocumentUpdate, now: DateTime)
    requires SeamOk(t)
    ensures SeamOk(EditedTables(t, id, update, now))
    ensures UpdateAnswer(DocumentColumns, View(t), id, update, now) != Failure(MissingAclVersion)
  {
    hide AtMostOneCurrent, EditedRow, MergedAcl, CurrentVersion, Overlaid;
    var t' := EditedTables(t, id, update, now);
    EditsOverlay(t, id, update, now);
    EditedRowId(if id in t.documents then t.documents[id]
      else DocumentRow(id, "", "", None, EPOCH, EPOCH), update, now);
    forall other | other in t.documents
      ensures CurrentVersion(t'.versions, other).Some?
    {
      EditKeepsCurrent(t, id, update, now, other);
    }
  }

  lemma CommitKeeps(t: Tables, c: Commit)
    requires SeamOk(t)
    ensures SeamOk(AfterCommit(t, c))
  {
    if Possible(t, c) {
      match c
      case Post(id, versionId, repositoryId, acl, now) => PostKeeps(t, id, versionId, repositoryId, acl, now);
      case Put(id, update, now) => PutKeeps(t, id, update, now);
      case SaveJob(id, row) =>
    }
  }

  lemma {:induction false} SeamAlways(history: seq<Commit>)
    ensures SeamOk(TablesAfter(history))
  {
    if history != [] {
      SeamAlways(history[..|history| - 1]);
      CommitKeeps(TablesAfter(history[..|history| - 1]), history[|history| - 1]);
    }
  }

  /** So an admin edit never runs into a document without an ACL-bearing version. */
  lemma MissingVersionUnreachable(history: seq<Commit>, id: Uuid, update: DocumentUpdate, now: DateTime)
    ensures Sound(TablesAfter(history))
    ensures UpdateAnswer(DocumentColumns, View(TablesAfter(history)), id, update, now) != Failure(MissingAclVersion)
  {
    SeamAlways(history);
    PutKeeps(TablesAfter(history), id, update, now);
  }

  // ---- What a scheduled task finds ----

  /** The ACL columns of `document_versions`, as the lookup of the pipeline reads them. */
  function AclTable(t: Tables): map<VersionKey, AclRow> {
    map key | key in t.versions ::
      AclRow(EffectiveAcl(t.versions[key].acl.allowPrincipals, t.versions[key].acl.denyPrincipals,
        t.versions[key].acl.securityLabel), t.versions[key].acl.retentionState)
  }

  /** The ACL a task reads is the ACL the admin list shows. */
  lemma LookupAgreesWithAdminList(history: seq<Commit>, id: Uuid)
    requires id in TablesAfter(history).documents
    ensures var t := TablesAfter(history);
      && Sound(t) && CurrentVersion(t.versions, id).Some? && CurrentVersion(t.versions, id).value in AclTable(t)
      && id in View(t) && View(t)[id].acl.Some?
      && var read, shown := AclTable(t)[CurrentVersion(t.versions, id).value], View(t)[id].acl.value;
      && read.acl.allowPrincipals == shown.allowPrincipals && read.acl.denyPrincipals == shown.denyPrincipals
      && read.acl.securityLabel == shown.securityLabel && read.retentionState == shown.retentionState
  {
    SeamAlways(history);
  }

  /** The job row, the document and its current version are there, under one id. */
  ghost predicate Provisioned(t: Tables, identity: Identity.DocumentIdentity) {
    && Sound(t) && identity.documentId in t.jobs && identity.documentId in t.documents
    && CurrentVersion(t.versions, identity.documentId) == Some(KeyOf(identity))
  }

  lemma ProvisionedHasAcl(t: Tables, identity: Identity.DocumentIdentity)
    requires Provisioned(t, identity)
    ensures KeyOf(identity) in AclTable(t) && identity.documentId in t.jobs
  {
    hide AtMostOneCurrent;
  }

  lemma CommitKeepsProvision(t: Tables, c: Commit, identity: Identity.DocumentIdentity)
    requires SeamOk(t) && Provisioned(t, identity)
    ensures Provisioned(AfterCommit(t, c), identity)
  {
    hide Text, AtMostOneCurrent, EditedRow, MergedAcl, CurrentVersion;
    CommitKeeps(t, c);
    if Possible(t, c) {
      match c
      case Post(id, versionId, _, acl, _) =>
        FirstVersionIsCurrent(t.versions, VersionKey(id, Text(versionId)), VersionRow(true, acl, None),
          identity.documentId);
      case Put(id, update, now) => EditKeepsCurrent(t, id, update, now, identity.documentId);
      case SaveJob(_, _) =>
    }
  }

  /** Once an upload's commit is through, its task finds its rows in every later state: the ACL lookup
      for its identity succeeds, on the very version the upload created. */
  lemma {:induction false} UploadStaysProvisioned(history: seq<Commit>, post: Commit, later: seq<Commit>)
    requires post.Post? && Possible(TablesAfter(history), post)
    ensures var t := TablesAfter(history + [post] + later);
      var identity := Identity.DocumentIdentity(post.id, Text(post.versionId), post.repositoryId);
      Provisioned(t, identity) && KeyOf(identity) in AclTable(t)
    decreases |later|
  {
    hide Text, CurrentVersion, AtMostOneCurrent, EditedTables;
    var identity := Identity.DocumentIdentity(post.id, Text(post.versionId), post.repositoryId);
    var whole := history + [post] + later;
    if later == [] {
      assert whole[..|whole| - 1] == history && whole[|whole| - 1] == post;
      SeamAlways(history);
      PostKeeps(TablesAfter(history), post.id, post.versionId, post.repositoryId, post.acl, post.now);
    } else {
      var earlier := later[..|later| - 1];
      assert whole[..|whole| - 1] == history + [post] + earlier && whole[|whole| - 1] == later[|later| - 1];
      UploadStaysProvisioned(history, post, earlier);
      SeamAlways(history + [post] + earlier);
      CommitKeepsProvision(TablesAfter(history + [post] + earlier), later[|later| - 1], identity);
    }
  }
}
