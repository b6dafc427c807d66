/** The Postgres tables the service writes, and sessions on them: a session's writes are seen by itself
    at once and by everyone else when it commits. */
module Databases {
  import opened Wrappers
  import opened Uuids
  import Timestamps
  import Cursors
  import Keysets
  import JobStores
  import opened AclLookups
  import DocumentStores

  datatype DocumentRow = DocumentRow(
    documentId: Uuid,
    repositoryId: string,
    lifecycleState: string,
    authorityState: Option<string>,
    createdAt: Timestamps.DateTime,
    updatedAt: Timestamps.DateTime)

  /** `acl` is the row's four ACL columns; the primary key is the row's place in the table. */
  datatype VersionRow = VersionRow(isCommitted: bool, acl: DocumentStores.DocumentAcl, supersededBy: Option<string>)

  datatype Tables = Tables(jobs: map<Uuid, JobStores.Row>, documents: map<Uuid, DocumentRow>,
    versions: map<VersionKey, VersionRow>)

  const NO_ROWS := Tables(map[], map[], map[])

  /** Uncommitted writes over committed rows. */
  function Written(under: Tables, over: Tables): Tables {
    Tables(under.jobs + over.jobs, under.documents + over.documents, under.versions + over.versions)
  }

  class Database {
    var committed: Tables

    constructor ()
      ensures committed == NO_ROWS
    {
      committed := NO_ROWS;
    }
  }

  class Session {
    const db: Database
    var pending: Tables

    constructor (db: Database)
      ensures this.db == db && pending == NO_ROWS && Seen() == db.committed
    {
      this.db := db;
      pending := NO_ROWS;
      new;
      NothingWritten(db.committed);
    }

    function Seen(): Tables
      reads this, db
    {
      Written(db.committed, pending)
    }

    method Commit()
      modifies this, db
      ensures db.committed == Seen() == old(Seen()) && pending == NO_ROWS
    {
      db.committed := Seen();
      pending := NO_ROWS;
      NothingWritten(db.committed);
    }

    /** Closing without a commit rolls back. */
    method Close()
      modifies this
      ensures Seen() == db.committed && pending == NO_ROWS
    {
      pending := NO_ROWS;
      NothingWritten(db.committed);
    }

    method WriteJob(jobId: Uuid, row: JobStores.Row)
      modifies this
      ensures Seen() == old(Seen()).(jobs := old(Seen()).jobs[jobId := row])
    {
      pending := pending.(jobs := pending.jobs[jobId := row]);
      WriteLast(db.committed.jobs, old(pending).jobs, jobId, row);
    }

    method WriteDocument(row: DocumentRow)
      modifies this
      ensures Seen() == old(Seen()).(documents := old(Seen()).documents[row.documentId := row])
    {
      pending := pending.(documents := pending.documents[row.documentId := row]);
      WriteLast(db.committed.documents, old(pending).documents, row.documentId, row);
    }

    method WriteVersion(key: VersionKey, row: VersionRow)
      modifies this
      ensures Seen() == old(Seen()).(versions := old(Seen()).versions[key := row])
    {
      pending := pending.(versions := pending.versions[key := row]);
      WriteLast(db.committed.versions, old(pending).versions, key, row);
    }
  }

  lemma NothingWritten(t: Tables)
    ensures Written(t, NO_ROWS) == t
  {
    assert t.jobs + map[] == t.jobs && t.documents + map[] == t.documents && t.versions + map[] == t.versions;
  }

  lemma WriteLast<K, V>(under: map<K, V>, over: map<K, V>, key: K, row: V)
    ensures under + over[key := row] == (under + over)[key := row]
  {
  }

  // ---- Joining the two tables ----

  function DocumentKey(row: DocumentRow): Cursors.Key {
    Cursors.Key(row.createdAt, row.documentId)
  }

  type Versions = map<VersionKey, VersionRow>

  /** The version an ACL is read from: committed, and no newer version points away from it. */
  predicate IsCurrent(versions: Versions, key: VersionKey) {
    key in versions && versions[key].isCommitted && versions[key].supersededBy.None?
  }

  predicate AtMostOneCurrent(versions: Versions) {
    forall k, k' | k in versions && k' in versions ::
      IsCurrent(versions, k) && IsCurrent(versions, k') && k.documentId == k'.documentId ==> k == k'
  }

  /** What the constraints of the schema and the one writer of versions guarantee. */
  predicate Sound(t: Tables) {
    Keysets.Keyed(t.documents, DocumentKey) && AtMostOneCurrent(t.versions)
  }

  function CurrentVersion(versions: Versions, id: Uuid): (key: Option<VersionKey>)
    requires AtMostOneCurrent(versions)
    ensures key.Some? ==> IsCurrent(versions, key.value) && key.value.documentId == id
    ensures key.None? ==> forall k :: k in versions && k.documentId == id ==> !IsCurrent(versions, k)
  {
    if k :| k in versions && k.documentId == id && IsCurrent(versions, k) then Some(k) else None
  }

  /** A current version is the current version. */
  lemma CurrentIs(versions: Versions, key: VersionKey)
    requires AtMostOneCurrent(versions) && IsCurrent(versions, key)
    ensures CurrentVersion(versions, key.documentId) == Some(key)
  {
  }

  /** Edits of ACL columns leave every version as current as it was. */
  lemma AclEditKeepsCurrent(versions: Versions, key: VersionKey, acl: DocumentStores.DocumentAcl, id: Uuid)
    requires AtMostOneCurrent(versions) && key in versions
    ensures var versions' := versions[key := versions[key].(acl := acl)];
      AtMostOneCurrent(versions') && CurrentVersion(versions', id) == CurrentVersion(versions, id)
  {
    var versions' := versions[key := versions[key].(acl := acl)];
    assert forall k :: IsCurrent(versions, k) <==> IsCurrent(versions', k);
    var current := CurrentVersion(versions, id);
    if current.Some? {
      CurrentIs(versions', current.value);
    }
  }

  /** A first version of a new document is its current one, and no other document's. */
  lemma FirstVersionIsCurrent(versions: Versions, key: VersionKey, row: VersionRow, id: Uuid)
    requires AtMostOneCurrent(versions) && row.isCommitted && row.supersededBy.None?
    requires forall k :: k in versions ==> k.documentId != key.documentId
    ensures var versions' := versions[key := row];
      AtMostOneCurrent(versions') && CurrentVersion(versions', id) == if id == key.documentId then Some(key)
        else CurrentVersion(versions, id)
  {
    var versions' := versions[key := row];
    assert forall k :: IsCurrent(versions', k) <==> k == key || IsCurrent(versions, k);
    CurrentIs(versions', key);
    var current := CurrentVersion(versions, id);
    if id != key.documentId && current.Some? {
      CurrentIs(versions', current.value);
    }
  }
}
