/** The requests of `api/admin_routes.py`, each in its own session (`get_session`). */
module AdminRoutes {
  import Wrappers
  import Uuids
  import Timestamps
  import Keysets
  import KeysetPages
  import opened DocumentStores
  import opened Databases
  import opened SqlDocumentStores

  const MAX_LIMIT: nat := 200

  /** `max(1, min(limit, MAX_LIMIT))`: whatever the client asks for, a page has room for a row. */
  function ClampLimit(limit: int): (clamped: nat)
    ensures 1 <= clamped <= MAX_LIMIT && (1 <= limit <= MAX_LIMIT ==> clamped == limit)
  {
    if limit < 1 then 1 else if limit > MAX_LIMIT then MAX_LIMIT else limit
  }

  method GetDocuments(db: Database, cursor: Wrappers.Option<string>, limit: int)
    returns (r: Wrappers.Result<Keysets.Page<DocumentSummary>, StoreError>)
    requires Sound(db.committed)
    modifies db
    ensures db.committed == old(db.committed)
    ensures r == ListAnswer(View(db.committed), cursor, ClampLimit(limit))
    ensures KeysetPages.RightAnswer(r, View(db.committed), cursor, ClampLimit(limit), SummaryKey, CursorRefused)
    ensures r.Success? ==> LatestDocumentsFirst(r.value.items)
  {
    var session := new Session(db);
    var store := new SqlAlchemyDocumentStore(session);
    r := store.ListDocuments(cursor, ClampLimit(limit));
    session.Commit();
    session.Close();
  }

  /** An unknown document is answered like any request, having written nothing. A missing ACL version
      escapes as a server error: the session closes without a commit, so the document's `UPDATE` is
      undone. Either way the tables show a whole update or none of it. */
  method PutDocument(db: Database, id: Uuids.Uuid, update: DocumentUpdate, now: Timestamps.DateTime)
    returns (r: Wrappers.Result<DocumentSummary, StoreError>)
    requires Sound(db.committed)
    modifies db
    ensures Sound(db.committed)
    ensures r == UpdateAnswer(DocumentColumns, View(old(db.committed)), id, update, now)
    ensures db.committed == EditedTables(old(db.committed), id, update, now)
    ensures View(db.committed) == UpdatedView(DocumentColumns, View(old(db.committed)), id, update, now)
    ensures RightUpdate(View(old(db.committed)), id, update, r, View(db.committed))
    ensures r.Success? ==> StampedByColumn(View(old(db.committed))[id], update, now, r.value)
  {
    UpdateIsRight(DocumentColumns, View(db.committed), id, update, now);
    hide RightUpdate, StampedByColumn, View, UpdatedView, UpdateAnswer, SqlUpdateAnswer, AtMostOneCurrent,
      EditedTables, Written;
    EditsOverlay(db.committed, id, update, now);
    RefusedEditsNothing(db.committed, id, update, now);
    var session := new Session(db);
    var store := new SqlAlchemyDocumentStore(session);
    r := store.UpdateDocument(id, update, now);
    if r != Wrappers.Failure(MissingAclVersion) {
      session.Commit();
    }
    session.Close();
  }
}
