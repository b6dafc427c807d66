/** `SqlAlchemyDocumentStore`: the same promises kept over `documents` and `document_versions`. */
module SqlDocumentStores {
  import opened Wrappers
  import opened Uuids
  import opened Timestamps
  import AclLookups
  import opened Cursors
  import opened Keysets
  import opened KeysetPages
  import opened DocumentStores
  import opened Databases

  function CurrentAcl(t: Tables, id: Uuid): Option<DocumentAcl>
    requires Sound(t)
  {
    match CurrentVersion(t.versions, id)
    case None => None
    case Some(key) => Some(t.versions[key].acl)
  }

  /** `_document_to_summary`. */
  function SummaryOf(row: DocumentRow, acl: Option<DocumentAcl>): DocumentSummary {
    DocumentSummary(row.documentId, row.repositoryId, row.lifecycleState, row.authorityState, row.createdAt,
      row.updatedAt, acl)
  }

  /** The summaries the two tables stand for. */
  function View(t: Tables): (view: map<Uuid, DocumentSummary>)
    requires Sound(t)
    ensures Keyed(view, SummaryKey)
  {
    map id | id in t.documents :: SummaryOf(t.documents[id], CurrentAcl(t, id))
  }

  /** The row's columns, and the ACL of the one version that is committed and not superseded. */
  lemma ViewJoins(t: Tables, id: Uuid, acl: DocumentAcl)
    requires Sound(t)
    ensures id in View(t) <==> id in t.documents
    ensures id in t.documents ==>
      var row, s := t.documents[id], View(t)[id];
      && s.documentId == row.documentId == id && s.repositoryId == row.repositoryId
      && s.lifecycleState == row.lifecycleState && s.authorityState == row.authorityState
      && s.createdAt == row.createdAt && s.updatedAt == row.updatedAt
      && (s.acl == Some(acl) <==> exists key ::
            && key in t.versions && key.documentId == id && t.versions[key].acl == acl
            && t.versions[key].isCommitted && t.versions[key].supersededBy.None?)
  {
    if key :| key in t.versions && key.documentId == id && t.versions[key].acl == acl && IsCurrent(t.versions, key) {
      CurrentIs(t.versions, key);
    }
  }

  // ---- Joining a page after cutting it is cutting the joined list ----

  function Summaries(t: Tables, rows: seq<DocumentRow>): (summaries: seq<DocumentSummary>)
    requires Sound(t)
    ensures |summaries| == |rows|
    ensures forall k :: 0 <= k < |rows| ==> summaries[k] == SummaryOf(rows[k], CurrentAcl(t, rows[k].documentId))
  {
    seq(|rows|, k requires 0 <= k < |rows| => SummaryOf(rows[k], CurrentAcl(t, rows[k].documentId)))
  }

  lemma ListingJoins(t: Tables)
    requires Sound(t)
    ensures Listing(View(t), SummaryKey) == Summaries(t, Listing(t.documents, DocumentKey))
  {
    hide Listing, Below, CurrentAcl;
    var rows, direct := Listing(t.documents, DocumentKey), Listing(View(t), SummaryKey);
    ListingLists(t.documents, DocumentKey);
    ListingLists(View(t), SummaryKey);
    ListingsLineUp(t.documents, DocumentKey, View(t), SummaryKey);
    forall k | 0 <= k < |rows|
      ensures direct[k] == Summaries(t, rows)[k]
    {
      assert DocumentKey(rows[k]).id == SummaryKey(direct[k]).id;
    }
  }

  lemma SameKey(row: DocumentRow, acl: Option<DocumentAcl>, bound: Option<Key>)
    ensures Under(SummaryOf(row, acl), bound, SummaryKey) <==> Under(row, bound, DocumentKey)
  {
  }

  lemma {:induction false} BeneathJoins(t: Tables, rows: seq<DocumentRow>, bound: Option<Key>)
    requires Sound(t)
    ensures Beneath(Summaries(t, rows), bound, SummaryKey) == Summaries(t, Beneath(rows, bound, DocumentKey))
  {
    hide Under, CurrentAcl, SummaryOf, Sound;
    if rows != [] {
      BeneathJoins(t, rows[1..], bound);
      var kept, head := Beneath(rows[1..], bound, DocumentKey), rows[0];
      assert Summaries(t, rows)[1..] == Summaries(t, rows[1..]);
      SameKey(head, CurrentAcl(t, head.documentId), bound);
      assert Summaries(t, [head] + kept) == [SummaryOf(head, CurrentAcl(t, head.documentId))] + Summaries(t, kept);
    }
  }

  lemma PaginateJoins(t: Tables, rows: seq<DocumentRow>, limit: nat)
    requires Sound(t)
    ensures var page := Paginate(rows, limit, DocumentKey);
      Paginate(Summaries(t, rows), limit, SummaryKey) == Page(Summaries(t, page.items), page.nextCursor)
  {
    hide EncodeCursor;
  }

  /** The statement: documents below the bound, in order, and one more than the page needs. */
  function SelectDocuments(t: Tables, bound: Option<Key>, limit: nat): seq<DocumentRow>
    requires Sound(t)
  {
    var found := Listing(Where(t.documents, (d: DocumentRow) => Under(d, bound, DocumentKey)), DocumentKey);
    if |found| > limit + 1 then found[..limit + 1] else found
  }

  lemma SelectIsEnough(t: Tables, bound: Option<Key>, limit: nat)
    requires Sound(t)
    ensures Paginate(SelectDocuments(t, bound, limit), limit, DocumentKey)
         == Paginate(Beneath(Listing(t.documents, DocumentKey), bound, DocumentKey), limit, DocumentKey)
  {
    hide Listing, Keep, Paginate;
    KeepOfListing(t.documents, (d: DocumentRow) => Under(d, bound, DocumentKey), DocumentKey);
    PeekSuffices(Listing(Where(t.documents, (d: DocumentRow) => Under(d, bound, DocumentKey)), DocumentKey), limit,
      DocumentKey);
  }

  /** The SQL list call: `LIMIT limit + 1` on the documents, then the ACLs of the page alone. */
  lemma SqlListIsList(t: Tables, bound: Option<Key>, limit: nat)
    requires Sound(t)
    ensures var page := Paginate(SelectDocuments(t, bound, limit), limit, DocumentKey);
      Page(Summaries(t, page.items), page.nextCursor)
        == Paginate(Remaining(View(t), bound, SummaryKey), limit, SummaryKey)
  {
    hide Listing, Keep, Paginate, Summaries, SelectDocuments, Beneath;
    SelectIsEnough(t, bound, limit);
    PaginateJoins(t, Beneath(Listing(t.documents, DocumentKey), bound, DocumentKey), limit);
    BeneathJoins(t, Listing(t.documents, DocumentKey), bound);
    ListingJoins(t);
  }

  // ---- Edits of the tables ----

  lemma DocumentEdited(t: Tables, row: DocumentRow)
    requires Sound(t)
    ensures var t' := t.(documents := t.documents[row.documentId := row]);
      Sound(t') && View(t') == View(t)[row.documentId := SummaryOf(row, CurrentAcl(t, row.documentId))]
  {
  }

  lemma VersionEdited(t: Tables, key: AclLookups.VersionKey, acl: DocumentAcl)
    requires Sound(t) && CurrentVersion(t.versions, key.documentId) == Some(key) && key.documentId in t.documents
    ensures var t' := t.(versions := t.versions[key := t.versions[key].(acl := acl)]);
      Sound(t') && View(t') == View(t)[key.documentId := View(t)[key.documentId].(acl := Some(acl))]
  {
    hide IsCurrent, AtMostOneCurrent;
    var t' := t.(versions := t.versions[key := t.versions[key].(acl := acl)]);
    forall id
      ensures AtMostOneCurrent(t'.versions) && CurrentVersion(t'.versions, id) == CurrentVersion(t.versions, id)
    {
      AclEditKeepsCurrent(t.versions, key, acl, id);
    }
  }

  function EditedRow(document: DocumentRow, update: DocumentUpdate, now: DateTime): DocumentRow {
    document.(lifecycleState := Or(update.lifecycleState, document.lifecycleState),
      authorityState := if update.authorityState.Some? then update.authorityState else document.authorityState,
      updatedAt := if TouchesDocument(update) then now else document.updatedAt)
  }

  function WithDocument(t: Tables, row: DocumentRow): Tables {
    t.(documents := t.documents[row.documentId := row])
  }

  function WithAcl(t: Tables, key: AclLookups.VersionKey, acl: DocumentAcl): Tables
    requires key in t.versions
  {
    t.(versions := t.versions[key := t.versions[key].(acl := acl)])
  }

  /** What a committed update does to the tables; a refused one leaves them alone. */
  function EditedTables(t: Tables, id: Uuid, update: DocumentUpdate, now: DateTime): Tables
    requires Sound(t)
  {
    var version := CurrentVersion(t.versions, id);
    if id !in t.documents || (update.acl.Some? && version.None?) then t
    else
      var edited := WithDocument(t, EditedRow(t.documents[id], update, now));
      if update.acl.None? then edited
      else WithAcl(edited, version.value, MergedAcl(t.versions[version.value].acl, update.acl.value))
  }

  lemma EditedRowId(document: DocumentRow, update: DocumentUpdate, now: DateTime)
    ensures EditedRow(document, update, now).documentId == document.documentId
  {
  }

  lemma RowOverlay(document: DocumentRow, acl: Option<DocumentAcl>, update: DocumentUpdate, now: DateTime)
    ensures var summary, edited := SummaryOf(document, acl), SummaryOf(EditedRow(document, update, now), acl);
      var overlaid := Overlaid(summary, update, Stamp(DocumentColumns, summary, update, now));
      && (update.acl.None? ==> edited == overlaid)
      && (update.acl.Some? && acl.Some? ==> edited.(acl := Some(MergedAcl(acl.value, update.acl.value))) == overlaid)
  {
  }

  /** The two edits of the tables, one after the other, lay the update over the summary. */
  lemma EditsOverlay(t: Tables, id: Uuid, update: DocumentUpdate, now: DateTime)
    requires Sound(t)
    ensures Sound(EditedTables(t, id, update, now))
    ensures View(EditedTables(t, id, update, now)) == UpdatedView(DocumentColumns, View(t), id, update, now)
  {
    hide AtMostOneCurrent, IsCurrent, MergedAcl, Overlaid, EditedRow, Stamp;
    if id in t.documents && (update.acl.None? || CurrentVersion(t.versions, id).Some?) {
      var row := EditedRow(t.documents[id], update, now);
      RowOverlay(t.documents[id], CurrentAcl(t, id), update, now);
      assert row.documentId == id by { EditedRowId(t.documents[id], update, now); }
      DocumentEdited(t, row);
      if update.acl.Some? {
        var key := CurrentVersion(t.versions, id).value;
        VersionEdited(WithDocument(t, row), key, MergedAcl(t.versions[key].acl, update.acl.value));
      }
    }
  }

  // ---- What the store answers, in terms of the rows ----

  /** `_fetch_current_acl`. */
  function FetchCurrentAcl(t: Tables, ids: set<Uuid>): map<Uuid, DocumentAcl>
    requires Sound(t)
  {
    map id | id in ids && CurrentVersion(t.versions, id).Some? :: t.versions[CurrentVersion(t.versions, id).value].acl
  }

  function WithPageAcl(row: DocumentRow, acls: map<Uuid, DocumentAcl>): DocumentSummary {
    SummaryOf(row, if row.documentId in acls then Some(acls[row.documentId]) else None)
  }

  function WithPageAcls(page: Page<DocumentRow>, acls: map<Uuid, DocumentAcl>): Page<DocumentSummary> {
    Page(seq(|page.items|, k requires 0 <= k < |page.items| => WithPageAcl(page.items[k], acls)), page.nextCursor)
  }

  /** One page of documents, then the ACLs of the documents on it. */
  function SqlPage(t: Tables, bound: Option<Key>, limit: nat): Page<DocumentSummary>
    requires Sound(t)
  {
    var page := Paginate(SelectDocuments(t, bound, limit), limit, DocumentKey);
    WithPageAcls(page, FetchCurrentAcl(t, set d | d in page.items :: d.documentId))
  }

  lemma PageAclsAreCurrent(t: Tables, page: Page<DocumentRow>)
    requires Sound(t)
    ensures WithPageAcls(page, FetchCurrentAcl(t, set d | d in page.items :: d.documentId))
         == Page(Summaries(t, page.items), page.nextCursor)
  {
    hide AtMostOneCurrent, IsCurrent;
    assert WithPageAcls(page, FetchCurrentAcl(t, set d | d in page.items :: d.documentId)).items
      == Summaries(t, page.items);
  }

  function SqlListAnswer(t: Tables, cursor: Option<string>, limit: nat): Result<Page<DocumentSummary>, StoreError>
    requires Sound(t)
  {
    match DecodeBound(cursor)
    case Failure(_) => Failure(CursorRefused)
    case Success(bound) => Success(SqlPage(t, bound, limit))
  }

  lemma SqlListAnswerIs(t: Tables, cursor: Option<string>, limit: nat)
    requires Sound(t)
    ensures SqlListAnswer(t, cursor, limit) == ListAnswer(View(t), cursor, limit)
  {
    hide DecodeBound, SelectDocuments, Paginate, FetchCurrentAcl, Summaries, WithPageAcls, Remaining, View;
    if DecodeBound(cursor).Success? {
      var bound := DecodeBound(cursor).value;
      PageAclsAreCurrent(t, Paginate(SelectDocuments(t, bound, limit), limit, DocumentKey));
      SqlListIsList(t, bound, limit);
    }
  }

  function SqlGetAnswer(t: Tables, id: Uuid): Option<DocumentSummary>
    requires Sound(t)
  {
    if id in t.documents then Some(SummaryOf(t.documents[id], CurrentAcl(t, id))) else None
  }

  /** The summary of the edited row and the merged ACL, or the first refusal on the way. */
  function SqlUpdateAnswer(t: Tables, id: Uuid, update: DocumentUpdate, now: DateTime)
    : Result<DocumentSummary, StoreError>
    requires Sound(t)
  {
    if id !in t.documents then Failure(DocumentNotFound)
    else
      var row, acl := EditedRow(t.documents[id], update, now), CurrentAcl(t, id);
      if update.acl.None? then Success(SummaryOf(row, acl))
      else if acl.None? then Failure(MissingAclVersion)
      else Success(SummaryOf(row, Some(MergedAcl(acl.value, update.acl.value))))
  }

  lemma SqlUpdateAnswerIs(t: Tables, id: Uuid, update: DocumentUpdate, now: DateTime)
    requires Sound(t)
    ensures SqlUpdateAnswer(t, id, update, now) == UpdateAnswer(DocumentColumns, View(t), id, update, now)
  {
    hide MergedAcl, AtMostOneCurrent;
    if id in t.documents {
      RowOverlay(t.documents[id], CurrentAcl(t, id), update, now);
    }
  }

  lemma RefusedEditsNothing(t: Tables, id: Uuid, update: DocumentUpdate, now: DateTime)
    requires Sound(t)
    ensures SqlUpdateAnswer(t, id, update, now).Failure? ==> EditedTables(t, id, update, now) == t
  {
    hide AtMostOneCurrent, EditedRow, MergedAcl;
  }

  class SqlAlchemyDocumentStore {
    const session: Session

    constructor (session: Session)
      ensures this.session == session
    {
      this.session := session;
    }

    method ListDocuments(cursor: Option<string>, limit: nat) returns (r: Result<Page<DocumentSummary>, StoreError>)
      requires Sound(session.Seen())
      ensures r == SqlListAnswer(session.Seen(), cursor, limit) == ListAnswer(View(session.Seen()), cursor, limit)
      ensures RightAnswer(r, View(session.Seen()), cursor, limit, SummaryKey, CursorRefused)
      ensures r.Success? ==> LatestDocumentsFirst(r.value.items)
    {
      ListAnswerIsRight(View(session.Seen()), cursor, limit);
      hide RightAnswer, LatestDocumentsFirst, SelectDocuments, Paginate, FetchCurrentAcl, WithPageAcls, View,
        ListAnswer, DecodeCursor;
      var t := session.Seen();
      SqlListAnswerIs(t, cursor, limit);
      var bound: Option<Key> := None;
      if cursor.Some? {
        var last := DecodeCursor(cursor.value);
        if last.Failure? {
          return Failure(CursorRefused);
        }
        bound := Some(last.value);
      }
      var rows := SelectDocuments(t, bound, limit);
      var page := Paginate(rows, limit, DocumentKey);
      var acls := FetchCurrentAcl(t, set d | d in page.items :: d.documentId);
      r := Success(WithPageAcls(page, acls));
    }

    method GetDocument(id: Uuid) returns (r: Option<DocumentSummary>)
      requires Sound(session.Seen())
      ensures r == SqlGetAnswer(session.Seen(), id)
      ensures r == if id in View(session.Seen()) then Some(View(session.Seen())[id]) else None
    {
      var t := session.Seen();
      r := if id in t.documents then Some(SummaryOf(t.documents[id], CurrentAcl(t, id))) else None;
    }

    /** The `UPDATE` of `documents`, if the update changes one of its columns. */
    method EditDocument(document: DocumentRow, update: DocumentUpdate, now: DateTime) returns (row: DocumentRow)
      requires document.documentId in session.Seen().documents
        && session.Seen().documents[document.documentId] == document
      modifies session
      ensures row == EditedRow(document, update, now) && session.Seen() == WithDocument(old(session.Seen()), row)
    {
      row := document;
      if update.lifecycleState.Some? {
        row := row.(lifecycleState := update.lifecycleState.value);
      }
      if update.authorityState.Some? {
        row := row.(authorityState := update.authorityState);
      }
      if update.lifecycleState.Some? || update.authorityState.Some? {
        row := row.(updatedAt := now);
        session.WriteDocument(row);
      } else {
        assert session.Seen().documents == session.Seen().documents[row.documentId := row];
      }
    }

    /** The `UPDATE` of `document_versions`, if the update changes one of its columns. */
    method EditVersion(version: AclLookups.VersionKey, current: DocumentAcl, changes: AclUpdate)
      returns (merged: DocumentAcl)
      requires version in session.Seen().versions && session.Seen().versions[version].acl == current
      modifies session
      ensures merged == MergedAcl(current, changes) && session.Seen() == WithAcl(old(session.Seen()), version, merged)
    {
      var row := session.Seen().versions[version];
      var values;
      values, merged := AclUpdateValues(current, changes);
      if values != NO_ACL_CHANGE {
        session.WriteVersion(version, row.(acl := MergedAcl(row.acl, values)));
      } else {
        assert row.(acl := merged) == row;
        assert session.Seen().versions == session.Seen().versions[version := row];
      }
    }

    /** One `UPDATE` per table touched. The document's `UPDATE` has gone out by the time a missing
        version is noticed: it is for the caller to roll it back. */
    method UpdateDocument(id: Uuid, update: DocumentUpdate, now: DateTime)
      returns (r: Result<DocumentSummary, StoreError>)
      requires Sound(session.Seen())
      modifies session
      ensures r == SqlUpdateAnswer(old(session.Seen()), id, update, now)
      ensures r == UpdateAnswer(DocumentColumns, View(old(session.Seen())), id, update, now)
      ensures r != Failure(MissingAclVersion) ==> session.Seen() == EditedTables(old(session.Seen()), id, update, now)
      ensures r == Failure(MissingAclVersion) ==>
        var t := old(session.Seen());
        id in t.documents && session.Seen() == WithDocument(t, EditedRow(t.documents[id], update, now))
      ensures r != Failure(MissingAclVersion) ==> Sound(session.Seen())
      ensures RightUpdate(View(old(session.Seen())), id, update, r,
        if r == Failure(MissingAclVersion) then View(old(session.Seen())) else View(session.Seen()))
      ensures r.Success? ==> StampedByColumn(View(old(session.Seen()))[id], update, now, r.value)
    {
      hide AtMostOneCurrent, MergedAcl, Written, View, UpdateAnswer, UpdatedView, RightUpdate, StampedByColumn;
      var t := session.Seen();
      SqlUpdateAnswerIs(t, id, update, now);
      EditsOverlay(t, id, update, now);
      UpdateIsRight(DocumentColumns, View(t), id, update, now);
      if id !in t.documents {
        return Failure(DocumentNotFound);
      }
      var row := EditDocument(t.documents[id], update, now);
      DocumentEdited(t, row);
      var t' := session.Seen();
      var version := CurrentVersion(t'.versions, id);
      var acl := CurrentAcl(t', id);
      if update.acl.Some? {
        if version.None? || acl.None? {
          return Failure(MissingAclVersion);
        }
        var merged := EditVersion(version.value, acl.value, update.acl.value);
        acl := Some(merged);
      }
      r := Success(SummaryOf(row, acl));
    }
  }
}
