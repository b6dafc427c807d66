/** `admin/document_store.py`: the admin document list, over two tables and in memory. */
module DocumentStores {
  import opened Wrappers
  import opened Uuids
  import opened Timestamps
  import Cursors
  import opened Keysets
  import opened KeysetPages

  datatype DocumentAcl = DocumentAcl(allowPrincipals: seq<string>, denyPrincipals: seq<string>,
    securityLabel: string, retentionState: string)

  datatype DocumentSummary = DocumentSummary(
    documentId: Uuid,
    repositoryId: string,
    lifecycleState: string,
    authorityState: Option<string>,
    createdAt: DateTime,
    updatedAt: DateTime,
    acl: Option<DocumentAcl>)

  /** The fields to change; the others stay. */
  datatype AclUpdate = AclUpdate(
    allowPrincipals: Option<seq<string>>,
    denyPrincipals: Option<seq<string>>,
    securityLabel: Option<string>,
    retentionState: Option<string>)

  datatype DocumentUpdate = DocumentUpdate(acl: Option<AclUpdate>, lifecycleState: Option<string>,
    authorityState: Option<string>)

  datatype StoreError = DocumentNotFound | MissingAclVersion | CursorRefused

  function Or<T>(change: Option<T>, current: T): T {
    if change.Some? then change.value else current
  }

  // ---- What both stores promise, on summaries ----

  function MergedAcl(current: DocumentAcl, changes: AclUpdate): DocumentAcl {
    DocumentAcl(Or(changes.allowPrincipals, current.allowPrincipals),
      Or(changes.denyPrincipals, current.denyPrincipals), Or(changes.securityLabel, current.securityLabel),
      Or(changes.retentionState, current.retentionState))
  }

  /** A partial update laid over a summary. */
  function Overlaid(s: DocumentSummary, update: DocumentUpdate, updatedAt: DateTime): DocumentSummary {
    DocumentSummary(s.documentId, s.repositoryId, Or(update.lifecycleState, s.lifecycleState),
      if update.authorityState.Some? then update.authorityState else s.authorityState,
      s.createdAt, updatedAt,
      if update.acl.Some? && s.acl.Some? then Some(MergedAcl(s.acl.value, update.acl.value)) else s.acl)
  }

  const NO_CHANGE := DocumentUpdate(None, None, None)
  const NO_ACL_CHANGE := AclUpdate(None, None, None, None)

  /** An empty update changes nothing, an update applied twice is applied once, and it changes the fields
      that are given, and these only, to what is given. */
  lemma OverlayLaws(s: DocumentSummary, update: DocumentUpdate, first: DateTime, second: DateTime)
    ensures Overlaid(s, NO_CHANGE, s.updatedAt) == s
    ensures Overlaid(s, NO_CHANGE.(acl := Some(NO_ACL_CHANGE)), s.updatedAt) == s
    ensures Overlaid(Overlaid(s, update, first), update, second) == Overlaid(s, update, second)
    ensures update.acl.None? || s.acl.Some? ==> SummaryFields(s, update, Overlaid(s, update, first))
  {
  }

  function Refusal(view: map<Uuid, DocumentSummary>, id: Uuid, update: DocumentUpdate): Option<StoreError> {
    if id !in view then Some(DocumentNotFound)
    else if update.acl.Some? && view[id].acl.None? then Some(MissingAclVersion)
    else None
  }

  /** The update changes a column of `documents`. */
  predicate TouchesDocument(update: DocumentUpdate) {
    update.lifecycleState.Some? || update.authorityState.Some?
  }

  /** The in-memory store stamps every update, the two-table store only those of `documents`. */
  datatype Stamping = Always | DocumentColumns

  function Stamp(stamping: Stamping, s: DocumentSummary, update: DocumentUpdate, now: DateTime): DateTime {
    if stamping.Always? || TouchesDocument(update) then now else s.updatedAt
  }

  function UpdatedView(stamping: Stamping, view: map<Uuid, DocumentSummary>, id: Uuid, update: DocumentUpdate,
                       now: DateTime): map<Uuid, DocumentSummary> {
    if Refusal(view, id, update).Some? then view
    else view[id := Overlaid(view[id], update, Stamp(stamping, view[id], update, now))]
  }

  function UpdateAnswer(stamping: Stamping, view: map<Uuid, DocumentSummary>, id: Uuid, update: DocumentUpdate,
                        now: DateTime): Result<DocumentSummary, StoreError> {
    match Refusal(view, id, update)
    case Some(error) => Failure(error)
    case None => Success(Overlaid(view[id], update, Stamp(stamping, view[id], update, now)))
  }

  function SummaryKey(s: DocumentSummary): Cursors.Key {
    Cursors.Key(s.createdAt, s.documentId)
  }

  function ListAnswer(view: map<Uuid, DocumentSummary>, cursor: Option<string>, limit: nat)
    : Result<Page<DocumentSummary>, StoreError>
    requires Keyed(view, SummaryKey)
  {
    match Fetch(view, cursor, limit, SummaryKey)
    case Failure(_) => Failure(CursorRefused)
    case Success(page) => Success(page)
  }

  // ---- The same, one field at a time ----

  /** Later by `created_at` first, the larger id first among those created together. */
  ghost predicate LatestDocumentsFirst(items: seq<DocumentSummary>) {
    forall i, j :: 0 <= i < j < |items| ==>
      || Earlier(items[j].createdAt, items[i].createdAt)
      || (SameFields(items[i].createdAt, items[j].createdAt) && items[i].documentId > items[j].documentId)
  }

  lemma ListAnswerIsRight(view: map<Uuid, DocumentSummary>, cursor: Option<string>, limit: nat)
    requires Keyed(view, SummaryKey)
    ensures RightAnswer(ListAnswer(view, cursor, limit), view, cursor, limit, SummaryKey, CursorRefused)
    ensures var r := ListAnswer(view, cursor, limit);
      r.Success? ==> LatestDocumentsFirst(r.value.items)
  {
    hide LatestFirst, Fetch, Cursors.DecodeCursor, LatestDocumentsFirst;
    FetchIsRight(view, cursor, limit, SummaryKey);
    if ListAnswer(view, cursor, limit).Success? {
      LatestDocuments(ListAnswer(view, cursor, limit).value.items);
    }
  }

  lemma LatestDocuments(items: seq<DocumentSummary>)
    requires LatestFirst(items, SummaryKey)
    ensures LatestDocumentsFirst(items)
  {
    hide Earlier, SameFields;
    assert forall i, j :: 0 <= i < j < |items| ==> ListedBefore(SummaryKey(items[i]), SummaryKey(items[j]));
  }

  /** A field that is given is found afterwards, and one that is not is what it was. */
  predicate AclFields(was: DocumentAcl, changes: AclUpdate, acl: DocumentAcl) {
    && acl.allowPrincipals == (match changes.allowPrincipals case Some(given) => given case None => was.allowPrincipals)
    && acl.denyPrincipals == (match changes.denyPrincipals case Some(given) => given case None => was.denyPrincipals)
    && acl.securityLabel == (match changes.securityLabel case Some(given) => given case None => was.securityLabel)
    && acl.retentionState == (match changes.retentionState case Some(given) => given case None => was.retentionState)
  }

  predicate SummaryFields(was: DocumentSummary, update: DocumentUpdate, s: DocumentSummary) {
    && s.documentId == was.documentId && s.repositoryId == was.repositoryId && s.createdAt == was.createdAt
    && s.lifecycleState == (match update.lifecycleState case Some(given) => given case None => was.lifecycleState)
    && s.authorityState == (match update.authorityState case Some(given) => Some(given) case None => was.authorityState)
    && (update.acl.None? ==> s.acl == was.acl)
    && (update.acl.Some? ==> was.acl.Some? && s.acl.Some? && AclFields(was.acl.value, update.acl.value, s.acl.value))
  }

  /** Who is told what and what changes, told without the overlay: an unknown document and a missing ACL
      are refused and change nothing, and an accepted update changes the fields it gives of this one
      summary. */
  ghost predicate RightUpdate(view: map<Uuid, DocumentSummary>, id: Uuid, update: DocumentUpdate,
    r: Result<DocumentSummary, StoreError>, view': map<Uuid, DocumentSummary>) {
    && (id !in view ==> r == Failure(DocumentNotFound) && view' == view)
    && (id in view && update.acl.Some? && view[id].acl.None? ==> r == Failure(MissingAclVersion) && view' == view)
    && (id in view && !(update.acl.Some? && view[id].acl.None?) ==>
          r.Success? && SummaryFields(view[id], update, r.value) && view' == view[id := r.value])
  }

  /** The two-table store stamps an update that gives a column of `documents`, and no other. */
  predicate StampedByColumn(was: DocumentSummary, update: DocumentUpdate, now: DateTime, s: DocumentSummary) {
    s.updatedAt == if update.lifecycleState.Some? || update.authorityState.Some? then now else was.updatedAt
  }

  lemma UpdateIsRight(stamping: Stamping, view: map<Uuid, DocumentSummary>, id: Uuid, update: DocumentUpdate,
    now: DateTime)
    ensures var r := UpdateAnswer(stamping, view, id, update, now);
      && RightUpdate(view, id, update, r, UpdatedView(stamping, view, id, update, now))
      && (r.Success? && stamping.Always? ==> r.value.updatedAt == now)
      && (r.Success? && stamping.DocumentColumns? ==> StampedByColumn(view[id], update, now, r.value))
  {
  }

  // ---- In memory ----

  /** The `SET` values of an update, and the merged result: `_acl_update_values`. */
  method AclUpdateValues(current: DocumentAcl, changes: AclUpdate) returns (values: AclUpdate, merged: DocumentAcl)
    ensures values == changes && merged == MergedAcl(current, changes)
    ensures AclFields(current, changes, merged)
  {
    values := NO_ACL_CHANGE;
    if changes.allowPrincipals.Some? {
      values := values.(allowPrincipals := changes.allowPrincipals);
    }
    if changes.denyPrincipals.Some? {
      values := values.(denyPrincipals := changes.denyPrincipals);
    }
    if changes.securityLabel.Some? {
      values := values.(securityLabel := changes.securityLabel);
    }
    if changes.retentionState.Some? {
      values := values.(retentionState := changes.retentionState);
    }
    merged := DocumentAcl(Or(changes.allowPrincipals, current.allowPrincipals),
      Or(changes.denyPrincipals, current.denyPrincipals), Or(changes.securityLabel, current.securityLabel),
      Or(changes.retentionState, current.retentionState));
  }

  class FakeDocumentStore {
    var documents: map<Uuid, DocumentSummary>

    ghost predicate Valid()
      reads this
    {
      Keyed(documents, SummaryKey)
    }

    constructor ()
      ensures Valid() && documents == map[]
    {
      documents := map[];
    }

    method Seed(summary: DocumentSummary)
      requires Valid()
      modifies this
      ensures Valid() && documents == old(documents)[summary.documentId := summary]
    {
      documents := documents[summary.documentId := summary];
    }

    method ListDocuments(cursor: Option<string>, limit: nat) returns (r: Result<Page<DocumentSummary>, StoreError>)
      requires Valid()
      ensures r == ListAnswer(documents, cursor, limit)
      ensures RightAnswer(r, documents, cursor, limit, SummaryKey, CursorRefused)
      ensures r.Success? ==> LatestDocumentsFirst(r.value.items)
    {
      hide RightAnswer, LatestDocumentsFirst, Paginate;
      ListAnswerIsRight(documents, cursor, limit);
      var rows := Listing(documents, SummaryKey);
      if cursor.Some? {
        var last := Cursors.DecodeCursor(cursor.value);
        if last.Failure? {
          return Failure(CursorRefused);
        }
        rows := Beneath(rows, Some(last.value), SummaryKey);
      } else {
        BeneathNothing(rows, SummaryKey);
      }
      r := Success(Paginate(rows, limit, SummaryKey));
    }

    method GetDocument(id: Uuid) returns (r: Option<DocumentSummary>)
      ensures r == if id in documents then Some(documents[id]) else None
    {
      r := if id in documents then Some(documents[id]) else None;
    }

    method UpdateDocument(id: Uuid, update: DocumentUpdate, now: DateTime)
      returns (r: Result<DocumentSummary, StoreError>)
      requires Valid()
      modifies this
      ensures Valid()
      ensures r == UpdateAnswer(Always, old(documents), id, update, now)
      ensures documents == UpdatedView(Always, old(documents), id, update, now)
      ensures RightUpdate(old(documents), id, update, r, documents)
      ensures r.Success? ==> r.value.updatedAt == now
    {
      UpdateIsRight(Always, documents, id, update, now);
      hide RightUpdate, AclFields;
      if id !in documents {
        return Failure(DocumentNotFound);
      }
      var existing := documents[id];
      var acl := existing.acl;
      if update.acl.Some? {
        if acl.None? {
          return Failure(MissingAclVersion);
        }
        var _, merged := AclUpdateValues(acl.value, update.acl.value);
        acl := Some(merged);
      }
      var updated := existing.(
        lifecycleState := if update.lifecycleState.Some? then update.lifecycleState.value else existing.lifecycleState,
        authorityState := if update.authorityState.Some? then update.authorityState else existing.authorityState,
        acl := acl,
        updatedAt := now);
      documents := documents[id := updated];
      r := Success(updated);
    }
  }
}
