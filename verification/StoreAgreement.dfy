/** The two document stores against each other, over every sequence of calls. */
module StoreAgreement {
  import opened Wrappers
  import Uuids
  import Timestamps
  import Cursors
  import opened Keysets
  import opened DocumentStores
  import opened Databases
  import opened SqlDocumentStores

  datatype Call =
    | ListDocuments(cursor: Option<string>, limit: nat)
    | GetDocument(id: Uuids.Uuid)
    | UpdateDocument(id: Uuids.Uuid, update: DocumentUpdate, now: Timestamps.DateTime)

  datatype Answer =
    | Listed(page: Result<Page<DocumentSummary>, StoreError>)
    | Got(summary: Option<DocumentSummary>)
    | Updated(outcome: Result<DocumentSummary, StoreError>)

  type Summaries = view: map<Uuids.Uuid, DocumentSummary> | Keyed(view, SummaryKey) witness map[]

  /** One call, on a store that stamps as given: its methods' contracts are these answers. */
  function AnswerTo(stamping: Stamping, view: Summaries, call: Call): Answer {
    match call
    case ListDocuments(cursor, limit) => Listed(ListAnswer(view, cursor, limit))
    case GetDocument(id) => Got(if id in view then Some(view[id]) else None)
    case UpdateDocument(id, update, now) => Updated(UpdateAnswer(stamping, view, id, update, now))
  }

  function ViewAfter(stamping: Stamping, view: Summaries, call: Call): Summaries {
    match call
    case UpdateDocument(id, update, now) => UpdatedView(stamping, view, id, update, now)
    case _ => view
  }

  function Answers(stamping: Stamping, view: Summaries, calls: seq<Call>): seq<Answer> {
    if calls == [] then []
    else [AnswerTo(stamping, view, calls[0])] + Answers(stamping, ViewAfter(stamping, view, calls[0]), calls[1..])
  }

  // ---- Agreement, but for updated_at ----

  function Ageless(s: DocumentSummary): DocumentSummary {
    s.(updatedAt := Timestamps.EPOCH)
  }

  ghost predicate SameRows(rows: seq<DocumentSummary>, rows': seq<DocumentSummary>) {
    |rows| == |rows'| && forall k :: 0 <= k < |rows| ==> Ageless(rows[k]) == Ageless(rows'[k])
  }

  ghost predicate SameView(view: Summaries, view': Summaries) {
    view.Keys == view'.Keys && forall id :: id in view ==> Ageless(view[id]) == Ageless(view'[id])
  }

  ghost predicate SameAnswer(answer: Answer, answer': Answer) {
    match (answer, answer')
    case (Listed(Success(page)), Listed(Success(page'))) => SameRows(page.items, page'.items)
      && page.nextCursor == page'.nextCursor
    case (Got(Some(s)), Got(Some(s'))) => Ageless(s) == Ageless(s')
    case (Updated(Success(s)), Updated(Success(s'))) => Ageless(s) == Ageless(s')
    case _ => answer == answer'
  }

  lemma SameListing(view: Summaries, view': Summaries)
    requires SameView(view, view')
    ensures SameRows(Listing(view, SummaryKey), Listing(view', SummaryKey))
  {
    hide Listing;
    var rows, rows' := Listing(view, SummaryKey), Listing(view', SummaryKey);
    ListingLists(view, SummaryKey);
    ListingLists(view', SummaryKey);
    assert forall id :: id in view ==> SummaryKey(view[id]) == SummaryKey(Ageless(view[id])) == SummaryKey(view'[id]);
    ListingsLineUp(view, SummaryKey, view', SummaryKey);
    forall k | 0 <= k < |rows|
      ensures Ageless(rows[k]) == Ageless(rows'[k])
    {
      assert SummaryKey(rows[k]).id == SummaryKey(rows'[k]).id;
    }
  }

  lemma KeepFirst(rows: seq<DocumentSummary>, bound: Option<Cursors.Key>)
    ensures Beneath(rows, bound, SummaryKey) == if rows == [] then []
      else
        var rest := Beneath(rows[1..], bound, SummaryKey);
        if Under(rows[0], bound, SummaryKey) then [rows[0]] + rest else rest
  {
    hide Under, SummaryKey;
  }

  lemma SameUnder(s: DocumentSummary, s': DocumentSummary, bound: Option<Cursors.Key>)
    requires Ageless(s) == Ageless(s')
    ensures Under(s, bound, SummaryKey) == Under(s', bound, SummaryKey)
  {
    assert SummaryKey(s) == SummaryKey(s');
  }

  lemma {:induction false} SameBeneath(rows: seq<DocumentSummary>, rows': seq<DocumentSummary>,
    bound: Option<Cursors.Key>)
    requires SameRows(rows, rows')
    ensures SameRows(Beneath(rows, bound, SummaryKey), Beneath(rows', bound, SummaryKey))
  {
    hide Beneath, Under, SummaryKey, Ageless;
    KeepFirst(rows, bound);
    KeepFirst(rows', bound);
    if rows != [] {
      SameUnder(rows[0], rows'[0], bound);
      SameBeneath(rows[1..], rows'[1..], bound);
    }
  }

  lemma SamePage(rows: seq<DocumentSummary>, rows': seq<DocumentSummary>, limit: nat)
    requires SameRows(rows, rows')
    ensures var page, page' := Paginate(rows, limit, SummaryKey), Paginate(rows', limit, SummaryKey);
      SameRows(page.items, page'.items) && page.nextCursor == page'.nextCursor
  {
    hide Cursors.EncodeCursor;
    if |rows| > limit > 0 {
      assert Ageless(rows[limit - 1]) == Ageless(rows'[limit - 1]);
    }
  }

  lemma SameList(view: Summaries, view': Summaries, cursor: Option<string>, limit: nat)
    requires SameView(view, view')
    ensures SameAnswer(Listed(ListAnswer(view, cursor, limit)), Listed(ListAnswer(view', cursor, limit)))
  {
    hide Listing, Beneath, Paginate, DecodeBound, SameRows, SameView, Ageless;
    SameListing(view, view');
    if DecodeBound(cursor).Success? {
      var bound := DecodeBound(cursor).value;
      SameBeneath(Listing(view, SummaryKey), Listing(view', SummaryKey), bound);
      SamePage(Remaining(view, bound, SummaryKey), Remaining(view', bound, SummaryKey), limit);
    }
  }

  lemma SameUpdate(stamping: Stamping, view: Summaries, stamping': Stamping, view': Summaries, id: Uuids.Uuid,
                   update: DocumentUpdate, now: Timestamps.DateTime)
    requires SameView(view, view')
    ensures SameAnswer(Updated(UpdateAnswer(stamping, view, id, update, now)),
      Updated(UpdateAnswer(stamping', view', id, update, now)))
    ensures SameView(UpdatedView(stamping, view, id, update, now), UpdatedView(stamping', view', id, update, now))
  {
    if id in view {
      assert Ageless(view[id]) == Ageless(view'[id]);
    }
  }

  lemma SameStep(stamping: Stamping, view: Summaries, stamping': Stamping, view': Summaries, call: Call)
    requires SameView(view, view')
    ensures SameAnswer(AnswerTo(stamping, view, call), AnswerTo(stamping', view', call))
    ensures SameView(ViewAfter(stamping, view, call), ViewAfter(stamping', view', call))
  {
    hide ListAnswer, UpdateAnswer, UpdatedView;
    match call
    case ListDocuments(cursor, limit) => SameList(view, view', cursor, limit);
    case GetDocument(id) =>
    case UpdateDocument(id, update, now) => SameUpdate(stamping, view, stamping', view', id, update, now);
  }

  lemma {:induction false} AnswersAgree(stamping: Stamping, view: Summaries, stamping': Stamping, view': Summaries,
                                        calls: seq<Call>)
    requires SameView(view, view')
    ensures var a, a' := Answers(stamping, view, calls), Answers(stamping', view', calls);
      |a| == |a'| == |calls| && forall k :: 0 <= k < |calls| ==> SameAnswer(a[k], a'[k])
    decreases |calls|
  {
    hide AnswerTo, ViewAfter, SameAnswer, SameView;
    if calls != [] {
      SameStep(stamping, view, stamping', view', calls[0]);
      AnswersAgree(stamping, ViewAfter(stamping, view, calls[0]), stamping', ViewAfter(stamping', view', calls[0]),
        calls[1..]);
    }
  }

  // ---- The two-table store ----

  /** One request to the SQL store: what it answers from the two tables, and the tables it commits. The
      store's methods promise these answers, `AdminRoutes.PutDocument` these tables. */
  function TableAnswer(t: Tables, call: Call): Answer
    requires Sound(t)
  {
    match call
    case ListDocuments(cursor, limit) => Listed(SqlListAnswer(t, cursor, limit))
    case GetDocument(id) => Got(SqlGetAnswer(t, id))
    case UpdateDocument(id, update, now) => Updated(SqlUpdateAnswer(t, id, update, now))
  }

  function TablesAfterCall(t: Tables, call: Call): (t': Tables)
    requires Sound(t)
    ensures Sound(t')
  {
    match call
    case UpdateDocument(id, update, now) =>
      EditsOverlay(t, id, update, now);
      EditedTables(t, id, update, now)
    case _ => t
  }

  function TableAnswers(t: Tables, calls: seq<Call>): seq<Answer>
    requires Sound(t)
    decreases |calls|
  {
    if calls == [] then [] else [TableAnswer(t, calls[0])] + TableAnswers(TablesAfterCall(t, calls[0]), calls[1..])
  }

  lemma TableStep(t: Tables, call: Call)
    requires Sound(t)
    ensures TableAnswer(t, call) == AnswerTo(DocumentColumns, View(t), call)
    ensures View(TablesAfterCall(t, call)) == ViewAfter(DocumentColumns, View(t), call)
  {
    hide SqlListAnswer, SqlUpdateAnswer, EditedTables, AtMostOneCurrent;
    match call
    case ListDocuments(cursor, limit) => SqlListAnswerIs(t, cursor, limit);
    case GetDocument(id) =>
    case UpdateDocument(id, update, now) =>
      SqlUpdateAnswerIs(t, id, update, now);
      EditsOverlay(t, id, update, now);
  }

  /** Over any sequence of calls the rows answer as their joined summaries would. */
  lemma {:induction false} TablesAnswerAsView(t: Tables, calls: seq<Call>)
    requires Sound(t)
    ensures TableAnswers(t, calls) == Answers(DocumentColumns, View(t), calls)
    decreases |calls|
  {
    hide Sound, View, TableAnswer, TablesAfterCall, AnswerTo, ViewAfter;
    if calls != [] {
      TableStep(t, calls[0]);
      TablesAnswerAsView(TablesAfterCall(t, calls[0]), calls[1..]);
    }
  }

  /** The in-memory store's answers, from its dictionary: what its methods promise. */
  function DictionaryAnswers(documents: Summaries, calls: seq<Call>): seq<Answer> {
    Answers(Always, documents, calls)
  }

  /** Whatever is called in whatever order, `LIMIT`ed joins and `UPDATE`s over the two tables and the one
      dictionary of summaries give the same pages, the same cursors, the same errors and the same
      summaries, except for `updated_at`. */
  lemma StoresAgree(t: Tables, documents: Summaries, calls: seq<Call>)
    requires Sound(t) && SameView(View(t), documents)
    ensures var a, a' := TableAnswers(t, calls), DictionaryAnswers(documents, calls);
      |a| == |a'| == |calls| && forall k :: 0 <= k < |calls| ==> SameAnswer(a[k], a'[k])
  {
    hide Sound, View, SameAnswer, SameView, TableAnswers, Answers;
    TablesAnswerAsView(t, calls);
    AnswersAgree(DocumentColumns, View(t), Always, documents, calls);
  }

  // ---- Exactly when updated_at agrees too ----

  /** The call is no accepted update that the SQL store leaves unstamped: an ACL edit, or nothing at all,
      at another instant than the one stored. */
  predicate Stamped(view: Summaries, call: Call) {
    call.UpdateDocument? ==>
      Refusal(view, call.id, call.update).Some? || TouchesDocument(call.update) || view[call.id].updatedAt == call.now
  }

  predicate AllStamped(view: Summaries, calls: seq<Call>) {
    calls == [] || (Stamped(view, calls[0]) && AllStamped(ViewAfter(Always, view, calls[0]), calls[1..]))
  }

  lemma StampedStep(view: Summaries, call: Call)
    ensures Stamped(view, call) <==> AnswerTo(DocumentColumns, view, call) == AnswerTo(Always, view, call)
    ensures Stamped(view, call) ==> ViewAfter(DocumentColumns, view, call) == ViewAfter(Always, view, call)
  {
    hide ListAnswer, MergedAcl;
  }

  lemma {:induction false} AnswersEqualIff(view: Summaries, calls: seq<Call>)
    ensures Answers(DocumentColumns, view, calls) == Answers(Always, view, calls) <==> AllStamped(view, calls)
    decreases |calls|
  {
    hide AnswerTo, ViewAfter, Stamped;
    if calls != [] {
      StampedStep(view, calls[0]);
      var next, next' := ViewAfter(DocumentColumns, view, calls[0]), ViewAfter(Always, view, calls[0]);
      var a, a' := Answers(DocumentColumns, view, calls), Answers(Always, view, calls);
      assert a[0] == AnswerTo(DocumentColumns, view, calls[0]) && a[1..] == Answers(DocumentColumns, next, calls[1..]);
      assert a'[0] == AnswerTo(Always, view, calls[0]) && a'[1..] == Answers(Always, next', calls[1..]);
      AnswersEqualIff(next', calls[1..]);
    }
  }

  /** Starting from the same summaries, the two stores give equal answers throughout, `updated_at`
      included, if and only if no accepted update on the way left the `documents` columns alone at an
      instant other than the one stored. */
  lemma StampsAgreeIff(t: Tables, calls: seq<Call>)
    requires Sound(t)
    ensures TableAnswers(t, calls) == DictionaryAnswers(View(t), calls) <==> AllStamped(View(t), calls)
  {
    hide Sound, View, TableAnswers, Answers, AllStamped;
    TablesAnswerAsView(t, calls);
    AnswersEqualIff(View(t), calls);
  }
}
