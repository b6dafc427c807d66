/** What one page shows, told without the sort and the filter that produce it. */
module KeysetPages {
  import opened Wrappers
  import Uuids
  import Timestamps
  import opened Cursors
  import opened Keysets
  import opened KeysetWalks

  /** A row comes after the cursor's key; without a cursor every row does. */
  predicate Due(key: Key, bound: Option<Key>) {
    bound.None? || ListedBefore(bound.value, key)
  }

  /** A row that is due but not on the page. */
  ghost predicate LeftOut<T>(page: Page<T>, table: map<Uuids.Uuid, T>, bound: Option<Key>, keyOf: T -> Key,
    id: Uuids.Uuid) {
    id in table && Due(keyOf(table[id]), bound) && table[id] !in page.items
  }

  ghost predicate AllBefore<T(!new)>(rows: seq<T>, key: Key, keyOf: T -> Key) {
    forall k :: 0 <= k < |rows| ==> ListedBefore(keyOf(rows[k]), key)
  }

  /** The page holds due rows of the table and no others, the latest first and at most `limit` of them;
      a due row is left out only for want of room and only if it comes after all that are shown; and
      there is a cursor, standing for the last row shown, exactly when a row was left out. */
  ghost predicate RightPage<T(!new)>(page: Page<T>, table: map<Uuids.Uuid, T>, bound: Option<Key>, limit: nat,
    keyOf: T -> Key) {
    && LatestFirst(page.items, keyOf) && |page.items| <= limit
    && (forall k :: 0 <= k < |page.items| ==>
          && keyOf(page.items[k]).id in table && table[keyOf(page.items[k]).id] == page.items[k]
          && Due(keyOf(page.items[k]), bound))
    && (forall id :: LeftOut(page, table, bound, keyOf, id) ==>
          |page.items| == limit && AllBefore(page.items, keyOf(table[id]), keyOf))
    && (page.nextCursor.Some? <==> limit > 0 && exists id :: LeftOut(page, table, bound, keyOf, id))
    && (page.nextCursor.Some? ==>
          |page.items| > 0 && DecodeCursor(page.nextCursor.value) == Success(keyOf(page.items[|page.items| - 1])))
  }

  /** The answer of a list call: a malformed cursor is refused, any other gives the page it asks for. */
  ghost predicate RightAnswer<T(!new), E>(r: Result<Page<T>, E>, table: map<Uuids.Uuid, T>, cursor: Option<string>,
    limit: nat, keyOf: T -> Key, refusal: E) {
    match cursor
    case None => r.Success? && RightPage(r.value, table, None, limit, keyOf)
    case Some(text) =>
      match DecodeCursor(text)
      case Failure(_) => r == Failure(refusal)
      case Success(key) => r.Success? && RightPage(r.value, table, Some(key), limit, keyOf)
  }

  lemma UnderIsDue<T>(x: T, bound: Option<Key>, keyOf: T -> Key)
    ensures Under(x, bound, keyOf) <==> Due(keyOf(x), bound)
  {
    if bound.Some? {
      BelowIsAfter(bound.value, keyOf(x));
    }
  }

  lemma PageHolds<T(!new)>(rows: seq<T>, table: map<Uuids.Uuid, T>, bound: Option<Key>, limit: nat, keyOf: T -> Key)
    requires Descending(rows, keyOf) && ListsBelow(rows, table, bound, keyOf)
    ensures var page := Paginate(rows, limit, keyOf);
      && LatestFirst(page.items, keyOf)
      && forall k :: 0 <= k < |page.items| ==>
        && keyOf(page.items[k]).id in table && table[keyOf(page.items[k]).id] == page.items[k]
        && Due(keyOf(page.items[k]), bound)
  {
    hide EncodeCursor, Below, Under, Due, ListedBefore;
    var page := Paginate(rows, limit, keyOf);
    DescendingIsLatestFirst(page.items, keyOf);
    forall k | 0 <= k < |page.items|
      ensures Due(keyOf(page.items[k]), bound)
    {
      assert page.items[k] == rows[k];
      UnderIsDue(rows[k], bound, keyOf);
    }
  }

  /** A row left out is one of those that did not fit. */
  lemma LeftOutIsLater<T(!new)>(rows: seq<T>, table: map<Uuids.Uuid, T>, bound: Option<Key>, limit: nat,
    keyOf: T -> Key, id: Uuids.Uuid)
    requires Descending(rows, keyOf) && ListsBelow(rows, table, bound, keyOf)
    requires LeftOut(Paginate(rows, limit, keyOf), table, bound, keyOf, id)
    ensures |rows| > limit && AllBefore(rows[..limit], keyOf(table[id]), keyOf)
  {
    hide EncodeCursor, Below, Under, Due, ListedBefore;
    UnderIsDue(table[id], bound, keyOf);
    var j :| 0 <= j < |rows| && rows[j] == table[id];
    var page := Paginate(rows, limit, keyOf);
    assert forall k :: 0 <= k < |page.items| ==> page.items[k] == rows[k] && rows[k] != rows[j];
    forall k | 0 <= k < limit
      ensures ListedBefore(keyOf(rows[..limit][k]), keyOf(table[id]))
    {
      BelowIsAfter(keyOf(rows[k]), keyOf(rows[j]));
    }
  }

  /** And if they did not all fit, the next one was left out. */
  lemma NextIsLeftOut<T(!new)>(rows: seq<T>, table: map<Uuids.Uuid, T>, bound: Option<Key>, limit: nat,
    keyOf: T -> Key)
    requires Descending(rows, keyOf) && ListsBelow(rows, table, bound, keyOf) && |rows| > limit
    ensures LeftOut(Paginate(rows, limit, keyOf), table, bound, keyOf, keyOf(rows[limit]).id)
  {
    hide EncodeCursor, Timestamps.Instant, Under, Due;
    UnderIsDue(rows[limit], bound, keyOf);
    forall k | 0 <= k < limit
      ensures rows[k] != rows[limit]
    {
      assert Below(keyOf(rows[limit]), keyOf(rows[k]));
    }
  }

  lemma LeavesOutIff<T(!new)>(rows: seq<T>, table: map<Uuids.Uuid, T>, bound: Option<Key>, limit: nat, keyOf: T -> Key)
    requires Descending(rows, keyOf) && ListsBelow(rows, table, bound, keyOf)
    ensures |rows| > limit <==> exists id :: LeftOut(Paginate(rows, limit, keyOf), table, bound, keyOf, id)
  {
    hide Paginate, Descending, ListsBelow, LeftOut, AllBefore;
    var page := Paginate(rows, limit, keyOf);
    if |rows| > limit {
      NextIsLeftOut(rows, table, bound, limit, keyOf);
    }
    if id :| LeftOut(page, table, bound, keyOf, id) {
      LeftOutIsLater(rows, table, bound, limit, keyOf, id);
    }
  }

  lemma CursorStands<T(!new)>(rows: seq<T>, limit: nat, keyOf: T -> Key)
    ensures var page := Paginate(rows, limit, keyOf);
      && (page.nextCursor.Some? <==> 0 < limit < |rows|)
      && (page.nextCursor.Some? ==>
            |page.items| > 0 && DecodeCursor(page.nextCursor.value) == Success(keyOf(page.items[|page.items| - 1])))
      && page.items == if |rows| > limit then rows[..limit] else rows
  {
    hide EncodeCursor, DecodeCursor;
    if 0 < limit < |rows| {
      DecodeOfEncodeCursor(keyOf(rows[limit - 1]));
    }
  }

  lemma PaginateIsRight<T(!new)>(rows: seq<T>, table: map<Uuids.Uuid, T>, bound: Option<Key>, limit: nat,
    keyOf: T -> Key)
    requires Descending(rows, keyOf) && ListsBelow(rows, table, bound, keyOf)
    ensures RightPage(Paginate(rows, limit, keyOf), table, bound, limit, keyOf)
  {
    hide Paginate, DecodeCursor, Descending, ListsBelow, LatestFirst, LeftOut, AllBefore, Due;
    var page := Paginate(rows, limit, keyOf);
    PageHolds(rows, table, bound, limit, keyOf);
    CursorStands(rows, limit, keyOf);
    LeavesOutIff(rows, table, bound, limit, keyOf);
    forall id | LeftOut(page, table, bound, keyOf, id)
      ensures id in table && |page.items| == limit && AllBefore(page.items, keyOf(table[id]), keyOf)
    {
      LeftOutInTable(page, table, bound, keyOf, id);
      LeftOutIsLater(rows, table, bound, limit, keyOf, id);
    }
  }

  lemma LeftOutInTable<T(!new)>(page: Page<T>, table: map<Uuids.Uuid, T>, bound: Option<Key>, keyOf: T -> Key,
    id: Uuids.Uuid)
    requires LeftOut(page, table, bound, keyOf, id)
    ensures id in table
  {
  }

  /** Every list call answers with the right page. */
  lemma FetchIsRight<T(!new)>(table: map<Uuids.Uuid, T>, cursor: Option<string>, limit: nat, keyOf: T -> Key)
    requires Keyed(table, keyOf)
    ensures RightAnswer(Fetch(table, cursor, limit, keyOf), table, cursor, limit, keyOf, MalformedCursor)
  {
    hide DecodeCursor, Paginate, Remaining, RightPage, Descending, ListsBelow;
    if DecodeBound(cursor).Failure? {
      assert DecodeBound(cursor).error == MalformedCursor;
    } else {
      var bound := DecodeBound(cursor).value;
      RemainingLists(table, bound, keyOf);
      PaginateIsRight(Remaining(table, bound, keyOf), table, bound, limit, keyOf);
    }
  }

  /** The cursor a walk goes on with stands for the last row it has shown. */
  lemma CursorIsLastShown<T(!new)>(pages: seq<Page<T>>, tables: seq<map<Uuids.Uuid, T>>, cursor: Option<string>,
    limit: nat, keyOf: T -> Key, j: nat)
    requires IsWalk(pages, tables, cursor, limit, keyOf) && j + 1 < |pages|
    ensures var items := pages[j].items;
      |items| > 0 && DecodeBound(pages[j].nextCursor) == Success(Some(keyOf(items[|items| - 1])))
  {
    hide DecodeCursor, Fetch, LatestFirst, LeftOut, AllBefore, Due;
    assert Fetched(pages, tables, cursor, limit, keyOf, j);
    FetchIsRight(tables[j], CursorAt(pages, cursor, j), limit, keyOf);
  }
}
