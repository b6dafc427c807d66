/** Keyset pages: rows sorted by (timestamp, id), the latest first, cut at the last key a client saw. */
module Keysets {
  import opened Wrappers
  import opened Uuids
  import Timestamps
  import opened Cursors

  /** The order of `(created_at, document_id)` and `(timestamp, audit_id)` tuples. */
  predicate Below(a: Key, b: Key) {
    Timestamps.Instant(a.timestamp) < Timestamps.Instant(b.timestamp)
      || (Timestamps.Instant(a.timestamp) == Timestamps.Instant(b.timestamp) && a.id < b.id)
  }

  /** A table under its primary key. */
  predicate Keyed<T>(table: map<Uuid, T>, keyOf: T -> Key) {
    forall id :: id in table ==> keyOf(table[id]).id == id
  }

  predicate Descending<T>(rows: seq<T>, keyOf: T -> Key) {
    forall i, j :: 0 <= i < j < |rows| ==> Below(keyOf(rows[j]), keyOf(rows[i]))
  }

  // ---- The order, field by field ----

  /** `a` is listed before `b`: it is later, or as late and its id is the larger. */
  predicate ListedBefore(a: Key, b: Key) {
    || Timestamps.Earlier(b.timestamp, a.timestamp)
    || (Timestamps.SameFields(a.timestamp, b.timestamp) && a.id > b.id)
  }

  ghost predicate LatestFirst<T(!new)>(rows: seq<T>, keyOf: T -> Key) {
    forall i, j :: 0 <= i < j < |rows| ==> ListedBefore(keyOf(rows[i]), keyOf(rows[j]))
  }

  lemma BelowIsAfter(a: Key, b: Key)
    ensures Below(b, a) <==> ListedBefore(a, b)
  {
    Timestamps.InstantOrders(b.timestamp, a.timestamp);
  }

  lemma DescendingIsLatestFirst<T(!new)>(rows: seq<T>, keyOf: T -> Key)
    ensures Descending(rows, keyOf) <==> LatestFirst(rows, keyOf)
  {
    hide Below, ListedBefore;
    forall i, j | 0 <= i < j < |rows|
      ensures Below(keyOf(rows[j]), keyOf(rows[i])) <==> ListedBefore(keyOf(rows[i]), keyOf(rows[j]))
    {
      BelowIsAfter(keyOf(rows[i]), keyOf(rows[j]));
    }
  }

  // ---- The sorted table ----

  predicate Tops<T>(table: map<Uuid, T>, keyOf: T -> Key, id: Uuid) {
    id in table && forall other :: other in table && other != id ==> Below(keyOf(table[other]), keyOf(table[id]))
  }

  lemma {:induction false} TopExists<T>(table: map<Uuid, T>, keyOf: T -> Key)
    requires Keyed(table, keyOf) && table != map[]
    ensures exists top :: Tops(table, keyOf, top)
    decreases |table|
  {
    hide Timestamps.Instant;
    var id :| id in table;
    var rest := table - {id};
    assert forall other :: other in table && other != id ==> other in rest;
    if rest == map[] {
      assert Tops(table, keyOf, id);
    } else {
      TopExists(rest, keyOf);
      var top :| Tops(rest, keyOf, top);
      assert Tops(table, keyOf, if Below(keyOf(table[top]), keyOf(table[id])) then id else top);
    }
  }

  function Top<T>(table: map<Uuid, T>, keyOf: T -> Key): (top: Uuid)
    requires Keyed(table, keyOf) && table != map[]
    ensures Tops(table, keyOf, top)
  {
    TopExists(table, keyOf);
    var top :| Tops(table, keyOf, top);
    top
  }

  /** `sorted(table.values(), key=..., reverse=True)`, and `ORDER BY ... DESC`. */
  function Listing<T>(table: map<Uuid, T>, keyOf: T -> Key): (rows: seq<T>)
    requires Keyed(table, keyOf)
    decreases |table|
  {
    if table == map[] then []
    else
      var top := Top(table, keyOf);
      [table[top]] + Listing(table - {top}, keyOf)
  }

  ghost predicate ListsExactly<T>(rows: seq<T>, table: map<Uuid, T>, keyOf: T -> Key) {
    && (forall k :: 0 <= k < |rows| ==> keyOf(rows[k]).id in table && rows[k] == table[keyOf(rows[k]).id])
    && (forall id :: id in table ==> table[id] in rows)
  }

  lemma Prepend<T>(row: T, tail: seq<T>, table: map<Uuid, T>, top: Uuid, keyOf: T -> Key)
    requires Keyed(table, keyOf) && Tops(table, keyOf, top) && row == table[top]
    requires Descending(tail, keyOf) && ListsExactly(tail, table - {top}, keyOf)
    ensures Descending([row] + tail, keyOf) && ListsExactly([row] + tail, table, keyOf)
  {
    var rows := [row] + tail;
    forall id | id in table
      ensures table[id] in rows
    {
      if id == top {
        assert rows[0] == table[id];
      } else {
        assert id in table - {top};
      }
    }
  }

  lemma {:induction false} ListingLists<T>(table: map<Uuid, T>, keyOf: T -> Key)
    requires Keyed(table, keyOf)
    ensures Descending(Listing(table, keyOf), keyOf) && ListsExactly(Listing(table, keyOf), table, keyOf)
    decreases |table|
  {
    if table != map[] {
      var top := Top(table, keyOf);
      ListingLists(table - {top}, keyOf);
      Prepend(table[top], Listing(table - {top}, keyOf), table, top, keyOf);
    }
  }

  /** Two descending lists of the same rows are one list: the order leaves no choice. */
  lemma {:induction false} ListingUnique<T>(rows: seq<T>, rows': seq<T>, keyOf: T -> Key)
    requires Descending(rows, keyOf) && Descending(rows', keyOf)
    requires forall x :: x in rows <==> x in rows'
    ensures rows == rows'
  {
    assert |rows| > 0 ==> rows[0] in rows';
    assert |rows'| > 0 ==> rows'[0] in rows;
    if |rows| > 0 && |rows'| > 0 {
      SameHead(rows, rows', keyOf);
      TailsMatch(rows, rows', keyOf);
      ListingUnique(rows[1..], rows'[1..], keyOf);
      assert rows == [rows[0]] + rows[1..] && rows' == [rows'[0]] + rows'[1..];
    }
  }

  lemma SameHead<T>(rows: seq<T>, rows': seq<T>, keyOf: T -> Key)
    requires Descending(rows, keyOf) && Descending(rows', keyOf) && rows != [] && rows' != []
    requires forall x :: x in rows <==> x in rows'
    ensures rows[0] == rows'[0]
  {
    assert rows[0] in rows' && rows'[0] in rows;
  }

  lemma TailsMatch<T>(rows: seq<T>, rows': seq<T>, keyOf: T -> Key)
    requires Descending(rows, keyOf) && Descending(rows', keyOf) && rows != [] && rows' != []
    requires rows[0] == rows'[0] && forall x :: x in rows <==> x in rows'
    ensures Descending(rows[1..], keyOf) && Descending(rows'[1..], keyOf)
    ensures forall x :: x in rows[1..] <==> x in rows'[1..]
  {
    forall x | x in rows[1..]
      ensures x in rows'[1..]
    {
      assert x in rows && x in rows';
      assert x != rows'[0];
    }
    forall x | x in rows'[1..]
      ensures x in rows[1..]
    {
      assert x in rows' && x in rows;
      assert x != rows[0];
    }
  }

  lemma OneTop<T>(table: map<Uuid, T>, keyOf: T -> Key, top: Uuid, top': Uuid)
    requires Tops(table, keyOf, top) && Tops(table, keyOf, top')
    ensures top == top'
  {
  }

  /** Two tables with the same keys list in the same order, whatever else their rows hold. */
  lemma {:induction false} ListingsLineUp<T, U>(table: map<Uuid, T>, keyOf: T -> Key, table': map<Uuid, U>,
    keyOf': U -> Key)
    requires Keyed(table, keyOf) && Keyed(table', keyOf')
    requires table.Keys == table'.Keys && forall id :: id in table ==> keyOf(table[id]) == keyOf'(table'[id])
    ensures |Listing(table, keyOf)| == |Listing(table', keyOf')|
    ensures forall k ::
      0 <= k < |Listing(table, keyOf)| ==> keyOf(Listing(table, keyOf)[k]) == keyOf'(Listing(table', keyOf')[k])
    decreases |table|
  {
    hide Below;
    if table != map[] {
      var top, top' := Top(table, keyOf), Top(table', keyOf');
      assert Tops(table, keyOf, top');
      OneTop(table, keyOf, top, top');
      ListingsLineUp(table - {top}, keyOf, table' - {top}, keyOf');
    } else {
      assert table' == map[];
    }
  }

  // ---- Filters ----

  /** A list comprehension with a condition. */
  function Keep<T(!new)>(rows: seq<T>, p: T -> bool): (kept: seq<T>)
    ensures forall x :: x in kept <==> x in rows && p(x)
  {
    if rows == [] then []
    else (if p(rows[0]) then [rows[0]] else []) + Keep(rows[1..], p)
  }

  lemma {:induction false} KeepDescending<T(!new)>(rows: seq<T>, p: T -> bool, keyOf: T -> Key)
    requires Descending(rows, keyOf)
    ensures Descending(Keep(rows, p), keyOf)
  {
    if rows != [] {
      KeepDescending(rows[1..], p, keyOf);
      var kept := Keep(rows[1..], p);
      forall i | 0 <= i < |kept|
        ensures Below(keyOf(kept[i]), keyOf(rows[0]))
      {
        assert kept[i] in rows[1..];
      }
    }
  }

  /** `WHERE p`. */
  function Where<T>(table: map<Uuid, T>, p: T -> bool): map<Uuid, T> {
    map id | id in table && p(table[id]) :: table[id]
  }

  /** Filtering the sorted rows, as the in-memory stores do, is sorting the filtered rows, as SQL does. */
  lemma KeepOfListing<T(!new)>(table: map<Uuid, T>, p: T -> bool, keyOf: T -> Key)
    requires Keyed(table, keyOf)
    ensures Keep(Listing(table, keyOf), p) == Listing(Where(table, p), keyOf)
  {
    var kept, direct := Keep(Listing(table, keyOf), p), Listing(Where(table, p), keyOf);
    ListingLists(table, keyOf);
    ListingLists(Where(table, p), keyOf);
    KeepDescending(Listing(table, keyOf), p, keyOf);
    forall x | x in kept
      ensures x in direct
    {
      var id := keyOf(x).id;
      assert id in table && table[id] == x;
      assert id in Where(table, p);
    }
    forall x | x in direct
      ensures x in kept
    {
      var id := keyOf(x).id;
      assert id in Where(table, p) && table[id] == x;
    }
    ListingUnique(kept, direct, keyOf);
  }

  // ---- Pages ----

  datatype Page<T> = Page(items: seq<T>, nextCursor: Option<string>)

  /** `_paginate`: at most `limit` rows, and a cursor to the last of them if there are more. */
  function Paginate<T>(rows: seq<T>, limit: nat, keyOf: T -> Key): Page<T> {
    var hasMore := |rows| > limit;
    var pageRows := if hasMore then rows[..limit] else rows;
    Page(pageRows, if hasMore && pageRows != [] then Some(EncodeCursor(keyOf(pageRows[|pageRows| - 1]))) else None)
  }

  /** One row more than a page is enough to paginate: `LIMIT limit + 1` loses nothing. */
  lemma PeekSuffices<T>(rows: seq<T>, limit: nat, keyOf: T -> Key)
    ensures Paginate(if |rows| > limit + 1 then rows[..limit + 1] else rows, limit, keyOf)
      == Paginate(rows, limit, keyOf)
  {
    if |rows| > limit + 1 {
      assert rows[..limit + 1][..limit] == rows[..limit];
    }
  }

  predicate Under<T>(x: T, bound: Option<Key>, keyOf: T -> Key) {
    bound.None? || Below(keyOf(x), bound.value)
  }

  /** The comprehension, or the `WHERE` tuple comparison, that follows a cursor. */
  function Beneath<T(!new)>(rows: seq<T>, bound: Option<Key>, keyOf: T -> Key): seq<T> {
    Keep(rows, (x: T) => Under(x, bound, keyOf))
  }

  /** Without a cursor nothing is filtered. */
  lemma {:induction false} BeneathNothing<T(!new)>(rows: seq<T>, keyOf: T -> Key)
    ensures Beneath(rows, None, keyOf) == rows
  {
    if rows != [] {
      BeneathNothing(rows[1..], keyOf);
    }
  }

  /** The rows a list call has still to show. */
  function Remaining<T(!new)>(table: map<Uuid, T>, bound: Option<Key>, keyOf: T -> Key): seq<T>
    requires Keyed(table, keyOf)
  {
    Beneath(Listing(table, keyOf), bound, keyOf)
  }

  function DecodeBound(cursor: Option<string>): Result<Option<Key>, CursorError> {
    match cursor
    case None => Success(None)
    case Some(text) =>
      match DecodeCursor(text)
      case Failure(error) => Failure(error)
      case Success(key) => Success(Some(key))
  }

  /** What `list_documents` and `list_events` answer on the rows they select. */
  function Fetch<T(!new)>(table: map<Uuid, T>, cursor: Option<string>, limit: nat, keyOf: T -> Key): Result<Page<T>,
                          CursorError>
    requires Keyed(table, keyOf)
  {
    match DecodeBound(cursor)
    case Failure(error) => Failure(error)
    case Success(bound) => Success(Paginate(Remaining(table, bound, keyOf), limit, keyOf))
  }
}
