/** Following `next_cursor` from page to page while rows are added and edited in between. */
module KeysetWalks {
  import opened Wrappers
  import opened Uuids
  import Timestamps
  import opened Cursors
  import opened Keysets

  /** Between two fetches rows may be added and edited, but none leaves and none changes its key. */
  predicate Evolved<T>(before: map<Uuid, T>, after: map<Uuid, T>, keyOf: T -> Key) {
    forall id :: id in before ==> id in after && keyOf(after[id]) == keyOf(before[id])
  }

  /** The table as each fetch in turn finds it. */
  predicate Evolving<T>(tables: seq<map<Uuid, T>>, keyOf: T -> Key) {
    && (forall i :: 0 <= i < |tables| ==> Keyed(tables[i], keyOf))
    && (forall i, j :: 0 <= i <= j < |tables| ==> Evolved(tables[i], tables[j], keyOf))
  }

  /** The cursor that fetch `j` of a walk is made with. */
  function CursorAt<T>(pages: seq<Page<T>>, cursor: Option<string>, j: nat): Option<string>
    requires j <= |pages|
  {
    if j == 0 then cursor else pages[j - 1].nextCursor
  }

  /** Page `i` is what the list call answers at its moment, and the client goes on only while there is
      a cursor to follow. */
  ghost predicate Fetched<T(!new)>(pages: seq<Page<T>>, tables: seq<map<Uuid, T>>, cursor: Option<string>, limit: nat,
                              keyOf: T -> Key, i: nat)
    requires i < |pages| <= |tables|
  {
    && Keyed(tables[i], keyOf)
    && Fetch(tables[i], CursorAt(pages, cursor, i), limit, keyOf) == Success(pages[i])
    && (i < |pages| - 1 ==> pages[i].nextCursor.Some?)
  }

  /** The pages of a client that starts at `cursor` and follows `next_cursor`. */
  ghost predicate IsWalk<T(!new)>(pages: seq<Page<T>>, tables: seq<map<Uuid, T>>, cursor: Option<string>, limit: nat,
                              keyOf: T -> Key) {
    |pages| <= |tables| && forall i: nat :: i < |pages| ==> Fetched(pages, tables, cursor, limit, keyOf, i)
  }

  function Items<T>(pages: seq<Page<T>>): seq<T> {
    if pages == [] then [] else pages[0].items + Items(pages[1..])
  }

  predicate Finished<T>(pages: seq<Page<T>>) {
    |pages| > 0 && pages[|pages| - 1].nextCursor.None?
  }

  /** Exactly the rows of the table under the bound. */
  ghost predicate ListsBelow<T>(rows: seq<T>, table: map<Uuid, T>, bound: Option<Key>, keyOf: T -> Key) {
    && (forall k ::
      0 <= k < |rows|
      ==> keyOf(rows[k]).id in table && rows[k] == table[keyOf(rows[k]).id] && Under(rows[k], bound, keyOf))
    && (forall id :: id in table && Under(table[id], bound, keyOf) ==> table[id] in rows)
  }

  lemma RemainingLists<T(!new)>(table: map<Uuid, T>, bound: Option<Key>, keyOf: T -> Key)
    requires Keyed(table, keyOf)
    ensures Descending(Remaining(table, bound, keyOf), keyOf)
      && ListsBelow(Remaining(table, bound, keyOf), table, bound, keyOf)
  {
    hide Listing, Below;
    var rows, all := Remaining(table, bound, keyOf), Listing(table, keyOf);
    ListingLists(table, keyOf);
    KeepDescending(all, (x: T) => Under(x, bound, keyOf), keyOf);
    forall k | 0 <= k < |rows|
      ensures keyOf(rows[k]).id in table && rows[k] == table[keyOf(rows[k]).id] && Under(rows[k], bound, keyOf)
    {
      assert rows[k] in rows && rows[k] in all;
    }
  }

  /** A page without a cursor is all there is; a page with one is full, and the cursor stands for the
      key of its last row. */
  ghost predicate Turns<T>(page: Page<T>, rows: seq<T>, limit: nat, keyOf: T -> Key)
    requires limit >= 1
  {
    if |rows| <= limit then page == Page(rows, None)
    else
      page.items == rows[..limit] && page.nextCursor.Some?
      && DecodeBound(page.nextCursor) == Success(Some(keyOf(rows[limit - 1])))
  }

  lemma PaginateTurns<T>(rows: seq<T>, limit: nat, keyOf: T -> Key)
    requires limit >= 1
    ensures Turns(Paginate(rows, limit, keyOf), rows, limit, keyOf)
  {
    hide EncodeCursor, DecodeCursor;
    if |rows| > limit {
      DecodeOfEncodeCursor(keyOf(rows[limit - 1]));
    }
  }

  /** What one fetch gives, in terms of the key behind its cursor. */
  lemma FetchAt<T(!new)>(table: map<Uuid, T>, cursor: Option<string>, bound: Option<Key>, limit: nat, keyOf: T -> Key)
    requires Keyed(table, keyOf) && limit >= 1 && DecodeBound(cursor) == Success(bound)
    ensures Descending(Remaining(table, bound, keyOf), keyOf)
      && ListsBelow(Remaining(table, bound, keyOf), table, bound, keyOf)
    ensures Fetch(table, cursor, limit, keyOf).Success?
    ensures Turns(Fetch(table, cursor, limit, keyOf).value, Remaining(table, bound, keyOf), limit, keyOf)
  {
    hide Remaining, DecodeBound;
    RemainingLists(table, bound, keyOf);
    PaginateTurns(Remaining(table, bound, keyOf), limit, keyOf);
  }

  // ---- No row twice, whatever happens in between ----

  lemma WalkFits<T(!new)>(pages: seq<Page<T>>, tables: seq<map<Uuid, T>>, cursor: Option<string>, limit: nat,
                          keyOf: T -> Key)
    requires IsWalk(pages, tables, cursor, limit, keyOf)
    ensures |pages| <= |tables|
  {
  }

  /** Any page of a walk starts a walk of its own. */
  lemma WalkFrom<T(!new)>(pages: seq<Page<T>>, tables: seq<map<Uuid, T>>, cursor: Option<string>, limit: nat,
                          keyOf: T -> Key, j: nat)
    requires IsWalk(pages, tables, cursor, limit, keyOf) && j < |pages|
    ensures IsWalk(pages[j..], tables[j..], CursorAt(pages, cursor, j), limit, keyOf)
  {
    hide Fetch;
    forall i: nat | i < |pages| - j
      ensures Fetched(pages[j..], tables[j..], CursorAt(pages, cursor, j), limit, keyOf, i)
    {
      assert Fetched(pages, tables, cursor, limit, keyOf, j + i);
    }
  }

  lemma FirstPage<T(!new)>(pages: seq<Page<T>>, tables: seq<map<Uuid, T>>, cursor: Option<string>, bound: Option<Key>,
                           limit: nat, keyOf: T -> Key)
    requires IsWalk(pages, tables, cursor, limit, keyOf) && pages != [] && limit >= 1
      && DecodeBound(cursor) == Success(bound)
    ensures |pages| <= |tables| && Keyed(tables[0], keyOf)
      && Turns(pages[0], Remaining(tables[0], bound, keyOf), limit, keyOf)
    ensures Descending(Remaining(tables[0], bound, keyOf), keyOf)
      && ListsBelow(Remaining(tables[0], bound, keyOf), tables[0], bound, keyOf)
    ensures |pages| > 1
      ==> pages[0].nextCursor.Some? && IsWalk(pages[1..], tables[1..], pages[0].nextCursor, limit, keyOf)
  {
    hide Remaining, Fetch, DecodeBound, Descending, ListsBelow, Turns;
    assert Fetched(pages, tables, cursor, limit, keyOf, 0);
    FetchAt(tables[0], cursor, bound, limit, keyOf);
    if |pages| > 1 {
      WalkFrom(pages, tables, cursor, limit, keyOf, 1);
    }
  }

  /** Whatever the tables are, a walk shows rows in strictly descending order. */
  lemma {:induction false} WalkDescends<T(!new)>(pages: seq<Page<T>>, tables: seq<map<Uuid, T>>, cursor: Option<string>,
      bound: Option<Key>, limit: nat, keyOf: T -> Key)
    requires IsWalk(pages, tables, cursor, limit, keyOf) && limit >= 1 && DecodeBound(cursor) == Success(bound)
    ensures Descending(Items(pages), keyOf)
    ensures forall k :: 0 <= k < |Items(pages)| ==> Under(Items(pages)[k], bound, keyOf)
  {
    hide Remaining, DecodeBound, Timestamps.Instant, IsWalk;
    if pages != [] {
      FirstPage(pages, tables, cursor, bound, limit, keyOf);
      if |pages| == 1 {
        assert Items(pages) == pages[0].items;
      } else {
        var last := keyOf(pages[0].items[limit - 1]);
        WalkDescends(pages[1..], tables[1..], pages[0].nextCursor, Some(last), limit, keyOf);
        Joined(pages[0].items, Items(pages[1..]), bound, keyOf);
      }
    }
  }

  /** Field by field: each row shown is later than the next, or as late and of a larger id. */
  lemma WalkLatestFirst<T(!new)>(pages: seq<Page<T>>, tables: seq<map<Uuid, T>>, cursor: Option<string>,
    bound: Option<Key>, limit: nat, keyOf: T -> Key)
    requires IsWalk(pages, tables, cursor, limit, keyOf) && limit >= 1 && DecodeBound(cursor) == Success(bound)
    ensures LatestFirst(Items(pages), keyOf)
    ensures bound.Some? ==> forall k :: 0 <= k < |Items(pages)| ==> ListedBefore(bound.value, keyOf(Items(pages)[k]))
  {
    hide Below, ListedBefore, IsWalk, LatestFirst, Descending;
    WalkDescends(pages, tables, cursor, bound, limit, keyOf);
    DescendingIsLatestFirst(Items(pages), keyOf);
    if bound.Some? {
      forall k | 0 <= k < |Items(pages)|
        ensures ListedBefore(bound.value, keyOf(Items(pages)[k]))
      {
        assert Under(Items(pages)[k], bound, keyOf);
        BelowIsAfter(bound.value, keyOf(Items(pages)[k]));
      }
    }
  }

  lemma Joined<T>(page: seq<T>, rest: seq<T>, bound: Option<Key>, keyOf: T -> Key)
    requires page != [] && Descending(page, keyOf) && forall k :: 0 <= k < |page| ==> Under(page[k], bound, keyOf)
    requires Descending(rest, keyOf) && forall k ::
      0 <= k < |rest| ==> Under(rest[k], Some(keyOf(page[|page| - 1])), keyOf)
    ensures Descending(page + rest, keyOf) && forall k ::
      0 <= k < |page + rest| ==> Under((page + rest)[k], bound, keyOf)
  {
    hide Timestamps.Instant;
    var last := keyOf(page[|page| - 1]);
    forall i, j | 0 <= i < j < |page + rest|
      ensures Below(keyOf((page + rest)[j]), keyOf((page + rest)[i]))
    {
      if i < |page| <= j {
        assert Below(keyOf(rest[j - |page|]), last);
        assert i == |page| - 1 || Below(last, keyOf(page[i]));
      }
    }
    forall k | |page| <= k < |page + rest|
      ensures Under((page + rest)[k], bound, keyOf)
    {
      assert Below(keyOf(rest[k - |page|]), last);
    }
  }

  // ---- Every row exactly once ----

  /** The row of this id is among the rows shown. */
  ghost predicate Shows<T>(shown: seq<T>, id: Uuid, keyOf: T -> Key) {
    exists k :: 0 <= k < |shown| && keyOf(shown[k]).id == id
  }

  lemma ShowsEither<T>(page: seq<T>, rest: seq<T>, id: Uuid, keyOf: T -> Key)
    ensures Shows(page + rest, id, keyOf) <==> Shows(page, id, keyOf) || Shows(rest, id, keyOf)
  {
    if Shows(page, id, keyOf) {
      var k :| 0 <= k < |page| && keyOf(page[k]).id == id;
      assert (page + rest)[k] == page[k];
    }
    if Shows(rest, id, keyOf) {
      var k :| 0 <= k < |rest| && keyOf(rest[k]).id == id;
      assert (page + rest)[|page| + k] == rest[k];
    }
  }

  /** Where a row of the table goes: on the page, or under the page's last row, or it was seen before. */
  lemma PageSplits<T>(rows: seq<T>, table: map<Uuid, T>, bound: Option<Key>, limit: nat, keyOf: T -> Key, id: Uuid)
    requires Keyed(table, keyOf) && Descending(rows, keyOf) && ListsBelow(rows, table, bound, keyOf)
    requires 1 <= limit < |rows| && id in table
    ensures Shows(rows[..limit], id, keyOf) || Below(keyOf(table[id]), keyOf(rows[limit - 1]))
      <==> Under(table[id], bound, keyOf)
    ensures !(Shows(rows[..limit], id, keyOf) && Below(keyOf(table[id]), keyOf(rows[limit - 1])))
  {
    hide Timestamps.Instant;
    var page := rows[..limit];
    assert forall k :: 0 <= k < limit ==> page[k] == rows[k];
    if Shows(page, id, keyOf) {
      var k :| 0 <= k < |page| && keyOf(page[k]).id == id;
      assert rows[k] == page[k] == table[id];
      assert k == limit - 1 || Below(keyOf(rows[limit - 1]), keyOf(rows[k]));
    } else if Under(table[id], bound, keyOf) {
      assert table[id] in rows;
      var k :| 0 <= k < |rows| && rows[k] == table[id];
    }
  }

  lemma ShowsIff<T>(rows: seq<T>, table: map<Uuid, T>, bound: Option<Key>, keyOf: T -> Key, id: Uuid)
    requires Keyed(table, keyOf) && ListsBelow(rows, table, bound, keyOf) && id in table
    ensures Shows(rows, id, keyOf) <==> Under(table[id], bound, keyOf)
  {
    if Under(table[id], bound, keyOf) {
      assert table[id] in rows;
    }
  }

  lemma EvolvingFrom<T>(tables: seq<map<Uuid, T>>, keyOf: T -> Key, j: nat)
    requires Evolving(tables, keyOf) && j <= |tables|
    ensures Evolving(tables[j..], keyOf)
  {
    forall i, k | 0 <= i <= k < |tables| - j
      ensures Evolved(tables[j..][i], tables[j..][k], keyOf)
    {
      assert Evolved(tables[j + i], tables[j + k], keyOf);
    }
  }

  /** A walk that has come to its end has shown, of the rows there were when it started, exactly those
      under its first cursor. */
  lemma {:induction false} WalkShows<T(!new)>(pages: seq<Page<T>>, tables: seq<map<Uuid, T>>, cursor: Option<string>,
      bound: Option<Key>, limit: nat, keyOf: T -> Key, id: Uuid)
    requires IsWalk(pages, tables, cursor, limit, keyOf) && limit >= 1 && DecodeBound(cursor) == Success(bound)
    requires Evolving(tables, keyOf) && Finished(pages) && id in tables[0]
    ensures Shows(Items(pages), id, keyOf) <==> Under(tables[0][id], bound, keyOf)
  {
    hide Remaining, DecodeBound, IsWalk, Timestamps.Instant;
    FirstPage(pages, tables, cursor, bound, limit, keyOf);
    var rows := Remaining(tables[0], bound, keyOf);
    if |pages| == 1 {
      assert Items(pages) == rows;
      ShowsIff(rows, tables[0], bound, keyOf, id);
    } else {
      EvolvingFrom(tables, keyOf, 1);
      assert Evolved(tables[0], tables[1], keyOf);
      WalkShows(pages[1..], tables[1..], pages[0].nextCursor, Some(keyOf(rows[limit - 1])), limit, keyOf, id);
      PageSplits(rows, tables[0], bound, limit, keyOf, id);
      ShowsEither(pages[0].items, Items(pages[1..]), id, keyOf);
    }
  }

  // ---- Rows that arrive in the middle of a walk ----

  lemma {:induction false} CursorDecodes<T(!new)>(pages: seq<Page<T>>, tables: seq<map<Uuid, T>>,
    cursor: Option<string>, limit: nat, keyOf: T -> Key, j: nat)
    requires IsWalk(pages, tables, cursor, limit, keyOf) && limit >= 1 && DecodeBound(cursor).Success? && j < |pages|
    ensures DecodeBound(CursorAt(pages, cursor, j)).Success?
  {
    hide Remaining, DecodeBound, IsWalk, Descending, ListsBelow;
    if j > 0 {
      FirstPage(pages, tables, cursor, DecodeBound(cursor).value, limit, keyOf);
      CursorDecodes(pages[1..], tables[1..], pages[0].nextCursor, limit, keyOf, j - 1);
      assert CursorAt(pages, cursor, j) == CursorAt(pages[1..], pages[0].nextCursor, j - 1);
    }
  }

  /** A row that is in the table at fetch `j` is shown from then on if and only if its key is below
      the cursor at that moment. */
  lemma ShownFromFetch<T(!new)>(pages: seq<Page<T>>, tables: seq<map<Uuid, T>>, cursor: Option<string>, limit: nat,
                              keyOf: T -> Key, j: nat, id: Uuid)
    requires IsWalk(pages, tables, cursor, limit, keyOf) && limit >= 1 && DecodeBound(cursor).Success?
    requires Evolving(tables, keyOf) && Finished(pages) && j < |pages| && id in tables[j]
    ensures DecodeBound(CursorAt(pages, cursor, j)).Success?
    ensures Shows(Items(pages[j..]), id, keyOf)
      <==> Under(tables[j][id], DecodeBound(CursorAt(pages, cursor, j)).value, keyOf)
  {
    hide DecodeBound, Under, IsWalk;
    WalkFits(pages, tables, cursor, limit, keyOf);
    WalkFrom(pages, tables, cursor, limit, keyOf, j);
    CursorDecodes(pages, tables, cursor, limit, keyOf, j);
    EvolvingFrom(tables, keyOf, j);
    var at := CursorAt(pages, cursor, j);
    WalkShows(pages[j..], tables[j..], at, DecodeBound(at).value, limit, keyOf, id);
  }

  /** Every page shows rows of the table as it is at that fetch. */
  lemma PagesShowTheirTable<T(!new)>(pages: seq<Page<T>>, tables: seq<map<Uuid, T>>, cursor: Option<string>, limit: nat,
                              keyOf: T -> Key, j: nat, k: nat)
    requires IsWalk(pages, tables, cursor, limit, keyOf) && limit >= 1 && DecodeBound(cursor).Success?
    requires j < |pages| && k < |pages[j].items|
    ensures var row := pages[j].items[k];
      keyOf(row).id in tables[j] && row == tables[j][keyOf(row).id]
  {
    hide DecodeBound, Under, IsWalk, Remaining, Descending;
    WalkFits(pages, tables, cursor, limit, keyOf);
    WalkFrom(pages, tables, cursor, limit, keyOf, j);
    CursorDecodes(pages, tables, cursor, limit, keyOf, j);
    var bound := DecodeBound(CursorAt(pages, cursor, j)).value;
    FirstPage(pages[j..], tables[j..], CursorAt(pages, cursor, j), bound, limit, keyOf);
    assert pages[j].items[k] == Remaining(tables[j], bound, keyOf)[k];
  }

  /** No row is shown twice, not even an edited one. */
  lemma NoRowTwice<T(!new)>(pages: seq<Page<T>>, tables: seq<map<Uuid, T>>, cursor: Option<string>, limit: nat,
                            keyOf: T -> Key,
                            i: nat, k: nat, j: nat, m: nat)
    requires IsWalk(pages, tables, cursor, limit, keyOf) && limit >= 1 && DecodeBound(cursor).Success?
      && Evolving(tables, keyOf)
    requires i <= j < |pages| && k < |pages[i].items| && m < |pages[j].items| && (i < j || k < m)
    ensures keyOf(pages[i].items[k]).id != keyOf(pages[j].items[m]).id
  {
    hide DecodeBound, Under, IsWalk;
    WalkFits(pages, tables, cursor, limit, keyOf);
    PagesShowTheirTable(pages, tables, cursor, limit, keyOf, i, k);
    PagesShowTheirTable(pages, tables, cursor, limit, keyOf, j, m);
    assert Evolved(tables[i], tables[j], keyOf);
    WalkDescends(pages, tables, cursor, DecodeBound(cursor).value, limit, keyOf);
    ItemsAt(pages, i, k);
    ItemsAt(pages, j, m);
    OffsetsIncrease(pages, i, j);
  }

  /** Where page `i` starts in the concatenation. */
  function Offset<T>(pages: seq<Page<T>>, i: nat): nat
    requires i <= |pages|
  {
    if i == 0 then 0 else |pages[0].items| + Offset(pages[1..], i - 1)
  }

  lemma {:induction false} ItemsAt<T>(pages: seq<Page<T>>, i: nat, k: nat)
    requires i < |pages| && k < |pages[i].items|
    ensures Offset(pages, i) + k < |Items(pages)| && Items(pages)[Offset(pages, i) + k] == pages[i].items[k]
  {
    if i > 0 {
      ItemsAt(pages[1..], i - 1, k);
    }
  }

  lemma {:induction false} OffsetsIncrease<T>(pages: seq<Page<T>>, i: nat, j: nat)
    requires i <= j <= |pages|
    ensures i < j ==> Offset(pages, i) + |pages[i].items| <= Offset(pages, j)
    ensures i == j ==> Offset(pages, i) == Offset(pages, j)
  {
    if i > 0 {
      OffsetsIncrease(pages[1..], i - 1, j - 1);
    }
  }

  /** Every row of the concatenation comes from one page. */
  lemma {:induction false} ItemOf<T>(pages: seq<Page<T>>, p: nat) returns (i: nat, k: nat)
    requires p < |Items(pages)|
    ensures i < |pages| && k < |pages[i].items| && p == Offset(pages, i) + k && Items(pages)[p] == pages[i].items[k]
  {
    if p < |pages[0].items| {
      i, k := 0, p;
    } else {
      i, k := ItemOf(pages[1..], p - |pages[0].items|);
      i := i + 1;
    }
  }

  /** Shown at one place of the walk and at no other. */
  ghost predicate ShownOnce<T>(shown: seq<T>, id: Uuid, keyOf: T -> Key) {
    exists k :: 0 <= k < |shown| && keyOf(shown[k]).id == id
      && forall m :: 0 <= m < |shown| && keyOf(shown[m]).id == id ==> m == k
  }

  /** What a walk shows it shows once, however the rows are edited on the way. */
  lemma ShownIsShownOnce<T(!new)>(pages: seq<Page<T>>, tables: seq<map<Uuid, T>>, cursor: Option<string>, limit: nat,
    keyOf: T -> Key, id: Uuid)
    requires IsWalk(pages, tables, cursor, limit, keyOf) && limit >= 1 && DecodeBound(cursor).Success?
      && Evolving(tables, keyOf)
    ensures ShownOnce(Items(pages), id, keyOf) <==> Shows(Items(pages), id, keyOf)
  {
    hide DecodeBound, IsWalk, Evolving;
    var shown := Items(pages);
    forall p, q | 0 <= p < q < |shown|
      ensures keyOf(shown[p]).id != keyOf(shown[q]).id
    {
      var i, k := ItemOf(pages, p);
      var j, m := ItemOf(pages, q);
      if j < i {
        OffsetsIncrease(pages, j, i);
      }
      NoRowTwice(pages, tables, cursor, limit, keyOf, i, k, j, m);
    }
    if Shows(shown, id, keyOf) {
      var k :| 0 <= k < |shown| && keyOf(shown[k]).id == id;
      assert forall m :: 0 <= m < |shown| && keyOf(shown[m]).id == id ==> m == k;
    }
  }

  lemma {:induction false} ItemsSplit<T>(pages: seq<Page<T>>, j: nat)
    requires j <= |pages|
    ensures Items(pages) == Items(pages[..j]) + Items(pages[j..])
  {
    if j == 0 {
      assert pages[..0] == [] && pages[0..] == pages;
    } else {
      ItemsSplit(pages[1..], j - 1);
      assert pages[..j][1..] == pages[1..][..j - 1] && pages[j..] == pages[1..][j - 1..];
    }
  }

  lemma {:induction false} NotBefore<T>(pages: seq<Page<T>>, id: Uuid, keyOf: T -> Key)
    requires forall i, k :: 0 <= i < |pages| && 0 <= k < |pages[i].items| ==> keyOf(pages[i].items[k]).id != id
    ensures !Shows(Items(pages), id, keyOf)
  {
    if pages != [] {
      NotBefore(pages[1..], id, keyOf);
      ShowsEither(pages[0].items, Items(pages[1..]), id, keyOf);
    }
  }

  /** A row inserted between fetch `j - 1` and fetch `j` of a walk is shown by the walk if and only if
      its key is below the cursor fetch `j` is made with. */
  lemma InsertedMidWalk<T(!new)>(pages: seq<Page<T>>, tables: seq<map<Uuid, T>>, cursor: Option<string>, limit: nat,
                              keyOf: T -> Key, j: nat, id: Uuid)
    requires IsWalk(pages, tables, cursor, limit, keyOf) && limit >= 1 && DecodeBound(cursor).Success?
    requires Evolving(tables, keyOf) && Finished(pages)
    requires j < |pages| && id in tables[j] && forall i :: 0 <= i < j ==> id !in tables[i]
    ensures DecodeBound(CursorAt(pages, cursor, j)).Success?
    ensures Shows(Items(pages), id, keyOf)
      <==> Under(tables[j][id], DecodeBound(CursorAt(pages, cursor, j)).value, keyOf)
  {
    hide DecodeBound, Under, IsWalk;
    WalkFits(pages, tables, cursor, limit, keyOf);
    ShownFromFetch(pages, tables, cursor, limit, keyOf, j, id);
    forall i, k | 0 <= i < |pages[..j]| && 0 <= k < |pages[..j][i].items|
      ensures keyOf(pages[..j][i].items[k]).id != id
    {
      PagesShowTheirTable(pages, tables, cursor, limit, keyOf, i, k);
    }
    NotBefore(pages[..j], id, keyOf);
    ItemsSplit(pages, j);
    ShowsEither(Items(pages[..j]), Items(pages[j..]), id, keyOf);
  }

  // ---- A table that does not change ----

  function PagesNeeded(rows: nat, limit: nat): (pages: nat)
    requires limit >= 1
    ensures pages >= 1
  {
    if rows <= limit then 1 else 1 + PagesNeeded(rows - limit, limit)
  }

  /** `max(1, ceil(rows / limit))`. */
  lemma {:induction false} PagesNeededIsCeiling(rows: nat, limit: nat)
    requires limit >= 1
    ensures var pages := PagesNeeded(rows, limit);
      rows <= pages * limit && (pages == 1 || (pages - 1) * limit < rows)
  {
    if rows > limit {
      PagesNeededIsCeiling(rows - limit, limit);
      var pages := PagesNeeded(rows - limit, limit);
      assert (pages + 1) * limit == pages * limit + limit;
      assert pages * limit == (pages - 1) * limit + limit;
    }
  }

  /** The rows under a full page are the rows that came after it. */
  lemma RemainingAfter<T(!new)>(table: map<Uuid, T>, bound: Option<Key>, limit: nat, keyOf: T -> Key)
    requires Keyed(table, keyOf) && 1 <= limit < |Remaining(table, bound, keyOf)|
    ensures var rows := Remaining(table, bound, keyOf);
      Remaining(table, Some(keyOf(rows[limit - 1])), keyOf) == rows[limit..]
  {
    hide Remaining;
    var rows := Remaining(table, bound, keyOf);
    var last := keyOf(rows[limit - 1]);
    var below := Remaining(table, Some(last), keyOf);
    RemainingLists(table, bound, keyOf);
    RemainingLists(table, Some(last), keyOf);
    forall x | x in below
      ensures x in rows[limit..]
    {
      BelowLast(rows, bound, limit, keyOf, x, table);
    }
    forall x | x in rows[limit..]
      ensures x in below
    {
      var k :| limit <= k < |rows| && rows[k] == x;
      assert Below(keyOf(rows[k]), last);
      assert table[keyOf(x).id] in below;
    }
    ListingUnique(below, rows[limit..], keyOf);
  }

  lemma BelowLast<T(!new)>(rows: seq<T>, bound: Option<Key>, limit: nat, keyOf: T -> Key, x: T, table: map<Uuid, T>)
    requires Keyed(table, keyOf) && Descending(rows, keyOf) && ListsBelow(rows, table, bound, keyOf)
    requires 1 <= limit < |rows| && Below(keyOf(x), keyOf(rows[limit - 1]))
    requires keyOf(x).id in table && x == table[keyOf(x).id]
    ensures x in rows[limit..]
  {
    hide Timestamps.Instant;
    assert Under(rows[limit - 1], bound, keyOf);
    assert Under(x, bound, keyOf);
    assert forall k :: 0 <= k < limit - 1 ==> Below(keyOf(rows[limit - 1]), keyOf(rows[k]));
    var k :| 0 <= k < |rows| && rows[k] == x;
    assert rows[limit..][k - limit] == x;
  }

  /** The rows cut into pages of `limit`: as few as they fit in, all but the last full, and the last one
      empty only if there are no rows. */
  predicate Cuts<T(==)>(pages: seq<Page<T>>, rows: seq<T>, limit: nat)
    requires limit >= 1
  {
    && |pages| == PagesNeeded(|rows|, limit) && Finished(pages) && Items(pages) == rows
    && (forall i :: 0 <= i < |pages| - 1 ==> |pages[i].items| == limit)
    && (rows != [] ==> pages[|pages| - 1].items != [])
  }

  lemma CutsOneMore<T>(page: Page<T>, rest: seq<Page<T>>, rows: seq<T>, limit: nat)
    requires 1 <= limit < |rows| && page.items == rows[..limit] && Cuts(rest, rows[limit..], limit)
    ensures Cuts([page] + rest, rows, limit)
  {
    assert ([page] + rest)[1..] == rest;
    assert rows == rows[..limit] + rows[limit..];
  }

  lemma CutsOnce<T>(rows: seq<T>, limit: nat)
    requires limit >= 1 && |rows| <= limit
    ensures Cuts([Page(rows, None)], rows, limit)
  {
    assert Items([Page(rows, None)]) == rows;
  }

  /** On a table that does not change, a walk is finished exactly when it has made
      `max(1, ceil(N / limit))` fetches, and then its pages are the sorted rows cut up. */
  lemma {:induction false} FixedTableWalk<T(!new)>(pages: seq<Page<T>>, tables: seq<map<Uuid, T>>, table: map<Uuid, T>,
      cursor: Option<string>, bound: Option<Key>, limit: nat, keyOf: T -> Key)
    requires IsWalk(pages, tables, cursor, limit, keyOf) && limit >= 1 && DecodeBound(cursor) == Success(bound)
    requires pages != [] && Keyed(table, keyOf) && forall i :: 0 <= i < |tables| ==> tables[i] == table
    ensures |pages| <= PagesNeeded(|Remaining(table, bound, keyOf)|, limit)
    ensures Finished(pages) <==> |pages| == PagesNeeded(|Remaining(table, bound, keyOf)|, limit)
    ensures Finished(pages) ==> Cuts(pages, Remaining(table, bound, keyOf), limit)
  {
    hide Remaining, DecodeBound, Descending, ListsBelow, Cuts, IsWalk;
    WalkFits(pages, tables, cursor, limit, keyOf);
    FirstPage(pages, tables, cursor, bound, limit, keyOf);
    var rows := Remaining(table, bound, keyOf);
    if |rows| <= limit {
      CutsOnce(rows, limit);
      assert pages == [Page(rows, None)];
    } else {
      RemainingAfter(table, bound, limit, keyOf);
      if |pages| > 1 {
        FixedTableWalk(pages[1..], tables[1..], table, pages[0].nextCursor, Some(keyOf(rows[limit - 1])), limit, keyOf);
        if Finished(pages) {
          CutsOneMore(pages[0], pages[1..], rows, limit);
          assert [pages[0]] + pages[1..] == pages;
        }
      }
    }
  }

  // ---- There are walks ----

  /** A client that follows the cursors for as long as there is a fetch to come. */
  function Walk<T(!new)>(tables: seq<map<Uuid, T>>, cursor: Option<string>, limit: nat,
                         keyOf: T -> Key): (pages: seq<Page<T>>)
    requires forall i :: 0 <= i < |tables| ==> Keyed(tables[i], keyOf)
    ensures |pages| <= |tables|
  {
    if tables == [] then []
    else match Fetch(tables[0], cursor, limit, keyOf)
      case Failure(_) => []
      case Success(page) =>
        if page.nextCursor.None? then [page] else [page] + Walk(tables[1..], page.nextCursor, limit, keyOf)
  }

  /** It gets a walk, and stops only at the end of one or for want of another fetch. */
  lemma {:induction false} WalkFollows<T(!new)>(tables: seq<map<Uuid, T>>, cursor: Option<string>, bound: Option<Key>,
      limit: nat, keyOf: T -> Key)
    requires forall i :: 0 <= i < |tables| ==> Keyed(tables[i], keyOf)
    requires limit >= 1 && DecodeBound(cursor) == Success(bound)
    ensures IsWalk(Walk(tables, cursor, limit, keyOf), tables, cursor, limit, keyOf)
    ensures Finished(Walk(tables, cursor, limit, keyOf)) || |Walk(tables, cursor, limit, keyOf)| == |tables|
  {
    hide Remaining, Fetch, DecodeBound, Descending, ListsBelow;
    if tables != [] {
      FetchAt(tables[0], cursor, bound, limit, keyOf);
      var page := Fetch(tables[0], cursor, limit, keyOf).value;
      var pages := Walk(tables, cursor, limit, keyOf);
      if page.nextCursor.Some? {
        var rest := Walk(tables[1..], page.nextCursor, limit, keyOf);
        WalkFollows(tables[1..], page.nextCursor, Some(keyOf(Remaining(tables[0], bound, keyOf)[limit - 1])), limit,
          keyOf);
        assert pages == [page] + rest;
        forall i: nat | 0 < i < |pages|
          ensures Fetched(pages, tables, cursor, limit, keyOf, i)
        {
          assert Fetched(rest, tables[1..], page.nextCursor, limit, keyOf, i - 1);
        }
      }
    }
  }
}
