/** `audit/event_store.py`: the audit list, filtered by time range and user. */
module AuditStores {
  import opened Wrappers
  import Uuids
  import opened Timestamps
  import opened Cursors
  import opened Keysets
  import opened KeysetWalks
  import opened KeysetPages

  /** `details` stands for the columns the list only passes on. */
  datatype AuditEvent = AuditEvent(auditId: Uuids.Uuid, timestamp: DateTime, userId: string, details: string)

  function EventKey(e: AuditEvent): Key {
    Key(e.timestamp, e.auditId)
  }

  datatype Filter = Filter(fromTs: DateTime, toTs: DateTime, userId: Option<string>)

  predicate InRange(filter: Filter, e: AuditEvent) {
    Instant(filter.fromTs) <= Instant(e.timestamp) <= Instant(filter.toTs)
  }

  predicate Matches(filter: Filter, e: AuditEvent) {
    InRange(filter, e) && (filter.userId.Some? ==> e.userId == filter.userId.value)
  }

  type Events = events: map<Uuids.Uuid, AuditEvent> | Keyed(events, EventKey) witness map[]

  function Matching(events: Events, filter: Filter): Events {
    Where(events, (e: AuditEvent) => Matches(filter, e))
  }

  /** Not before the range and not after it, both ends included, and the user's if one is named. */
  predicate Wanted(filter: Filter, e: AuditEvent) {
    && !Earlier(e.timestamp, filter.fromTs) && !Earlier(filter.toTs, e.timestamp)
    && (filter.userId.None? || e.userId == filter.userId.value)
  }

  lemma MatchesIsWanted(filter: Filter, e: AuditEvent)
    ensures Matches(filter, e) <==> Wanted(filter, e)
  {
    hide Instant, Earlier;
    InstantOrders(e.timestamp, filter.fromTs);
    InstantOrders(filter.toTs, e.timestamp);
  }

  /** The events a filter asks for, told field by field. */
  function WantedEvents(events: Events, filter: Filter): map<Uuids.Uuid, AuditEvent> {
    map id | id in events && Wanted(filter, events[id]) :: events[id]
  }

  lemma MatchingIsWanted(events: Events, filter: Filter)
    ensures Matching(events, filter) == WantedEvents(events, filter)
  {
    hide Matches, Wanted;
    forall id | id in events
      ensures Matches(filter, events[id]) <==> Wanted(filter, events[id])
    {
      MatchesIsWanted(filter, events[id]);
    }
  }

  /** The later event first, the larger id first among those of one instant. */
  ghost predicate LatestEventsFirst(items: seq<AuditEvent>) {
    forall i, j :: 0 <= i < j < |items| ==>
      || Earlier(items[j].timestamp, items[i].timestamp)
      || (SameFields(items[i].timestamp, items[j].timestamp) && items[i].auditId > items[j].auditId)
  }

  lemma LatestEvents(items: seq<AuditEvent>)
    requires LatestFirst(items, EventKey)
    ensures LatestEventsFirst(items)
  {
    hide Earlier, SameFields;
    assert forall i, j :: 0 <= i < j < |items| ==> ListedBefore(EventKey(items[i]), EventKey(items[j]));
  }

  /** What both stores answer: the right page of the wanted events. */
  lemma EventsAnswerIsRight(events: Events, filter: Filter, cursor: Option<string>, limit: nat)
    ensures var r := Fetch(Matching(events, filter), cursor, limit, EventKey);
      && RightAnswer(r, WantedEvents(events, filter), cursor, limit, EventKey, MalformedCursor)
      && (r.Success? ==> LatestEventsFirst(r.value.items))
  {
    hide Fetch, DecodeCursor, Matching, WantedEvents, LatestEventsFirst, LatestFirst;
    MatchingIsWanted(events, filter);
    FetchIsRight(Matching(events, filter), cursor, limit, EventKey);
    var r := Fetch(Matching(events, filter), cursor, limit, EventKey);
    if r.Success? {
      LatestEvents(r.value.items);
    }
  }

  lemma FilteredInStages(events: Events, filter: Filter)
    ensures filter.userId.None? ==> Where(events, (e: AuditEvent) => InRange(filter, e)) == Matching(events, filter)
    ensures filter.userId.Some? ==>
      Where(Where(events, (e: AuditEvent) => InRange(filter, e)), (e: AuditEvent) => e.userId == filter.userId.value)
        == Matching(events, filter)
  {
    hide InRange;
  }

  class FakeAuditEventStore {
    var events: Events

    constructor ()
      ensures events == map[]
    {
      events := map[];
    }

    method Seed(event: AuditEvent)
      modifies this
      ensures events == old(events)[event.auditId := event]
    {
      events := events[event.auditId := event];
    }

    /** Filter, sort, then cut at the cursor. */
    method ListEvents(filter: Filter, cursor: Option<string>, limit: nat)
      returns (r: Result<Page<AuditEvent>, CursorError>)
      ensures r == Fetch(Matching(events, filter), cursor, limit, EventKey)
      ensures RightAnswer(r, WantedEvents(events, filter), cursor, limit, EventKey, MalformedCursor)
      ensures r.Success? ==> LatestEventsFirst(r.value.items)
    {
      hide RightAnswer, WantedEvents, LatestEventsFirst;
      EventsAnswerIsRight(events, filter, cursor, limit);
      var selected := Where(events, (e: AuditEvent) => InRange(filter, e));
      if filter.userId.Some? {
        selected := Where(selected, (e: AuditEvent) => e.userId == filter.userId.value);
      }
      FilteredInStages(events, filter);
      hide Where, Instant;
      var rows := Listing(selected, EventKey);
      if cursor.Some? {
        var last := DecodeCursor(cursor.value);
        if last.Failure? {
          return Failure(last.error);
        }
        rows := Beneath(rows, Some(last.value), EventKey);
      } else {
        BeneathNothing(rows, EventKey);
      }
      r := Success(Paginate(rows, limit, EventKey));
    }
  }

  class SqlAlchemyAuditEventStore {
    const events: Events

    constructor (events: Events)
      ensures this.events == events
    {
      this.events := events;
    }

    /** One statement: every condition in its `WHERE`, then `ORDER BY`, then `LIMIT limit + 1`. */
    method ListEvents(filter: Filter, cursor: Option<string>, limit: nat)
      returns (r: Result<Page<AuditEvent>, CursorError>)
      ensures r == Fetch(Matching(events, filter), cursor, limit, EventKey)
      ensures RightAnswer(r, WantedEvents(events, filter), cursor, limit, EventKey, MalformedCursor)
      ensures r.Success? ==> LatestEventsFirst(r.value.items)
    {
      hide RightAnswer, WantedEvents, LatestEventsFirst;
      EventsAnswerIsRight(events, filter, cursor, limit);
      var bound: Option<Key> := None;
      if cursor.Some? {
        var last := DecodeCursor(cursor.value);
        if last.Failure? {
          return Failure(last.error);
        }
        bound := Some(last.value);
      }
      var found := Listing(Where(Matching(events, filter), (e: AuditEvent) => Under(e, bound, EventKey)), EventKey);
      var rows := if |found| > limit + 1 then found[..limit + 1] else found;
      PeekSuffices(found, limit, EventKey);
      KeepOfListing(Matching(events, filter), (e: AuditEvent) => Under(e, bound, EventKey), EventKey);
      r := Success(Paginate(rows, limit, EventKey));
    }
  }

  /** The whole answer to a filter: exactly the events of the table that are neither before nor after the
      range and are the user's, the latest first. */
  lemma ReportIsExact(events: Events, filter: Filter)
    ensures var report := Listing(Matching(events, filter), EventKey);
      && LatestEventsFirst(report)
      && forall e :: e in report <==> e.auditId in events && events[e.auditId] == e && Wanted(filter, e)
  {
    hide Matches, Wanted, LatestEventsFirst, LatestFirst, Below;
    ReportMatches(events, filter);
    var report := Listing(Matching(events, filter), EventKey);
    DescendingIsLatestFirst(report, EventKey);
    LatestEvents(report);
    forall e
      ensures Matches(filter, e) <==> Wanted(filter, e)
    {
      MatchesIsWanted(filter, e);
    }
  }

  lemma ReportMatches(events: Events, filter: Filter)
    ensures var report := Listing(Matching(events, filter), EventKey);
      && Descending(report, EventKey)
      && forall e :: e in report <==> e.auditId in events && events[e.auditId] == e && Matches(filter, e)
  {
    var report := Listing(Matching(events, filter), EventKey);
    ListingLists(Matching(events, filter), EventKey);
    forall e | e in report
      ensures e.auditId in events && events[e.auditId] == e && Matches(filter, e)
    {
      var k :| 0 <= k < |report| && report[k] == e;
      assert EventKey(report[k]).id in Matching(events, filter);
    }
    forall e: AuditEvent | e.auditId in events && events[e.auditId] == e && Matches(filter, e)
      ensures e in report
    {
      assert e.auditId in Matching(events, filter);
    }
  }

  /** Paging through a filter on a fixed set of events gives that answer, whole and in order: the walk is
      finished exactly after `max(1, ceil(N / limit))` fetches, and no trailing page is empty. */
  lemma PagesGiveTheReport(pages: seq<Page<AuditEvent>>, tables: seq<map<Uuids.Uuid, AuditEvent>>, events: Events,
    filter: Filter, limit: nat)
    requires forall i :: 0 <= i < |tables| ==> tables[i] == Matching(events, filter)
    requires IsWalk(pages, tables, None, limit, EventKey) && limit >= 1 && pages != []
    ensures Finished(pages) <==> |pages| == PagesNeeded(|Listing(Matching(events, filter), EventKey)|, limit)
    ensures Finished(pages) ==> Cuts(pages, Listing(Matching(events, filter), EventKey), limit)
  {
    hide IsWalk, Cuts;
    BeneathNothing(Listing(Matching(events, filter), EventKey), EventKey);
    FixedTableWalk(pages, tables, Matching(events, filter), None, None, limit, EventKey);
  }
}
