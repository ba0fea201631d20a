/** The events state and the two assistant actions of hooks/use-events.tsx.
    `EventsProvider` holds the in-memory `events` list; `AddEvent` appends to
    it and `FetchEvents` replaces it, and nothing else changes it. The two
    handlers `AddEventWithDateTime` and `FetchEventsForDate` are what the
    assistant invokes. Calls are atomic: the completion-order race between a
    fetch and an add that are in flight together is not modelled. */
module UseEvents {
  import opened Wrappers
  import opened EventRecord
  import opened EventStore

  /** The message the add action fails with for a moment in the past. */
  const PastError := "Cannot add an event in the past."

  /** The record `{ id: doc.id, ...doc.data() }` built for each fetched
      document: the spread comes second, so an `id` written with the data
      wins over the document id. */
  function Hydrate(doc: Doc): (e: Event)
    ensures Unstamped(e) == Unstamped(doc.data)
    ensures doc.data.id == None ==> e.id == Some(doc.id)
    ensures doc.data.id != None ==> e == doc.data
  {
    doc.data.(id := if doc.data.id.Some? then doc.data.id else Some(doc.id))
  }

  function Hydrated(docs: seq<Doc>): (r: seq<Event>)
    ensures |r| == |docs|
    ensures forall k :: 0 <= k < |docs| ==> r[k] == Hydrate(docs[k])
  {
    if docs == [] then [] else Hydrated(docs[..|docs| - 1]) + [Hydrate(docs[|docs| - 1])]
  }

  /** What a successful `fetchEvents(date)` returns for the collection `docs`. */
  function QueryEvents(docs: seq<Doc>, date: string): (r: seq<Event>)
    ensures |r| <= |docs|
    ensures forall k :: 0 <= k < |r| ==> r[k].date == date && r[k].id != None
  {
    Hydrated(ByDate(docs, date))
  }

  /** A record is fetched exactly when it is the hydrated form of a stored
      document with the requested date. */
  lemma QueryEventsExactly(docs: seq<Doc>, date: string, e: Event)
    ensures e in QueryEvents(docs, date) <==>
            exists j :: 0 <= j < |docs| && docs[j].data.date == date && e == Hydrate(docs[j])
  {
    var found := ByDate(docs, date);
    if e in QueryEvents(docs, date) {
      var k :| 0 <= k < |found| && QueryEvents(docs, date)[k] == e;
      var j :| 0 <= j < |docs| && docs[j] == found[k];
    }
    if j :| 0 <= j < |docs| && docs[j].data.date == date && e == Hydrate(docs[j]) {
      ByDateMembers(docs, date, docs[j]);
      var k :| 0 <= k < |found| && found[k] == docs[j];
      assert QueryEvents(docs, date)[k] == e;
    }
  }

  /** A successful fetch comes back empty exactly when no stored document
      has the date. */
  lemma QueryEventsEmpty(docs: seq<Doc>, date: string)
    ensures QueryEvents(docs, date) == [] <==> forall j :: 0 <= j < |docs| ==> docs[j].data.date != date
  {
    if j :| 0 <= j < |docs| && docs[j].data.date == date {
      QueryEventsExactly(docs, date, Hydrate(docs[j]));
    }
  }

  /** Creating one more document changes the query for `date` only by that
      document, at the end, and only if its date matches. */
  lemma QueryAfterCreate(docs: seq<Doc>, doc: Doc, date: string)
    ensures QueryEvents(docs + [doc], date) ==
            QueryEvents(docs, date) + (if doc.data.date == date then [Hydrate(doc)] else [])
  {
    ByDateConcat(docs, [doc], date);
    assert ByDate([doc], date) == (if doc.data.date == date then [doc] else []) by {
      assert [doc][..0] == [];
    }
    var a, b := ByDate(docs, date), ByDate([doc], date);
    assert Hydrated(a + b) == Hydrated(a) + Hydrated(b);
  }

  /** While the cache shows the query for `date`, adding an event without an
      id for that same date keeps it equal to the query: the appended record
      is exactly what a re-fetch would return last, in this store's
      creation order. */
  lemma AddKeepsDateInSync(docs: seq<Doc>, date: string, e: Event, id: string)
    requires e.id == None && e.date == date
    ensures QueryEvents(docs, date) + [e.(id := Some(id))] == QueryEvents(docs + [Doc(id, e)], date)
  {
    QueryAfterCreate(docs, Doc(id, e), date);
  }

  /** The same, whatever order the backend returns the query in: the cache
      and a re-fetch hold the same records. */
  lemma AddKeepsDateInSyncAnyOrder(docs: seq<Doc>, date: string, e: Event, id: string)
    requires e.id == None && e.date == date
    ensures multiset(QueryEvents(docs, date) + [e.(id := Some(id))]) == multiset(QueryEvents(docs + [Doc(id, e)], date))
  {
    AddKeepsDateInSync(docs, date, e, id);
  }

  /** Adding an event for another date leaves the query for `date` as it
      was (while AddEvent appends the record to the cache). */
  lemma AddOtherDateLeavesQuery(docs: seq<Doc>, date: string, e: Event, id: string)
    requires e.date != date
    ensures QueryEvents(docs + [Doc(id, e)], date) == QueryEvents(docs, date)
  {
    QueryAfterCreate(docs, Doc(id, e), date);
  }

  /** The cached record `e` holds the same user data as some stored
      document and carries that document's id or the id stored in its data. */
  ghost predicate Persisted(e: Event, docs: seq<Doc>) {
    exists j :: 0 <= j < |docs| && Unstamped(docs[j].data) == Unstamped(e)
                && (e.id == Some(docs[j].id) || e.id == docs[j].data.id)
  }

  lemma PersistedGrows(e: Event, docs: seq<Doc>, doc: Doc)
    requires Persisted(e, docs)
    ensures Persisted(e, docs + [doc])
  {
    var j :| 0 <= j < |docs| && Unstamped(docs[j].data) == Unstamped(e)
             && (e.id == Some(docs[j].id) || e.id == docs[j].data.id);
    assert (docs + [doc])[j] == docs[j];
  }

  lemma QueryEventsPersisted(docs: seq<Doc>, date: string)
    ensures forall k :: 0 <= k < |QueryEvents(docs, date)| ==> Persisted(QueryEvents(docs, date)[k], docs)
  {
    var found := ByDate(docs, date);
    forall k | 0 <= k < |found| ensures Persisted(QueryEvents(docs, date)[k], docs) {
      var j :| 0 <= j < |docs| && docs[j] == found[k];
      assert Unstamped(docs[j].data) == Unstamped(Hydrate(found[k]));
    }
  }

  /** The string handed to parseISO: `${date}T${time}:00`. */
  function LocalDateTime(date: string, time: string): (s: string)
    ensures |s| == |date| + |time| + 4
    ensures s[..|date|] == date && s[|date|] == 'T'
    ensures s[|date| + 1..|date| + 1 + |time|] == time && s[|s| - 3..] == ":00"
  {
    date + "T" + time + ":00"
  }

  /** date-fns isBefore: false when the first moment is an invalid date. */
  function IsBefore(moment: Option<int>, now: int): (r: bool)
    ensures moment == None ==> !r
    ensures moment == Some(now) ==> !r  // a moment equal to now is accepted
    ensures forall t :: moment == Some(t) ==> (r <==> t < now)
  {
    moment.Some? && moment.value < now
  }

  /** The record the add action writes: the three given fields and fixed
      defaults for the rest, with no id. */
  function BuildEvent(eventType: string, date: string, time: string): (e: Event)
    ensures e.id == None
    ensures e.eventType == eventType && e.date == date && e.time == time
    ensures e.venue == "Venue A" && e.guests == 50
    ensures e.guestList == ["Guest 1", "Guest 2", "Guest 3"]
    ensures e.customization == "Custom decorations" && e.catering == "Full course meal"
    ensures e.services == ["Photography", "Music"]
  {
    Event(None, eventType, date, time, "Venue A", 50, ["Guest 1", "Guest 2", "Guest 3"],
          "Custom decorations", "Full course meal", ["Photography", "Music"])
  }

  /** The value the fetch action returns to the assistant. */
  datatype FetchOutput = FetchOutput(eventsData: seq<Event>, date: string)

  class EventsProvider {
    var events: seq<Event>
    const store: Store

    /** The store keeps its ids distinct, and every cached record holds the
        data of a stored document under that document's id (or the id
        stored in its data). */
    ghost predicate Valid()
      reads this, store
    {
      store.Valid() && forall k :: 0 <= k < |events| ==> Persisted(events[k], store.docs)
    }

    constructor (store: Store)
      requires store.Valid()
      ensures Valid() && this.store == store && events == []
    {
      this.store := store;
      events := [];
    }

    /** addEvent: write the event to the store; on success append it, with
        the store's id, after the existing records. A store failure is
        absorbed: nothing is raised and the cache is untouched. */
    method AddEvent(event: Event, outage: bool)
      requires Valid()
      modifies this, store
      ensures Valid()
      ensures outage ==> events == old(events) && store.docs == old(store.docs)
      ensures !outage ==>
                var id := DocId(|old(store.docs)|);
                && store.docs == old(store.docs) + [Doc(id, event)]
                && events == old(events) + [event.(id := Some(id))]
      ensures !outage ==> forall k :: 0 <= k < |old(store.docs)| ==> old(store.docs)[k].id != DocId(|old(store.docs)|)
    {
      var r := store.Create(event, outage);
      if r.Success? {
        forall k | 0 <= k < |events| ensures Persisted(events[k], store.docs) {
          PersistedGrows(events[k], old(store.docs), Doc(r.value, event));
        }
        var stamped := event.(id := Some(r.value));
        assert Unstamped(store.docs[|store.docs| - 1].data) == Unstamped(stamped);
        events := events + [stamped];
      }
    }

    /** fetchEvents: query the store for `date` and replace the cache with
        the result, which is also returned. On a store failure the result is
        empty and the cache keeps its previous contents. */
    method FetchEvents(date: string, outage: bool) returns (r: seq<Event>)
      requires Valid()
      modifies this
      ensures Valid()
      ensures outage ==> r == [] && events == old(events)
      ensures !outage ==> r == QueryEvents(store.docs, date) && events == r
    {
      var found := store.Query(date, outage);
      if found.Success? {
        QueryEventsPersisted(store.docs, date);
        r := Hydrated(found.value);
        events := r;
      } else {
        r := [];
      }
    }

    /** The handler of addEventWithDateTime. `parseISO` stands for date-fns
        parseISO (None for an invalid date) and `now` for the wall clock.
        A moment strictly before `now` is rejected before anything is
        written; otherwise the built event is added and returned as built,
        without an id, whether or not the store accepted it. */
    method AddEventWithDateTime(date: string, time: string, eventType: string,
                                parseISO: string -> Option<int>, now: int, outage: bool)
      returns (r: Result<Event, string>)
      requires Valid()
      modifies this, store
      ensures Valid()
      ensures IsBefore(parseISO(LocalDateTime(date, time)), now) ==>
                r == Failure(PastError) && events == old(events) && store.docs == old(store.docs)
      ensures !IsBefore(parseISO(LocalDateTime(date, time)), now) ==>
                var e := BuildEvent(eventType, date, time);
                var id := DocId(|old(store.docs)|);
                && r == Success(e)
                && (outage ==> events == old(events) && store.docs == old(store.docs))
                && (!outage ==> store.docs == old(store.docs) + [Doc(id, e)]
                                && events == old(events) + [e.(id := Some(id))])
    {
      var eventDateTime := parseISO(LocalDateTime(date, time));
      if IsBefore(eventDateTime, now) {
        return Failure(PastError);
      }
      var event := BuildEvent(eventType, date, time);
      AddEvent(event, outage);
      r := Success(event);
    }

    /** The handler of fetchEventsForDate: the fetched records and the date
        it was asked for. */
    method FetchEventsForDate(date: string, outage: bool) returns (r: FetchOutput)
      requires Valid()
      modifies this
      ensures Valid()
      ensures r.date == date
      ensures outage ==> r.eventsData == [] && events == old(events)
      ensures !outage ==> r.eventsData == QueryEvents(store.docs, date) && events == r.eventsData
    {
      var eventsData := FetchEvents(date, outage);
      r := FetchOutput(eventsData, date);
    }
  }

  /** Two fetches of the same date with no write in between agree. */
  method FetchTwice(p: EventsProvider, date: string) returns (first: seq<Event>, second: seq<Event>)
    requires p.Valid()
    modifies p
    ensures first == second == p.events
  {
    first := p.FetchEvents(date, false);
    second := p.FetchEvents(date, false);
  }
}
