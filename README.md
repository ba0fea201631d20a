# Event state and assistant actions of an event-scheduling dashboard

This project models the core of the dashboard's `hooks/use-events.tsx` in Dafny:

- the `Event` record (`EventRecord`);
- the backing document collection `"events"`, as an abstract store whose
  `create` hands out a fresh id and whose query filters by exact `date`
  string equality, and whose every call may meet an outage (`EventStore`);
- the `EventsProvider` state: the in-memory `events` list, changed only by
  `addEvent` (append) and `fetchEvents` (replace), plus the handlers of the
  two assistant actions `addEventWithDateTime` and `fetchEventsForDate`
  (`UseEvents`);
- the two actions' `render` callbacks, as pure maps from lifecycle status,
  result and error to a view (`ActionRender`).

The provider is a class: `events` is a field the methods reassign, the
store is a `Store` object whose `docs` field grows. The object invariant
`Valid()` says that the store's ids are distinct and that every cached
record holds the data of some stored document and carries that document's
id, or the id stored in its data. A store failure is an
`outage` argument of each call. The wall clock is the `now` argument of
the add handler, parseISO is its `parseISO` argument (`None` for an invalid
date), and timestamps are integers.

In these points the model follows the code as written:

- On a store failure `fetchEvents` returns `[]` and leaves `events` as it was;
  it does not clear it (hooks/use-events.tsx:61-64).
- The add action returns the event it built, which has no id, and it does so
  even when the store write failed (hooks/use-events.tsx:110-111).
- The past-date guard is a strict `isBefore`: a moment equal to `now` is
  accepted, and so is a date/time parseISO cannot read, because isBefore is
  false for an invalid date (hooks/use-events.tsx:92-97).
- Fetched records are built as `{ id: doc.id, ...doc.data() }`, so an `id`
  stored inside the document data wins over the document id (`Hydrate`).

The source field `type` is named `eventType`, since `type` is a Dafny keyword.
Store ids are the decimal index of the document, so they are distinct.
A real backend generates random ids. The model's query also returns documents
in creation order; the real backend orders an equality query by document id
(see "## Left out").

## Model

| member | source | states |
|---|---|---|
| EventStore.DocIdInjective | hooks/use-events.tsx:41 | distinct documents get distinct ids |
| EventStore.NextIdFresh | hooks/use-events.tsx:41 | the id of the next created document is used by no stored document |
| EventStore.Store.Create | hooks/use-events.tsx:41 | addDoc: on success the data is appended under a fresh id that is returned; on an outage it fails and nothing is written |
| EventStore.Store.Query | hooks/use-events.tsx:50-52 | getDocs of the date query: the documents matching the date, or a failure on an outage |
| EventStore.ByDate | hooks/use-events.tsx:51 | the query result holds only stored documents whose date equals the argument, and is no longer than the collection |
| EventStore.ByDateMembers | hooks/use-events.tsx:51 | a document is returned if and only if it is stored and its date matches |
| EventStore.ByDateConcat | hooks/use-events.tsx:51-52 | the query distributes over concatenation, so it keeps the collection's order |
| UseEvents.Hydrated | hooks/use-events.tsx:54-57 | each fetched document becomes one record, in order, with the document id unless the data carries its own |
| UseEvents.Hydrate | hooks/use-events.tsx:54-57 | a fetched record holds the document's data; it carries the document id when the data has no id, and the data's own id otherwise |
| UseEvents.QueryEvents | hooks/use-events.tsx:48-60 | what a successful fetch returns: no more records than documents, each with the requested date and an id |
| UseEvents.QueryEventsExactly | hooks/use-events.tsx:48-60 | a record is in a successful fetch if and only if it is the hydrated form of a stored document with the requested date |
| UseEvents.QueryEventsEmpty | hooks/use-events.tsx:48-60 | a successful fetch is empty if and only if no stored document has the date |
| UseEvents.QueryAfterCreate | hooks/use-events.tsx:39-60 | after one create, the query for a date gains that document at the end if its date matches and is otherwise unchanged |
| UseEvents.AddKeepsDateInSync | hooks/use-events.tsx:39-60 | with the cache showing a date, adding an id-less event for that date leaves the cache equal to a re-fetch of it |
| UseEvents.AddKeepsDateInSyncAnyOrder | hooks/use-events.tsx:39-60 | with the cache showing a date, adding an id-less event for that date leaves the cache holding the same records as a re-fetch, in whatever order |
| UseEvents.AddOtherDateLeavesQuery | hooks/use-events.tsx:39-60 | adding an event for another date leaves that date's query unchanged |
| UseEvents.LocalDateTime | hooks/use-events.tsx:92 | the string handed to parseISO is the date, then "T", then the time, then ":00" |
| UseEvents.IsBefore | hooks/use-events.tsx:95 | the guard is false for an invalid date and for a moment equal to now, and otherwise true exactly when the moment is earlier than now |
| UseEvents.BuildEvent | hooks/use-events.tsx:99-109 | the built event has no id, the given type, date and time, and the fixed defaults Venue A, 50 guests, Guest 1-3, Custom decorations, Full course meal, Photography and Music |
| UseEvents.EventsProvider.constructor | hooks/use-events.tsx:31 | the events list starts empty |
| UseEvents.EventsProvider.AddEvent | hooks/use-events.tsx:39-46 | on success the store gains the event and the cache gains it at the end with the store's fresh id, earlier records unchanged; on failure nothing changes and nothing is raised |
| UseEvents.EventsProvider.FetchEvents | hooks/use-events.tsx:48-65 | on success returns the query result and replaces the cache with it; on failure returns empty and keeps the cache |
| UseEvents.EventsProvider.AddEventWithDateTime | hooks/use-events.tsx:91-112 | a moment strictly before now fails with "Cannot add an event in the past." with no write and no cache change; otherwise the built event is added and returned without id, even if the write failed |
| UseEvents.EventsProvider.FetchEventsForDate | hooks/use-events.tsx:142-145 | returns the fetch result with the echoed date, and leaves the cache as FetchEvents does |
| UseEvents.FetchTwice | hooks/use-events.tsx:48-60 | two outage-free fetches of one date with no write between return the same sequence, which is then the cache |
| ActionRender.RenderAdd | hooks/use-events.tsx:113-127 | running shows "Adding event..."; else complete with a result shows its type, date and time; else an error shows its message; else the generic failure |
| ActionRender.AddText | hooks/use-events.tsx:115-125 | the words of each add view: "Adding event...", "Event added: type on date at time", the error's message, "Failed to add event" |
| ActionRender.RenderAccepted | hooks/use-events.tsx:99-121 | a completed accepted add reads "Event added: type on date at time" for the fields it was given |
| ActionRender.RenderRejected | hooks/use-events.tsx:95-123 | for every status that is not running, a failure with message m and no result shows exactly m; for the past-date guard that reads "Cannot add an event in the past." |
| ActionRender.RenderFetch | hooks/use-events.tsx:146-164 | the list is shown if and only if the status is complete and the result is non-empty, with the echoed date and one "type at time" line per event; running shows fetching |
| ActionRender.EventLine | hooks/use-events.tsx:156 | one listed event reads its type, then " at ", then its time |
| ActionRender.FetchText | hooks/use-events.tsx:148-162 | the words of each fetch view: "Fetching events...", the "Events on date" heading followed by the lines, or "No events found for this date." |
| ActionRender.FetchTextShown | hooks/use-events.tsx:146-163 | a completed non-empty fetch shows the heading with the echoed date and one "type at time" line per event in order; a completed empty fetch shows the not-found message |
| ActionRender.RenderFetchAgainstStore | hooks/use-events.tsx:142-163 | a completed fetch lists events if and only if some stored document has the date; a store outage shows "No events found for this date." |

## Left out

- Network I/O of the backend (`addDoc`, `getDocs`, `collection`, `query`, `where`, firebase.ts): replaced by the `Store` class above; a failure is an `outage` argument rather than something the network decides.
- Query order: the model's query returns documents in creation order, while the real backend orders an equality query (hooks/use-events.tsx:51-52 has no `orderBy`) by its random document ids. So "at the end" in QueryAfterCreate and "equal to a re-fetch" in AddKeepsDateInSync hold for the model store only; for the real backend the order-free form AddKeepsDateInSyncAnyOrder holds: the same records, in some order.
- Asynchrony: every operation is atomic, so the race between a fetch and an add in flight together, where the later completion wins, is not modelled.
- React machinery: the context, `useState`, the provider component and the error `useEvents` throws outside a provider.
- The readable-state export `useCopilotReadable`, which is `JSON.stringify` of `events`: a foreign serializer; the export always reflects the current `events` field.
- `console.error` logging on the failure paths: output only; the model keeps the absorbing behaviour.
- date-fns `parseISO` and the wall clock: passed in as the `parseISO` and `now` arguments; `isBefore` is modelled, including its false result for an invalid date.
- The action descriptors' names, descriptions and parameter schemas: metadata read by the assistant runtime, with no behaviour of their own here.
- The JSX markup of the render callbacks: a view value stands for it, and the red error styling is the `ErrorShown` and `AddFailed` cases; the list keys are not modelled.
- The add render's props are typed `any` in the source (the fetch render's are not); the model takes the status as one of its three values and the result and error as present or absent.
- The dashboard page, event card, sidebar, date picker, authentication pages and the assistant runtime route: presentation and configuration outside this core.
