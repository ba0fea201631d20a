/** The `render` callbacks of the two assistant actions in
    hooks/use-events.tsx: pure maps from the action's lifecycle status, its
    result and its error to what the chat shows. A view is a tagged value;
    the `...Text` functions give the words. */
module ActionRender {
  import opened Wrappers
  import opened EventRecord
  import opened EventStore
  import opened UseEvents

  datatype Status = InProgress | Executing | Complete

  predicate Running(status: Status) {
    status == Executing || status == InProgress
  }

  /** What addEventWithDateTime shows. `ErrorShown` and `AddFailed` are
      styled as errors. */
  datatype AddView =
    | Adding
    | Added(eventType: string, date: string, time: string)
    | ErrorShown(message: string)
    | AddFailed

  function AddText(v: AddView): (s: string)
    ensures v == Adding ==> s == "Adding event..."
    ensures v.Added? ==> s == "Event added: " + v.eventType + " on " + v.date + " at " + v.time
    ensures v.ErrorShown? ==> s == v.message
    ensures v == AddFailed ==> s == "Failed to add event"
  {
    match v
    case Adding => "Adding event..."
    case Added(t, d, tm) => "Event added: " + t + " on " + d + " at " + tm
    case ErrorShown(m) => m
    case AddFailed => "Failed to add event"
  }

  /** The add render, checked in order: running, then a completed result,
      then an error, then the generic failure. */
  function RenderAdd(status: Status, result: Option<Event>, error: Option<string>): (v: AddView)
    ensures v.Adding? <==> Running(status)
    ensures v.Added? <==> status == Complete && result.Some?
    ensures v.ErrorShown? <==> !Running(status) && !(status == Complete && result.Some?) && error.Some?
    ensures v.Added? ==> v == Added(result.value.eventType, result.value.date, result.value.time)
    ensures v.ErrorShown? ==> v.message == error.value
  {
    if Running(status) then Adding
    else if status == Complete && result.Some? then
      Added(result.value.eventType, result.value.date, result.value.time)
    else if error.Some? then ErrorShown(error.value)
    else AddFailed
  }

  /** An accepted add, once complete, shows the three fields it was given. */
  lemma RenderAccepted(eventType: string, date: string, time: string, error: Option<string>)
    ensures AddText(RenderAdd(Complete, Some(BuildEvent(eventType, date, time)), error))
            == "Event added: " + eventType + " on " + date + " at " + time
  {
  }

  /** A handler that failed with message `m` and returned no result shows
      exactly `m` once it is no longer running; for the past-date guard
      that is "Cannot add an event in the past.". */
  lemma RenderRejected(status: Status, m: string)
    requires !Running(status)
    ensures RenderAdd(status, None, Some(m)) == ErrorShown(m)
    ensures AddText(RenderAdd(status, None, Some(m))) == m
    ensures AddText(RenderAdd(status, None, Some(PastError))) == "Cannot add an event in the past."
  {
  }

  /** What fetchEventsForDate shows: one line per fetched event. */
  datatype FetchView =
    | Fetching
    | EventsOn(date: string, lines: seq<string>)
    | NoEvents

  function EventLine(e: Event): (s: string)
    ensures |s| == |e.eventType| + 4 + |e.time|
    ensures s[..|e.eventType|] == e.eventType && s[|s| - |e.time|..] == e.time
    ensures s[|e.eventType|..|e.eventType| + 4] == " at "
  {
    e.eventType + " at " + e.time
  }

  function FetchText(v: FetchView): (s: seq<string>)
    ensures v == Fetching ==> s == ["Fetching events..."]
    ensures v.EventsOn? ==> |s| == 1 + |v.lines| && s[0] == "Events on " + v.date && s[1..] == v.lines
    ensures v == NoEvents ==> s == ["No events found for this date."]
  {
    match v
    case Fetching => ["Fetching events..."]
    case EventsOn(d, lines) => ["Events on " + d] + lines
    case NoEvents => ["No events found for this date."]
  }

  /** The fetch render lists the events only for a completed, non-empty
      result; every other case that is not running says nothing was found. */
  function RenderFetch(status: Status, result: Option<FetchOutput>): (v: FetchView)
    ensures v.Fetching? <==> Running(status)
    ensures v.EventsOn? <==> status == Complete && result.Some? && |result.value.eventsData| > 0
    ensures v.EventsOn? ==>
              && v.date == result.value.date
              && |v.lines| == |result.value.eventsData|
              && forall k :: 0 <= k < |v.lines| ==> v.lines[k] == EventLine(result.value.eventsData[k])
  {
    if Running(status) then Fetching
    else if status == Complete && result.Some? && |result.value.eventsData| > 0 then
      var out := result.value;
      EventsOn(out.date, seq(|out.eventsData|, k requires 0 <= k < |out.eventsData| => EventLine(out.eventsData[k])))
    else NoEvents
  }

  /** The words of a completed fetch: the heading with the echoed date and
      one "type at time" line per fetched event, in order; or, without
      events, the not-found message. */
  lemma FetchTextShown(out: FetchOutput)
    ensures |out.eventsData| > 0 ==>
              var s := FetchText(RenderFetch(Complete, Some(out)));
              && |s| == 1 + |out.eventsData| && s[0] == "Events on " + out.date
              && forall k :: 0 <= k < |out.eventsData| ==> s[k + 1] == out.eventsData[k].eventType + " at " + out.eventsData[k].time
    ensures |out.eventsData| == 0 ==> FetchText(RenderFetch(Complete, Some(out))) == ["No events found for this date."]
  {
  }

  /** A completed fetch lists events exactly when some stored document has
      the date; a store outage shows the same message as a date with none. */
  lemma RenderFetchAgainstStore(docs: seq<Doc>, date: string)
    ensures RenderFetch(Complete, Some(FetchOutput(QueryEvents(docs, date), date))).EventsOn?
            <==> exists j :: 0 <= j < |docs| && docs[j].data.date == date
    ensures RenderFetch(Complete, Some(FetchOutput([], date))) == NoEvents
  {
    QueryEventsEmpty(docs, date);
  }
}
