/** The `Event` record of hooks/use-events.tsx. The source's field `type`
    is called `eventType` here, because `type` is a Dafny keyword. */
module EventRecord {
  import opened Wrappers

  /** One scheduled event. `id` is absent until the store has assigned one. */
  datatype Event = Event(
    id: Option<string>,
    eventType: string,
    date: string,       // ISO "YYYY-MM-DD", compared as a plain string
    time: string,       // "HH:mm", local time
    venue: string,
    guests: int,
    guestList: seq<string>,
    customization: string,
    catering: string,
    services: seq<string>)

  /** The event with its `id` field dropped: what two records must agree on
      to hold the same user data. */
  function Unstamped(e: Event): Event {
    e.(id := None)
  }
}
