/** The normalized event record that the fetcher produces, the diff compares,
    the notifier renders and the store persists. */
module Events {

  datatype Option<+T> = None | Some(value: T)

  /** One ticketed event as the bot keeps it. `id` is the ticketing API's
      identifier and the only key used to decide whether an event is new. */
  datatype EventRecord = EventRecord(id: string, name: string, venue: string, date: string, url: string)

  /** The set of ids occurring in a list of records. */
  function Ids(events: seq<EventRecord>): set<string>
  {
    set e | e in events :: e.id
  }
}
