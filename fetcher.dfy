/** Normalization of the ticketing API's search response into event records
    (`fetch_events` in main.py). The HTTP request itself is not modelled: its
    outcome is an input, either a request failure or an already decoded body. */
module Fetcher {
  import opened Events

  /** A venue object of the response; `name` is None when its key is missing. */
  datatype RawVenue = RawVenue(name: Option<string>)

  /** One event object of the response. A field is None when its key, or any
      key on the path to it, is missing: `venues` stands for the path
      `_embedded` / `venues` inside the event, `localDate` for the path
      `dates` / `start` / `localDate`. */
  datatype RawEvent = RawEvent(
    id: Option<string>,
    name: Option<string>,
    venues: Option<seq<RawVenue>>,
    localDate: Option<string>,
    url: Option<string>)

  /** The top-level `_embedded` object; `events` is None when it has no `events` key. */
  datatype Embedded = Embedded(events: Option<seq<RawEvent>>)

  /** The decoded response body; `embedded` is None when it has no `_embedded` key. */
  datatype Response = Response(embedded: Option<Embedded>)

  /** What the HTTP request yields: a request error (connection failure, bad
      status, undecodable body) or a decoded body. */
  datatype FetchOutcome = RequestFailed | Received(body: Response)

  /** A raw event carries every field the normalization reads. */
  predicate Complete(raw: RawEvent)
  {
    && raw.id.Some?
    && raw.name.Some?
    && raw.venues.Some? && |raw.venues.value| > 0 && raw.venues.value[0].name.Some?
    && raw.localDate.Some?
    && raw.url.Some?
  }

  /** `record` is what `raw` says, field by field: the venue is the first
      venue's name and the date is the start's local date. */
  predicate Picks(raw: RawEvent, record: EventRecord)
  {
    && raw.id == Some(record.id)
    && raw.name == Some(record.name)
    && raw.venues.Some? && |raw.venues.value| > 0 && raw.venues.value[0].name == Some(record.venue)
    && raw.localDate == Some(record.date)
    && raw.url == Some(record.url)
  }

  /** One element of the list comprehension; None where a lookup would raise. */
  function Normalize(raw: RawEvent): Option<EventRecord>
  {
    match raw
    case RawEvent(Some(id), Some(name), Some(venues), Some(date), Some(url)) =>
      if |venues| > 0 && venues[0].name.Some? then
        Some(EventRecord(id, name, venues[0].name.value, date, url))
      else
        None
    case _ => None
  }

  /** The whole comprehension: it either yields one record per raw event, in
      order, or fails as a whole as soon as one raw event is incomplete. */
  function NormalizeAll(raws: seq<RawEvent>): (r: Option<seq<EventRecord>>)
    ensures r.Some? <==> forall i :: 0 <= i < |raws| ==> Complete(raws[i])
    ensures r.Some? ==> |r.value| == |raws| && forall i :: 0 <= i < |raws| ==> Picks(raws[i], r.value[i])
  {
    if raws == [] then
      Some([])
    else
      match (Normalize(raws[0]), NormalizeAll(raws[1..]))
      case (Some(first), Some(rest)) => Some([first] + rest)
      case _ => None
  }

  /** The result of `fetch_events`: every failure (request error, missing
      `_embedded`, missing `events`, an incomplete event) yields the empty list. */
  function FetchEvents(outcome: FetchOutcome): (r: seq<EventRecord>)
    ensures match outcome
      case Received(Response(Some(Embedded(Some(raws))))) =>
        if forall i :: 0 <= i < |raws| ==> Complete(raws[i]) then
          |r| == |raws| && forall i :: 0 <= i < |raws| ==> Picks(raws[i], r[i])
        else
          r == []
      case _ => r == []
  {
    match outcome
    case RequestFailed => []
    case Received(body) =>
      match body.embedded
      case None => []
      case Some(embedded) =>
        match embedded.events
        case None => []
        case Some(raws) =>
          match NormalizeAll(raws)
          case Some(records) => records
          case None => []
  }
}
