# Ticketmaster concert notifier: a Dafny model of its polling cycle

The bot polls the Ticketmaster search API for one artist, turns each event of
the response into a small record (id, name, venue, date, url), compares the
fetched records with the snapshot stored in `events.json`, sends one mail per
event whose id the snapshot does not know, and overwrites the snapshot with
the whole fetch only when it found at least one such event.

This project models that cycle in five modules:

- `Events` (events.dfy): the `EventRecord` entity and the set of ids of a list of records.
- `Fetcher` (fetcher.dfy): the decoded API response as datatypes with optional
  fields, and the normalization of `fetch_events`. An incomplete event makes
  the whole result empty, because the catch-all handler turns the lookup error
  into `[]`.
- `Notifier` (notifier.dfy): subject and body of the notification mail, with a
  parser that reads the shown fields back from a body.
- `Diff` (diff.dfy): the notify list, proved equal to an independent
  description (an order-preserving selection that keeps every occurrence of an
  event with an unknown id and nothing else).
- `Bot` (bot.dfy): the class `NotifierBot`, whose `snapshot` field stands for
  the events file and whose `sent` field logs every notification attempt;
  `Step` is one cycle and `Run` is a bounded run of the loop; specification
  functions `NextSnapshot`, `Replay` and `Notified` and the lemmas about them.

Two behaviours of the code worth stating:

- The code does not assume ids are unique within one fetch. Two fetched events with the same unknown id are both notified.
- An event lacking a nested field, or with an empty venue list, is not skipped. The whole fetch comes back empty.

## Model

| member | source | states |
|---|---|---|
| Fetcher.NormalizeAll | main.py:41-47 | the comprehension succeeds exactly when every raw event carries id, name, a first venue with a name, a start local date and a url; it then yields one record per raw event, same length and order, each record's venue being the first venue's name and its date the start's local date |
| Fetcher.FetchEvents | main.py:36-55 | a request failure, a body without `_embedded`, an `_embedded` without `events` or any incomplete event gives the empty list; otherwise the records picked field by field from the raw events, in response order |
| Diff.EventsToNotify | main.py:109-114 | an event is in the notify list exactly when it is in the fetch and its id is not among the stored snapshot's ids; the list is no longer than the fetch |
| Diff.EventsToNotifyIsSubsequence | main.py:111-114 | the notify list keeps the fetch order (it is a subsequence of the fetch) |
| Diff.EventsToNotifyCounts | main.py:111-114 | each event with an unknown id is notified as many times as it was fetched (no de-duplication within a batch); an event with a known id never |
| Diff.NotifyListUnique | main.py:111-114 | any order-preserving selection from the fetch with those occurrence counts is the notify list itself |
| Diff.EventsToNotifyCharacterized | main.py:109-114 | both directions: a list is the notify list if and only if it is such a selection |
| Diff.NothingToNotifyIff | main.py:111-116 | nothing is notified if and only if every fetched id is already in the stored snapshot |
| Notifier.SubjectRoundTrip | main.py:75 | the subject is "New Concert: " followed by the event name, which can be read back from it |
| Notifier.BodyLines | main.py:76-80 | for fields without line breaks the body has exactly six lines: the alert header, a blank line, the bold name, the venue line, the date line and the tickets line |
| Notifier.BodyRoundTrip | main.py:76-80 | name, venue, date and url can be read back from the body |
| Notifier.MailDeterminesShownFields | main.py:75-86 | two events rendered to the same mail agree on name, venue, date and url when venue and date hold no line break; the subject alone fixes the name |
| Notifier.BodiesCollideAcrossBreaks | main.py:76-80 | a line break plus the date label can move from the venue into the date without changing the mail, so the proviso above cannot be dropped |
| Bot.KnownFetchChangesNothing | main.py:109-124 | a fetch whose ids are all known notifies nothing and leaves the snapshot unchanged; an empty fetch never erases history |
| Bot.FetchedIdsKnownAfterCycle | main.py:109-122 | after a cycle every fetched id is known to the stored snapshot |
| Bot.CycleIsIdempotent | main.py:105-124 | the same fetch in the next cycle notifies nothing and leaves the snapshot as it is |
| Bot.ReplacementForgetsDroppedEvents | main.py:116-122 | for any snapshot and any fetch with news, the snapshot becomes exactly the fetch (replacement, not merge): an event whose id the fetch lacks is dropped, and a later fetch of it alone notifies it again |
| Bot.EmptyFetchesKeepHistory | main.py:103-124 | any number of cycles whose fetches come back empty (request errors, no events, incomplete events) notify nothing and keep the snapshot |
| Bot.SnapshotIsSomeFetch | main.py:103-124 | after any run the stored snapshot is the initial one or the complete result of one of the fetches |
| Bot.NotifiedWereFetched | main.py:103-119 | every notified event was part of some cycle's fetch, and its id was unknown to the snapshot stored before that cycle |
| Bot.NotifierBot.constructor | main.py:58-64 | on the first run the snapshot is empty (no events file) and nothing has been sent |
| Bot.NotifierBot.Notify | main.py:73-96 | one attempt per call, logged with the rendered mail whatever the transport's outcome; the snapshot is untouched |
| Bot.NotifierBot.Step | main.py:105-124 | the attempts of one cycle are exactly the notify list, in order; the old log is kept; the snapshot becomes the fetch if the notify list is non-empty and stays otherwise |
| Bot.NotifierBot.Run | main.py:103-127 | a run over several fetch outcomes logs exactly the events `Notified` lists and leaves the snapshot `Replay` computes |

## Left out

- The HTTP request, `raise_for_status` and JSON decoding of the response (main.py:37-39) are a network client. Their outcome is the input `FetchOutcome`: a request failure or a decoded body.
- JSON values are modelled as strings. The source copies whatever value a key holds, and a non-string id would still compare by equality.
- The nested paths `_embedded`/`venues` and `dates`/`start`/`localDate` of an event are each one optional field. A missing key anywhere on a path is that field missing.
- The SMTP session, STARTTLS, login and MIME construction (main.py:82-93) are a foreign mail transport. Its outcome is a nondeterministic `delivered` flag in the attempt log; control flow ignores it, as the source swallows the exception.
- The sender, recipient and the MIME headers are fixed configuration and are not part of `Mail`.
- Reading and writing `events.json` (main.py:58-70) is file I/O. The store is the `snapshot` field, and the JSON round trip is taken to be lossless.
- The fatal path for a corrupt events file is not modelled.
- `time.sleep(86400)` and the endless `while True` (main.py:103, 127) are timing and non-termination. `Run` models a finite number of cycles.
- Environment variables, constants such as the artist, the result size and the country code, and all `print` logging (main.py:10-23 and throughout) are configuration and diagnostics.
- The unused set `new_event_ids` (main.py:108) has no effect and is not modelled.
- Notifier.BodyRoundTrip: stated only for fields without line breaks; a field containing a line break makes the body ambiguous, so no parser can recover the fields in general.
- Notifier.BodyLines: stated only for fields without line breaks, for the same reason.
- Notifier.MailDeterminesShownFields: stated only for a venue and a date without line breaks, because otherwise two different events can share a mail (see Notifier.BodiesCollideAcrossBreaks).
