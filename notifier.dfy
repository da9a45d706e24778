/** The notification message for one event (`send_email_notification` in
    main.py, without the mail transport). The message depends on nothing but
    the record. */
module Notifier {
  import opened Events

  const SubjectPrefix := "New Concert: "
  const Header := "\U{1F3A4} **New Concert Alert!** \U{1F3A4}"
  const VenueLabel := "\U{1F4CD} Venue: "
  const DateLabel := "\U{1F4C5} Date: "
  const TicketsLabel := "\U{1F517} Tickets: "

  /** A plain-text mail as handed to the transport. */
  datatype Mail = Mail(subject: string, body: string)

  /** The four record fields a body shows. */
  datatype Shown = Shown(name: string, venue: string, date: string, url: string)

  function Subject(e: EventRecord): string
  {
    SubjectPrefix + e.name
  }

  function Body(e: EventRecord): string
  {
    Header + "\n\n"
    + "**" + e.name + "**\n"
    + VenueLabel + e.venue + "\n"
    + DateLabel + e.date + "\n"
    + TicketsLabel + e.url
  }

  function Render(e: EventRecord): Mail
  {
    Mail(Subject(e), Body(e))
  }

  /** `s` without its prefix `p`, if it starts with `p`. */
  function StripPrefix(s: string, p: string): Option<string>
  {
    if |p| <= |s| && s[..|p|] == p then Some(s[|p|..]) else None
  }

  /** The subject announces the event's name, and nothing else. */
  lemma SubjectRoundTrip(e: EventRecord)
    ensures StripPrefix(Subject(e), SubjectPrefix) == Some(e.name)
  {
    assert Subject(e)[..|SubjectPrefix|] == SubjectPrefix;
  }

  /** `s` cut at each line break; a string without one is a single line. */
  function Lines(s: string): (r: seq<string>)
    ensures |r| >= 1
    decreases |s|
  {
    if s == [] then
      [""]
    else
      var rest := Lines(s[1..]);
      if s[0] == '\n' then [""] + rest else [[s[0]] + rest[0]] + rest[1..]
  }

  /** A break-free line followed by a break starts the list of lines. */
  lemma {:induction false} LinesCons(a: string, b: string)
    requires '\n' !in a
    ensures Lines(a + "\n" + b) == [a] + Lines(b)
    decreases |a|
  {
    var s := a + "\n" + b;
    if a == [] {
      assert s[1..] == b;
    } else {
      assert s[1..] == a[1..] + "\n" + b;
      assert a[0] in a;
      assert '\n' !in a[1..] by {
        assert forall k :: 0 <= k < |a[1..]| ==> a[1..][k] == a[k + 1];
      }
      LinesCons(a[1..], b);
      assert [a[0]] + a[1..] == a;
    }
  }

  lemma {:induction false} LinesSingle(a: string)
    requires '\n' !in a
    ensures Lines(a) == [a]
    decreases |a|
  {
    if a != [] {
      assert a[0] in a;
      assert '\n' !in a[1..] by {
        assert forall k :: 0 <= k < |a[1..]| ==> a[1..][k] == a[k + 1];
      }
      LinesSingle(a[1..]);
      assert [a[0]] + a[1..] == a;
    }
  }

  /** A string without line breaks, framed by two strings without them, has none. */
  lemma NoBreakIn(p: string, x: string, q: string)
    requires '\n' !in p && '\n' !in x && '\n' !in q
    ensures '\n' !in p + x + q
  {
    assert forall k :: 0 <= k < |p + x + q| ==> (p + x + q)[k] in p || (p + x + q)[k] in x || (p + x + q)[k] in q;
  }

  /** Reads the shown fields back from a body, if it has the notifier's layout. */
  function ParseBody(body: string): Option<Shown>
  {
    var ls := Lines(body);
    if |ls| == 6 && ls[0] == Header && ls[1] == "" then
      var title, venue, date, url := ls[2], StripPrefix(ls[3], VenueLabel), StripPrefix(ls[4], DateLabel), StripPrefix(ls[5], TicketsLabel);
      if |title| >= 4 && title[..2] == "**" && title[|title| - 2..] == "**" && venue.Some? && date.Some? && url.Some? then
        Some(Shown(title[2..|title| - 2], venue.value, date.value, url.value))
      else
        None
    else
      None
  }

  lemma HeaderHasNoBreak()
    ensures '\n' !in Header
  {
  }

  /** A body is its six lines joined by line breaks. */
  lemma BodyJoined(e: EventRecord)
    ensures Body(e) == Header + "\n" + ("" + "\n" + ("**" + e.name + "**" + "\n" + (VenueLabel + e.venue + "\n" + (DateLabel + e.date + "\n" + (TicketsLabel + e.url)))))
  {
  }

  /** Six break-free lines joined by line breaks split back into those six lines. */
  lemma LinesOfSix(l0: string, l1: string, l2: string, l3: string, l4: string, l5: string)
    requires '\n' !in l0 && '\n' !in l1 && '\n' !in l2 && '\n' !in l3 && '\n' !in l4 && '\n' !in l5
    ensures Lines(l0 + "\n" + (l1 + "\n" + (l2 + "\n" + (l3 + "\n" + (l4 + "\n" + l5))))) == [l0, l1, l2, l3, l4, l5]
  {
    var t4 := l4 + "\n" + l5;
    var t3 := l3 + "\n" + t4;
    var t2 := l2 + "\n" + t3;
    var t1 := l1 + "\n" + t2;
    LinesSingle(l5);
    LinesCons(l4, l5);
    assert Lines(t4) == [l4, l5];
    LinesCons(l3, t4);
    assert Lines(t3) == [l3, l4, l5];
    LinesCons(l2, t3);
    assert Lines(t2) == [l2, l3, l4, l5];
    LinesCons(l1, t2);
    assert Lines(t1) == [l1, l2, l3, l4, l5];
    LinesCons(l0, t1);
  }

  /** The lines of a body: header, blank line, bold name, venue, date, url. */
  lemma BodyLines(e: EventRecord)
    requires '\n' !in e.name && '\n' !in e.venue && '\n' !in e.date && '\n' !in e.url
    ensures Lines(Body(e)) == [Header, "", "**" + e.name + "**", VenueLabel + e.venue, DateLabel + e.date, TicketsLabel + e.url]
  {
    NoBreakIn("**", e.name, "**");
    NoBreakIn(VenueLabel, e.venue, "");
    NoBreakIn(DateLabel, e.date, "");
    NoBreakIn(TicketsLabel, e.url, "");
    assert VenueLabel + e.venue + "" == VenueLabel + e.venue;
    assert DateLabel + e.date + "" == DateLabel + e.date;
    assert TicketsLabel + e.url + "" == TicketsLabel + e.url;
    HeaderHasNoBreak();
    BodyJoined(e);
    LinesOfSix(Header, "", "**" + e.name + "**", VenueLabel + e.venue, DateLabel + e.date, TicketsLabel + e.url);
  }

  /** A body shows name, venue, date and url, each on its own line, so they can
      be read back from it when none of them contains a line break. */
  lemma BodyRoundTrip(e: EventRecord)
    requires '\n' !in e.name && '\n' !in e.venue && '\n' !in e.date && '\n' !in e.url
    ensures ParseBody(Body(e)) == Some(Shown(e.name, e.venue, e.date, e.url))
  {
    BodyLines(e);
    var title := "**" + e.name + "**";
    assert (VenueLabel + e.venue)[..|VenueLabel|] == VenueLabel;
    assert (DateLabel + e.date)[..|DateLabel|] == DateLabel;
    assert (TicketsLabel + e.url)[..|TicketsLabel|] == TicketsLabel;
    assert title[..2] == "**" && title[|title| - 2..] == "**";
    assert title[2..|title| - 2] == e.name;
  }

  /** A body is the part up to the bold name followed by the venue, date and
      tickets lines. */
  lemma BodyAfterName(e: EventRecord)
    ensures Body(e) == (Header + "\n\n" + "**" + e.name + "**\n")
                       + (VenueLabel + e.venue + "\n" + (DateLabel + e.date + "\n" + (TicketsLabel + e.url)))
  {
  }

  /** Equal strings that start with the same prefix agree after it. */
  lemma CancelPrefix(p: string, x: string, y: string)
    requires p + x == p + y
    ensures x == y
  {
    assert x == (p + x)[|p|..];
    assert y == (p + y)[|p|..];
  }

  /** Two strings split at their first line break agree on both parts. */
  lemma SplitAtBreak(a1: string, b1: string, a2: string, b2: string)
    requires '\n' !in a1 && '\n' !in a2
    requires a1 + "\n" + b1 == a2 + "\n" + b2
    ensures a1 == a2 && b1 == b2
  {
    LinesCons(a1, b1);
    LinesCons(a2, b2);
    assert a1 == Lines(a1 + "\n" + b1)[0];
    assert a2 == Lines(a2 + "\n" + b2)[0];
    CancelPrefix(a1 + "\n", b1, b2);
  }

  /** Two events with the same mail agree on every field the mail shows (the
      id is not among them), provided venue and date hold no line break. The
      subject alone fixes the name. */
  lemma MailDeterminesShownFields(a: EventRecord, b: EventRecord)
    requires '\n' !in a.venue && '\n' !in a.date && '\n' !in b.venue && '\n' !in b.date
    requires Render(a) == Render(b)
    ensures a.name == b.name && a.venue == b.venue && a.date == b.date && a.url == b.url
  {
    SubjectRoundTrip(a);
    SubjectRoundTrip(b);
    assert a.name == b.name;
    BodyAfterName(a);
    BodyAfterName(b);
    var ta := VenueLabel + a.venue + "\n" + (DateLabel + a.date + "\n" + (TicketsLabel + a.url));
    var tb := VenueLabel + b.venue + "\n" + (DateLabel + b.date + "\n" + (TicketsLabel + b.url));
    CancelPrefix(Header + "\n\n" + "**" + a.name + "**\n", ta, tb);
    NoBreakIn(VenueLabel, a.venue, "");
    NoBreakIn(VenueLabel, b.venue, "");
    assert VenueLabel + a.venue + "" == VenueLabel + a.venue;
    assert VenueLabel + b.venue + "" == VenueLabel + b.venue;
    SplitAtBreak(VenueLabel + a.venue, DateLabel + a.date + "\n" + (TicketsLabel + a.url),
                 VenueLabel + b.venue, DateLabel + b.date + "\n" + (TicketsLabel + b.url));
    CancelPrefix(VenueLabel, a.venue, b.venue);
    NoBreakIn(DateLabel, a.date, "");
    NoBreakIn(DateLabel, b.date, "");
    assert DateLabel + a.date + "" == DateLabel + a.date;
    assert DateLabel + b.date + "" == DateLabel + b.date;
    SplitAtBreak(DateLabel + a.date, TicketsLabel + a.url, DateLabel + b.date, TicketsLabel + b.url);
    CancelPrefix(DateLabel, a.date, b.date);
    CancelPrefix(TicketsLabel, a.url, b.url);
  }

  /** Without that proviso the mail does not determine the fields: a line break
      followed by the date label can move from the venue into the date and
      leave the body as it was. */
  lemma BodiesCollideAcrossBreaks(a: EventRecord, x: string, y: string, z: string)
    ensures var moved := a.(venue := x + "\n" + DateLabel + y, date := z);
            var kept := a.(venue := x, date := y + "\n" + DateLabel + z);
            && Render(moved) == Render(kept)
            && moved.venue != kept.venue
  {
    var moved := a.(venue := x + "\n" + DateLabel + y, date := z);
    var kept := a.(venue := x, date := y + "\n" + DateLabel + z);
    var head := Header + "\n\n" + "**" + a.name + "**\n";
    var tickets := TicketsLabel + a.url;
    BodyAfterName(moved);
    BodyAfterName(kept);
    assert Body(moved) == head + (VenueLabel + (x + "\n" + DateLabel + y) + "\n" + (DateLabel + z + "\n" + tickets));
    assert Body(kept) == head + (VenueLabel + x + "\n" + (DateLabel + (y + "\n" + DateLabel + z) + "\n" + tickets));
    Regroup(VenueLabel, x, DateLabel, y, z, tickets);
    assert Body(moved) == Body(kept);
    assert |moved.venue| > |kept.venue|;
  }

  /** The two ways of grouping the venue and date lines around a moved break. */
  lemma Regroup(v: string, x: string, d: string, y: string, z: string, t: string)
    ensures v + (x + "\n" + d + y) + "\n" + (d + z + "\n" + t)
            == v + x + "\n" + (d + (y + "\n" + d + z) + "\n" + t)
  {
  }
}
