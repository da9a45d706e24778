/** The polling loop of main.py. One cycle fetches, diffs the fetch against the
    stored snapshot, attempts one notification per new event and, only when
    there was at least one, overwrites the snapshot with the whole fetch. */
module Bot {
  import opened Events
  import opened Fetcher
  import opened Notifier
  import opened Diff

  /** One notification attempt: the event, the mail built for it, and whether
      the mail transport accepted it. A failed attempt changes nothing else. */
  datatype Attempt = Attempt(event: EventRecord, mail: Mail, delivered: bool)

  /** The events of a log of attempts, in order. */
  function AttemptedEvents(log: seq<Attempt>): seq<EventRecord>
  {
    seq(|log|, i requires 0 <= i < |log| => log[i].event)
  }

  /** The stored snapshot after a cycle that fetched `fetched`: replaced by the
      whole fetch if the fetch held an event with an unknown id, kept otherwise. */
  function NextSnapshot(snapshot: seq<EventRecord>, fetched: seq<EventRecord>): seq<EventRecord>
  {
    if EventsToNotify(fetched, snapshot) != [] then fetched else snapshot
  }

  /** The stored snapshot after one cycle per fetch outcome. */
  function Replay(snapshot: seq<EventRecord>, outcomes: seq<FetchOutcome>): seq<EventRecord>
    decreases |outcomes|
  {
    if outcomes == [] then snapshot
    else Replay(NextSnapshot(snapshot, FetchEvents(outcomes[0])), outcomes[1..])
  }

  /** Every event notified over one cycle per fetch outcome, in order. */
  function Notified(snapshot: seq<EventRecord>, outcomes: seq<FetchOutcome>): seq<EventRecord>
    decreases |outcomes|
  {
    if outcomes == [] then []
    else
      var fetched := FetchEvents(outcomes[0]);
      EventsToNotify(fetched, snapshot) + Notified(NextSnapshot(snapshot, fetched), outcomes[1..])
  }

  lemma AttemptedEventsAppend(a: seq<Attempt>, b: seq<Attempt>)
    ensures AttemptedEvents(a + b) == AttemptedEvents(a) + AttemptedEvents(b)
  {
  }

  lemma ConcatAssociates(a: seq<EventRecord>, b: seq<EventRecord>, c: seq<EventRecord>)
    ensures (a + b) + c == a + (b + c)
  {
  }

  /** Splitting off the first of the remaining cycles. */
  lemma CycleUnfolds(snapshot: seq<EventRecord>, outcomes: seq<FetchOutcome>, k: nat)
    requires k < |outcomes|
    ensures var fetched := FetchEvents(outcomes[k]);
            && Notified(snapshot, outcomes[k..]) == EventsToNotify(fetched, snapshot) + Notified(NextSnapshot(snapshot, fetched), outcomes[k + 1..])
            && Replay(snapshot, outcomes[k..]) == Replay(NextSnapshot(snapshot, fetched), outcomes[k + 1..])
  {
    assert outcomes[k..][0] == outcomes[k] && outcomes[k..][1..] == outcomes[k + 1..];
  }

  /** A log that grew twice: the new part is the first growth then the second. */
  lemma LogGrows(log0: seq<Attempt>, log1: seq<Attempt>, log2: seq<Attempt>)
    requires |log0| <= |log1| <= |log2| && log1[..|log0|] == log0 && log2[..|log1|] == log1
    ensures log2[..|log0|] == log0
    ensures AttemptedEvents(log2[|log0|..]) == AttemptedEvents(log1[|log0|..]) + AttemptedEvents(log2[|log1|..])
  {
    assert log2[|log0|..] == log1[|log0|..] + log2[|log1|..];
    AttemptedEventsAppend(log1[|log0|..], log2[|log1|..]);
  }

  /** A cycle whose fetched ids are all known notifies nothing and keeps the
      snapshot; in particular a failed or empty fetch never erases history. */
  lemma KnownFetchChangesNothing(snapshot: seq<EventRecord>, fetched: seq<EventRecord>)
    requires Ids(fetched) <= Ids(snapshot)
    ensures EventsToNotify(fetched, snapshot) == []
    ensures NextSnapshot(snapshot, fetched) == snapshot
  {
    NothingToNotifyIff(fetched, snapshot);
  }

  /** After a cycle every fetched id is known to the stored snapshot. */
  lemma FetchedIdsKnownAfterCycle(snapshot: seq<EventRecord>, fetched: seq<EventRecord>)
    ensures Ids(fetched) <= Ids(NextSnapshot(snapshot, fetched))
  {
    NothingToNotifyIff(fetched, snapshot);
  }

  /** Repeating a fetch notifies nothing the second time and leaves the
      snapshot as the first time left it. */
  lemma CycleIsIdempotent(snapshot: seq<EventRecord>, fetched: seq<EventRecord>)
    ensures EventsToNotify(fetched, NextSnapshot(snapshot, fetched)) == []
    ensures NextSnapshot(NextSnapshot(snapshot, fetched), fetched) == NextSnapshot(snapshot, fetched)
  {
    FetchedIdsKnownAfterCycle(snapshot, fetched);
    KnownFetchChangesNothing(NextSnapshot(snapshot, fetched), fetched);
  }

  /** The snapshot is replaced, not merged: when a fetch holds news, an event
      missing from it is dropped from the snapshot, and the next fetch that
      brings it back notifies it again. */
  lemma ReplacementForgetsDroppedEvents(snapshot: seq<EventRecord>, fetched: seq<EventRecord>, e: EventRecord)
    requires EventsToNotify(fetched, snapshot) != [] && e.id !in Ids(fetched)
    ensures NextSnapshot(snapshot, fetched) == fetched
    ensures e.id !in Ids(NextSnapshot(snapshot, fetched))
    ensures EventsToNotify([e], NextSnapshot(snapshot, fetched)) == [e]
  {
  }

  /** Cycles whose fetches all come back empty (request errors, responses
      without events, incomplete events) notify nothing and keep the snapshot. */
  lemma {:induction false} EmptyFetchesKeepHistory(snapshot: seq<EventRecord>, outcomes: seq<FetchOutcome>)
    requires forall i :: 0 <= i < |outcomes| ==> FetchEvents(outcomes[i]) == []
    ensures Replay(snapshot, outcomes) == snapshot
    ensures Notified(snapshot, outcomes) == []
    decreases |outcomes|
  {
    if outcomes != [] {
      assert FetchEvents(outcomes[0]) == [];
      EmptyFetchesKeepHistory(snapshot, outcomes[1..]);
    }
  }

  /** The stored snapshot is always the initial one or the result of one of
      the fetches. */
  lemma {:induction false} SnapshotIsSomeFetch(snapshot: seq<EventRecord>, outcomes: seq<FetchOutcome>)
    ensures Replay(snapshot, outcomes) == snapshot
            || exists i :: 0 <= i < |outcomes| && Replay(snapshot, outcomes) == FetchEvents(outcomes[i])
    decreases |outcomes|
  {
    if outcomes != [] {
      var next := NextSnapshot(snapshot, FetchEvents(outcomes[0]));
      SnapshotIsSomeFetch(next, outcomes[1..]);
      if Replay(next, outcomes[1..]) != next {
        var i :| 0 <= i < |outcomes[1..]| && Replay(next, outcomes[1..]) == FetchEvents(outcomes[1..][i]);
        assert FetchEvents(outcomes[i + 1]) == Replay(snapshot, outcomes);
      } else if next != snapshot {
        assert FetchEvents(outcomes[0]) == Replay(snapshot, outcomes);
      }
    }
  }

  /** The snapshot before cycle i + 1, counted from the second cycle on. */
  lemma ReplayPrefixUnfolds(snapshot: seq<EventRecord>, outcomes: seq<FetchOutcome>, i: nat)
    requires i + 1 < |outcomes|
    ensures Replay(snapshot, outcomes[..i + 1])
            == Replay(NextSnapshot(snapshot, FetchEvents(outcomes[0])), outcomes[1..][..i])
  {
    assert outcomes[..i + 1][0] == outcomes[0];
    assert outcomes[..i + 1][1..] == outcomes[1..][..i];
  }

  /** Every notified event was fetched in some cycle, with an id the snapshot
      of that cycle did not know. */
  lemma {:induction false} NotifiedWereFetched(snapshot: seq<EventRecord>, outcomes: seq<FetchOutcome>, e: EventRecord)
    requires e in Notified(snapshot, outcomes)
    ensures exists i :: 0 <= i < |outcomes| && e in FetchEvents(outcomes[i])
                        && e.id !in Ids(Replay(snapshot, outcomes[..i]))
    decreases |outcomes|
  {
    var fetched := FetchEvents(outcomes[0]);
    if e in EventsToNotify(fetched, snapshot) {
      assert outcomes[..0] == [];
      assert e in FetchEvents(outcomes[0]) && e.id !in Ids(Replay(snapshot, outcomes[..0]));
    } else {
      var next := NextSnapshot(snapshot, fetched);
      NotifiedWereFetched(next, outcomes[1..], e);
      var i :| 0 <= i < |outcomes[1..]| && e in FetchEvents(outcomes[1..][i])
               && e.id !in Ids(Replay(next, outcomes[1..][..i]));
      ReplayPrefixUnfolds(snapshot, outcomes, i);
      assert e in FetchEvents(outcomes[i + 1]) && e.id !in Ids(Replay(snapshot, outcomes[..i + 1]));
    }
  }

  /** The bot's persistent state: the stored snapshot (the events file) and the
      log of every notification attempt made so far. */
  class NotifierBot {
    var snapshot: seq<EventRecord>
    var sent: seq<Attempt>

    /** Every attempted mail is the rendering of its event. */
    ghost predicate Valid()
      reads this
    {
      forall i :: 0 <= i < |sent| ==> sent[i].mail == Render(sent[i].event)
    }

    /** First run: no events file yet, nothing sent. */
    constructor ()
      ensures Valid()
      ensures snapshot == [] && sent == []
    {
      snapshot := [];
      sent := [];
    }

    /** One mail for one event. The transport may fail; the failure is recorded
        in the attempt and otherwise swallowed. */
    method Notify(e: EventRecord)
      requires Valid()
      modifies this
      ensures Valid()
      ensures snapshot == old(snapshot)
      ensures |sent| == |old(sent)| + 1 && sent[..|old(sent)|] == old(sent)
      ensures sent[|old(sent)|].event == e && sent[|old(sent)|].mail == Render(e)
    {
      var delivered: bool :| true;
      sent := sent + [Attempt(e, Render(e), delivered)];
    }

    /** One cycle on an already normalized fetch: one attempt per event to
        notify, in fetch order, then the snapshot decision. */
    method Step(fetched: seq<EventRecord>)
      requires Valid()
      modifies this
      ensures Valid()
      ensures |sent| >= |old(sent)| && sent[..|old(sent)|] == old(sent)
      ensures AttemptedEvents(sent[|old(sent)|..]) == EventsToNotify(fetched, old(snapshot))
      ensures snapshot == NextSnapshot(old(snapshot), fetched)
    {
      var toNotify := EventsToNotify(fetched, snapshot);
      if toNotify != [] {
        for i := 0 to |toNotify|
          invariant Valid()
          invariant snapshot == old(snapshot)
          invariant |sent| == |old(sent)| + i && sent[..|old(sent)|] == old(sent)
          invariant AttemptedEvents(sent[|old(sent)|..]) == toNotify[..i]
        {
          ghost var before := sent;
          Notify(toNotify[i]);
          assert sent[|old(sent)|..] == before[|old(sent)|..] + [sent[|sent| - 1]];
          AttemptedEventsAppend(before[|old(sent)|..], [sent[|sent| - 1]]);
          assert toNotify[..i + 1] == toNotify[..i] + [toNotify[i]];
        }
        assert toNotify[..|toNotify|] == toNotify;
        snapshot := fetched;
      }
    }

    /** A bounded run of the polling loop: one cycle per fetch outcome. */
    method Run(outcomes: seq<FetchOutcome>)
      requires Valid()
      modifies this
      ensures Valid()
      ensures |sent| >= |old(sent)| && sent[..|old(sent)|] == old(sent)
      ensures AttemptedEvents(sent[|old(sent)|..]) == Notified(old(snapshot), outcomes)
      ensures snapshot == Replay(old(snapshot), outcomes)
    {
      for k := 0 to |outcomes|
        invariant Valid()
        invariant |sent| >= |old(sent)| && sent[..|old(sent)|] == old(sent)
        invariant AttemptedEvents(sent[|old(sent)|..]) + Notified(snapshot, outcomes[k..]) == Notified(old(snapshot), outcomes)
        invariant Replay(snapshot, outcomes[k..]) == Replay(old(snapshot), outcomes)
      {
        ghost var before, previous := sent, snapshot;
        var fetched := FetchEvents(outcomes[k]);
        CycleUnfolds(previous, outcomes, k);
        Step(fetched);
        LogGrows(old(sent), before, sent);
        ghost var done, now, later := AttemptedEvents(before[|old(sent)|..]), EventsToNotify(fetched, previous), Notified(snapshot, outcomes[k + 1..]);
        ConcatAssociates(done, now, later);
      }
      assert outcomes[|outcomes|..] == [];
    }
  }

  /** Three cycles: a first run that finds E1, a fetch that adds E2, and a
      fetch that comes back empty. */
  method Scenario()
  {
    var e1 := EventRecord("E1", "Show A", "Hall 1", "2025-05-01", "http://x/1");
    var e2 := EventRecord("E2", "Show B", "Hall 2", "2025-06-01", "http://x/2");
    var bot := new NotifierBot();
    bot.Step([e1]);
    assert Ids([]) == {};
    assert AttemptedEvents(bot.sent) == [e1];
    assert bot.snapshot == [e1];
    bot.Step([e1, e2]);
    assert Ids([e1]) == {"E1"};
    assert AttemptedEvents(bot.sent[1..]) == [e2];
    assert bot.snapshot == [e1, e2];
    bot.Step([]);
    assert |bot.sent| == 2;
    assert bot.snapshot == [e1, e2];
  }
}
