/** The diff of one polling cycle: which freshly fetched events to notify
    about, given the snapshot stored by the previous cycles. */
module Diff {
  import opened Events

  /** The fetched events whose id is not among the ids of `previous`, in
      fetch order. Duplicates within the fetch are not removed. */
  function EventsToNotify(fetched: seq<EventRecord>, previous: seq<EventRecord>): (r: seq<EventRecord>)
    ensures forall e :: e in r <==> e in fetched && e.id !in Ids(previous)
    ensures |r| <= |fetched|
  {
    if fetched == [] then
      []
    else
      var rest := EventsToNotify(fetched[1..], previous);
      if fetched[0].id in Ids(previous) then rest else [fetched[0]] + rest
  }

  /** `a` is `b` with some elements left out, the rest kept in order. */
  predicate IsSubsequence<T(==)>(a: seq<T>, b: seq<T>)
    decreases |b|
  {
    if a == [] then true
    else if b == [] then false
    else (a[0] == b[0] && IsSubsequence(a[1..], b[1..])) || IsSubsequence(a, b[1..])
  }

  /** An independent description of the notify list: an order-preserving
      selection from the fetch that holds every occurrence of each event
      with an unknown id and nothing else. */
  ghost predicate IsNotifyList(r: seq<EventRecord>, fetched: seq<EventRecord>, previous: seq<EventRecord>)
  {
    && IsSubsequence(r, fetched)
    && forall e :: multiset(r)[e] == if e.id in Ids(previous) then 0 else multiset(fetched)[e]
  }

  /** The notify list keeps the fetch order. */
  lemma {:induction false} EventsToNotifyIsSubsequence(fetched: seq<EventRecord>, previous: seq<EventRecord>)
    ensures IsSubsequence(EventsToNotify(fetched, previous), fetched)
    decreases |fetched|
  {
    if fetched != [] {
      var r, rest := EventsToNotify(fetched, previous), EventsToNotify(fetched[1..], previous);
      EventsToNotifyIsSubsequence(fetched[1..], previous);
      if fetched[0].id in Ids(previous) {
        SubsequenceOfTail(r, fetched);
      } else {
        assert r[1..] == rest;
      }
    }
  }

  /** A subsequence of the tail is a subsequence of the whole. */
  lemma SubsequenceOfTail<T>(a: seq<T>, b: seq<T>)
    requires b != [] && IsSubsequence(a, b[1..])
    ensures IsSubsequence(a, b)
  {
  }

  /** Every event with an unknown id is notified as often as it was fetched,
      and no event with a known id is notified. */
  lemma {:induction false} EventsToNotifyCounts(fetched: seq<EventRecord>, previous: seq<EventRecord>)
    ensures forall e :: multiset(EventsToNotify(fetched, previous))[e] ==
                        if e.id in Ids(previous) then 0 else multiset(fetched)[e]
    decreases |fetched|
  {
    if fetched != [] {
      var x, t := fetched[0], fetched[1..];
      assert fetched == [x] + t;
      EventsToNotifyCounts(t, previous);
    }
  }

  /** Dropping elements never adds occurrences. */
  lemma {:induction false} SubsequenceMultiset<T>(a: seq<T>, b: seq<T>)
    requires IsSubsequence(a, b)
    ensures multiset(a) <= multiset(b)
    decreases |b|
  {
    if a != [] {
      assert b == [b[0]] + b[1..];
      if a[0] == b[0] && IsSubsequence(a[1..], b[1..]) {
        SubsequenceMultiset(a[1..], b[1..]);
        assert a == [a[0]] + a[1..];
      } else {
        SubsequenceMultiset(a, b[1..]);
      }
    }
  }

  /** Only `EventsToNotify` meets the description `IsNotifyList`. */
  lemma {:induction false} NotifyListUnique(r: seq<EventRecord>, fetched: seq<EventRecord>, previous: seq<EventRecord>)
    requires IsNotifyList(r, fetched, previous)
    ensures r == EventsToNotify(fetched, previous)
    decreases |fetched|
  {
    if fetched != [] {
      var x, t := fetched[0], fetched[1..];
      assert fetched == [x] + t;
      if x.id in Ids(previous) {
        assert multiset(r)[x] == 0;
        assert IsSubsequence(r, t);
        forall e ensures multiset(r)[e] == if e.id in Ids(previous) then 0 else multiset(t)[e] {
          if e.id !in Ids(previous) {
            assert e != x;
          }
        }
        NotifyListUnique(r, t, previous);
      } else {
        assert multiset(r)[x] == multiset(fetched)[x] == multiset(t)[x] + 1;
        assert r != [];
        if IsSubsequence(r, t) {
          SubsequenceMultiset(r, t);
          assert false;
        }
        assert r[0] == x && IsSubsequence(r[1..], t);
        assert r == [x] + r[1..];
        forall e ensures multiset(r[1..])[e] == if e.id in Ids(previous) then 0 else multiset(t)[e] {
          assert multiset(r)[e] == multiset{x}[e] + multiset(r[1..])[e];
        }
        NotifyListUnique(r[1..], t, previous);
      }
    }
  }

  /** The notify list is exactly the list the description `IsNotifyList` admits. */
  lemma EventsToNotifyCharacterized(r: seq<EventRecord>, fetched: seq<EventRecord>, previous: seq<EventRecord>)
    ensures IsNotifyList(r, fetched, previous) <==> r == EventsToNotify(fetched, previous)
  {
    if IsNotifyList(r, fetched, previous) {
      NotifyListUnique(r, fetched, previous);
    }
    if r == EventsToNotify(fetched, previous) {
      EventsToNotifyIsSubsequence(fetched, previous);
      EventsToNotifyCounts(fetched, previous);
    }
  }

  /** Nothing is notified exactly when every fetched id is already known. */
  lemma NothingToNotifyIff(fetched: seq<EventRecord>, previous: seq<EventRecord>)
    ensures EventsToNotify(fetched, previous) == [] <==> Ids(fetched) <= Ids(previous)
  {
    var r := EventsToNotify(fetched, previous);
    if r == [] {
      forall id | id in Ids(fetched) ensures id in Ids(previous) {
        var e :| e in fetched && e.id == id;
        assert e !in r;
      }
    } else {
      assert r[0] in r;
      assert r[0].id in Ids(fetched);
    }
  }
}
