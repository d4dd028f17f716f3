/**
  The plain list of onset dates shown in the history screen. Every change to
  the list is written straight through to user defaults as an array of
  seconds since 1970; loading reads that array back newest first.
*/
module EventHistory {
  import opened Wrappers
  import opened Calendar
  import opened Sorting
  import opened Seqs

  const StorageKey := "sleepEvents.v1"

  predicate Descending(s: seq<real>) {
    forall i, j :: 0 <= i < j < |s| ==> s[i] >= s[j]
  }

  function Negated(x: real): real {
    -x
  }

  /**
    The list loaded from the stored value: the stored timestamps newest first,
    or nothing when the key is missing or holds something other than numbers.
  */
  function Loaded(stored: Option<seq<real>>): (r: seq<Date>)
    ensures Descending(r)
    ensures multiset(r) == if stored.Some? then multiset(stored.value) else multiset{}
  {
    var times := if stored.Some? then stored.value else [];
    var r := SortBy(times, Negated);
    assert forall i, j :: 0 <= i < j < |r| ==> Negated(r[i]) <= Negated(r[j]);
    r
  }

  lemma HeadIsLargest(s: seq<real>, x: real)
    requires Descending(s) && x in s
    ensures s[0] >= x
  {
  }

  /** Two newest-first lists with the same elements are the same list. */
  lemma {:induction false} DescendingUnique(a: seq<real>, b: seq<real>)
    requires Descending(a) && Descending(b)
    requires multiset(a) == multiset(b)
    ensures a == b
  {
    assert |a| == |multiset(a)| == |multiset(b)| == |b|;
    if a != [] {
      assert a[0] in multiset(b) && b[0] in multiset(a);
      HeadIsLargest(a, b[0]);
      HeadIsLargest(b, a[0]);
      MultisetTail(a);
      MultisetTail(b);
      assert a[0] == b[0];
      assert multiset(a[1..]) == multiset(b[1..]);
      DescendingUnique(a[1..], b[1..]);
      assert a == [a[0]] + a[1..];
      assert b == [b[0]] + b[1..];
    }
  }

  /**
    Writing the list and reading it back gives the same dates newest first; a
    list that is already newest first comes back unchanged.
  */
  lemma PersistLoadRoundTrip(events: seq<Date>)
    ensures multiset(Loaded(Some(events))) == multiset(events)
    ensures Descending(Loaded(Some(events)))
    ensures Descending(events) ==> Loaded(Some(events)) == events
  {
    if Descending(events) {
      DescendingUnique(Loaded(Some(events)), events);
    }
  }

  class EventHistoryStore {
    var events: seq<Date>
    /** The value held under `StorageKey` in user defaults. */
    var stored: Option<seq<real>>

    /** Loads the saved list, which in turn writes it back newest first. */
    constructor (saved: Option<seq<real>>)
      ensures events == Loaded(saved)
      ensures stored == Some(events)
      ensures Loaded(stored) == events
    {
      events := Loaded(saved);
      stored := Some(events);
      PersistLoadRoundTrip(Loaded(saved));
    }

    /** Puts a date at the front of the list. */
    method Add(date: Date)
      modifies this
      ensures events == [date] + old(events)
      ensures stored == Some(events)
    {
      events := [date] + events;
      stored := Some(events);
    }

    method Clear()
      modifies this
      ensures events == []
      ensures stored == Some(events)
    {
      events := [];
      stored := Some(events);
    }
  }

}
