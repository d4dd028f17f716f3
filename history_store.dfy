/**
  The onset history kept as a JSON file in the app group: append an onset,
  prune everything older than the retention window, list newest first.
*/
module History {
  import opened Wrappers
  import opened Calendar
  import opened Numeric
  import opened Seqs
  import opened Sorting

  datatype Kind = Onset

  datatype SleepEvent = SleepEvent(id: Uuid, kind: Kind, date: Date, bpm: Option<real>, notes: Option<string>)

  /**
    The oldest date kept: `retentionDays` days before `clock`, a day being
    86400 seconds, and never less than one day even for a setting of zero or below.
  */
  function RetentionCutoff(clock: Date, retentionDays: int): (cutoff: Date)
    ensures cutoff <= clock - SecondsPerDay
    ensures retentionDays >= 1 ==> cutoff == clock - SecondsPerDay * retentionDays as real
    ensures retentionDays <= 1 ==> cutoff == clock - SecondsPerDay
  {
    clock - SecondsPerDay * Max(1, retentionDays) as real
  }

  function Retained(cutoff: Date): SleepEvent -> bool {
    (e: SleepEvent) => e.date >= cutoff
  }

  function NegatedDate(e: SleepEvent): real {
    -e.date
  }

  /** The events ordered newest first. */
  function NewestFirst(events: seq<SleepEvent>): (r: seq<SleepEvent>)
    ensures forall i, j :: 0 <= i < j < |r| ==> r[i].date >= r[j].date
    ensures multiset(r) == multiset(events)
  {
    var r := SortBy(events, NegatedDate);
    assert forall i, j :: 0 <= i < j < |r| ==> NegatedDate(r[i]) <= NegatedDate(r[j]);
    r
  }

  /** Pruning keeps exactly the events dated at or after the cutoff. */
  lemma PruneKeepsExactlyRecent(events: seq<SleepEvent>, cutoff: Date, e: SleepEvent)
    ensures e in Filter(events, Retained(cutoff)) <==> e in events && e.date >= cutoff
  {
  }

  /** Pruning twice with the same cutoff is pruning once. */
  lemma PruneIdempotent(events: seq<SleepEvent>, cutoff: Date)
    ensures var once := Filter(events, Retained(cutoff));
      Filter(once, Retained(cutoff)) == once
  {
    FilterIdempotent(events, Retained(cutoff));
  }

  /**
    Appending then pruning keeps the surviving older events in their order and
    puts the new event last if, and only if, it is not older than the cutoff.
  */
  lemma AppendThenPrune(events: seq<SleepEvent>, e: SleepEvent, cutoff: Date)
    ensures Filter(events + [e], Retained(cutoff)) ==
      Filter(events, Retained(cutoff)) + (if e.date >= cutoff then [e] else [])
  {
    FilterConcat(events, [e], Retained(cutoff));
    assert [e][1..] == [];
  }

  class HistoryStore {
    var events: seq<SleepEvent>

    /** The store as decoded from its file; an empty list when there is none. */
    constructor (saved: Option<seq<SleepEvent>>)
      ensures events == if saved.Some? then saved.value else []
    {
      events := if saved.Some? then saved.value else [];
    }

    /** Records an onset with a fresh id, then prunes with the retention setting. */
    method Append(id: Uuid, date: Date, bpm: Option<real>, clock: Date, retentionDays: int)
      modifies this
      ensures events == Filter(old(events) + [SleepEvent(id, Onset, date, bpm, None)],
                               Retained(RetentionCutoff(clock, retentionDays)))
      ensures SleepEvent(id, Onset, date, bpm, None) in events <==> date >= RetentionCutoff(clock, retentionDays)
    {
      var event := SleepEvent(id, Onset, date, bpm, None);
      events := events + [event];
      PruneKeepsExactlyRecent(events, RetentionCutoff(clock, retentionDays), event);
      PruneIfNeeded(clock, retentionDays);
    }

    /** The older entry point: an onset without a heart rate. */
    method AppendOnset(id: Uuid, date: Date, clock: Date, retentionDays: int)
      modifies this
      ensures events == Filter(old(events) + [SleepEvent(id, Onset, date, None, None)],
                               Retained(RetentionCutoff(clock, retentionDays)))
    {
      Append(id, date, None, clock, retentionDays);
    }

    /** Removes every event dated before the retention cutoff. */
    method PruneIfNeeded(clock: Date, retentionDays: int)
      modifies this
      ensures events == Filter(old(events), Retained(RetentionCutoff(clock, retentionDays)))
    {
      var days := Max(1, retentionDays);
      var cutoff := clock - SecondsPerDay * days as real;
      events := Filter(events, Retained(cutoff));
    }

    /** A snapshot of all events, newest first. */
    function All(): (r: seq<SleepEvent>)
      reads this
      ensures forall i, j :: 0 <= i < j < |r| ==> r[i].date >= r[j].date
      ensures multiset(r) == multiset(events)
    {
      NewestFirst(events)
    }
  }

}
