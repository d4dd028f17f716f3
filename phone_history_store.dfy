/**
  The phone's own list of onsets reported by the watch, capped at the most
  recent 200 entries.
*/
module PhoneHistory {
  import opened Wrappers
  import opened Calendar
  import opened Seqs

  const MaxCount: nat := 200
  const WatchSource := "watch"

  datatype PhoneSleepEvent = PhoneSleepEvent(id: Uuid, date: Date, bpm: Option<real>, source: string)

  /** A value in a message from the watch, as the dictionary holds it. */
  datatype PayloadValue = DoubleValue(d: real) | IntValue(i: int) | TextValue(s: string)

  /** Reads a key as a `TimeInterval`/`Double`; absent or differently typed values give none. */
  function DoubleAt(payload: map<string, PayloadValue>, key: string): (r: Option<real>)
    ensures r.Some? <==> key in payload && payload[key].DoubleValue?
    ensures r.Some? ==> r.value == payload[key].d
  {
    if key in payload && payload[key].DoubleValue? then Some(payload[key].d) else None
  }

  /**
    Appending to a list within the cap: the result stays within the cap, ends
    with the new event, grows by one below the cap and otherwise drops the
    oldest entry, keeping the rest in order.
  */
  lemma CappedAppend(s: seq<PhoneSleepEvent>, e: PhoneSleepEvent)
    requires |s| <= MaxCount
    ensures var r := KeepLast(s + [e], MaxCount);
      |r| <= MaxCount && r[|r| - 1] == e &&
      (|s| < MaxCount ==> r == s + [e]) &&
      (|s| == MaxCount ==> r == s[1..] + [e])
  {
  }

  class PhoneHistoryStore {
    var events: seq<PhoneSleepEvent>

    /** The list decoded from user defaults, or empty. */
    constructor (saved: Option<seq<PhoneSleepEvent>>)
      ensures events == if saved.Some? then saved.value else []
    {
      events := if saved.Some? then saved.value else [];
    }

    /** Appends a watch onset and drops the oldest entries beyond the cap. */
    method Append(id: Uuid, date: Date, bpm: Option<real>)
      modifies this
      ensures events == KeepLast(old(events) + [PhoneSleepEvent(id, date, bpm, WatchSource)], MaxCount)
      ensures |events| <= MaxCount
      ensures events[|events| - 1] == PhoneSleepEvent(id, date, bpm, WatchSource)
    {
      var e := PhoneSleepEvent(id, date, bpm, WatchSource);
      events := events + [e];
      if |events| > MaxCount {
        events := events[|events| - MaxCount..];
      }
    }

    /** Appends the onset carried by a watch message; a message without a numeric "ts" is ignored. */
    method ImportFromWatchPayload(payload: map<string, PayloadValue>, id: Uuid)
      modifies this
      ensures DoubleAt(payload, "ts").None? ==> events == old(events)
      ensures DoubleAt(payload, "ts").Some? ==>
        events == KeepLast(old(events) + [PhoneSleepEvent(id, DoubleAt(payload, "ts").value,
                                                         DoubleAt(payload, "bpm"), WatchSource)], MaxCount)
    {
      var ts := DoubleAt(payload, "ts");
      if ts.None? {
        return;
      }
      var bpm := DoubleAt(payload, "bpm");
      Append(id, ts.value, bpm);
    }
  }

}
