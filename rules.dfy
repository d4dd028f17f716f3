/**
  Routing rules: when a rule applies (an hour window that may wrap past
  midnight, or a set of weekdays) and the rule record itself.
*/
module Rules {
  import opened Calendar

  /** When a rule applies: always, between two hours (inclusive), or on some weekdays (1 = Sunday). */
  datatype RuleWhen = Always | Hours(start: int, end: int) | Days(days: seq<int>)

  datatype Rule = Rule(id: Uuid, name: string, when: RuleWhen, shortcut: string, enabled: bool)

  /** A rule as the app builds one: enabled unless the caller says otherwise. */
  function NewRule(id: Uuid, name: string, when: RuleWhen, shortcut: string): (r: Rule)
    ensures r.enabled
    ensures r.id == id && r.name == name && r.when == when && r.shortcut == shortcut
  {
    Rule(id, name, when, shortcut, true)
  }

  /**
    Whether hour `h` lies in the window from `start` to `end`, both ends
    included; a window with `start > end` runs overnight through midnight.
  */
  function InHourWindow(start: int, end: int, h: int): (b: bool)
    ensures h == start || h == end ==> b
    ensures start == end ==> (b <==> h == start)
    ensures start > end && end < h < start ==> !b
    ensures start <= end && b ==> start <= h <= end
  {
    if start <= end then start <= h <= end
    else h >= start || h <= end
  }

  /**
    On a 24-hour clock the window is the arc that runs forward from `start`
    to `end`: an hour is inside iff it is no further from `start`, going
    forward, than `end` is.
  */
  lemma HourWindowIsClockArc(start: int, end: int, h: int)
    requires 0 <= start <= 23 && 0 <= end <= 23 && 0 <= h <= 23
    ensures InHourWindow(start, end, h) <==> (h - start) % 24 <= (end - start) % 24
  {
  }

  /** Whether a rule's condition holds at `now`. */
  function Matches(when: RuleWhen, now: Moment): (b: bool)
    ensures when.Always? ==> b
    ensures when.Hours? ==> (b <==> InHourWindow(when.start, when.end, now.hour))
    ensures when.Days? ==> (b <==> now.weekday in when.days)
    ensures when == Days([]) ==> !b
  {
    match when
    case Always => true
    case Hours(start, end) => InHourWindow(start, end, now.hour)
    case Days(days) => now.weekday in days
  }

}
