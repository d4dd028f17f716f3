/**
  The rule engine: an ordered list of rules edited in place, and the choice of
  the shortcut to run for an onset (first applicable rule, then the alternate
  shortcut, then the master shortcut).
*/
module Routing {
  import opened Wrappers
  import opened Calendar
  import opened Rules
  import opened Seqs
  import opened Settings

  /** A rule is considered at `now` when it is enabled and its condition holds. */
  predicate Applies(r: Rule, now: Moment) {
    r.enabled && Matches(r.when, now)
  }

  function AppliesAt(now: Moment): Rule -> bool {
    (r: Rule) => Applies(r, now)
  }

  function HasId(id: Uuid): Rule -> bool {
    (r: Rule) => r.id == id
  }

  function LacksId(id: Uuid): Rule -> bool {
    (r: Rule) => r.id != id
  }

  /** The shortcut chosen for an onset at `now`; never absent, since the master shortcut is the last resort. */
  function Route(rules: seq<Rule>, now: Moment, alternate: string, cancelNextEvent: bool, shortcutName: string): (r: string)
    ensures (exists j :: 0 <= j < |rules| && Applies(rules[j], now)) ==>
      exists k :: 0 <= k < |rules| && Applies(rules[k], now) && r == rules[k].shortcut &&
        forall j :: 0 <= j < k ==> !Applies(rules[j], now)
    ensures (forall j :: 0 <= j < |rules| ==> !Applies(rules[j], now)) ==>
      r == if alternate != "" && !cancelNextEvent then alternate else shortcutName
  {
    var k := FirstIndex(rules, AppliesAt(now));
    if k < |rules| then rules[k].shortcut
    else if alternate != "" && !cancelNextEvent then alternate
    else shortcutName
  }

  /** The lowest-index applicable rule decides, whatever comes after it. */
  lemma RouteFirstApplicable(rules: seq<Rule>, now: Moment, alternate: string, cancelNextEvent: bool, shortcutName: string, k: nat)
    requires k < |rules| && Applies(rules[k], now)
    requires forall j :: 0 <= j < k ==> !Applies(rules[j], now)
    ensures Route(rules, now, alternate, cancelNextEvent, shortcutName) == rules[k].shortcut
  {
  }

  /**
    With no applicable rule the alternate shortcut is used when it is set and
    the next event is not cancelled; otherwise the master shortcut.
  */
  lemma RouteFallback(rules: seq<Rule>, now: Moment, alternate: string, cancelNextEvent: bool, shortcutName: string)
    requires forall j :: 0 <= j < |rules| ==> !Applies(rules[j], now)
    ensures Route(rules, now, alternate, cancelNextEvent, shortcutName) ==
      if alternate != "" && !cancelNextEvent then alternate else shortcutName
  {
  }

  predicate IsEnabled(r: Rule) {
    r.enabled
  }

  /** A first rule that does not apply is passed over. */
  lemma RouteSkipsHead(rules: seq<Rule>, now: Moment, alternate: string, cancelNextEvent: bool, shortcutName: string)
    requires rules != [] && !Applies(rules[0], now)
    ensures Route(rules, now, alternate, cancelNextEvent, shortcutName) ==
      Route(rules[1..], now, alternate, cancelNextEvent, shortcutName)
  {
    var k := FirstIndex(rules[1..], AppliesAt(now));
    assert FirstIndex(rules, AppliesAt(now)) == 1 + k;
    if k < |rules[1..]| {
      assert rules[1 + k] == rules[1..][k];
    }
  }

  /** A first rule that applies decides. */
  lemma RouteTakesHead(rules: seq<Rule>, now: Moment, alternate: string, cancelNextEvent: bool, shortcutName: string)
    requires rules != [] && Applies(rules[0], now)
    ensures Route(rules, now, alternate, cancelNextEvent, shortcutName) == rules[0].shortcut
  {
  }

  /**
    Disabled rules never supply the shortcut: deleting all of them, wherever
    they stand and whether or not they match, does not change the route.
  */
  lemma {:induction false} RouteIgnoresDisabled(rules: seq<Rule>, now: Moment, alternate: string, cancelNextEvent: bool, shortcutName: string)
    ensures Route(rules, now, alternate, cancelNextEvent, shortcutName) ==
      Route(Filter(rules, IsEnabled), now, alternate, cancelNextEvent, shortcutName)
    decreases |rules|
  {
    if rules != [] {
      var kept := Filter(rules, IsEnabled);
      var tail := Filter(rules[1..], IsEnabled);
      assert kept == (if rules[0].enabled then [rules[0]] else []) + tail;
      if Applies(rules[0], now) {
        assert kept != [] && kept[0] == rules[0];
        RouteTakesHead(rules, now, alternate, cancelNextEvent, shortcutName);
        RouteTakesHead(kept, now, alternate, cancelNextEvent, shortcutName);
      } else {
        RouteIgnoresDisabled(rules[1..], now, alternate, cancelNextEvent, shortcutName);
        RouteSkipsHead(rules, now, alternate, cancelNextEvent, shortcutName);
        if rules[0].enabled {
          assert kept[1..] == tail;
          RouteSkipsHead(kept, now, alternate, cancelNextEvent, shortcutName);
        } else {
          assert kept == tail;
        }
      }
    }
  }

  /** The rule set installed when none has been saved. */
  function DefaultRules(weeknightsId: Uuid, weekendId: Uuid): (r: seq<Rule>)
    ensures |r| == 2 && r[0].enabled && r[1].enabled
    ensures r[0].id == weeknightsId && r[1].id == weekendId
    ensures r[0].when.Days? && r[1].when.Days?
    ensures forall d :: 1 <= d <= 7 ==>
      (d in r[0].when.days <==> 2 <= d <= 6) && (d in r[1].when.days <==> !(2 <= d <= 6))
  {
    [ NewRule(weeknightsId, "Weeknights", Days([2, 3, 4, 5, 6]), "SleepTrigger Weeknight"),
      NewRule(weekendId, "Weekend", Days([1, 7]), "SleepTrigger Weekend") ]
  }

  /**
    The default rules split the week: on every day exactly one of them applies,
    so the weeknight shortcut runs Monday to Friday and the weekend one otherwise.
  */
  lemma DefaultRulesSplitWeek(weeknightsId: Uuid, weekendId: Uuid, now: Moment,
                              alternate: string, cancelNextEvent: bool, shortcutName: string)
    requires ValidMoment(now)
    ensures var rules := DefaultRules(weeknightsId, weekendId);
      Applies(rules[0], now) != Applies(rules[1], now)
    ensures Route(DefaultRules(weeknightsId, weekendId), now, alternate, cancelNextEvent, shortcutName) ==
      if 2 <= now.weekday <= 6 then "SleepTrigger Weeknight" else "SleepTrigger Weekend"
  {
  }

  class RuleEngine {
    var rules: seq<Rule>

    /** Loads the saved rules, or installs the defaults when there are none. */
    constructor (saved: Option<seq<Rule>>, weeknightsId: Uuid, weekendId: Uuid)
      ensures rules == if saved.Some? then saved.value else DefaultRules(weeknightsId, weekendId)
    {
      if saved.Some? {
        rules := saved.value;
      } else {
        rules := DefaultRules(weeknightsId, weekendId);
      }
    }

    method Add(rule: Rule)
      modifies this
      ensures rules == old(rules) + [rule]
    {
      rules := rules + [rule];
    }

    /** Replaces the first rule with the same id; does nothing when there is none. */
    method Update(rule: Rule)
      modifies this
      ensures var k := FirstIndex(old(rules), HasId(rule.id));
        rules == if k < |old(rules)| then old(rules)[k := rule] else old(rules)
      ensures |rules| == |old(rules)|
      ensures forall j :: 0 <= j < |rules| && old(rules)[j].id != rule.id ==> rules[j] == old(rules)[j]
    {
      var idx := FirstIndex(rules, HasId(rule.id));
      if idx == |rules| {
        return;
      }
      rules := rules[idx := rule];
    }

    /** Deletes every rule with the same id, keeping the others in order. */
    method Remove(rule: Rule)
      modifies this
      ensures rules == Filter(old(rules), LacksId(rule.id))
      ensures forall j :: 0 <= j < |rules| ==> rules[j].id != rule.id
    {
      rules := Filter(rules, LacksId(rule.id));
    }

    /** The route for `now` under the current rules and settings. */
    function RouteShortcut(settings: AppSettings, now: Moment): (r: string)
      reads this, settings
      ensures (exists j :: 0 <= j < |rules| && Applies(rules[j], now)) ==>
        exists k :: 0 <= k < |rules| && Applies(rules[k], now) && r == rules[k].shortcut &&
          forall j :: 0 <= j < k ==> !Applies(rules[j], now)
      ensures (forall j :: 0 <= j < |rules| ==> !Applies(rules[j], now)) ==>
        r == if settings.alternateShortcutName != "" && !settings.cancelNextEvent
             then settings.alternateShortcutName else settings.shortcutName
    {
      Route(rules, now, settings.alternateShortcutName, settings.cancelNextEvent, settings.shortcutName)
    }
  }

}
