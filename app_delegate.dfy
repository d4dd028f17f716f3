/**
  The app delegate's notification handling: the category it registers at
  launch and what each of its actions does to the settings.
*/
module AppDelegate {
  import opened Wrappers
  import opened Numeric
  import opened Settings
  import opened Notifications

  const SnoozeId := "SNOOZE_10"
  const CancelTonightId := "CANCEL_TONIGHT"
  const RunAlternateId := "RUN_ALTERNATE"
  const SleepDetectedCategoryId := "SLEEP_DETECTED"

  /** Ten minutes, in seconds. */
  const SnoozeSeconds := 10 * 60

  /** The category registered at launch. */
  const SleepDetectedCategory := Category(SleepDetectedCategoryId, [
    Action(SnoozeId, "Snooze 10 min", false, false),
    Action(CancelTonightId, "Cancel tonight", true, false),
    Action(RunAlternateId, "Run alternate shortcut", false, true)
  ])

  datatype Handled = Snooze | CancelTonight | RunAlternate | Ignored

  /** The branch of the action switch that an identifier takes. */
  function Classify(id: string): Handled {
    if id == SnoozeId then Snooze
    else if id == CancelTonightId then CancelTonight
    else if id == RunAlternateId then RunAlternate
    else Ignored
  }

  /** Every action this delegate registers has its own branch, and no other identifier does. */
  lemma RegisteredActionsAreHandled(id: string)
    ensures Classify(id) != Ignored <==> id in ActionIds(SleepDetectedCategory)
  {
    var actions := SleepDetectedCategory.actions;
    assert actions[0].identifier == SnoozeId;
    assert actions[1].identifier == CancelTonightId;
    assert actions[2].identifier == RunAlternateId;
  }

  /** The settings after the user picks the action in `response`. */
  function AfterAction(v: SettingsValue, response: Response): (r: SettingsValue)
    ensures Classify(response.actionIdentifier) == Snooze ==>
      r == v.(holdSecondsBeforeRun := r.holdSecondsBeforeRun) &&
      r.holdSecondsBeforeRun >= v.holdSecondsBeforeRun && r.holdSecondsBeforeRun >= SnoozeSeconds &&
      (r.holdSecondsBeforeRun == v.holdSecondsBeforeRun || r.holdSecondsBeforeRun == SnoozeSeconds)
    ensures Classify(response.actionIdentifier) == CancelTonight ==> r == v.(cancelNextEvent := true)
    ensures Classify(response.actionIdentifier) == RunAlternate ==>
      r == if response.userText.Some? then v.(alternateShortcutName := response.userText.value) else v
    ensures Classify(response.actionIdentifier) == Ignored ==> r == v
  {
    match Classify(response.actionIdentifier)
    case Snooze => v.(holdSecondsBeforeRun := Max(v.holdSecondsBeforeRun, SnoozeSeconds))
    case CancelTonight => v.(cancelNextEvent := true)
    case RunAlternate =>
      if response.userText.Some? then v.(alternateShortcutName := response.userText.value) else v
    case Ignored => v
  }

  /** Snoozing twice is snoozing once, and never shortens the hold. */
  lemma SnoozeIdempotent(v: SettingsValue, response: Response)
    requires response.actionIdentifier == SnoozeId
    ensures AfterAction(AfterAction(v, response), response) == AfterAction(v, response)
    ensures AfterAction(v, response).holdSecondsBeforeRun >= v.holdSecondsBeforeRun
  {
  }

  /**
    Handles a tapped action. Returns how many times the completion handler
    was called.
  */
  method DidReceive(settings: AppSettings, response: Response) returns (completions: nat)
    modifies settings
    ensures settings.Snapshot() == AfterAction(old(settings.Snapshot()), response)
    ensures completions == 1
  {
    completions := 0;
    var id := response.actionIdentifier;
    if id == SnoozeId {
      settings.holdSecondsBeforeRun := Max(settings.holdSecondsBeforeRun, 10 * 60);
    } else if id == CancelTonightId {
      settings.cancelNextEvent := true;
    } else if id == RunAlternateId {
      if response.userText.Some? {
        settings.alternateShortcutName := response.userText.value;
      }
    }
    completions := completions + 1;
  }

}
