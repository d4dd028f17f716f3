/**
  The notification manager: the "sleep detected" notification it posts, the
  category it registers for it, and what each action does when tapped.
*/
module NotificationManager {
  import opened Wrappers
  import opened Calendar
  import opened Numeric
  import opened Settings
  import opened Notifications
  import opened Bridge

  const RunAltId := "RUN_ALT"
  const Snooze10Id := "SNOOZE_10"
  const CancelOnceId := "CANCEL_ONCE"
  const SleepDetectedCategoryId := "SLEEP_DETECTED"

  /** The hold a snooze asks for, in seconds. */
  const SnoozeSeconds := 600

  /** The category registered once permission has been asked for. */
  const SleepDetectedCategory := Category(SleepDetectedCategoryId, [
    Action(RunAltId, "Run Alternate", false, false),
    Action(Snooze10Id, "Snooze 10 min", false, false),
    Action(CancelOnceId, "Cancel Once", true, false)
  ])

  /** The notification posted for an onset, delivered at once. */
  const SleepDetectedNotification := Request("sleep_detected_now", "Sleep detected",
    "Tap to run your Shortcut, snooze 10m, or cancel once.", SleepDetectedCategoryId, None)

  datatype Handled = RunAlt | Snooze10 | CancelOnce | Ignored

  /** The branch of the action switch that an identifier takes. */
  function Classify(id: string): Handled {
    if id == RunAltId then RunAlt
    else if id == Snooze10Id then Snooze10
    else if id == CancelOnceId then CancelOnce
    else Ignored
  }

  /** The posted notification carries the registered category and is delivered at once. */
  lemma PostedCategoryIsRegistered()
    ensures SleepDetectedNotification.category == SleepDetectedCategory.identifier
    ensures SleepDetectedNotification.delay.None?
  {
  }

  /** The registered action identifiers are exactly those the switch handles. */
  lemma RegisteredActionsAreHandled(id: string)
    ensures Classify(id) != Ignored <==> id in ActionIds(SleepDetectedCategory)
  {
    var actions := SleepDetectedCategory.actions;
    assert actions[0].identifier == RunAltId;
    assert actions[1].identifier == Snooze10Id;
    assert actions[2].identifier == CancelOnceId;
  }

  /**
    Handles a tapped action at wall-clock time `clock`, running the work the
    app hands to the main actor straight away. Returns how many times the
    completion handler was called.
  */
  method DidReceive(settings: AppSettings, bridge: SleepEventBridge, response: Response, clock: Date)
    returns (completions: nat)
    modifies settings, bridge
    ensures completions == 1
    ensures Classify(response.actionIdentifier) == RunAlt ==>
      settings.Snapshot() == old(settings.Snapshot()).(cancelNextEvent := false) &&
      bridge.pending == old(bridge.pending) &&
      (settings.alternateShortcutName == "" ==>
        bridge.launched == old(bridge.launched) && bridge.lastAutomationRun == old(bridge.lastAutomationRun)) &&
      (settings.alternateShortcutName != "" ==>
        bridge.launched == old(bridge.launched) + [settings.alternateShortcutName] &&
        bridge.lastAutomationRun == Some(clock))
    ensures Classify(response.actionIdentifier) == Snooze10 ==>
      settings.Snapshot() == old(settings.Snapshot()) &&
      bridge.pending == Some(Hold(SnoozeSeconds, RunRouted)) &&
      bridge.launched == old(bridge.launched) && bridge.lastAutomationRun == old(bridge.lastAutomationRun)
    ensures Classify(response.actionIdentifier) == CancelOnce ==>
      settings.Snapshot() == old(settings.Snapshot()).(cancelNextEvent := true) &&
      bridge.pending == old(bridge.pending) &&
      bridge.launched == old(bridge.launched) && bridge.lastAutomationRun == old(bridge.lastAutomationRun)
    ensures Classify(response.actionIdentifier) == Ignored ==>
      settings.Snapshot() == old(settings.Snapshot()) &&
      bridge.pending == old(bridge.pending) &&
      bridge.launched == old(bridge.launched) && bridge.lastAutomationRun == old(bridge.lastAutomationRun)
  {
    completions := 0;
    var id := response.actionIdentifier;
    if id == RunAltId {
      settings.cancelNextEvent := false;
      bridge.RunAlternateNow(settings, clock);
    } else if id == Snooze10Id {
      bridge.ScheduleHold(600);
    } else if id == CancelOnceId {
      settings.cancelNextEvent := true;
    }
    completions := completions + 1;
  }

}
