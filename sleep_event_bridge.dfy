/**
  What happens once the watch reports a sleep onset: a chain of gates (a
  one-shot cancel, the armed switch, the time-of-day window, the lockout after
  the last run), then the onset is recorded, the smart alarm requested, the
  shortcut chosen and a single pending "hold" scheduled that runs it later.

  Timers are not modelled as such: the pending hold is a field, and the
  moment it fires is the method `FireHold`. Opening the shortcut's URL is
  recorded by appending the shortcut's name to `launched`.
*/
module Bridge {
  import opened Wrappers
  import opened Calendar
  import opened Numeric
  import opened Rules
  import opened Settings
  import opened Routing
  import opened History
  import opened SmartAlarm
  import opened Seqs

  /** The gate that dropped an onset. */
  datatype Gate = CancelledOnce | Disarmed | OutsideGateHours | LockedOut

  /** What a hold runs when it fires: a shortcut chosen at scheduling time, or a fresh routing. */
  datatype HoldAction = RunNamed(name: string) | RunRouted

  datatype Hold = Hold(delaySeconds: int, action: HoldAction)

  /** The result of an onset: dropped by a gate, or acted on. */
  datatype Outcome = Dropped(gate: Gate) | Proceeded(shortcut: string, alarm: Option<AlarmRequest>)

  /** The time-of-day gate: hour `now.hour` lies in the inclusive window, which may wrap past midnight. */
  function WithinHours(start: int, end: int, now: Moment): (b: bool)
    ensures b <==> Matches(Hours(start, end), now)
  {
    var h := now.hour;
    if start <= end then start <= h <= end
    else h >= start || h <= end
  }

  /** Whether the last run is less than the lockout before `now` (always so for a last run in the future when the lockout is not negative). */
  function LockedOutAt(lockoutMinutes: int, last: Option<Date>, now: Date): (b: bool)
    ensures b <==> last.Some? && now - last.value < SecondsPerMinute * lockoutMinutes as real
  {
    if last.Some? then
      var mins := (now - last.value) / 60.0;
      mins < lockoutMinutes as real
    else false
  }

  /**
    The first gate that drops an onset at `now` under settings `s` with the
    last run at `last`, tried in the app's order; none when it proceeds.
  */
  function FirstGate(s: SettingsValue, last: Option<Date>, now: Moment): (g: Option<Gate>)
    ensures s.cancelNextEvent ==> g == Some(CancelledOnce)
    ensures !s.cancelNextEvent && !s.armed ==> g == Some(Disarmed)
    ensures g == Some(OutsideGateHours) <==>
      !s.cancelNextEvent && s.armed && s.gatingEnabled && !Matches(Hours(s.gateStartHour, s.gateEndHour), now)
    ensures g == Some(LockedOut) <==>
      !s.cancelNextEvent && s.armed && (!s.gatingEnabled || Matches(Hours(s.gateStartHour, s.gateEndHour), now)) &&
      last.Some? && now.date - last.value < SecondsPerMinute * s.postAsleepLockoutMinutes as real
    ensures g.None? <==>
      !s.cancelNextEvent && s.armed && (!s.gatingEnabled || Matches(Hours(s.gateStartHour, s.gateEndHour), now)) &&
      (last.None? || now.date - last.value >= SecondsPerMinute * s.postAsleepLockoutMinutes as real)
  {
    if s.cancelNextEvent then Some(CancelledOnce)
    else if !s.armed then Some(Disarmed)
    else if s.gatingEnabled && !WithinHours(s.gateStartHour, s.gateEndHour, now) then Some(OutsideGateHours)
    else if LockedOutAt(s.postAsleepLockoutMinutes, last, now.date) then Some(LockedOut)
    else None
  }

  /**
    The cancel flag only ever drops one onset: once consumed, the same onset
    is judged by the remaining gates alone.
  */
  lemma CancelIsOneShot(s: SettingsValue, last: Option<Date>, now: Moment)
    requires s.cancelNextEvent
    ensures FirstGate(s.(cancelNextEvent := false), last, now) != Some(CancelledOnce)
    ensures s.armed ==> FirstGate(s.(cancelNextEvent := false), last, now) != Some(Disarmed)
  {
  }

  /**
    After a run at `ran`, an onset that passes the other gates is dropped for
    the lockout period and accepted from its end on.
  */
  lemma LockoutAfterRun(s: SettingsValue, ran: Date, now: Moment)
    requires !s.cancelNextEvent && s.armed && !s.gatingEnabled
    ensures FirstGate(s, Some(ran), now) == Some(LockedOut) <==>
      now.date < ran + SecondsPerMinute * s.postAsleepLockoutMinutes as real
    ensures FirstGate(s, Some(ran), now).None? <==>
      now.date >= ran + SecondsPerMinute * s.postAsleepLockoutMinutes as real
  {
  }

  class SleepEventBridge {
    /** The one scheduled hold that has not fired or been replaced. */
    var pending: Option<Hold>
    /** The time of the last shortcut launch, kept in user defaults. */
    var lastAutomationRun: Option<Date>
    /** The shortcuts launched, oldest first. */
    var launched: seq<string>

    constructor (lastRun: Option<Date>)
      ensures pending == None && lastAutomationRun == lastRun && launched == []
    {
      pending := None;
      lastAutomationRun := lastRun;
      launched := [];
    }

    /** Replaces any pending hold by one that fires after `seconds`, never fewer than zero. */
    method ScheduleHoldAfter(seconds: int, action: HoldAction)
      modifies this
      ensures pending == Some(Hold(Max(0, seconds), action))
      ensures pending.value.delaySeconds >= 0
      ensures lastAutomationRun == old(lastAutomationRun) && launched == old(launched)
    {
      pending := Some(Hold(Max(0, seconds), action));
    }

    /** The snooze entry point: a hold that routes afresh when it fires. */
    method ScheduleHold(seconds: int)
      modifies this
      ensures pending == Some(Hold(Max(0, seconds), RunRouted))
      ensures lastAutomationRun == old(lastAutomationRun) && launched == old(launched)
    {
      ScheduleHoldAfter(seconds, RunRouted);
    }

    /** Launches a shortcut by name at wall-clock time `clock`; an empty name does nothing. */
    method RunShortcut(name: string, clock: Date)
      modifies this
      ensures name == "" ==> launched == old(launched) && lastAutomationRun == old(lastAutomationRun)
      ensures name != "" ==> launched == old(launched) + [name] && lastAutomationRun == Some(clock)
      ensures pending == old(pending)
    {
      if name == "" {
        return;
      }
      launched := launched + [name];
      lastAutomationRun := Some(clock);
    }

    /** Runs the alternate shortcut at once, if one is set. */
    method RunAlternateNow(s: AppSettings, clock: Date)
      modifies this
      ensures s.alternateShortcutName == "" ==> launched == old(launched) && lastAutomationRun == old(lastAutomationRun)
      ensures s.alternateShortcutName != "" ==>
        launched == old(launched) + [s.alternateShortcutName] && lastAutomationRun == Some(clock)
      ensures pending == old(pending)
    {
      var alt := s.alternateShortcutName;
      if alt == "" {
        return;
      }
      RunShortcut(alt, clock);
    }

    /** The pending hold fires at `now` (wall-clock `clock`) and runs its shortcut. */
    method FireHold(s: AppSettings, engine: RuleEngine, now: Moment, clock: Date)
      requires pending.Some?
      modifies this
      ensures pending == None
      ensures var name := match old(pending).value.action
                          case RunNamed(n) => n
                          case RunRouted => engine.RouteShortcut(s, now);
        (name == "" ==> launched == old(launched) && lastAutomationRun == old(lastAutomationRun)) &&
        (name != "" ==> launched == old(launched) + [name] && lastAutomationRun == Some(clock))
    {
      var name;
      match pending.value.action {
        case RunNamed(n) =>
          name := n;
        case RunRouted =>
          name := engine.RouteShortcut(s, now);
      }
      pending := None;
      RunShortcut(name, clock);
    }

    /**
      Handles an onset at `now`, observed at wall-clock time `clock`. A dropped
      onset changes nothing except that a set cancel flag is cleared; an
      accepted one is recorded in `history` under `eventId`, requests the
      smart alarm and leaves exactly one hold pending, which runs the shortcut
      routed for `now`.
    */
    method HandleSleepDetected(s: AppSettings, engine: RuleEngine, history: HistoryStore,
                               now: Moment, clock: Date, eventId: Uuid) returns (outcome: Outcome)
      modifies this, s, history
      ensures outcome.Dropped? <==> FirstGate(old(s.Snapshot()), old(lastAutomationRun), now).Some?
      ensures outcome.Dropped? ==> Some(outcome.gate) == FirstGate(old(s.Snapshot()), old(lastAutomationRun), now)
      ensures s.Snapshot() == old(s.Snapshot()).(cancelNextEvent := false)
      ensures lastAutomationRun == old(lastAutomationRun) && launched == old(launched)
      ensures outcome.Dropped? ==> pending == old(pending) && history.events == old(history.events)
      ensures outcome.Proceeded? ==>
        outcome.shortcut == engine.RouteShortcut(s, now) &&
        pending == Some(Hold(Max(0, s.holdSecondsBeforeRun), RunNamed(outcome.shortcut))) &&
        history.events == Filter(old(history.events) + [SleepEvent(eventId, Onset, now.date, None, None)],
                                 Retained(RetentionCutoff(clock, s.dataRetentionDays))) &&
        outcome.alarm == ScheduleIfEnabled(s.smartAlarmEnabled, s.smartAlarmWindowMinutes, now.date, clock)
    {
      ghost var gate := FirstGate(s.Snapshot(), lastAutomationRun, now);
      if s.cancelNextEvent {
        s.cancelNextEvent := false;
        return Dropped(CancelledOnce);
      }
      if !s.armed {
        return Dropped(Disarmed);
      }
      if s.gatingEnabled && !WithinHours(s.gateStartHour, s.gateEndHour, now) {
        return Dropped(OutsideGateHours);
      }
      if LockedOutAt(s.postAsleepLockoutMinutes, lastAutomationRun, now.date) {
        return Dropped(LockedOut);
      }
      assert gate.None?;

      history.Append(eventId, now.date, None, clock, s.dataRetentionDays);
      var alarm := ScheduleIfEnabled(s.smartAlarmEnabled, s.smartAlarmWindowMinutes, now.date, clock);

      var chosen := engine.RouteShortcut(s, now);
      ScheduleHoldAfter(s.holdSecondsBeforeRun, RunNamed(chosen));
      outcome := Proceeded(chosen, alarm);
    }
  }

}
