/**
  The smart alarm: after an onset, a one-off local notification a number of
  minutes later, if the user turned it on. The request is returned instead of
  being handed to the notification centre.
*/
module SmartAlarm {
  import opened Wrappers
  import opened Calendar
  import opened Numeric

  const SmartAlarmIdentifier := "smart_alarm"
  const SmartAlarmCategory := "SMART_ALARM"

  /** A time-interval notification request: fire `interval` seconds after it is submitted. */
  datatype AlarmRequest = AlarmRequest(identifier: string, category: string, fireDate: Date, interval: real, repeats: bool)

  /**
    The alarm scheduled for an onset at `onset`, submitted at wall-clock time
    `clock`; none when the smart alarm is disabled.
  */
  function ScheduleIfEnabled(enabled: bool, windowMinutes: int, onset: Date, clock: Date): (r: Option<AlarmRequest>)
    ensures r.None? <==> !enabled
    ensures r.Some? ==> r.value.identifier == SmartAlarmIdentifier && r.value.category == SmartAlarmCategory && !r.value.repeats
    ensures r.Some? ==> r.value.fireDate >= onset + SecondsPerMinute
    ensures r.Some? && windowMinutes >= 1 ==> r.value.fireDate == onset + SecondsPerMinute * windowMinutes as real
    ensures r.Some? && windowMinutes < 1 ==> r.value.fireDate == onset + SecondsPerMinute
    ensures r.Some? ==> r.value.interval >= 1.0
    ensures r.Some? && r.value.fireDate - clock >= 1.0 ==> clock + r.value.interval == r.value.fireDate
    ensures r.Some? && r.value.fireDate - clock < 1.0 ==> r.value.interval == 1.0
  {
    if !enabled then None
    else
      var minutes := Max(1, windowMinutes);
      var fire := onset + (minutes * 60) as real;
      Some(AlarmRequest(SmartAlarmIdentifier, SmartAlarmCategory, fire, MaxReal(1.0, fire - clock), false))
  }

}
