/**
  The app's settings object: one mutable field per user setting, with the
  defaults a fresh install starts from. Storage in user defaults is not modelled.
*/
module Settings {

  /** All settings at one instant, so that a change can be stated as "this field and nothing else". */
  datatype SettingsValue = SettingsValue(
    armed: bool,
    shortcutName: string,
    alternateShortcutName: string,
    holdSecondsBeforeRun: int,
    postAsleepLockoutMinutes: int,
    napModeEnabled: bool,
    gatingEnabled: bool,
    gateStartHour: int,
    gateEndHour: int,
    writeSleepToHealth: bool,
    cancelNextEvent: bool,
    smartAlarmEnabled: bool,
    smartAlarmWindowMinutes: int,
    iCloudMirrorEnabled: bool,
    dataRetentionDays: int,
    hasCompletedOnboarding: bool)

  /** The values a fresh install starts with. */
  const Defaults := SettingsValue(
    armed := true,
    shortcutName := "SleepTrigger Master",
    alternateShortcutName := "",
    holdSecondsBeforeRun := 8,
    postAsleepLockoutMinutes := 20,
    napModeEnabled := false,
    gatingEnabled := false,
    gateStartHour := 20,
    gateEndHour := 11,
    writeSleepToHealth := false,
    cancelNextEvent := false,
    smartAlarmEnabled := false,
    smartAlarmWindowMinutes := 10,
    iCloudMirrorEnabled := false,
    dataRetentionDays := 30,
    hasCompletedOnboarding := false)

  class AppSettings {
    var armed: bool
    var shortcutName: string
    var alternateShortcutName: string
    var holdSecondsBeforeRun: int
    var postAsleepLockoutMinutes: int
    var napModeEnabled: bool
    var gatingEnabled: bool
    var gateStartHour: int
    var gateEndHour: int
    var writeSleepToHealth: bool
    var cancelNextEvent: bool
    var smartAlarmEnabled: bool
    var smartAlarmWindowMinutes: int
    var iCloudMirrorEnabled: bool
    var dataRetentionDays: int
    var hasCompletedOnboarding: bool

    function Snapshot(): SettingsValue
      reads this
    {
      SettingsValue(armed, shortcutName, alternateShortcutName, holdSecondsBeforeRun,
        postAsleepLockoutMinutes, napModeEnabled, gatingEnabled, gateStartHour, gateEndHour,
        writeSleepToHealth, cancelNextEvent, smartAlarmEnabled, smartAlarmWindowMinutes,
        iCloudMirrorEnabled, dataRetentionDays, hasCompletedOnboarding)
    }

    /** Settings on first launch, when nothing has been stored yet. */
    constructor ()
      ensures Snapshot() == Defaults
    {
      armed := true;
      shortcutName := "SleepTrigger Master";
      alternateShortcutName := "";
      holdSecondsBeforeRun := 8;
      postAsleepLockoutMinutes := 20;
      napModeEnabled := false;
      gatingEnabled := false;
      gateStartHour := 20;
      gateEndHour := 11;
      writeSleepToHealth := false;
      cancelNextEvent := false;
      smartAlarmEnabled := false;
      smartAlarmWindowMinutes := 10;
      iCloudMirrorEnabled := false;
      dataRetentionDays := 30;
      hasCompletedOnboarding := false;
    }
  }

}
