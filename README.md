# SleepTrigger phone side: a verified model

SleepTrigger runs an Apple Shortcut when the watch reports that its wearer
has fallen asleep. This project models, in Dafny, what the phone and Mac side
does with a finished sleep onset, and proves properties of that model:

- **Rule routing**: a rule applies always, within an inclusive hour window
  that may wrap past midnight, or on listed weekdays. The first enabled rule
  that applies chooses the shortcut. Otherwise the alternate shortcut is used
  when one is set and the next event is not cancelled. Otherwise the master
  shortcut is used. The rule list is edited in place (add, update, remove).
- **The onset gate chain** (`SleepEventBridge`): the one-shot cancel flag is
  checked first and consumed. Then come the armed switch, the optional
  time-of-day window and the lockout after the last shortcut run. An accepted
  onset is recorded, the smart alarm is requested, and one pending "hold" is
  scheduled. When the hold fires, it runs the chosen shortcut.
- **Histories**: the onset history pruned by a retention window and listed
  newest first; the phone's watch-event list capped at 200; the plain list of
  onset dates inserted at the front and mirrored to user defaults.
- **Automations**: an ordered list edited by offsets, with a single master.
- **Notification actions** handled by the app delegate and by the
  notification manager, and the categories they register.
- **Small computations**: the smart-alarm fire time, the sleep-score window
  and label, the bedtime tips, and the CSV export text.

Modelling conventions:

- A `Date` is a real number of seconds since 1970.
- Where the calendar is needed, an instant comes with its clock hour (0..23)
  and weekday (1 = Sunday .. 7); this is a `Moment`.
- Identifiers are natural numbers. Fresh identifiers, the wall clock, the
  calendar, the date formatters and the sleep-score kernel are passed in as
  parameters.
- The settings object, the rule engine, the stores and the bridge are classes
  whose fields the methods update. Pure computations are functions.
- Each file is one module and models one source file, except `seqs.dfy`,
  `sorting.dfy`, `numeric.dfy`, `wrappers.dfy`, `calendar.dfy` and
  `notifications.dfy`, which hold shared helpers and framework types.

## Model

| member | source | states |
|---|---|---|
| Rules.NewRule | SleepTrigger/Rules/Rule.swift:31-37 | A rule built without an explicit flag is enabled, with the given id, name, condition and shortcut |
| Rules.InHourWindow | SleepTrigger/Rules/Rule.swift:20-23 | Both ends of an hour window match; `start == end` matches exactly that hour; with `start > end` the hours strictly between `end` and `start` never match; without wrap a match lies in `start..end` |
| Rules.HourWindowIsClockArc | SleepTrigger/Rules/Rule.swift:20-23 | For clock hours, the window (wrapping or not) is exactly the forward arc from `start` to `end` on a 24-hour clock |
| Rules.Matches | SleepTrigger/Rules/Rule.swift:15-28 | `always` matches every time; `hours` matches iff the hour is in the window; `days` matches iff the weekday is listed, so an empty list never matches |
| Routing.Route | SleepTrigger/Rules/RuleEngine.swift:24-33 | When some rule is enabled and matches, the result is the shortcut of the lowest-index such rule; when none does, the alternate shortcut if it is set and the next event is not cancelled, else the master shortcut |
| Routing.RuleEngine.RouteShortcut | SleepTrigger/Rules/RuleEngine.swift:24-33 | The same choice over the engine's current rules and the settings' alternate name, cancel flag and master name |
| Routing.RouteFirstApplicable | SleepTrigger/Rules/RuleEngine.swift:24-27 | The shortcut of the lowest-index rule that is enabled and matches is returned, whatever follows it |
| Routing.RouteFallback | SleepTrigger/Rules/RuleEngine.swift:28-32 | With no applicable rule, the alternate name is returned when it is non-empty and the cancel flag is clear; otherwise the master name. A name is always returned |
| Routing.RouteSkipsHead | SleepTrigger/Rules/RuleEngine.swift:25-26 | A leading rule that is disabled or does not match is passed over: the route is that of the remaining rules |
| Routing.RouteIgnoresDisabled | SleepTrigger/Rules/RuleEngine.swift:25 | Disabled rules never supply the shortcut: deleting every disabled rule, matching or not, leaves the route unchanged |
| Routing.DefaultRules | SleepTrigger/Rules/RuleEngine.swift:46-53 | Two enabled weekday rules: the first covers exactly days 2 to 6, the second exactly days 1 and 7 |
| Routing.DefaultRulesSplitWeek | SleepTrigger/Rules/RuleEngine.swift:46-53 | With the default rules exactly one rule applies on every weekday: the weeknight shortcut Monday to Friday, the weekend shortcut otherwise |
| Routing.RuleEngine.constructor | SleepTrigger/Rules/RuleEngine.swift:41-55 | The saved rules are loaded, an empty saved list included; the two default rules are installed only when nothing decodable is saved |
| Routing.RuleEngine.Add | SleepTrigger/Rules/RuleEngine.swift:17 | The rule is appended at the end and earlier rules are unchanged |
| Routing.RuleEngine.Update | SleepTrigger/Rules/RuleEngine.swift:18-21 | An unknown id leaves the rules unchanged; otherwise only the first rule with that id is replaced, and the length is kept |
| Routing.RuleEngine.Remove | SleepTrigger/Rules/RuleEngine.swift:22 | Every rule with that id is removed; the others keep their relative order |
| Seqs.Filter | SleepTrigger/Rules/RuleEngine.swift:22 | Removing by a condition keeps only elements without it, and keeps every such element |
| Seqs.FilterConcat | SleepTrigger/System/HistoryStore.swift:99 | Removing by a condition commutes with concatenation, so survivors keep their order |
| Seqs.FilterIdempotent | SleepTrigger/System/HistoryStore.swift:99 | Removing by the same condition twice is removing once |
| Seqs.KeepLast | SleepTrigger/System/PhoneHistoryStore.swift:39 | Dropping the oldest entries beyond a cap leaves the last `n` entries in order, or the whole list when it is within the cap |
| Seqs.PickAtIndices | SleepTrigger/Managers/AutomationsStore.swift:25 | Removing a set of offsets yields the elements at exactly the other offsets, in increasing offset order |
| Seqs.PickPartition | SleepTrigger/Managers/AutomationsStore.swift:26 | The elements at a set of offsets and those at the other offsets together make up the whole list |
| Sorting.SortBy | SleepTrigger/System/HistoryStore.swift:92 | Sorting by a key gives an ordered permutation of the input |
| Settings.AppSettings.constructor | SleepTrigger/System/AppSettings.swift:51-72 | A fresh install starts with the default settings |
| SmartAlarm.ScheduleIfEnabled | SleepTrigger/System/SmartAlarmManager.swift:15-34 | Nothing is scheduled when disabled. Otherwise the request is one-off, uses id "smart_alarm" and category "SMART_ALARM", and fires exactly `60 * max(1, minutes)` seconds after the onset. Its interval reaches the fire time when that is at least 1 s ahead and is exactly 1 s otherwise |
| History.RetentionCutoff | SleepTrigger/System/HistoryStore.swift:97-98 | The cutoff is the retention in days before now, and at least one day before now even for a setting of zero or below |
| History.NewestFirst | SleepTrigger/System/HistoryStore.swift:92 | The listing is ordered newest first and is a permutation of storage |
| History.PruneKeepsExactlyRecent | SleepTrigger/System/HistoryStore.swift:99 | Pruning keeps an event iff it is stored and dated at or after the cutoff, so an event exactly at the cutoff stays |
| History.PruneIdempotent | SleepTrigger/System/HistoryStore.swift:99 | Pruning twice with the same cutoff is pruning once |
| History.AppendThenPrune | SleepTrigger/System/HistoryStore.swift:79-82 | Append-then-prune keeps the surviving older events in order and adds the new one last iff it is not older than the cutoff |
| History.HistoryStore.constructor | SleepTrigger/System/HistoryStore.swift:51-58 | The store starts with the decoded file, or empty |
| History.HistoryStore.Append | SleepTrigger/System/HistoryStore.swift:76-87 | The new onset event (no notes) is appended and the list pruned; the new event is present afterwards iff its date is at or after the cutoff |
| History.HistoryStore.AppendOnset | SleepTrigger/System/HistoryStore.swift:71-73 | Behaves exactly like `Append` with no heart rate |
| History.HistoryStore.PruneIfNeeded | SleepTrigger/System/HistoryStore.swift:96-100 | Removes exactly the events dated before the retention cutoff |
| History.HistoryStore.All | SleepTrigger/System/HistoryStore.swift:90-93 | Returns the stored events newest first, as a permutation of storage |
| PhoneHistory.DoubleAt | SleepTrigger/System/PhoneHistoryStore.swift:44-45 | A key yields a number iff it is present and holds a Double |
| PhoneHistory.CappedAppend | SleepTrigger/System/PhoneHistoryStore.swift:36-41 | From a list within the cap: the result stays within 200 and ends with the new event. Below the cap it grows by one with earlier events unchanged; at the cap the oldest is dropped and order is kept |
| PhoneHistory.PhoneHistoryStore.constructor | SleepTrigger/System/PhoneHistoryStore.swift:28-34 | The list starts as the decoded saved list, or empty |
| PhoneHistory.PhoneHistoryStore.Append | SleepTrigger/System/PhoneHistoryStore.swift:36-41 | The result is the last 200 of old events plus the new one, whose source is "watch"; the new event is last and the count is at most 200 |
| PhoneHistory.PhoneHistoryStore.ImportFromWatchPayload | SleepTrigger/System/PhoneHistoryStore.swift:43-47 | A message without a Double "ts" changes nothing; otherwise it appends an event at that time, with "bpm" only if it is a Double |
| EventHistory.Loaded | SleepTrigger/System/EventHistoryStore.swift:24-27 | Loading gives the stored timestamps in descending order, or nothing when the value is missing or not a number array |
| EventHistory.DescendingUnique | SleepTrigger/System/EventHistoryStore.swift:26 | Two descending lists with the same elements are equal, so the loaded order is fully determined |
| EventHistory.PersistLoadRoundTrip | SleepTrigger/System/EventHistoryStore.swift:24-31 | Persisting then loading gives back the same multiset of timestamps in descending order, and a descending list unchanged |
| EventHistory.EventHistoryStore.constructor | SleepTrigger/System/EventHistoryStore.swift:15-27 | The list is the loaded one, the stored value mirrors it, and loading the stored value again gives back the same list |
| EventHistory.EventHistoryStore.Add | SleepTrigger/System/EventHistoryStore.swift:21 | The date goes to index 0 and the previous events follow unchanged; the stored value mirrors the list |
| EventHistory.EventHistoryStore.Clear | SleepTrigger/System/EventHistoryStore.swift:22 | The list becomes empty and the stored value mirrors it |
| Automations.NewItem | SleepTrigger/Models/AutomationItem.swift:10-16 | A new item is enabled, with no delay and not the master |
| Automations.TrimmedEmptyIffBlank | SleepTrigger/Managers/AutomationsStore.swift:22 | A name trims to nothing iff every character is whitespace or a newline |
| Automations.RemoveKeepsOthersInOrder | SleepTrigger/Managers/AutomationsStore.swift:25 | Removing offsets keeps exactly the items at the other offsets, in order |
| Automations.Moved | SleepTrigger/Managers/AutomationsStore.swift:26 | `move(fromOffsets:toOffset:)`: the unmoved items before `to`, then the moved items in order, then the rest; the result has the same length and the same multiset of items |
| Automations.WithMaster | SleepTrigger/Managers/AutomationsStore.swift:27-29 | Length and order are kept; an item is master iff its id is the chosen one; every other field is unchanged |
| Automations.AtMostOneMaster | SleepTrigger/Managers/AutomationsStore.swift:27-29 | With distinct ids at most one item is master afterwards |
| Automations.SetMasterIdempotent | SleepTrigger/Managers/AutomationsStore.swift:28 | Setting the same master twice is setting it once |
| Automations.AutomationsStore.constructor | SleepTrigger/Managers/AutomationsStore.swift:31-36 | The list starts as the saved one |
| Automations.AutomationsStore.Add | SleepTrigger/Managers/AutomationsStore.swift:21-24 | A blank name leaves the items unchanged; otherwise one new default item with the untrimmed name is appended |
| Automations.AutomationsStore.Remove | SleepTrigger/Managers/AutomationsStore.swift:25 | The items at the given offsets are removed and the rest keep their order |
| Automations.AutomationsStore.Move | SleepTrigger/Managers/AutomationsStore.swift:26 | The moved items, in order, go where offset `to` was; the multiset of items is unchanged |
| Automations.AutomationsStore.SetMaster | SleepTrigger/Managers/AutomationsStore.swift:27-29 | The items become `WithMaster` of the old items and the chosen id |
| Bridge.WithinHours | SleepTrigger/Managers/SleepEventBridge.swift:101-105 | The time-of-day gate holds iff an hours rule with the same bounds would match |
| Bridge.LockedOutAt | SleepTrigger/Managers/SleepEventBridge.swift:39-42 | Locked out iff there was a last run less than the lockout (in seconds) before now |
| Bridge.FirstGate | SleepTrigger/Managers/SleepEventBridge.swift:24-42 | The cancel flag drops first, even when disarmed, then the armed switch, the time window and the lockout, in order. An onset proceeds iff all four pass |
| Bridge.CancelIsOneShot | SleepTrigger/Managers/SleepEventBridge.swift:25-28 | Once consumed, the cancel flag drops no further onset |
| Bridge.LockoutAfterRun | SleepTrigger/Managers/SleepEventBridge.swift:39-42 | After a run, onsets are dropped until the lockout has elapsed and accepted from then on |
| Bridge.SleepEventBridge.constructor | SleepTrigger/Managers/SleepEventBridge.swift:16-18 | No hold is pending and nothing has been launched |
| Bridge.SleepEventBridge.ScheduleHoldAfter | SleepTrigger/Managers/SleepEventBridge.swift:84-89 | Any pending hold is replaced, so at most one is pending; its delay is `max(0, seconds)` |
| Bridge.SleepEventBridge.ScheduleHold | SleepTrigger/Managers/SleepEventBridge.swift:71-76 | Schedules a hold that routes afresh when it fires |
| Bridge.SleepEventBridge.RunShortcut | SleepTrigger/Managers/SleepEventBridge.swift:91-99 | An empty name does nothing and keeps the last-run time; otherwise the shortcut is launched and the last run becomes the current time |
| Bridge.SleepEventBridge.RunAlternateNow | SleepTrigger/Managers/SleepEventBridge.swift:64-68 | An empty alternate does nothing; otherwise the alternate shortcut is run now |
| Bridge.SleepEventBridge.FireHold | SleepTrigger/Managers/SleepEventBridge.swift:58-60 | The pending hold is spent and runs either its stored shortcut or the route at firing time |
| Bridge.SleepEventBridge.HandleSleepDetected | SleepTrigger/Managers/SleepEventBridge.swift:21-61 | The onset is dropped exactly by the first failing gate. A set cancel flag is cleared and no other setting changes. A dropped onset changes no hold and no history. An accepted one records the onset and requests the smart alarm. It then schedules one hold that runs the shortcut routed for the onset. Nothing is launched yet |
| AppDelegate.RegisteredActionsAreHandled | SleepTrigger/System/AppDelegate.swift:17-51 | The switch has a branch for exactly the three action ids the delegate registers |
| AppDelegate.AfterAction | SleepTrigger/System/AppDelegate.swift:38-51 | SNOOZE_10 raises the hold to at least 600 s and never lowers it. CANCEL_TONIGHT sets only the cancel flag. RUN_ALTERNATE sets the alternate name from typed text, or changes nothing without text. Unknown actions change nothing |
| AppDelegate.SnoozeIdempotent | SleepTrigger/System/AppDelegate.swift:40-42 | Snoozing twice equals snoozing once and never shortens the hold |
| AppDelegate.DidReceive | SleepTrigger/System/AppDelegate.swift:34-53 | The settings change as `AfterAction` says and the completion handler is called exactly once |
| NotificationManager.RegisteredActionsAreHandled | SleepTrigger/System/NotificationManager.swift:24-70 | The registered action ids are exactly those the switch handles |
| NotificationManager.PostedCategoryIsRegistered | SleepTrigger/System/NotificationManager.swift:66-89 | The posted notification carries the registered category "SLEEP_DETECTED" and is delivered at once |
| NotificationManager.DidReceive | SleepTrigger/System/NotificationManager.swift:21-44 | RUN_ALT clears the cancel flag and runs the alternate. SNOOZE_10 schedules a routed hold of exactly 600 s. CANCEL_ONCE sets the cancel flag. An unknown action changes nothing. The completion handler is called exactly once |
| Scoring.Window | SleepTrigger/Core/SleepScore.swift:15 | The kernel sees the last `min(n, 120)` heart rates in their original order |
| Scoring.FromBPMSeries | SleepTrigger/Core/SleepScore.swift:12-22 | Fewer than 5 points give none. Otherwise there is a score iff the kernel's result is not negative, and then it is that result |
| Scoring.ScoreInRange | SleepTrigger/C/simple_sleep.h:28-32 | With the kernel's documented results (-1 or 0..100), a score is always in 0..100, and none means the kernel reported -1 |
| Scoring.Label | SleepTrigger/Core/SleepScore.swift:24-30 | Below 35 "Likely Awake", 35..64 "Possibly Asleep", 65 and up "Likely Asleep" |
| Scoring.LabelMonotone | SleepTrigger/Core/SleepScore.swift:24-30 | A higher score never gives a more wakeful label |
| Tips.SumOfPermutation | SleepTrigger/System/TipsEngine.swift:27-29 | The sums behind the mean and the variance do not depend on the order of the hours |
| Tips.MeanBounds | SleepTrigger/System/TipsEngine.swift:27 | The mean of values in a range lies in that range |
| Tips.HoursOf | SleepTrigger/System/TipsEngine.swift:22-24 | One hour per event, in event order, as the calendar reports it |
| Tips.TipsShape | SleepTrigger/System/TipsEngine.swift:19-37 | Fewer than 5 onsets give no tips. At most two tips are given. The consistency tip appears iff the variance exceeds 4 (std above 2), and it is then first |
| Tips.BedtimeTipForClockHours | SleepTrigger/System/TipsEngine.swift:40-47 | For clock hours: "very late" iff mean < 2, "early" iff 2 <= mean < 22, no bedtime tip from 22 on, and the "past midnight" tip never |
| Tips.TipsOrderIndependent | SleepTrigger/System/TipsEngine.swift:22-30 | The tips depend only on the multiset of onset hours |
| Tips.TipsFromEvents | SleepTrigger/System/TipsEngine.swift:18-50 | The conditional appends build exactly the tips for the events' hours |
| Export.IntToString | SleepTrigger/Managers/ExportManager.swift:38 | A count's text is non-empty, has no comma or newline, and starts with '-' iff the count is negative |
| Export.IntRoundTrip | SleepTrigger/Managers/ExportManager.swift:38 | The text written for a count parses back to that count |
| Export.BodyLineCount | SleepTrigger/Managers/ExportManager.swift:37-39 | With a single-line date format, each row contributes exactly one line |
| Export.CsvSnoc | SleepTrigger/Managers/ExportManager.swift:37-39 | Writing the next row extends the text by exactly that row's line |
| Export.CsvShape | SleepTrigger/Managers/ExportManager.swift:31-39 | The text starts with "date,count" and has rows + 1 lines; no rows gives the header alone |
| Export.ExportOrder | SleepTrigger/Managers/ExportManager.swift:34 | The rows are written in ascending date order and none is lost or duplicated |
| Export.ExportHistoryCSV | SleepTrigger/Managers/ExportManager.swift:28-52 | The loop builds the header followed by one `date,count` line per row in sorted order. The file name is "sleep_history_" + timestamp + ".csv" |

## Left out

- Persistence: JSON files, user-defaults encoding and decoding. Saved data enters through constructor parameters. The exception is the event-date list, whose stored array is a field so that the persist/load round trip can be stated.
- Effects outside the core: the SQLite mirror insert in `HistoryStore.append`, the iCloud push and the widget reload after an onset, and the notification centre itself. Their calls are omitted; the smart-alarm request is returned instead of submitted.
- Time and calendar: dates are real seconds. Hour and weekday are inputs. The retention cutoff counts a day as 86400 seconds, ignoring daylight-saving changes.
- Timers and concurrency: a hold fires when `FireHold` is called. The source keeps a reference to the spent work item, which the model drops. The task after an onset and the main-actor tasks of the notification manager run inline, and interleavings are not modelled.
- Bridge.SleepEventBridge.RunShortcut: the URL text, its percent-encoding and the case where `URL(string:)` fails are not modelled; a launch is recorded by the shortcut's name.
- PhoneHistory.DoubleAt: only a value stored as a Double is read as a number; the casting of other number types through Foundation bridging is not modelled.
- Tips: exact real arithmetic instead of floating point; `sqrt(variance) > 2` is stated as `variance > 4`, which is the same test on reals. The random id of a tip is not modelled.
- Scoring: `ss_sleep_score` is a parameter. Its floating-point body is not part of this model; only its documented range is assumed, and only in `Scoring.ScoreInRange`.
- Export: the `HistoryDAO` query that produces the rows, the ISO 8601 and timestamp formatters (parameters), the file write and its failure path, and the async wrapper. Sort stability is not proved.
- Automations: `Remove` and `Move` require in-range offsets, as the standard library traps otherwise; persistence of the list is left out.
- The app delegate and the notification manager both make themselves the notification delegate and both register a "SLEEP_DETECTED" category with different actions. Which one is in effect depends on the order in which they run; each is modelled on its own.
- `exportJSONTempURL`, `publishAppEventIfAvailable`, and the permission request are not modelled.
