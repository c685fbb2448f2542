# gomodoro core in Dafny

This project models the core of gomodoro, a Pomodoro timer written in Go, as
a sequential program, and proves properties of that model. The model covers:

- **Pomodoro configuration** (`PomodoroConfig`, config.dfy): the four
  interval settings, their validation, the rule that picks a long or a short
  break after each work interval, and the short duration format.
- **Countdown timer** (`Countdown`, timer.dfy): a class with five states
  (idle, running, paused, skipped, done) that loses one second per tick while
  it runs, with a snapshot of its progress.
- **Session statistics** (`Stats`, stats.dfy): counters, streaks and the
  chronological log of recorded intervals, with the work efficiency.
- **Older lock-free statistics and timer** of the command-line front end
  (`LegacyStats`, legacy_stats.dfy, and `LegacyTimer`, legacy_timer.dfy).
- **Event bus** (`Events`, events.dfy): handlers registered per event type
  and globally, and the recipients an event reaches.
- **Session engine** (`Engine`, engine.dfy): the state machine that starts
  work intervals and breaks, ticks the current timer, records each interval
  that ends, and returns the events it publishes, in order.
- **Notification policy** (`NotifyConfig`, `NotifyManager`, `NotifySound`):
  - configuration validation, quiet hours and the profile list;
  - the event and type gates, the time-alert classification and the
    delivery tally;
  - the event-to-sound mapping and how the sound notifier reads its settings.
- **Discord session table** (`Sessions`, session_manager.dfy): one engine per
  user, with the rules for starting, stopping, finding and cleaning up
  sessions, and the reminder sent at 10, 5 and 1 minutes left.

Modelling conventions:

- Go's `time.Duration` is an `int` count of nanoseconds (`Common.Second`,
  `Minute`, `Hour`).
- Go's truncating `/` and `%` are `Common.Quo` and `Common.Rem`.
- The clock is a parameter (`now`, a `Time` in nanoseconds). The minute of the
  day used by quiet hours is also a parameter.
- Go's `float64` values (progress, efficiency, volume) are `real`.
- Objects whose fields the Go code updates in place are classes with
  `modifies` frames:
  - the countdown timer, the statistics, the event bus and the engine;
  - the legacy timer and legacy statistics;
  - the profile-holding notification configuration and the notification
    manager;
  - the session table and the per-session reminder.
- Configurations, requests, responses, events and session records are
  datatypes.
- A method that publishes events returns them as a sequence.

## Model

| member | source | states |
|---|---|---|
| PomodoroConfig.DefaultConfig | core/config/config.go:29-36 | 25-minute work, 5- and 15-minute breaks, a long break every 4th pomodoro, and the result passes validation |
| PomodoroConfig.Validate | core/config/config.go:39-105 | no error exactly when all five bounds hold (inclusive ranges, long break longer than short); an error names the first failing field in the order work, short break, long break, interval, then long against short |
| PomodoroConfig.Clone | core/config/config.go:145-152 | the copy equals the original field by field and validates the same |
| PomodoroConfig.GetNextBreakType | core/config/config.go:172-177 | the flag picks the duration: long break when flagged, short break otherwise |
| PomodoroConfig.LongBreakOnMultiples | core/config/config.go:172-177 | for a valid configuration, the long break is chosen exactly when the pomodoro number is a multiple of the interval (negative numbers included) |
| PomodoroConfig.BreakPatternPeriodic | core/config/config.go:172-177 | the choice of break repeats with period equal to the interval |
| PomodoroConfig.FirstBreakIsShort | core/config/config.go:172-177 | the break after the first pomodoro is the short one |
| PomodoroConfig.LongBreakCount | core/config/config.go:172-177 | among pomodoros 1..n exactly n / interval are followed by a long break |
| PomodoroConfig.FormatDuration | core/config/config.go:161-169 | the text always ends in the seconds unit |
| PomodoroConfig.FormatDurationReadsBack | core/config/config.go:161-169 | reading the text back (minutes not reduced, seconds modulo 60) gives the duration in whole seconds |
| Countdown.StepKeepsReachable | core/timer/timer.go:153-177 | a tick keeps the remaining time reachable: whole seconds below the duration, never a whole second below zero |
| Countdown.Step | core/timer/timer.go:153-177 | a running timer with time left loses one second and is done exactly when nothing is left; any other timer is left as it was |
| Countdown.WholeSecondsStayInRange | core/timer/timer.go:157-173 | with a whole-second duration the remaining time stays a whole number of seconds in [0, duration] |
| Countdown.TicksWhileRunning | core/timer/timer.go:153-177 | k ticks of a running n-second timer, k < n, leave it running with n - k seconds |
| Countdown.TicksReachDone | core/timer/timer.go:153-177 | n ticks take a running n-second timer to done with nothing left |
| Countdown.TicksOnStoppedTimer | core/timer/timer.go:153-177 | any number of ticks leaves a timer that is not running, or has nothing left, as it was |
| Countdown.Timer.constructor | core/timer/timer.go:56-69 | idle, the whole duration remaining, no start or pause recorded |
| Countdown.Timer.Start | core/timer/timer.go:72-91 | idle or paused becomes running; from idle the start time is set and the pauses cleared; from paused the pause is added to the paused total; any other state is left alone |
| Countdown.Timer.Pause | core/timer/timer.go:94-105 | only a running timer pauses, recording when; any other state is left alone |
| Countdown.Timer.Resume | core/timer/timer.go:108-110 | resuming is starting: idle or paused becomes running; from idle the start time is set and the pauses cleared; from paused the start is kept and the pause added to the paused total; any other state is left alone; the remaining time and the pause time are kept |
| Countdown.Timer.Skip | core/timer/timer.go:113-124 | running or paused becomes skipped; any other state is left alone, so skipping twice is skipping once |
| Countdown.Timer.Stop | core/timer/timer.go:127-134 | idle with the whole duration remaining; the start and pause records are kept |
| Countdown.Timer.Reset | core/timer/timer.go:137-150 | idle with the whole duration remaining and the start and pause records cleared |
| Countdown.Timer.Tick | core/timer/timer.go:153-177 | state and remaining time move by one step (a second off only while running with time left, done once nothing is left) and the snapshot of the new state is returned |
| Countdown.Timer.TakeSnapshot | core/timer/timer.go:180-213 | progress is (duration - remaining) / duration, 0 for a non-positive duration, within [0, 1] for whole-second durations and 1 when done; active time is 0 before a start, otherwise the time since the start less the pauses, and for a paused timer less the current pause as well |
| Stats.Efficiency | stats/stats.go:184-190 | 0 with no work intervals, otherwise completed / (completed + skipped) * 100; always in [0, 100] and 100 exactly when some were completed and none skipped |
| Stats.SelectMembers | stats/stats.go:420-445 | an entry is selected exactly when it is in the log with the matching work label |
| Stats.Select | stats/stats.go:420-445 | no longer than the log, and every entry selected is from the log with the requested kind |
| Stats.SelectPartition | stats/stats.go:420-445 | the work and break selections together hold every log entry exactly once |
| Stats.RecentSessions | stats/stats.go:400-417 | empty for a non-positive count, otherwise the last min(count, length) entries in order |
| Stats.FormatDuration | stats/stats.go:448-460 | the text always ends in the seconds unit |
| Stats.FormatDurationReadsBack | stats/stats.go:448-460 | reading the hours, minutes and seconds back gives the duration in whole seconds |
| Stats.SessionStats.constructor | stats/stats.go:59-64 | every counter zero, the log empty, the session starting now |
| Stats.SessionStats.WorkEfficiency | stats/stats.go:184-190 | the efficiency of the pomodoro counters, in [0, 100] |
| Stats.SessionStats.GetSnapshot | stats/stats.go:158-176 | total sessions equal the log length, the current streak is at most the best, long breaks are at most the completed breaks, and the session duration is the time since the start |
| Stats.SessionStats.AddCompletedPomodoro | stats/stats.go:67-90 | completed count, work time and streak go up; the best streak rises to the streak when exceeded; one completed work entry is appended; nothing else changes; the log stays as long as the four counters together |
| Stats.SessionStats.AddSkippedPomodoro | stats/stats.go:93-111 | skipped count and work time go up, the streak drops to 0, the best streak is kept, and one skipped work entry is appended |
| Stats.SessionStats.AddCompletedBreak | stats/stats.go:114-135 | completed breaks and break time go up, long breaks only for the long-break label, the streaks are untouched, and one completed entry is appended |
| Stats.SessionStats.AddSkippedBreak | stats/stats.go:138-155 | skipped breaks and break time go up, long breaks and streaks are untouched, and one skipped entry is appended |
| Stats.SessionStats.Reset | stats/stats.go:200-215 | every counter and duration zero, the log empty, the session starting now |
| Stats.SessionStats.GetWorkSessions | stats/stats.go:420-431 | the work entries of the log, in order |
| Stats.SessionStats.GetBreakSessions | stats/stats.go:434-445 | the other entries of the log, in order |
| LegacyStats.SessionStats.constructor | internal/stats/stats.go:39-44 | every counter zero and the log empty |
| LegacyStats.SessionStats.GetWorkEfficiency | internal/stats/stats.go:131-137 | 0 with no work intervals, otherwise completed / (completed + skipped) * 100, within [0, 100] |
| LegacyStats.SessionStats.AddCompletedPomodoro | internal/stats/stats.go:47-67 | completed count, work time and streak go up, the best streak rises when exceeded, one entry appended, the log as long as the total |
| LegacyStats.SessionStats.AddSkippedPomodoro | internal/stats/stats.go:70-85 | skipped count and work time go up, the streak drops to 0, one entry appended |
| LegacyStats.SessionStats.AddCompletedBreak | internal/stats/stats.go:88-106 | completed breaks go up, long breaks only for the long-break label, streaks untouched, one entry appended |
| LegacyStats.SessionStats.AddSkippedBreak | internal/stats/stats.go:109-123 | skipped breaks go up, streaks untouched, one entry appended |
| LegacyTimer.Timer.constructor | internal/timer/timer.go:16-23 | the whole duration remaining, neither running nor paused |
| LegacyTimer.Timer.Start | internal/timer/timer.go:26-29 | running and not paused, the remaining time untouched |
| LegacyTimer.Timer.Pause | internal/timer/timer.go:32-34 | only the paused flag is set |
| LegacyTimer.Timer.Resume | internal/timer/timer.go:37-39 | only the paused flag is cleared |
| LegacyTimer.Timer.Stop | internal/timer/timer.go:42-45 | both flags cleared, the remaining time untouched |
| Events.RemoveFirst | events/events.go:128-141 | a handler not in the list leaves it as is; otherwise the list gets one shorter |
| Events.RemoveFirstMultiset | events/events.go:128-141 | removing a handler takes exactly one copy of it out of the list |
| Events.RemoveFirstAt | events/events.go:128-141 | removal cuts the list at the first occurrence and keeps the rest in order |
| Events.EventBus.constructor | events/events.go:72-77 | no typed and no global handlers; every count is zero |
| Events.EventBus.GetSubscriberCount | events/events.go:152-156 | zero for a type never subscribed |
| Events.EventBus.Subscribe | events/events.go:80-84 | the handler is appended to its type's list only; other types and the global list are unchanged; the count goes up by one |
| Events.EventBus.SubscribeGlobal | events/events.go:92-96 | the handler is appended to the global list only; the global count goes up by one |
| Events.EventBus.Publish | events/events.go:104-125 | the deliveries go to exactly the global handlers and then the type's handlers, in order, each with the event, as many as the two subscriber counts together; the registry is unchanged |
| Events.EventBus.GetGlobalSubscriberCount | events/events.go:159-163 | zero exactly when no global handler is registered |
| Events.EventBus.UnsubscribeAsWritten | events/events.go:128-141 | as written the registry never changes |
| Events.EventBus.Unsubscribe | events/events.go:128-141 | the first copy of the handler under that type is removed and the count drops by one; everything else is unchanged |
| Events.EventBus.Clear | events/events.go:144-149 | both the typed map and the global list are empty |
| Events.UnsubscribeKeepsHandler | events/events.go:128-141 | with the source's comparison a subscribed handler is still counted after unsubscribing |
| Events.UnsubscribeRemovesHandler | events/events.go:128-141 | with handlers compared by identity the count drops to zero |
| Engine.NextSessionAlternates | core/engine/engine.go:353-398 | the first interval is work; after work the count goes up by one and a break follows, long exactly on multiples of the interval; after a break work follows; each interval gets its configured duration |
| Engine.RunShape | core/engine/engine.go:353-398 | from a fresh engine, start 2k+1 is work with k pomodoros done, and start 2k+2 is the break after pomodoro k+1, long exactly when the break rule says so |
| Engine.BreakTypeString | core/engine/engine.go:571-578 | the long-break label exactly for the long break, the short-break label otherwise |
| Engine.SessionLabel | core/engine/engine.go:581-590 | the work label exactly for work, the break label for breaks |
| Engine.StatusString | core/engine/engine.go:592-600 | paused and running map to their own strings; idle, skipped and done map to "STOPPED" |
| Engine.NextSession | core/engine/engine.go:353-398 | work follows a missing timer or a break; after work the count goes up by one and the break the break rule picks for that count follows, with its duration; work gets the work duration |
| Engine.CreateTimerEventData | core/engine/engine.go:581-611 | the snapshot's remaining, total and progress, the count so far, the work label exactly for work, and the status paused, running or stopped as the timer is |
| Engine.StatsEventDataRestores | core/engine/engine.go:613-627 | the statistics snapshot without the long-break counter and the total, which put back give the snapshot again |
| Engine.SessionStartedEventShape | core/engine/engine.go:401-417 | the pomodoro-started event exactly for work, numbered count + 1, otherwise the break-started event with the break label, long exactly for the long break; the duration, start time now and no end time |
| Engine.SessionFinishedEventShape | core/engine/engine.go:478-521 | a completed event exactly when completed, a pomodoro event exactly for work, numbered with the count before it advances; the planned and actual durations and the start and end times |
| Engine.FinishedEventTrailsStartedEvent | core/engine/engine.go:401-521 | as written the k+1-th work interval of a run is announced as pomodoro k+1 when it starts and as pomodoro k when it ends, completed or skipped; the first ends as pomodoro 0 |
| Engine.FinishedPomodoroNumberAsWritten | core/engine/engine.go:478-521 | the number an ended work interval is announced with is one below the number it started with |
| Engine.FinishedPomodoroNumber | core/engine/engine.go:401-417 | corrected, an ended work interval keeps the number it started with |
| Engine.FinishedNumberAgreesWithBreak | core/engine/engine.go:478-521 | with the corrected number, the announced pomodoro is the count the engine moves to, and the break rule for that number is the break that starts next |
| Engine.Engine.constructor | core/engine/engine.go:89-110 | the default configuration when none is given; idle, on work, count 0, not running, no timer, empty statistics |
| Engine.Engine.Start | core/engine/engine.go:115-141 | no change and no event when already running; otherwise running, idle, on work, count 0, the timer left as it is, and the engine-started event |
| Engine.Engine.StartFirstSession | core/engine/engine.go:144-159 | an error when not running; nothing when a timer exists; otherwise a running work timer of the work duration and the started events |
| Engine.Engine.StartNextSession | core/engine/engine.go:353-398 | nothing when not running; otherwise the interval, count and duration the rule chooses, on a fresh running timer, the state running, and its started events |
| Engine.Engine.Stop | core/engine/engine.go:162-188 | nothing when not running; otherwise not running, stopped, the timer reset to idle, and the engine-stopped event |
| Engine.Engine.PauseCurrentTimer | core/engine/engine.go:524-534 | only a running timer pauses, and the engine with it, with a paused event carrying the timer's snapshot and the pause instant recorded; the time left, start instant and paused total are kept; otherwise nothing changes |
| Engine.Engine.ResumeCurrentTimer | core/engine/engine.go:537-547 | only a paused timer resumes, and the engine with it, with a resumed event carrying the timer's snapshot; the pause just ended is added to the paused total; the time left and start instant are kept; otherwise nothing changes |
| Engine.Engine.SkipCurrentTimer | core/engine/engine.go:550-558 | a running or paused timer becomes skipped; otherwise nothing changes |
| Engine.Engine.HandleCommand | core/engine/engine.go:308-326 | pause, resume and skip succeed; any other action is an unknown-command error that changes nothing |
| Engine.Engine.SendCommand | core/engine/engine.go:288-305 | an error that changes nothing when the engine is not running; otherwise the command's result |
| Engine.Engine.RecordSession | core/engine/engine.go:420-475 | exactly one entry appended; work moves the pomodoro counters and the streak, a break the break counters, long breaks only for the long break |
| Engine.Engine.FinishSession | core/engine/engine.go:420-521 | the ended interval (completed or skipped) is recorded once; the first three events are the completed-or-skipped event with the timer's final snapshot, the statistics-updated event with the statistics as now recorded, and the session-finished event; a work interval under the count before it advances, and while running the next interval the rule chooses starts |
| Engine.Engine.CloseSession | core/engine/engine.go:420-473 | the interval is appended to the statistics once, and exactly the three closing events are built: the timer's snapshot at the end, the statistics after recording, and the finished event |
| Engine.Engine.HandleTick | core/engine/engine.go:329-350 | nothing without a timer; otherwise the timer steps and the first event is the tick carrying the session, count and snapshot of the stepped timer; an interval that is done or skipped is recorded once and followed by the next one |
| Engine.RestartedEngineStaysIdle | core/engine/engine.go:115-188 | an engine stopped and started again keeps its reset idle timer; starting the first session then does nothing, and a tick records nothing |
| NotifyConfig.DefaultConfig | internal/notifications/config.go:69-118 | valid, no profiles, the "default" profile active, quiet hours off |
| NotifyConfig.FirstBadThreshold | internal/notifications/config.go:148-155 | none exactly when every threshold is in [1, 60]; otherwise the first threshold of the list outside that range, every earlier one being in range |
| NotifyConfig.SoundError | internal/notifications/config.go:137-146 | no error exactly when volume, duration and frequency are in range; the volume message when the volume is out of range |
| NotifyConfig.AlertsError | internal/notifications/config.go:148-160 | no error exactly when the thresholds and the repeat interval are valid; the empty-list message for no thresholds |
| NotifyConfig.SystemError | internal/notifications/config.go:177-182 | no error exactly when the persistence and the position are allowed values |
| NotifyConfig.QuietHoursError | internal/notifications/config.go:184-192 | no error exactly when quiet hours are off or both bounds are valid times |
| NotifyConfig.ValidTimeFormat | internal/notifications/config.go:198-205 | an accepted time is one or two digits, a colon and two digits |
| NotifyConfig.IsInQuietHoursAsWritten | internal/notifications/config.go:207-225 | never quiet when quiet hours are off or the bounds are equal, never at the end bound, always at the start bound of a non-empty window |
| NotifyConfig.IsInQuietHours | internal/notifications/config.go:207-225 | corrected, with valid bounds compared as times of day: never quiet when off, an empty window is never quiet, the end minute is outside and the start minute inside |
| NotifyConfig.Validate | internal/notifications/config.go:135-195 | no error exactly when every check holds; otherwise the first failing check's message in the source's order: sound, alerts, visual intensity, system, quiet hours |
| NotifyConfig.PaddedTimesOrder | internal/notifications/config.go:207-225 | on zero-padded times string order is time order |
| NotifyConfig.QuietHoursAgreeOnPaddedBounds | internal/notifications/config.go:207-225 | when both bounds are zero-padded, the string comparison as written and the time comparison agree |
| NotifyConfig.QuietHoursAsWrittenMisreadsShortHour | internal/notifications/config.go:207-225 | a window from 9:00 to 17:00, which validation accepts, reports 08:00 as quiet as written, and not when compared as times |
| NotifyConfig.Quieted | internal/notifications/config.go:228-250 | sound and system off as the quiet-hours options ask, early alerts and system events off for urgent-only, and nothing else changed |
| NotifyConfig.ApplyQuietHours | internal/notifications/config.go:228-250 | quiet hours decided by the string comparison as written: the configuration itself outside them, the quieted copy inside them |
| NotifyConfig.ApplyQuietHoursOnPaddedBounds | internal/notifications/config.go:207-250 | with zero-padded bounds, applying quiet hours follows the time-of-day window |
| NotifyConfig.QuietedIdempotent | internal/notifications/config.go:228-250 | quieting twice is quieting once |
| NotifyConfig.ApplyQuietHoursIdempotent | internal/notifications/config.go:228-250 | applying quiet hours a second time changes nothing more |
| NotifyConfig.GetProfile | internal/notifications/config.go:253-260 | found exactly when a profile has the name, and then the first such profile; otherwise the not-found message |
| NotifyConfig.GetActiveConfig | internal/notifications/config.go:320-332 | the receiver (quiet hours applied as written) when "default" is active or the active profile is missing; otherwise that profile's configuration, quiet hours applied as written |
| NotifyConfig.ActiveConfigIsProfile | internal/notifications/config.go:320-332 | with unique names, the active configuration is the active profile's wherever it stands in the list |
| NotifyConfig.Config.constructor | internal/notifications/config.go:69-118 | holds the default configuration |
| NotifyConfig.Config.Clone | internal/notifications/config.go:121-132 | a fresh object with an equal value, so later changes to one leave the other alone |
| NotifyConfig.Config.AddProfile | internal/notifications/config.go:263-278 | a duplicate name or an invalid configuration is refused with its message and no change; otherwise exactly that profile is appended; unique names stay unique |
| NotifyConfig.Config.RemoveProfile | internal/notifications/config.go:281-300 | "default" and missing names are refused; otherwise the first match goes, the rest keep their order, and removing the active profile makes "default" active |
| NotifyConfig.Config.SetActiveProfile | internal/notifications/config.go:303-317 | accepted exactly for "default" or an existing name, which becomes active; otherwise the not-found message and no change |
| NotifyManager.IsEventEnabled | internal/notifications/manager.go:448-463 | only the gated events can be switched off; each follows its own flag and every other event is let through |
| NotifyManager.IsTypeEnabled | internal/notifications/manager.go:466-477 | only sound, system and visual can be enabled, each by its flag |
| NotifyManager.KeepEnabled | internal/notifications/manager.go:489-503 | keeps a type exactly when it is in the list and enabled, never lengthens the list, and keeps a one-type list exactly when its type is enabled |
| NotifyManager.KeepEnabledAppend | internal/notifications/manager.go:489-503 | filtering distributes over concatenation, so the kept types appear as often and in the order they occur in the list |
| NotifyManager.EnabledTypes | internal/notifications/manager.go:489-503 | the enabled types in the order sound, system, visual |
| NotifyManager.KeepEnabledIdempotent | internal/notifications/manager.go:489-503 | filtering the enabled types twice is filtering once |
| NotifyManager.FilledRequest | internal/notifications/manager.go:150-156 | a request naming no types is given the enabled types; a request naming some is passed on unchanged; no other field changes |
| NotifyManager.TargetsOfUntypedRequest | internal/notifications/manager.go:150-156 | a request naming no types goes to the enabled types |
| NotifyManager.QuietHoursOnlySilence | internal/notifications/manager.go:448-477 | quiet hours only switch events and types off, never on |
| NotifyManager.OnlyUrgentQuietHours | internal/notifications/manager.go:448-463 | in urgent-only quiet hours early alerts and start, pause and resume events are held back, while urgent alerts and the completion events keep their own switches |
| NotifyManager.ConfigureRequest | internal/notifications/manager.go:533-554 | only the metadata changes: alerts that repeat carry the repeat interval, visual requests the intensity and flash switch, and every other entry is kept |
| NotifyManager.NotifierSettings | internal/notifications/manager.go:506-530 | each notifier type gets its own four settings, an unknown type none |
| NotifyManager.Send | internal/notifications/manager.go:194-225 | unregistered and disabled types fail with their messages without reaching a notifier; otherwise the notifier's answer to the configured request, labelled with the type |
| NotifyManager.TargetsPassTypeGate | internal/notifications/manager.go:131-225 | every target passes the type gate, so each answer is either the not-registered failure or the notifier's own answer |
| NotifyManager.AlertLevel | internal/notifications/manager.go:267-298 | urgent goes with the urgent priority, early with high, custom with normal |
| NotifyManager.AlertLevelBands | internal/notifications/manager.go:272-292 | urgent exactly up to one minute, early up to five, custom beyond; less time never lowers the priority |
| NotifyManager.FormatDuration | internal/notifications/manager.go:614-629 | the text is never shorter than two characters |
| NotifyManager.FormatDurationReadsBack | internal/notifications/manager.go:614-629 | reading the text back gives whole seconds, or whole minutes from an hour on |
| NotifyManager.TimeAlertRequest | internal/notifications/manager.go:267-298 | a time alert asks for visual then sound, carries the time left, and has the level's event and priority |
| NotifyManager.Counted | internal/notifications/manager.go:557-570 | one more sent, exactly one of success and failure, one more for the type and for the event, and the balance sent = success + failure kept |
| NotifyManager.TallyCounts | internal/notifications/manager.go:557-570 | counting a list of answers adds its length to the total and to the event, its successes to the success count, and keeps the balance |
| NotifyManager.Manager.constructor | internal/notifications/manager.go:89-103 | the given configuration or the default, no notifier, enabled, nothing counted |
| NotifyManager.Manager.RegisterNotifier | internal/notifications/manager.go:106-128 | a missing, unavailable or misconfigured notifier is refused with its message and no change; otherwise it is filed under its type, replacing any before it |
| NotifyManager.Manager.UpdateStats | internal/notifications/manager.go:557-570 | the statistics count the answer and nothing else changes |
| NotifyManager.Manager.Notify | internal/notifications/manager.go:131-191 | nothing when disabled or when the event is switched off (quiet hours applied as written); otherwise the filled request (the enabled types written into it when it names none) is sent to each enabled target, one answer each, each counted, and the time of the notification recorded |
| NotifyManager.Manager.SendToEach | internal/notifications/manager.go:158-185 | each enabled type of the list, in order, is sent the request and its answer counted |
| NotifyManager.Manager.NotifyTimeAlert | internal/notifications/manager.go:267-298 | the classified alert is sent to the enabled types among visual and sound, under the same gates as any notification, quiet hours applied as written |
| NotifyManager.Manager.Enable | internal/notifications/manager.go:338-342 | only the enabled switch changes |
| NotifyManager.Manager.UpdateConfig | internal/notifications/manager.go:352-375 | a missing or invalid configuration is refused with its message and no change; otherwise it is installed and every registered notifier is handed its new settings |
| NotifyManager.Manager.ResetStats | internal/notifications/manager.go:573-581 | every counter zero and both maps empty, the balance holding |
| NotifySound.SoundTypeForEvent | internal/notifications/sound.go:105-132 | one of the seven named sounds or "default" |
| NotifySound.TestEventFor | internal/notifications/sound.go:629-657 | a custom alert unless the sound type is one of the seven named ones |
| NotifySound.TestSoundPlaysItsType | internal/notifications/sound.go:629-657 | testing a named sound plays that very sound; testing any other name plays the default sound |
| NotifySound.SoundsAndEventsCorrespond | internal/notifications/sound.go:105-132 | the two mappings are inverse on the seven pairs |
| NotifySound.GetConfigInt | internal/notifications/sound.go:557-573 | an int as is, a float truncated toward zero, an unparsable string or another kind or no entry gives the default |
| NotifySound.GetConfigIntOfString | internal/notifications/sound.go:557-573 | a whole number stored as its decimal string reads back as itself |
| NotifySound.GetConfigBool | internal/notifications/sound.go:575-590 | a bool as is; a string is true exactly for "true" in any case or "1"; an int is true when non-zero; other kinds or no entry give the default |
| NotifySound.GetConfigBoolOfStrings | internal/notifications/sound.go:575-590 | a string never falls back on the default: "TRUE" and "1" are true, "yes" is false |
| NotifySound.GetConfigFloat | internal/notifications/sound.go:539-555 | a float as is, an int converted, other kinds or no entry give the default |
| NotifySound.SoundFileKeyInjective | internal/notifications/sound.go:592-612 | different sound types are stored under different keys |
| NotifySound.GetSoundFilePath | internal/notifications/sound.go:592-600 | the string stored under the type's key, or "" |
| NotifySound.SoundFileFoundForItsTypeOnly | internal/notifications/sound.go:592-612 | a file stored for one sound type is found for it and for no other |
| NotifySound.SoundNotifierReadsManagerSettings | internal/notifications/manager.go:506-530 | a sound notifier configured by the manager reads back exactly the configured volume, duration, frequency and custom-sound switch |
| Sessions.ActiveUsers | apps/discord/internal/manager/session_manager.go:150-162 | exactly the users whose session is active |
| Sessions.Cleaned | apps/discord/internal/manager/session_manager.go:291-308 | the cleaned table keeps a subset of the entries, each unchanged |
| Sessions.CleanedAll | apps/discord/internal/manager/session_manager.go:291-308 | once every entry has been looked at, exactly the active sessions with running engines remain |
| Sessions.NewRunningEngine | apps/discord/internal/manager/session_manager.go:62-95 | a fresh engine on the configuration, running, on a running work timer |
| Sessions.SessionManager.constructor | apps/discord/internal/manager/session_manager.go:38-44 | no sessions and no handlers, with the default configuration |
| Sessions.SessionManager.StartSession | apps/discord/internal/manager/session_manager.go:47-101 | an error and no change when the user already has an active session; otherwise a fresh running engine on the custom or default configuration, filed as the user's active session and nothing else changed |
| Sessions.SessionManager.StopSession | apps/discord/internal/manager/session_manager.go:104-119 | an error and no change without an active session; otherwise that engine stops and exactly that user's entry is removed, and nothing owned by another user changes |
| Sessions.SessionManager.Discard | apps/discord/internal/manager/session_manager.go:113-116 | the user's engine stops and exactly that entry is removed; nothing owned by another user changes |
| Sessions.SessionManager.GetSession | apps/discord/internal/manager/session_manager.go:122-132 | found exactly for an active session, and then that session; otherwise the no-session message |
| Sessions.SessionManager.UpdateSessionDMChannel | apps/discord/internal/manager/session_manager.go:135-147 | an error and no change without an active session; otherwise only that session's direct-message channel changes |
| Sessions.SessionManager.GetAllActiveSessions | apps/discord/internal/manager/session_manager.go:150-162 | exactly the active entries, unchanged |
| Sessions.SessionManager.GetActiveSessionCount | apps/discord/internal/manager/session_manager.go:311-323 | the number of active sessions |
| Sessions.SessionManager.CleanupInactiveSessions | apps/discord/internal/manager/session_manager.go:291-308 | exactly the active sessions with running engines remain, unchanged, and nothing their users own changes; every removed engine is stopped |
| Sessions.SessionManager.CleanupOne | apps/discord/internal/manager/session_manager.go:296-303 | one more entry looked at: an inactive one or one whose engine stopped is stopped and removed, the table stays the cleaned one, and nothing owned by another user or a kept one changes |
| Sessions.SessionManager.RegisterEventHandler | apps/discord/internal/manager/session_manager.go:195-198 | the handler replaces any under that name; the sessions are untouched |
| Sessions.Reminders | apps/discord/internal/manager/session_manager.go:246-263 | every minute fired is 10, 5 or 1 and one of the minutes seen; the first differs from the minute fired last and no minute fires twice in a row |
| Sessions.SessionReminders | apps/discord/internal/manager/session_manager.go:246-263 | as written, over a whole session: every minute fired is a reminder minute of some interval, and no minute fires twice in a row even across intervals |
| Sessions.SessionRemindersPerInterval | apps/discord/internal/manager/session_manager.go:246-263 | corrected, with the last minute reset per interval: every minute fired is a reminder minute of some interval |
| Sessions.TickReminder.constructor | apps/discord/internal/manager/session_manager.go:246 | no minute fired yet |
| Sessions.TickReminder.OnTick | apps/discord/internal/manager/session_manager.go:248-263 | fires exactly when the whole minutes left are 10, 5 or 1 and differ from the last minute fired, which then becomes that minute |
| Sessions.CountdownRemindsOnce | apps/discord/internal/manager/session_manager.go:246-263 | over a countdown each reminder minute fires exactly once when reached and never otherwise |
| Sessions.NeverRepeats | apps/discord/internal/manager/session_manager.go:246-263 | a countdown from the last minute fired never fires it again |
| Sessions.ShortBreakLosesLastMinuteReminder | apps/discord/internal/manager/session_manager.go:246-263 | as written, a work interval followed by a short break gives only 10, 5 and 1: the break's last-minute reminder is lost |
| Sessions.PerIntervalRemindsEveryInterval | apps/discord/internal/manager/session_manager.go:246-263 | with the last minute reset per interval, every interval gets each of its reminder minutes exactly once |
| Sessions.ShortBreakKeepsLastMinuteReminder | apps/discord/internal/manager/session_manager.go:246-263 | reset per interval, the same work interval and break give 10, 5, 1 and 1 |

## Left out

- Concurrency: the engine's event-loop goroutine, the ticker, the command
  and result channels, context cancellation, the asynchronous handler calls
  in `Publish`, the parallel fan-out in `Notify` and every mutex. All
  operations are sequential methods, and a command is handled at once.
- The panic-recovery error event of the engine loop.
- The wall clock: `time.Now` and `time.Since` become a `now` parameter, and
  the quiet-hours clock becomes a minute-of-day parameter.
- `time.Parse`, `strconv.ParseFloat` and `Duration.Hours()/Minutes()/Seconds()`
  floats:
  - the "15:04" time format is modelled as a predicate;
  - `ParseFloat` is a function parameter of `GetConfigFloat`;
  - the float-returning duration methods are modelled as truncating integer
    division, which gives the same whole number for durations below about
    170 days (beyond that the float loses precision).
- int64 overflow of durations and counters: all integers are unbounded.
- JSON import and export, `LoadFromFile` and `SaveToFile`.
- The notifier implementations (audio played with `exec`, desktop and
  terminal output, `os.Stat`): a notifier is data, and its `Configure` and
  `Notify` are function parameters.
- NotifySound.SoundFileFoundForItsTypeOnly: `SetCustomSoundFile` is modelled
  only as the map update it makes; the check that the file exists is not
  modelled.
- The Discord side beyond the session table: network clients, embeds, the
  event forwarding closures of `setupSessionEventHandlers` other than the
  tick reminder, and the bot commands. Calling the "timer_reminder" handler
  is left to the caller of `OnTick`.
- `PauseSession`, `ResumeSession`, `SkipSession` and `GetSessionStats` of the
  session table: they only forward to the engine operations modelled in
  `Engine`.
- `*UserSession` pointers: sessions are values in the table, so the source
  marking a removed session inactive through a pointer is not modelled.
- Sessions.SessionManager.StartSession: the source's two failure returns
  (engine creation and first-session start failing) cannot happen for a
  valid configuration, so they are not modelled; the configuration is
  required to be valid.
- Engine.Engine.constructor: requires a valid configuration where the
  source panics on an invalid one.
- Text.ToLowerAscii: `strings.ToLower` is modelled on ASCII letters only; the
  lowered strings are only compared with "true", and no character outside
  ASCII lowers to one of its letters, so the answers agree.
- The shared metadata map in `configureRequest`: the Go code writes into the
  caller's map, so concurrent notifiers share it. The model builds a new map
  per notifier.
- NotifyConfig.SoundError: the volume message leaves out the `got %f`
  rendering of the float volume; the integer checks keep their `got` part.
- NotifyManager.Manager.Notify: the answers come in the order of the
  targets; the Go code collects them from a channel in completion order, so
  the model states one of the orders the source allows.
- The `Duration` field of notification responses (elapsed wall time).
- Printing and display helpers: the statistics display, the progress and
  efficiency bars, and the terminal user interface.
- `QuickNotify`, `TestNotifications` and the notification wrappers other
  than `Notify` and `NotifyTimeAlert`.
- `internal/stats/stats.go` `FormatDuration` is the same text as the
  `stats/stats.go` one (lines 145-157 and 448-460); both are modelled by
  `Stats.FormatDuration`.

## Findings

| source | as written | input that shows it | evidently intended | confidence | as-written member | corrected member |
|---|---|---|---|---|---|---|
| core/engine/engine.go:478-521 | the completed and skipped pomodoro events carry the count before it advances | the first work interval is announced as pomodoro 1 when it starts and as pomodoro 0 when it ends | the number the interval started with | not executed | Engine.FinishedEventTrailsStartedEvent | Engine.FinishedNumberAgreesWithBreak |
| internal/notifications/config.go:207-225 | quiet-hour bounds and the clock are compared as strings, while validation accepts a one-digit hour | a window from "9:00" to "17:00" reports 08:00 as quiet | compare the bounds as times of day | not executed | NotifyConfig.QuietHoursAsWrittenMisreadsShortHour | NotifyConfig.QuietHoursAgreeOnPaddedBounds |
| events/events.go:128-141 | `Unsubscribe` compares the addresses of two different local variables, which never match | subscribe a handler, unsubscribe it: the count stays 1 | remove the first copy of the handler | not executed | Events.UnsubscribeKeepsHandler | Events.UnsubscribeRemovesHandler |
| apps/discord/internal/manager/session_manager.go:246-263 | the last minute fired is kept across all intervals of a session | work ends with a reminder at 1 minute, so the next short break's 1-minute reminder is suppressed | reset the last minute fired at the start of each interval | not executed | Sessions.ShortBreakLosesLastMinuteReminder | Sessions.ShortBreakKeepsLastMinuteReminder |
