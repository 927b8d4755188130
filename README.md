# Pomodoro timer: a verified model

This project models the session logic of a Pomodoro web application written
in TypeScript with React and a Supabase back end. There are two timers in the
application:

- **`TimerProvider`** (`src/context/TimerContext.tsx`) has three phases:
  focus, short break and long break. It counts down once a second. When a
  focus phase expires it credits the active task. A completed interval is logged
  remotely, and the next phase is chosen by the long-break cadence rule
  `(focusCount + 1) % longBreakInterval === 0`. A snapshot of the timer is
  kept in local storage.
- **`HomePage`** (`src/app/page.tsx`) is an older two-phase timer: focus and
  break. The phases strictly alternate. Starting always restarts the full
  duration. Its reload snapshot is the absolute end time of the running phase.

Around the timers, the project also models:

- the `mm:ss` display both timers use;
- the task list provider (`TaskProvider`), whose head is the active task;
- how the settings form converts minutes to seconds and pushes them into the
  timer;
- the analytics page, which totals the rounded minutes of all sessions.

The models follow the source's own form:

- **Classes for components with state.** Each component that updates state is
  a class whose fields are its React state. Local storage is the `stored`
  field. Remote writes are append-only fields (`sessionLog`, `taskUpdates`) or
  request values that the method returns.
- **Step functions for each method.** Every method is specified by a step
  function on a state record:
  `ensures State() == TickStep(old(State()), now)`. The step functions carry
  the properties, and the lemmas relate several steps.
- **Pure code stays pure.** The display, the merge of task rows with
  statistics, the settings conversions and the analytics fold are plain
  functions.

Inputs from outside the program are parameters:

- Clock readings are integer milliseconds (`now`).
- The results of remote queries are options. `None` is a failed query, or one
  that returned no data.

Modules (one per source file, plus a shared base):

| file | module | source |
|---|---|---|
| base.dfy | `Base` | nullable values, JavaScript truthiness of strings, `Array.prototype.find` |
| timer_context.dfy | `TimerContext` | src/context/TimerContext.tsx |
| home_page.dfy | `Home` | src/app/page.tsx |
| time_format.dfy | `TimeFormat` | `formatTime` in src/app/page.tsx and src/context/TimerContext.tsx |
| task_context.dfy | `TaskContext` | src/context/TaskContext.tsx |
| settings_form.dfy | `Settings` | src/components/SettingsForm.tsx |
| analytics.dfy | `Analytics` | src/app/analytics/page.tsx |

JavaScript semantics written out explicitly:

- `x % 0` is `NaN`, which never equals 0. So a long-break interval of 0 always
  gives a short break.
- The empty string is falsy, so a user id `""` counts as no user (`Present`).
- `Math.floor` of a division by a positive number is Dafny's `/`.
- JavaScript's `%` takes the sign of the dividend (`JsRemainder`).
- `Math.round(d / 60000)` on integer milliseconds is `(d + 30000) / 60000`.

Behaviour of the code worth knowing; the model follows the code:

- Switching phase by hand (`setSessionType`) changes the phase only. It does
  not reset the remaining time or clear the stamps.
- `TimerProvider` copies its snapshot back as it was saved, with no
  correction for the time elapsed. As written, the snapshot it reads is the
  one its own mount has just written (see Findings), so `RestoreStep` takes
  the previous page's snapshot as the parameter `saved`. `HomePage` does
  recompute the remaining time, but when that is not positive it falls back
  to the **focus** phase, not to the stored one.
- Saving settings resets the remaining time of the current phase even while
  the timer runs, not only while it is idle.
- `focusCount` is never reset after a long break. The cadence uses the
  remainder of the running count instead.
- `resetTimer` also clears the end stamp, not only the start stamp.
- `HomePage` selects a `break_duration` column (src/app/page.tsx:30), while
  the settings form writes only `short_break_duration` and
  `long_break_duration` (src/components/SettingsForm.tsx:58-65). The schema
  is not part of this model. If that column does not exist, the query fails,
  and both the durations and the reload recovery are skipped; the model
  covers that path as `settings == None`.

## Model

| member | source | states |
|---|---|---|
| TimerContext.IntervalOrDefault | src/context/TimerContext.tsx:84 | a missing or zero interval becomes 4; any other value is kept; the result is never 0 |
| TimerContext.NextSession | src/context/TimerContext.tsx:193-198 | a break is followed by focus and focus by a break; the long-break choice is stated by `Cadence` |
| TimerContext.Initial | src/context/TimerContext.tsx:40-59 | the mount state: stopped, focus phase, durations 25, 5 and 15 minutes, `timeLeft` the focus default, interval 4, no stamps, no user, count 0, no tasks, empty logs, snapshot written |
| TimerContext.TickStep | src/context/TimerContext.tsx:151-177 | a stopped timer is untouched; a running one loses exactly one second while more than 1 is left; otherwise it stops at 0 (never negative) with `endTime` stamped; on a focus expiry only `tasks[0].completedPomodoros` rises by 1, other tasks and an empty list are unchanged; an update is sent only when the user and the task id are present (the corrected tick, see Findings); phase, start stamp, count and log are unchanged |
| TimerContext.TickAsWritten | src/context/TimerContext.tsx:160-165 | the tick as written: the local counts and time are `TickStep`'s, but no task update is sent |
| TimerContext.UnsentCredit | src/context/TimerContext.tsx:156-171 | a focus expiry for a signed-in user with an identified active task credits it locally while, as written, no request carries the new count |
| TimerContext.CreditSent | src/context/TimerContext.tsx:156-171 | with the update sent, exactly one request is appended, carrying the active task's id and the count it now shows |
| TimerContext.StartStep | src/context/TimerContext.tsx:217-222 | a no-op when running; otherwise it starts running and stamps `startTime` only if none exists; nothing else changes |
| TimerContext.PauseStep | src/context/TimerContext.tsx:224 | only `isRunning` changes (to false); `timeLeft` and `startTime` are kept |
| TimerContext.ResetStep | src/context/TimerContext.tsx:226-231 | stopped, `timeLeft` is the duration of the current phase, both stamps cleared, phase unchanged |
| TimerContext.SkipStep | src/context/TimerContext.tsx:233-236 | `endTime` stamped and stopped; `timeLeft` untouched |
| TimerContext.CommitStep | src/context/TimerContext.tsx:183-215 | without both stamps and a user nothing changes; otherwise one row is logged, the next phase follows the cadence rule, `focusCount` rises by 1 only after focus, `timeLeft` is the next phase's duration, the stamps are cleared and the snapshot follows |
| TimerContext.AddTaskStep | src/context/TimerContext.tsx:238-253 | without a user, or with no returned row, the list is unchanged; otherwise the stored row is appended at the tail and the old list is kept as a prefix |
| TimerContext.SetSessionTypeStep | src/context/TimerContext.tsx:266 | the exposed setter changes the phase and nothing else; `timeLeft` is not reset |
| TimerContext.RestoreStep | src/context/TimerContext.tsx:61-117 | the settings row sets durations, interval (with default) and `timeLeft`; a saved snapshot (the previous page's, the corrected start-up, see Findings) is copied back exactly as stored; task rows are loaded only for a user; the snapshot is rewritten afterwards |
| TimerContext.RestoreAsWritten | src/context/TimerContext.tsx:61-124 | start-up as written: the snapshot read back is the one in storage at mount, which this mount's save effect has just written; the durations are still the settings row's |
| TimerContext.RestoreForgetsSettings | src/context/TimerContext.tsx:83-95 | on a fresh mount with a focus setting other than 25 minutes, the time left comes up as 25 minutes, differing from the focus duration, stopped at focus with no stamps |
| TimerContext.RestoreResumesPreviousPage | src/context/TimerContext.tsx:61-117 | with the previous page's snapshot, start-up resumes it exactly; without one, the settings row's focus duration is the time left |
| TimerContext.WithSaved | src/context/TimerContext.tsx:87-95 | without a snapshot nothing changes; otherwise the five snapshot fields are exactly the stored ones, with no correction for elapsed time, and nothing else changes |
| TimerContext.TasksOf | src/context/TimerContext.tsx:104-111 | the fetched rows mapped to tasks, same length and order |
| TimerContext.TicksAdd | src/context/TimerContext.tsx:147-181 | `m + n` ticks are `m` ticks then `n` ticks |
| TimerContext.CountsDown | src/context/TimerContext.tsx:151-177 | while more than `n` seconds are left, `n` ticks take exactly `n` seconds off and leave the stamps, tasks and log alone |
| TimerContext.StoppedIgnoresTicks | src/context/TimerContext.tsx:149 | a stopped timer is unchanged by any number of ticks |
| TimerContext.ExpiresOnSchedule | src/context/TimerContext.tsx:151-177 | a phase with `L >= 1` seconds left expires on tick `L`: stopped at 0, with `endTime` the time of that tick |
| TimerContext.CommitOnce | src/context/TimerContext.tsx:206-207 | committing twice is committing once |
| TimerContext.SkipUnstartedKeepsPhase | src/context/TimerContext.tsx:183-236 | skipping a never-started phase logs nothing and keeps phase, `timeLeft` and `focusCount` |
| TimerContext.StartAfterUnstartedSkipCommits | src/context/TimerContext.tsx:183-222 | because the commit effect also depends on `startTime`, starting after an unstarted skip logs an interval that starts after it ended, and the next phase runs without a start stamp |
| TimerContext.CompleteAdvances | src/context/TimerContext.tsx:183-236 | start, skip and commit from a fresh state: one row logged, phase advanced by the cadence rule, count updated, fresh again |
| TimerContext.PomodoroIsTwoIntervals | src/context/TimerContext.tsx:193-207 | a focus interval then a break interval equals the closed form: one more focus, two rows, focus duration loaded |
| TimerContext.CyclesLog | src/context/TimerContext.tsx:193-207 | `n` pomodoros add `n` to the count, end in a fresh focus phase and log exactly `CycleRows` |
| TimerContext.CycleRowsKinds | src/context/TimerContext.tsx:193-198 | the logged rows alternate focus and break, and the `j`-th break follows focus number `focusCount + j + 1` |
| TimerContext.Cadence | src/context/TimerContext.tsx:193-202 | over `n` rounds of start, skip and commit of a focus and a break interval, the log keeps its prefix; row `2j` is focus, and row `2j+1` is a long break exactly when the interval is non-zero and divides `focusCount + j + 1`, else a short break |
| TimerContext.CycleCadence | src/context/TimerContext.tsx:193-202 | the same cadence for the closed form of `n` pomodoros |
| TimerContext.FourthFocusEarnsLongBreak | src/context/TimerContext.tsx:193-202 | with the default interval 4 from a zero count, breaks one to three are short and the fourth is long (for the closed form, equal to four rounds by `CyclesAreRounds`) |
| TimerContext.CyclesAreRounds | src/context/TimerContext.tsx:183-236 | the closed form of `n` pomodoros equals `n` rounds of the timer's own start, skip and commit steps |
| TimerContext.ExpiryThenCommit | src/context/TimerContext.tsx:151-215 | natural expiry then commit logs the phase with the tick's time as its end and loads the next phase's duration, stopped |
| TimerContext.TimerProvider.constructor | src/context/TimerContext.tsx:45-59 | the component at mount equals `Initial()` |
| TimerContext.TimerProvider.SaveSnapshot | src/context/TimerContext.tsx:119-124 | local storage holds the snapshot of the current fields |
| TimerContext.TimerProvider.Restore | src/context/TimerContext.tsx:61-117 | the fields after start-up are `RestoreStep` of the fields before |
| TimerContext.TimerProvider.Tick | src/context/TimerContext.tsx:150-178 | the fields after one interval call are `TickStep` of the fields before (the corrected tick, which sends the task update, see Findings; the task count is updated in place) |
| TimerContext.TimerProvider.Commit | src/context/TimerContext.tsx:183-215 | the fields after the completion effect are `CommitStep` of the fields before |
| TimerContext.TimerProvider.StartTimer | src/context/TimerContext.tsx:217-222 | new fields equal `StartStep` of the old |
| TimerContext.TimerProvider.PauseTimer | src/context/TimerContext.tsx:224 | new fields equal `PauseStep` of the old |
| TimerContext.TimerProvider.ResetTimer | src/context/TimerContext.tsx:226-231 | new fields equal `ResetStep` of the old |
| TimerContext.TimerProvider.SkipSession | src/context/TimerContext.tsx:233-236 | new fields equal `SkipStep` of the old |
| TimerContext.TimerProvider.AddTask | src/context/TimerContext.tsx:238-253 | an insert request only for a user; the fields follow `AddTaskStep` |
| TimerContext.TimerProvider.SetSessionType | src/context/TimerContext.tsx:266 | new fields equal `SetSessionTypeStep` of the old |
| TimerContext.TimerProvider.SetTimeLeft | src/context/TimerContext.tsx:119-124 | only `timeLeft` changes, and the snapshot follows |
| TimerContext.TimerProvider.SetDurations | src/context/TimerContext.tsx:55-59 | only the durations change |
| TimerContext.TimerProvider.SetLongBreakInterval | src/context/TimerContext.tsx:53 | only the interval changes |
| Home.Persisted | src/app/page.tsx:121-133 | a snapshot with `end = now + timeLeft * 1000` is written only while running; nothing else changes |
| Home.Initial | src/app/page.tsx:10-17 | the mount state: stopped, focus at 1500 seconds, durations 1500 and 300, no stamps, no user, count 0, empty log, the stored snapshot kept |
| Home.WithSettings | src/app/page.tsx:34-67 | without a settings row nothing changes; with one the durations are adopted, and with a stored snapshot the state is `Recover` of it; without a snapshot only the durations change |
| Home.WithCount | src/app/page.tsx:136-150 | the remote count is adopted only for a non-empty user id and a numeric count; nothing else changes |
| Home.Settle | src/app/page.tsx:80-83 | a running timer at 0 or below stops and stamps `endTime`; a state that keeps running has time left |
| Home.Remaining | src/app/page.tsx:51-53 | `floor((end - now) / 1000)`, bounded by `end - now` on both sides |
| Home.Recover | src/app/page.tsx:55-67 | with positive remaining time: the stored phase, `timeLeft = remaining`, the stored running flag and `startTime = now - (duration - remaining) * 1000`; otherwise the focus phase at the focus duration; no other field changes |
| Home.InitStep | src/app/page.tsx:21-150 | nothing without a user; settings replace the durations; recovery happens only with a user, loaded settings and a snapshot, and then yields the stored phase, the remaining time, the stored running flag and the back-dated start, or focus at the focus duration when the snapshot has expired; the count is adopted only for a non-empty user and a numeric count; the log is unchanged; a running result always has time left; from a stopped mount state the end stamp is kept, without settings the durations, start stamp and snapshot are kept, and the snapshot is rewritten with the new end exactly when the result runs |
| Home.TickStep | src/app/page.tsx:76-86 | only while running with time left: one second off, the snapshot rewritten, and a stop with `endTime` stamped when 0 is reached; no other field changes |
| Home.StartStep | src/app/page.tsx:160-164 | always re-stamps `startTime` and loads the full duration of the phase; writes the snapshot; runs unless that duration is not positive; no other field changes |
| Home.PauseStep | src/app/page.tsx:211 | only `isRunning` changes; the snapshot is not rewritten |
| Home.ResetStep | src/app/page.tsx:166-172 | stopped, full duration, both stamps cleared, the snapshot removed |
| Home.SkipStep | src/app/page.tsx:174-177 | `endTime` stamped and stopped |
| Home.CommitStep | src/app/page.tsx:89-118 | without start, end and user nothing changes; otherwise one row is logged, the phase flips, `timeLeft` is the new phase's duration, the stamps and the snapshot are cleared, and the focus count is taken from the recount only after focus |
| Home.ReloadRoundTrip | src/app/page.tsx:51-67 | a snapshot saved at `T` with `L > 0` seconds left, restored at `T + 1000k` for `0 <= k < L`, yields `L - k` seconds, the same phase, running |
| Home.ExpiredReloadFallsBack | src/app/page.tsx:64-67 | a reload at or after the stored end returns to focus and loads the focus duration instead of the non-positive remaining time |
| Home.PausedReloadResumes | src/app/page.tsx:121-133 | after a pause the stored snapshot still says running, so a reload before its end resumes running |
| Home.ResumeRestartsFullDuration | src/app/page.tsx:160-164 | start after pause restores the full duration of the phase |
| Home.PhasesAlternate | src/app/page.tsx:109 | two commits bring the phase back; one commit changes it |
| Home.CountsDownToZero | src/app/page.tsx:76-86 | `n <= timeLeft` ticks take `n` seconds off; the timer stops exactly at 0 with `endTime` stamped on the last tick |
| Home.StoppedIgnoresTicks | src/app/page.tsx:78 | a stopped timer is unchanged by ticks |
| Home.HomePage.constructor | src/app/page.tsx:10-17 | the state at mount, with the previous page's snapshot in storage |
| Home.HomePage.SaveSnapshot | src/app/page.tsx:121-133 | new fields equal `Persisted` of the old |
| Home.HomePage.StopIfDone | src/app/page.tsx:80-83 | new fields equal `Settle` of the old |
| Home.HomePage.Init | src/app/page.tsx:21-150 | new fields equal `InitStep` of the old |
| Home.HomePage.ApplySettings | src/app/page.tsx:34-67 | new fields equal `WithSettings` of the old |
| Home.HomePage.Tick | src/app/page.tsx:76-86 | new fields equal `TickStep` of the old |
| Home.HomePage.Commit | src/app/page.tsx:89-118 | new fields equal `CommitStep` of the old |
| Home.HomePage.StartTimer | src/app/page.tsx:160-164 | new fields equal `StartStep` of the old |
| Home.HomePage.Pause | src/app/page.tsx:211 | new fields equal `PauseStep` of the old |
| Home.HomePage.ResetTimer | src/app/page.tsx:166-172 | new fields equal `ResetStep` of the old |
| Home.HomePage.SkipSession | src/app/page.tsx:174-177 | new fields equal `SkipStep` of the old |
| TimeFormat.NatToString | src/app/page.tsx:153-156 | non-empty decimal digits, no leading zero except for 0, one digit exactly below 10 |
| TimeFormat.PadStart2 | src/app/page.tsx:155-156 | at least two characters, the input as suffix, zeros before it |
| TimeFormat.JsRemainder | src/app/page.tsx:156 | the remainder in `[0, b)` for a non-negative dividend and in `(-b, 0]` for a negative one |
| TimeFormat.FormatTime | src/app/page.tsx:152-158 | for `t >= 0` the display is the padded minutes, a colon and the padded seconds of `t` |
| TimeFormat.ParseNatToString | src/app/page.tsx:153-156 | the decimal string of `n` reads back as `n` |
| TimeFormat.ParseLeadingZeros | src/app/page.tsx:155-156 | padding zeros do not change the value read |
| TimeFormat.Shape | src/app/page.tsx:152-158 | for `t >= 0`: at least two minute digits, a colon, exactly two second digits |
| TimeFormat.FormatRoundTrip | src/app/page.tsx:152-158 | for `t >= 0` the display reads back as `(t / 60, t % 60)`, with `m * 60 + s == t` and `s < 60` |
| TimeFormat.ClockRoundTrip | src/context/TimerContext.tsx:132-136 | any minutes and seconds read back from their display |
| TimeFormat.FormatInjective | src/context/TimerContext.tsx:132-136 | distinct non-negative times are displayed differently |
| TaskContext.TaskState.Active | src/context/TaskContext.tsx:191 | `tasks[0]` when the list is non-empty, else null |
| TaskContext.StatFor | src/context/TaskContext.tsx:64 | the first statistics row with the task's id, or none if no row has it |
| TaskContext.CountsOf | src/context/TaskContext.tsx:64-72 | the matching row's counts, or all zeros when no row matches or no statistics came back |
| TaskContext.Merge | src/context/TaskContext.tsx:62-75 | same length and order as the rows; each task keeps its row's id, name and count, and gets the counts of its statistics row or zeros |
| TaskContext.TotalFor | src/context/TaskContext.tsx:90-93 | the total of the first entry for the user, or 0 when none matches |
| TaskContext.LoadStep | src/context/TaskContext.tsx:46-80 | the list is replaced by the merge only when the task query returned rows |
| TaskContext.RecalculateStep | src/context/TaskContext.tsx:82-94 | an RPC error leaves the total unchanged; otherwise it is `TotalFor` the user |
| TaskContext.ClearStep | src/context/TaskContext.tsx:99-126 | empty list, no user, total 0, no active task |
| TaskContext.SignInStep | src/context/TaskContext.tsx:106-121 | the user is adopted, then the tasks and the total are loaded |
| TaskContext.FetchAllStep | src/context/TaskContext.tsx:96-109 | no user clears everything; otherwise sign-in |
| TaskContext.AuthChangeStep | src/context/TaskContext.tsx:116-127 | a session without a (non-empty) user id clears everything; otherwise sign-in |
| TaskContext.AddTaskStep | src/context/TaskContext.tsx:148-174 | null and unchanged without a user or when the insert fails or returns no row; otherwise the new task is put first and returned |
| TaskContext.AddedTaskIsActive | src/context/TaskContext.tsx:166-191 | a successful add makes the new task the active one, with the old list in order behind it |
| TaskContext.MergeKeepsRows | src/context/TaskContext.tsx:63-74 | the fetched rows read back from the merged list |
| TaskContext.StatForUnique | src/context/TaskContext.tsx:64 | with one statistics row per task, a task's row is the one with its id |
| TaskContext.MergeIgnoresStatOrder | src/context/TaskContext.tsx:56-75 | with one statistics row per task, the order of the statistics rows does not change the merged list |
| TaskContext.SignOutRefusesAdd | src/context/TaskContext.tsx:122-149 | after sign-out there is no active task, the total is 0 and `addTask` is refused |
| TaskContext.TaskProvider.constructor | src/context/TaskContext.tsx:42-44 | empty list, no user, total 0 |
| TaskContext.TaskProvider.LoadTasksAndStats | src/context/TaskContext.tsx:46-80 | new fields equal `LoadStep` of the old |
| TaskContext.TaskProvider.RecalculateTotalPomodoros | src/context/TaskContext.tsx:82-94 | new fields equal `RecalculateStep` of the old |
| TaskContext.TaskProvider.Clear | src/context/TaskContext.tsx:100-102 | new fields equal `ClearStep` of the old |
| TaskContext.TaskProvider.FetchAll | src/context/TaskContext.tsx:96-109 | new fields equal `FetchAllStep` of the old |
| TaskContext.TaskProvider.OnAuthStateChange | src/context/TaskContext.tsx:117-127 | new fields equal `AuthChangeStep` of the old |
| TaskContext.TaskProvider.AddTask | src/context/TaskContext.tsx:148-174 | an insert request exactly when a user is known, with the task's name and count; the fields and the result follow `AddTaskStep` |
| TaskContext.TaskProvider.UpdateTask | src/context/TaskContext.tsx:176-189 | an update exactly when the task has an id and a user is known, with the task's count; the list is not touched |
| Settings.ToRow | src/components/SettingsForm.tsx:58-65 | each duration is minutes × 60; the interval and both flags are copied |
| Settings.AppliedDurations | src/components/SettingsForm.tsx:69-73 | the durations given to the timer are minutes × 60 for each phase |
| Settings.FromRow | src/components/SettingsForm.tsx:39-50 | each minute field is the stored seconds divided by 60 (rounded down); the interval falls back to 4; the flags are true only when stored true |
| Settings.ApplySaved | src/components/SettingsForm.tsx:69-79 | new durations; `timeLeft` becomes the new duration of the current phase only, running or not; the interval is the form's; nothing else changes |
| Settings.SaveThenLoad | src/components/SettingsForm.tsx:40-61 | saving then loading gives the form back, except that an interval of 0 comes back as 4 |
| Settings.LoadThenSave | src/components/SettingsForm.tsx:40-65 | a row of whole minutes, non-zero interval and set flags survives load then save |
| Settings.SavedDurationsDriveCommit | src/components/SettingsForm.tsx:69-73 | after a save, the next commit loads the new duration of the next phase |
| Settings.ZeroIntervalNeverLongBreak | src/components/SettingsForm.tsx:79 | an interval of 0 reaches the timer unchanged, where it never gives a long break |
| Settings.SettingsForm.constructor | src/components/SettingsForm.tsx:12-18 | the form's defaults 25, 5, 15, 4, false, false |
| Settings.SettingsForm.LoadSettings | src/components/SettingsForm.tsx:27-53 | nothing without a user; otherwise the user is kept and a returned row fills the form through `FromRow` |
| Settings.SettingsForm.HandleSave | src/components/SettingsForm.tsx:55-82 | nothing without a user; otherwise the upsert is the form's `ToRow` and the timer becomes `ApplySaved` of itself |
| Analytics.RoundMinutes | src/app/analytics/page.tsx:39 | the nearest whole minute, halves rounding up |
| Analytics.Reduce | src/app/analytics/page.tsx:36-40 | the seed for no sessions; never below the seed when no session ends before it starts |
| Analytics.TotalMinutes | src/app/analytics/page.tsx:36-41 | 0 for no sessions; never negative when no session ends before it starts |
| Analytics.PageTotal | src/app/analytics/page.tsx:17-42 | 0 with no user or no data, otherwise the fold |
| Analytics.RoundWholeMinutes | src/app/analytics/page.tsx:39 | a whole number of minutes is counted exactly |
| Analytics.FoldIsSum | src/app/analytics/page.tsx:36-40 | the fold adds the sum of the sessions' minutes to its seed |
| Analytics.TotalIsSum | src/app/analytics/page.tsx:36-40 | the total is the sum of every session's rounded minutes, and 0 for no sessions |
| Analytics.SumAppend | src/app/analytics/page.tsx:36-40 | the sum over two lists is the sum of their sums |
| Analytics.TotalIgnoresOrder | src/app/analytics/page.tsx:28-40 | the total does not depend on the order of the sessions |
| Analytics.TotalIgnoresKind | src/app/analytics/page.tsx:36-51 | every row counts whatever its type, although the label says focus time |
| Analytics.WholeMinutesAddUp | src/app/analytics/page.tsx:36-40 | sessions of whole minutes add up exactly |

## Findings

| source | as written | input that shows it | evidently intended | confidence | as-written member | corrected member |
|---|---|---|---|---|---|---|
| src/context/TimerContext.tsx:160-165 | the `tasks` update query is built but never awaited, and a Supabase query builder issues no request until it is | a running focus phase at 1 second, a signed-in user and an active task with an id: after the tick the task shows one more pomodoro locally, but the remote row is unchanged | the update is sent, so the remote count follows the local one | not executed | TimerContext.UnsentCredit | TimerContext.TickStep |
| src/context/TimerContext.tsx:61-124 | `restoreState` awaits the user before reading local storage, and the mount's save effect writes the default snapshot in the meantime, so the snapshot read back is always this mount's own | a fresh mount for a user whose focus setting is 50 minutes: the timer shows 25:00, and a previous page's running phase is not resumed | the restore reads the previous page's snapshot, or, without one, starts at the focus setting | not executed | TimerContext.RestoreForgetsSettings | TimerContext.RestoreResumesPreviousPage |

## Left out

- Supabase itself is not modelled. That covers authentication, inserts,
  updates, upserts, RPCs and counts. Their results are parameters, and the
  writes are returned requests or append-only logs. Failures and latency are
  not modelled.
- The realtime channel that reloads the tasks on any change
  (src/context/TaskContext.tsx:134-146) is left out. It is a subscription to
  remote events, and its effect is one more `LoadTasksAndStats`.
- The following framework behaviour is not modelled: React effect
  scheduling, the order effects fire in, `setInterval` timing, and callbacks
  capturing stale state. Each method is one effect run to completion, with
  the snapshot effect folded into the steps that change its fields. The one
  ordering that decides an outcome, the mount's snapshot write before the
  restore reads it, is modelled by `TimerContext.RestoreAsWritten` and
  recorded under Findings.
- Local storage and JSON are not modelled as storage. The snapshot is a
  record, and a parse failure is not modelled.
- `Date` values and ISO strings are integer milliseconds.
- `date-fns` formatting in analytics is not modelled.
- The following UI pieces are left out: `document.title`, the phase icons,
  `capitalize`, the alarm audio and the backgrounds.
- Settings.FromRow: in JavaScript, seconds divided by 60 may be fractional.
  The model divides integers and rounds down, so a stored duration that is
  not a whole number of minutes loads as fewer minutes. Fractional minute
  inputs in the form are likewise outside the model.
- TimerContext.NextSession: its own contract only says that focus follows
  every break. The long-break rule is stated over whole runs by
  `TimerContext.Cadence`.
- TaskContext.TaskProvider.AddTask: the remote insert and the returned row
  are one parameter. The interleaving of other updates while the insert is
  in flight is not modelled.
- The focus count in `HomePage` is the remote count of focus rows. It is a
  parameter, not derived from the model's own session log.
- The session inserts are awaited, but their error results are ignored:
  the model logs the row whatever the remote answer.
- `Analytics` receives the session rows already ordered by start time. The
  ordering itself is remote, and the total is proved independent of it.
