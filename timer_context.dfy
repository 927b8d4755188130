/** The three-phase Pomodoro timer provider (`TimerProvider`).

    React state becomes the fields of class `TimerProvider`; `State()` reads
    them back as one `TimerState` record.  Every operation is specified by a
    step function on `TimerState`, and the properties of the timer are proved
    about those functions.  `localStorage` is the field `stored`; the remote
    `pomodoro_sessions` inserts and `tasks` updates are the append-only fields
    `sessionLog` and `taskUpdates`.  Clock readings are integer milliseconds
    passed in as `now`. */
module TimerContext {
  import opened Base

  datatype SessionType = Focus | ShortBreak | LongBreak

  datatype Durations = Durations(focus: int, shortBreak: int, longBreak: int) {
    /** `durations[type]`, in seconds. */
    function Of(t: SessionType): int {
      match t
      case Focus => focus
      case ShortBreak => shortBreak
      case LongBreak => longBreak
    }
  }

  const FocusDefault: int := 25 * 60
  const ShortBreakDefault: int := 5 * 60
  const LongBreakDefault: int := 15 * 60
  const LongBreakIntervalDefault: int := 4

  datatype Task = Task(id: Option<string>, name: string, completedPomodoros: int)

  /** A row of the remote `tasks` table, as the timer reads it back. */
  datatype TaskRow = TaskRow(id: string, name: string, completedPomodoros: int)

  /** A row of the remote `user_settings` table; nullable columns are options. */
  datatype SettingsRow = SettingsRow(
    focusDuration: int, shortBreakDuration: int, longBreakDuration: int,
    longBreakInterval: Option<int>, autoStartBreak: Option<bool>, autoStartPomodoro: Option<bool>)

  /** A row appended to the remote `pomodoro_sessions` log. */
  datatype SessionRow = SessionRow(userId: string, startTime: int, endTime: int, kind: SessionType)

  /** A request to set a remote task's `completed_pomodoros`. */
  datatype TaskUpdate = TaskUpdate(id: string, completedPomodoros: int)

  /** A request to insert a task row for a user. */
  datatype TaskInsert = TaskInsert(userId: string, name: string, completedPomodoros: int)

  /** The JSON blob kept under the `pomodoro_state` key. */
  datatype Snapshot = Snapshot(
    timeLeft: int, isRunning: bool, sessionType: SessionType, startTime: Option<int>, endTime: Option<int>)

  datatype TimerState = TimerState(
    timeLeft: int, isRunning: bool, sessionType: SessionType,
    startTime: Option<int>, endTime: Option<int>, focusCount: nat,
    userId: Option<string>, tasks: seq<Task>, longBreakInterval: int, durations: Durations,
    stored: Option<Snapshot>, sessionLog: seq<SessionRow>, taskUpdates: seq<TaskUpdate>)

  function SnapshotOf(s: TimerState): Snapshot {
    Snapshot(s.timeLeft, s.isRunning, s.sessionType, s.startTime, s.endTime)
  }

  /** The snapshot in local storage is the one of the current state. */
  predicate Saved(s: TimerState) {
    s.stored == Some(SnapshotOf(s))
  }

  /** The effect that writes the snapshot after every change of its fields. */
  function Persist(s: TimerState): TimerState {
    s.(stored := Some(SnapshotOf(s)))
  }

  /** `long_break_interval || 4`: a missing or zero interval falls back to 4. */
  function IntervalOrDefault(stored: Option<int>): (k: int)
    ensures k != 0
    ensures stored.Some? && stored.value != 0 ==> k == stored.value
    ensures stored.None? || stored == Some(0) ==> k == LongBreakIntervalDefault
  {
    match stored
    case Some(k) => if k == 0 then LongBreakIntervalDefault else k
    case None => LongBreakIntervalDefault
  }

  /** The state at mount, once the save effect has written its snapshot. */
  function Initial(): (s: TimerState)
    ensures Saved(s) && !s.isRunning && s.sessionType == Focus && s.timeLeft == s.durations.Of(Focus)
    ensures s.focusCount == 0 && s.tasks == [] && s.sessionLog == [] && s.taskUpdates == []
    ensures s.durations == Durations(FocusDefault, ShortBreakDefault, LongBreakDefault) && s.timeLeft == FocusDefault
    ensures s.longBreakInterval == LongBreakIntervalDefault
    ensures s.startTime.None? && s.endTime.None? && s.userId.None?
  {
    Persist(TimerState(FocusDefault, false, Focus, None, None, 0, None, [], LongBreakIntervalDefault,
                       Durations(FocusDefault, ShortBreakDefault, LongBreakDefault), None, [], []))
  }

  /** Whether the next tick ends the phase (the callback's `prev <= 1` branch). */
  predicate Expires(s: TimerState) {
    s.isRunning && s.timeLeft <= 1
  }

  /** The long-break cadence rule.  JavaScript's `x % 0` is `NaN`, which is
      never `=== 0`, so an interval of 0 always gives a short break. */
  function NextSession(current: SessionType, focusCount: nat, interval: int): (next: SessionType)
    ensures current != Focus <==> next == Focus
  {
    if current != Focus then Focus
    else if interval != 0 && (focusCount + 1) % interval == 0 then LongBreak
    else ShortBreak
  }

  /** One call of the 1 Hz interval callback (which runs only while the timer runs). */
  function TickStep(s: TimerState, now: int): (r: TimerState)
    ensures !s.isRunning ==> r == s
    ensures s.isRunning ==> Saved(r) && r.timeLeft == Max(s.timeLeft - 1, 0)
    ensures s.isRunning ==> (r.isRunning <==> s.timeLeft > 1)
    ensures s.isRunning ==> r.endTime == if s.timeLeft > 1 then s.endTime else Some(now)
    ensures |r.tasks| == |s.tasks|
    ensures forall i :: 0 < i < |s.tasks| ==> r.tasks[i] == s.tasks[i]
    ensures |s.tasks| > 0 ==>
      r.tasks[0] == s.tasks[0].(completedPomodoros := s.tasks[0].completedPomodoros
                                  + if Expires(s) && s.sessionType == Focus then 1 else 0)
    ensures r.taskUpdates == s.taskUpdates +
      if Expires(s) && s.sessionType == Focus && |s.tasks| > 0 && Present(s.userId) && Present(s.tasks[0].id)
      then [TaskUpdate(s.tasks[0].id.value, s.tasks[0].completedPomodoros + 1)] else []
    ensures r.sessionType == s.sessionType && r.startTime == s.startTime && r.focusCount == s.focusCount
    ensures r.userId == s.userId && r.durations == s.durations && r.longBreakInterval == s.longBreakInterval
    ensures r.sessionLog == s.sessionLog
  {
    if !s.isRunning then s
    else if s.timeLeft <= 1 then
      var credit := s.sessionType == Focus && |s.tasks| > 0;
      var updated := if credit then s.tasks[0].completedPomodoros + 1 else 0;
      var tasks := if credit then s.tasks[0 := s.tasks[0].(completedPomodoros := updated)] else s.tasks;
      var writes := if credit && Present(s.userId) && Present(s.tasks[0].id)
                    then s.taskUpdates + [TaskUpdate(s.tasks[0].id.value, updated)] else s.taskUpdates;
      Persist(s.(timeLeft := 0, isRunning := false, endTime := Some(now), tasks := tasks, taskUpdates := writes))
    else
      Persist(s.(timeLeft := s.timeLeft - 1))
  }

  /** `startTimer`. */
  function StartStep(s: TimerState, now: int): (r: TimerState)
    ensures s.isRunning ==> r == s
    ensures !s.isRunning ==> r.isRunning && Saved(r)
    ensures !s.isRunning ==> r.startTime == if s.startTime.Some? then s.startTime else Some(now)
    ensures r.(isRunning := s.isRunning, startTime := s.startTime, stored := s.stored) == s
  {
    if s.isRunning then s
    else Persist(s.(isRunning := true, startTime := if s.startTime.Some? then s.startTime else Some(now)))
  }

  /** `pauseTimer`. */
  function PauseStep(s: TimerState): (r: TimerState)
    ensures !r.isRunning && Saved(r)
    ensures r.(isRunning := s.isRunning, stored := s.stored) == s
  {
    Persist(s.(isRunning := false))
  }

  /** `resetTimer`. */
  function ResetStep(s: TimerState): (r: TimerState)
    ensures !r.isRunning && r.timeLeft == s.durations.Of(s.sessionType)
    ensures r.startTime.None? && r.endTime.None? && Saved(r)
    ensures r.(isRunning := s.isRunning, timeLeft := s.timeLeft, startTime := s.startTime,
               endTime := s.endTime, stored := s.stored) == s
  {
    Persist(s.(isRunning := false, timeLeft := s.durations.Of(s.sessionType), startTime := None, endTime := None))
  }

  /** `skipSession`: stamp the end of the interval and stop, keeping `timeLeft`. */
  function SkipStep(s: TimerState, now: int): (r: TimerState)
    ensures r.endTime == Some(now) && !r.isRunning && Saved(r)
    ensures r.(endTime := s.endTime, isRunning := s.isRunning, stored := s.stored) == s
  {
    Persist(s.(endTime := Some(now), isRunning := false))
  }

  /** The completion commit can run: both stamps and a user are known. */
  predicate Committable(s: TimerState) {
    s.startTime.Some? && s.endTime.Some? && Present(s.userId)
  }

  /** The completion effect: log the interval, advance the phase and load its duration. */
  function CommitStep(s: TimerState): (r: TimerState)
    ensures !Committable(s) ==> r == s
    ensures Committable(s) ==>
      && r.sessionLog == s.sessionLog + [SessionRow(s.userId.value, s.startTime.value, s.endTime.value, s.sessionType)]
      && r.sessionType == NextSession(s.sessionType, s.focusCount, s.longBreakInterval)
      && r.focusCount == s.focusCount + (if s.sessionType == Focus then 1 else 0)
      && r.timeLeft == s.durations.Of(r.sessionType)
      && r.startTime.None? && r.endTime.None? && Saved(r)
      && r.isRunning == s.isRunning && r.tasks == s.tasks && r.durations == s.durations
      && r.longBreakInterval == s.longBreakInterval && r.userId == s.userId && r.taskUpdates == s.taskUpdates
  {
    if Committable(s) then
      var next := NextSession(s.sessionType, s.focusCount, s.longBreakInterval);
      Persist(s.(
        sessionLog := s.sessionLog + [SessionRow(s.userId.value, s.startTime.value, s.endTime.value, s.sessionType)],
        focusCount := if s.sessionType == Focus then s.focusCount + 1 else s.focusCount,
        sessionType := next,
        timeLeft := s.durations.Of(next),
        startTime := None,
        endTime := None))
    else s
  }

  /** `addTask`: the insert is sent only for a known user; the stored row, if
      the store returns one, is appended at the tail of the list. */
  function AddTaskStep(s: TimerState, returned: Option<seq<TaskRow>>): (r: TimerState)
    ensures r.(tasks := s.tasks) == s
    ensures |r.tasks| == |s.tasks| + (if Present(s.userId) && returned.Some? && |returned.value| > 0 then 1 else 0)
    ensures r.tasks[..|s.tasks|] == s.tasks
    ensures |r.tasks| > |s.tasks| ==>
      r.tasks[|s.tasks|] == Task(Some(returned.value[0].id), returned.value[0].name, returned.value[0].completedPomodoros)
  {
    if Present(s.userId) && returned.Some? && |returned.value| > 0 then
      var row := returned.value[0];
      s.(tasks := s.tasks + [Task(Some(row.id), row.name, row.completedPomodoros)])
    else s
  }

  /** The exposed `setSessionType`: only the phase changes, not `timeLeft`. */
  function SetSessionTypeStep(s: TimerState, t: SessionType): (r: TimerState)
    ensures r.sessionType == t && r.timeLeft == s.timeLeft && Saved(r)
    ensures r.(sessionType := s.sessionType, stored := s.stored) == s
  {
    Persist(s.(sessionType := t))
  }

  /** The start-up effect: user, settings row, the saved snapshot copied back
      as it is, and the task rows. */
  function RestoreStep(s: TimerState, user: Option<string>, settings: Option<SettingsRow>,
                       saved: Option<Snapshot>, taskRows: Option<seq<TaskRow>>): (r: TimerState)
    ensures Saved(r)
    ensures saved.Some? ==> SnapshotOf(r) == saved.value
    ensures saved.None? ==> SnapshotOf(r) == SnapshotOf(s).(timeLeft := if settings.Some? then settings.value.focusDuration else s.timeLeft)
    ensures r.userId == if user.Some? then user else s.userId
    ensures settings.Some? ==>
      && r.durations == Durations(settings.value.focusDuration, settings.value.shortBreakDuration, settings.value.longBreakDuration)
      && r.longBreakInterval == IntervalOrDefault(settings.value.longBreakInterval)
    ensures settings.None? ==> r.durations == s.durations && r.longBreakInterval == s.longBreakInterval
    ensures r.tasks == if user.Some? && taskRows.Some? then TasksOf(taskRows.value) else s.tasks
    ensures r.focusCount == s.focusCount && r.sessionLog == s.sessionLog && r.taskUpdates == s.taskUpdates
  {
    Persist(WithTasks(WithSaved(WithSettings(WithUser(s, user), settings), saved), user, taskRows))
  }

  /** Start-up as the code runs it: `restoreState` first waits for the user,
      and meanwhile the mount's save effect writes the snapshot of the current
      state, so the snapshot read back is always the one this mount has just
      written, never the previous page's. */
  function RestoreAsWritten(s: TimerState, user: Option<string>, settings: Option<SettingsRow>,
                            taskRows: Option<seq<TaskRow>>): (r: TimerState)
    ensures Saved(r)
    ensures s.stored.Some? ==> SnapshotOf(r) == s.stored.value
    ensures r.durations == RestoreStep(s, user, settings, None, taskRows).durations
  {
    RestoreStep(s, user, settings, s.stored, taskRows)
  }

  /** The discrepancy: on a fresh mount the settings row's focus duration is
      overwritten by the default 25 minutes of the snapshot just written, and
      the timer comes up stopped at focus with no stamps, whatever the
      previous page left. */
  lemma RestoreForgetsSettings(user: Option<string>, row: SettingsRow, taskRows: Option<seq<TaskRow>>)
    requires row.focusDuration != FocusDefault
    ensures var r := RestoreAsWritten(Initial(), user, Some(row), taskRows);
      && r.timeLeft == FocusDefault && r.durations.Of(Focus) == row.focusDuration
      && r.timeLeft != r.durations.Of(Focus)
      && r.sessionType == Focus && !r.isRunning && r.startTime.None? && r.endTime.None?
  {
    assert Initial().stored == Some(SnapshotOf(Initial()));
  }

  /** With the previous page's snapshot as `saved`, start-up resumes it; with
      none, the settings row's focus duration is the time left. */
  lemma RestoreResumesPreviousPage(user: Option<string>, row: SettingsRow, saved: Option<Snapshot>,
                                   taskRows: Option<seq<TaskRow>>)
    ensures var r := RestoreStep(Initial(), user, Some(row), saved, taskRows);
      && (saved.Some? ==> SnapshotOf(r) == saved.value)
      && (saved.None? ==> r.timeLeft == row.focusDuration && r.durations.Of(Focus) == row.focusDuration)
  {
  }

  /** `if (user) setUserId(user.id)`. */
  function WithUser(s: TimerState, user: Option<string>): TimerState {
    if user.Some? then s.(userId := user) else s
  }

  /** The settings row gives the durations, the focus duration as `timeLeft`, and the interval. */
  function WithSettings(s: TimerState, settings: Option<SettingsRow>): TimerState {
    match settings
    case Some(row) =>
      s.(durations := Durations(row.focusDuration, row.shortBreakDuration, row.longBreakDuration),
         timeLeft := row.focusDuration,
         longBreakInterval := IntervalOrDefault(row.longBreakInterval))
    case None => s
  }

  /** The saved snapshot is copied back field by field, with no correction for elapsed time. */
  function WithSaved(s: TimerState, saved: Option<Snapshot>): (r: TimerState)
    ensures saved.None? ==> r == s
    ensures saved.Some? ==> SnapshotOf(r) == saved.value
    ensures r.(timeLeft := s.timeLeft, isRunning := s.isRunning, sessionType := s.sessionType,
               startTime := s.startTime, endTime := s.endTime) == s
  {
    match saved
    case Some(p) =>
      s.(timeLeft := p.timeLeft, isRunning := p.isRunning, sessionType := p.sessionType,
         startTime := p.startTime, endTime := p.endTime)
    case None => s
  }

  /** The task rows are fetched only for a known user. */
  function WithTasks(s: TimerState, user: Option<string>, taskRows: Option<seq<TaskRow>>): TimerState {
    if user.Some? && taskRows.Some? then s.(tasks := TasksOf(taskRows.value)) else s
  }

  /** The task rows mapped to tasks, in the order fetched. */
  function TasksOf(rows: seq<TaskRow>): (ts: seq<Task>)
    ensures |ts| == |rows|
    ensures forall i :: 0 <= i < |rows| ==>
      ts[i] == Task(Some(rows[i].id), rows[i].name, rows[i].completedPomodoros)
  {
    seq(|rows|, i requires 0 <= i < |rows| => Task(Some(rows[i].id), rows[i].name, rows[i].completedPomodoros))
  }

  // ---------------------------------------------------------------------
  // Properties of the timer

  /** `n` calls of the interval callback, one second apart. */
  function Ticks(s: TimerState, n: nat, now: int): TimerState
    decreases n
  {
    if n == 0 then s else Ticks(TickStep(s, now), n - 1, now + 1000)
  }

  lemma {:induction false} TicksAdd(s: TimerState, m: nat, n: nat, now: int)
    ensures Ticks(s, m + n, now) == Ticks(Ticks(s, m, now), n, now + 1000 * m)
    decreases m
  {
    if m > 0 {
      TicksAdd(TickStep(s, now), m - 1, n, now + 1000);
    }
  }

  /** While more than `n` seconds are left, `n` ticks take exactly `n` seconds
      off and touch nothing else that the commit reads. */
  lemma {:induction false} CountsDown(s: TimerState, n: nat, now: int)
    requires s.isRunning && n < s.timeLeft
    ensures var r := Ticks(s, n, now);
      && r.isRunning && r.timeLeft == s.timeLeft - n && r.endTime == s.endTime
      && r.tasks == s.tasks && r.sessionType == s.sessionType && r.startTime == s.startTime
      && r.sessionLog == s.sessionLog && r.taskUpdates == s.taskUpdates
    decreases n
  {
    if n > 0 {
      var s' := TickStep(s, now);
      assert s'.tasks == s.tasks;
      CountsDown(s', n - 1, now + 1000);
    }
  }

  /** A stopped timer ignores ticks: once a phase has expired nothing expires again. */
  lemma {:induction false} StoppedIgnoresTicks(s: TimerState, n: nat, now: int)
    requires !s.isRunning
    ensures Ticks(s, n, now) == s
    decreases n
  {
    if n > 0 {
      StoppedIgnoresTicks(s, n - 1, now + 1000);
    }
  }

  /** A phase started with `L >= 1` seconds left expires on tick `L`: the
      timer stops at 0 and the end of the interval is that tick's time. */
  lemma ExpiresOnSchedule(s: TimerState, now: int)
    requires s.isRunning && s.timeLeft >= 1
    ensures var r := Ticks(s, s.timeLeft as nat, now);
      && !r.isRunning && r.timeLeft == 0 && r.endTime == Some(now + 1000 * (s.timeLeft - 1))
      && r.sessionType == s.sessionType && r.startTime == s.startTime
  {
    var m := (s.timeLeft - 1) as nat;
    CountsDown(s, m, now);
    TicksAdd(s, m, 1, now);
  }

  /** The tick exactly as written: the `tasks` update query is built but never
      awaited, and a Supabase query builder sends nothing until it is, so no
      update leaves the client.  `TickStep` is the tick with the update sent,
      and is the one the provider uses. */
  function TickAsWritten(s: TimerState, now: int): (r: TimerState)
    ensures r.taskUpdates == s.taskUpdates
    ensures r.tasks == TickStep(s, now).tasks && r.timeLeft == TickStep(s, now).timeLeft
  {
    TickStep(s, now).(taskUpdates := s.taskUpdates)
  }

  /** The discrepancy: a focus expiry for a signed-in user credits the active
      task locally, yet as written no request carries the new count. */
  lemma UnsentCredit(s: TimerState, now: int)
    requires Expires(s) && s.sessionType == Focus && |s.tasks| > 0 && Present(s.userId) && Present(s.tasks[0].id)
    ensures var r := TickAsWritten(s, now);
      && r.tasks[0].completedPomodoros == s.tasks[0].completedPomodoros + 1
      && r.taskUpdates == s.taskUpdates
      && r != TickStep(s, now)
  {
    assert |TickStep(s, now).taskUpdates| == |s.taskUpdates| + 1;
  }

  /** With the update sent, the last request carries the active task's id
      and exactly the count it now shows. */
  lemma CreditSent(s: TimerState, now: int)
    requires Expires(s) && s.sessionType == Focus && |s.tasks| > 0 && Present(s.userId) && Present(s.tasks[0].id)
    ensures var r := TickStep(s, now);
      && |r.taskUpdates| == |s.taskUpdates| + 1
      && r.taskUpdates[|s.taskUpdates|] == TaskUpdate(s.tasks[0].id.value, r.tasks[0].completedPomodoros)
      && r.taskUpdates[..|s.taskUpdates|] == s.taskUpdates
  {
  }

  /** One interval cannot be committed twice: the commit clears both stamps. */
  lemma CommitOnce(s: TimerState)
    ensures CommitStep(CommitStep(s)) == CommitStep(s)
  {
  }

  /** Skipping a phase that was never started logs nothing and keeps the
      phase, `timeLeft` and `focusCount`; the end stamp stays set. */
  lemma SkipUnstartedKeepsPhase(s: TimerState, now: int)
    requires s.startTime.None?
    ensures var r := CommitStep(SkipStep(s, now));
      && r.sessionType == s.sessionType && r.timeLeft == s.timeLeft && r.focusCount == s.focusCount
      && r.sessionLog == s.sessionLog && r.endTime == Some(now)
  {
  }

  /** The completion effect re-runs when `startTime` changes, so starting
      after an unstarted skip commits at once: the logged interval starts after
      it ended, and the next phase runs without a start stamp. */
  lemma StartAfterUnstartedSkipCommits(s: TimerState, skipped: int, started: int)
    requires s.startTime.None? && Present(s.userId)
    ensures var r := CommitStep(StartStep(SkipStep(s, skipped), started));
      && r.sessionLog == s.sessionLog + [SessionRow(s.userId.value, started, skipped, s.sessionType)]
      && r.sessionType == NextSession(s.sessionType, s.focusCount, s.longBreakInterval)
      && r.isRunning && r.startTime.None? && r.endTime.None?
  {
  }

  /** Nothing is pending: stopped, no stamps, and a user to log for. */
  predicate Fresh(s: TimerState) {
    !s.isRunning && s.startTime.None? && s.endTime.None? && Present(s.userId)
  }

  /** One interval started at `begin`, skipped at `end`, then committed. */
  function Complete(s: TimerState, begin: int, end: int): TimerState {
    CommitStep(SkipStep(StartStep(s, begin), end))
  }

  lemma CompleteAdvances(s: TimerState, begin: int, end: int)
    requires Fresh(s)
    ensures var r := Complete(s, begin, end);
      && Fresh(r)
      && r.sessionType == NextSession(s.sessionType, s.focusCount, s.longBreakInterval)
      && r.focusCount == s.focusCount + (if s.sessionType == Focus then 1 else 0)
      && r.sessionLog == s.sessionLog + [SessionRow(s.userId.value, begin, end, s.sessionType)]
      && r.timeLeft == s.durations.Of(r.sessionType)
      && r.userId == s.userId && r.durations == s.durations && r.longBreakInterval == s.longBreakInterval
  {
  }

  /** The state after one pomodoro from a fresh focus phase: one more focus
      interval counted, a focus row and a break row logged, and the focus
      duration loaded again. */
  function Pomodoro(s: TimerState, t: int): TimerState
    requires Present(s.userId)
  {
    Persist(s.(focusCount := s.focusCount + 1, timeLeft := s.durations.focus,
               sessionLog := s.sessionLog + [SessionRow(s.userId.value, t, t, Focus),
                                             SessionRow(s.userId.value, t, t, BreakAfter(s.focusCount, s.longBreakInterval))]))
  }

  /** A pomodoro is a focus interval and then a break interval, each started,
      skipped and committed at time `t`. */
  lemma PomodoroIsTwoIntervals(s: TimerState, t: int)
    requires Fresh(s) && s.sessionType == Focus
    ensures Complete(Complete(s, t, t), t, t) == Pomodoro(s, t)
  {
    CompleteAdvances(s, t, t);
    CompleteAdvances(Complete(s, t, t), t, t);
  }

  /** `n` pomodoros in a row from a fresh focus phase. */
  function Cycles(s: TimerState, n: nat, t: int): TimerState
    requires Present(s.userId)
    decreases n
  {
    if n == 0 then s else Cycles(Pomodoro(s, t), n - 1, t)
  }

  /** `n` rounds of two intervals, each started, skipped and committed at `t`. */
  function Rounds(s: TimerState, n: nat, t: int): TimerState
    decreases n
  {
    if n == 0 then s else Rounds(Complete(Complete(s, t, t), t, t), n - 1, t)
  }

  /** The closed form `Cycles` is exactly `n` rounds of the timer's own
      start, skip and commit steps. */
  lemma {:induction false} CyclesAreRounds(s: TimerState, n: nat, t: int)
    requires Fresh(s) && s.sessionType == Focus
    ensures Cycles(s, n, t) == Rounds(s, n, t)
    decreases n
  {
    if n > 0 {
      PomodoroIsTwoIntervals(s, t);
      CyclesLog(s, 1, t);
      assert Cycles(s, 1, t) == Pomodoro(s, t);
      CyclesAreRounds(Pomodoro(s, t), n - 1, t);
    }
  }

  /** The phase that follows the `focusCount + 1`-th focus interval. */
  function BreakAfter(focusCount: nat, interval: int): SessionType {
    NextSession(Focus, focusCount, interval)
  }

  /** The rows that `n` pomodoros at time `t` append to the session log. */
  function CycleRows(user: string, t: int, focusCount: nat, interval: int, n: nat): seq<SessionRow>
    decreases n
  {
    if n == 0 then []
    else [SessionRow(user, t, t, Focus), SessionRow(user, t, t, BreakAfter(focusCount, interval))]
         + CycleRows(user, t, focusCount + 1, interval, n - 1)
  }

  /** `n` pomodoros from a fresh focus phase add `n` to the focus count, end
      in a fresh focus phase at the focus duration, and log the rows of
      `CycleRows`. */
  lemma {:induction false} CyclesLog(s: TimerState, n: nat, t: int)
    requires Fresh(s) && s.sessionType == Focus
    ensures var r := Cycles(s, n, t);
      && Fresh(r) && r.sessionType == Focus && r.focusCount == s.focusCount + n
      && r.timeLeft == (if n == 0 then s.timeLeft else s.durations.focus)
      && r.userId == s.userId && r.durations == s.durations && r.longBreakInterval == s.longBreakInterval
      && r.sessionLog == s.sessionLog + CycleRows(s.userId.value, t, s.focusCount, s.longBreakInterval, n)
    decreases n
  {
    if n > 0 {
      var b := Pomodoro(s, t);
      CyclesLog(b, n - 1, t);
      CycleRowsStep(s.sessionLog, b.sessionLog, Cycles(b, n - 1, t).sessionLog,
                    s.userId.value, t, s.focusCount, s.longBreakInterval, n);
    }
  }

  lemma CycleRowsStep(before: seq<SessionRow>, middle: seq<SessionRow>, after: seq<SessionRow>,
                      user: string, t: int, focusCount: nat, interval: int, n: nat)
    requires n > 0
    requires middle == before + [SessionRow(user, t, t, Focus), SessionRow(user, t, t, BreakAfter(focusCount, interval))]
    requires after == middle + CycleRows(user, t, focusCount + 1, interval, n - 1)
    ensures after == before + CycleRows(user, t, focusCount, interval, n)
  {
  }

  /** The kinds in `CycleRows` alternate focus and break, the `j`-th break
      being the one that follows focus interval number `focusCount + j + 1`. */
  lemma {:induction false} CycleRowsKinds(user: string, t: int, focusCount: nat, interval: int, n: nat)
    ensures var rows := CycleRows(user, t, focusCount, interval, n);
      && |rows| == 2 * n
      && forall j :: 0 <= j < n ==>
           rows[2 * j].kind == Focus && rows[2 * j + 1].kind == BreakAfter(focusCount + j, interval)
    decreases n
  {
    if n > 0 {
      CycleRowsKinds(user, t, focusCount + 1, interval, n - 1);
      var rows := CycleRows(user, t, focusCount, interval, n);
      var rest := CycleRows(user, t, focusCount + 1, interval, n - 1);
      assert rows == rows[..2] + rest;
      forall j | 0 <= j < n
        ensures rows[2 * j].kind == Focus && rows[2 * j + 1].kind == BreakAfter(focusCount + j, interval)
      {
        if j > 0 {
          assert rows[2 * j] == rest[2 * (j - 1)];
          assert rows[2 * j + 1] == rest[2 * (j - 1) + 1];
          assert (focusCount + 1) + (j - 1) == focusCount + j;
        }
      }
    }
  }

  /** The long-break cadence over `n` pomodoros from a fresh focus phase: the
      log alternates focus and break rows, and the break after the `j`-th focus
      interval (from 0) is long exactly when `focusCount + j + 1` is a multiple
      of the interval. */
  lemma Cadence(s: TimerState, n: nat, t: int, j: nat)
    requires Fresh(s) && s.sessionType == Focus && j < n
    ensures var log := Rounds(s, n, t).sessionLog; var L := |s.sessionLog|;
      && |log| == L + 2 * n && log[..L] == s.sessionLog
      && log[L + 2 * j].kind == Focus
      && log[L + 2 * j + 1].kind ==
           (if s.longBreakInterval != 0 && (s.focusCount + j + 1) % s.longBreakInterval == 0
            then LongBreak else ShortBreak)
  {
    CyclesAreRounds(s, n, t);
    CycleCadence(s, n, t, j);
  }

  /** `Cadence` for the closed form. */
  lemma CycleCadence(s: TimerState, n: nat, t: int, j: nat)
    requires Fresh(s) && s.sessionType == Focus && j < n
    ensures var log := Cycles(s, n, t).sessionLog; var L := |s.sessionLog|;
      && |log| == L + 2 * n && log[..L] == s.sessionLog
      && log[L + 2 * j].kind == Focus
      && log[L + 2 * j + 1].kind ==
           (if s.longBreakInterval != 0 && (s.focusCount + j + 1) % s.longBreakInterval == 0
            then LongBreak else ShortBreak)
  {
    CyclesLog(s, n, t);
    CycleRowsKinds(s.userId.value, t, s.focusCount, s.longBreakInterval, n);
    var rows := CycleRows(s.userId.value, t, s.focusCount, s.longBreakInterval, n);
    var log := Cycles(s, n, t).sessionLog;
    var L := |s.sessionLog|;
    assert log[L + 2 * j] == rows[2 * j];
    assert log[L + 2 * j + 1] == rows[2 * j + 1];
  }

  /** With the default interval of 4 and a zero focus count, the first three
      breaks are short and the fourth is long. */
  lemma FourthFocusEarnsLongBreak(s: TimerState, t: int)
    requires Fresh(s) && s.sessionType == Focus && s.focusCount == 0 && s.longBreakInterval == 4
    ensures var log := Cycles(s, 4, t).sessionLog; var L := |s.sessionLog|;
      && |log| == L + 8
      && log[L + 1].kind == ShortBreak && log[L + 3].kind == ShortBreak && log[L + 5].kind == ShortBreak
      && log[L + 7].kind == LongBreak
  {
    CycleCadence(s, 4, t, 0);
    CycleCadence(s, 4, t, 1);
    CycleCadence(s, 4, t, 2);
    CycleCadence(s, 4, t, 3);
  }

  /** Natural expiry of a started phase, then the commit: one row for the
      phase that ended, the next phase loaded at its duration, stopped. */
  lemma ExpiryThenCommit(s: TimerState, now: int)
    requires Expires(s) && s.startTime.Some? && Present(s.userId)
    ensures var r := CommitStep(TickStep(s, now));
      && r.sessionLog == s.sessionLog + [SessionRow(s.userId.value, s.startTime.value, now, s.sessionType)]
      && r.sessionType == NextSession(s.sessionType, s.focusCount, s.longBreakInterval)
      && r.timeLeft == s.durations.Of(r.sessionType) && !r.isRunning
  {
  }

  class TimerProvider {
    var timeLeft: int
    var isRunning: bool
    var sessionType: SessionType
    var startTime: Option<int>
    var endTime: Option<int>
    var focusCount: nat
    var userId: Option<string>
    var tasks: seq<Task>
    var longBreakInterval: int
    var durations: Durations
    var stored: Option<Snapshot>
    var sessionLog: seq<SessionRow>
    var taskUpdates: seq<TaskUpdate>

    function State(): TimerState
      reads this
    {
      TimerState(timeLeft, isRunning, sessionType, startTime, endTime, focusCount, userId, tasks,
                 longBreakInterval, durations, stored, sessionLog, taskUpdates)
    }

    constructor ()
      ensures State() == Initial()
    {
      timeLeft, isRunning, sessionType := FocusDefault, false, Focus;
      startTime, endTime, focusCount := None, None, 0;
      userId, tasks, longBreakInterval := None, [], LongBreakIntervalDefault;
      durations := Durations(FocusDefault, ShortBreakDefault, LongBreakDefault);
      sessionLog, taskUpdates := [], [];
      stored := Some(Snapshot(FocusDefault, false, Focus, None, None));
    }

    /** The effect that writes `{ timeLeft, isRunning, sessionType, startTime, endTime }`. */
    method SaveSnapshot()
      modifies this
      ensures State() == Persist(old(State()))
    {
      stored := Some(Snapshot(timeLeft, isRunning, sessionType, startTime, endTime));
    }

    method Restore(user: Option<string>, settings: Option<SettingsRow>, saved: Option<Snapshot>,
                   taskRows: Option<seq<TaskRow>>)
      modifies this
      ensures State() == RestoreStep(old(State()), user, settings, saved, taskRows)
    {
      ghost var s0 := old(State());
      if user.Some? {
        userId := user;
      }
      assert State() == WithUser(s0, user);
      ghost var s1 := State();
      if settings.Some? {
        var row := settings.value;
        durations := Durations(row.focusDuration, row.shortBreakDuration, row.longBreakDuration);
        timeLeft := row.focusDuration;
        longBreakInterval := IntervalOrDefault(row.longBreakInterval);
      }
      assert State() == WithSettings(s1, settings);
      ghost var s2 := State();
      if saved.Some? {
        var p := saved.value;
        timeLeft, isRunning, sessionType := p.timeLeft, p.isRunning, p.sessionType;
        startTime, endTime := p.startTime, p.endTime;
      }
      assert State() == WithSaved(s2, saved);
      ghost var s3 := State();
      if user.Some? && taskRows.Some? {
        tasks := TasksOf(taskRows.value);
      }
      assert State() == WithTasks(s3, user, taskRows);
      SaveSnapshot();
    }

    method Tick(now: int)
      modifies this
      ensures State() == TickStep(old(State()), now)
    {
      if isRunning {
        if timeLeft <= 1 {
          isRunning := false;
          endTime := Some(now);
          if sessionType == Focus && |tasks| > 0 {
            var updated := tasks[0].completedPomodoros + 1;
            if Present(userId) && Present(tasks[0].id) {
              taskUpdates := taskUpdates + [TaskUpdate(tasks[0].id.value, updated)];
            }
            tasks := tasks[0 := tasks[0].(completedPomodoros := updated)];
          }
          timeLeft := 0;
        } else {
          timeLeft := timeLeft - 1;
        }
        SaveSnapshot();
      }
    }

    method Commit()
      modifies this
      ensures State() == CommitStep(old(State()))
    {
      if startTime.Some? && endTime.Some? && Present(userId) {
        sessionLog := sessionLog + [SessionRow(userId.value, startTime.value, endTime.value, sessionType)];
        var next := NextSession(sessionType, focusCount, longBreakInterval);
        if sessionType == Focus {
          focusCount := focusCount + 1;
        }
        sessionType := next;
        timeLeft := durations.Of(next);
        startTime := None;
        endTime := None;
        SaveSnapshot();
      }
    }

    method StartTimer(now: int)
      modifies this
      ensures State() == StartStep(old(State()), now)
    {
      if !isRunning {
        isRunning := true;
        if startTime.None? {
          startTime := Some(now);
        }
        SaveSnapshot();
      }
    }

    method PauseTimer()
      modifies this
      ensures State() == PauseStep(old(State()))
    {
      isRunning := false;
      SaveSnapshot();
    }

    method ResetTimer()
      modifies this
      ensures State() == ResetStep(old(State()))
    {
      isRunning := false;
      timeLeft := durations.Of(sessionType);
      startTime := None;
      endTime := None;
      SaveSnapshot();
    }

    method SkipSession(now: int)
      modifies this
      ensures State() == SkipStep(old(State()), now)
    {
      endTime := Some(now);
      isRunning := false;
      SaveSnapshot();
    }

    /** `addTask`; `returned` is what the insert gives back (`None` on an error). */
    method AddTask(task: Task, returned: Option<seq<TaskRow>>) returns (request: Option<TaskInsert>)
      modifies this
      ensures request == if Present(old(userId)) then Some(TaskInsert(old(userId).value, task.name, task.completedPomodoros)) else None
      ensures State() == AddTaskStep(old(State()), returned)
    {
      if !Present(userId) {
        return None;
      }
      request := Some(TaskInsert(userId.value, task.name, task.completedPomodoros));
      if returned.Some? && |returned.value| > 0 {
        var row := returned.value[0];
        tasks := tasks + [Task(Some(row.id), row.name, row.completedPomodoros)];
      }
    }

    method SetSessionType(t: SessionType)
      modifies this
      ensures State() == SetSessionTypeStep(old(State()), t)
    {
      sessionType := t;
      SaveSnapshot();
    }

    /** The exposed `setTimeLeft` (the snapshot follows it). */
    method SetTimeLeft(t: int)
      modifies this
      ensures State() == Persist(old(State()).(timeLeft := t))
    {
      timeLeft := t;
      SaveSnapshot();
    }

    /** The exposed `setDurations` (not part of the snapshot). */
    method SetDurations(d: Durations)
      modifies this
      ensures State() == old(State()).(durations := d)
    {
      durations := d;
    }

    /** The exposed `setLongBreakInterval` (not part of the snapshot). */
    method SetLongBreakInterval(k: int)
      modifies this
      ensures State() == old(State()).(longBreakInterval := k)
    {
      longBreakInterval := k;
    }
  }
}
