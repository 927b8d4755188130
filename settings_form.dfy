/** The settings form (`SettingsForm`): durations entered in whole minutes,
    stored remotely in seconds, and pushed into the timer on save, where the
    remaining time of the current phase is reset to its new duration. */
module Settings {
  import opened Base
  import T = TimerContext

  /** The form's fields; durations are whole minutes. */
  datatype FormValues = FormValues(
    focusMinutes: int, shortBreakMinutes: int, longBreakMinutes: int,
    longBreakInterval: int, autoStartPomodoro: bool, autoStartBreak: bool)

  /** The form before any settings are loaded. */
  const Defaults := FormValues(25, 5, 15, 4, false, false)

  /** The remote upsert: the user's id and the row written for it. */
  datatype Upsert = Upsert(id: string, row: T.SettingsRow)

  /** The `updates` record: minutes become seconds, the rest is copied. */
  function ToRow(v: FormValues): (r: T.SettingsRow)
    ensures r.focusDuration == v.focusMinutes * 60
    ensures r.shortBreakDuration == v.shortBreakMinutes * 60
    ensures r.longBreakDuration == v.longBreakMinutes * 60
    ensures r.longBreakInterval == Some(v.longBreakInterval)
    ensures r.autoStartBreak == Some(v.autoStartBreak) && r.autoStartPomodoro == Some(v.autoStartPomodoro)
  {
    T.SettingsRow(v.focusMinutes * 60, v.shortBreakMinutes * 60, v.longBreakMinutes * 60,
                  Some(v.longBreakInterval), Some(v.autoStartBreak), Some(v.autoStartPomodoro))
  }

  /** The durations passed to the timer's `setDurations`, in seconds. */
  function AppliedDurations(v: FormValues): (d: T.Durations)
    ensures d.Of(T.Focus) == v.focusMinutes * 60
    ensures d.Of(T.ShortBreak) == v.shortBreakMinutes * 60
    ensures d.Of(T.LongBreak) == v.longBreakMinutes * 60
  {
    T.Durations(v.focusMinutes * 60, v.shortBreakMinutes * 60, v.longBreakMinutes * 60)
  }

  /** The form filled from a loaded row: seconds become minutes, a missing or
      zero interval becomes 4, missing flags become false. */
  function FromRow(row: T.SettingsRow): (v: FormValues)
    ensures v.focusMinutes * 60 <= row.focusDuration < v.focusMinutes * 60 + 60
    ensures v.shortBreakMinutes * 60 <= row.shortBreakDuration < v.shortBreakMinutes * 60 + 60
    ensures v.longBreakMinutes * 60 <= row.longBreakDuration < v.longBreakMinutes * 60 + 60
    ensures v.longBreakInterval == T.IntervalOrDefault(row.longBreakInterval)
    ensures v.autoStartBreak <==> row.autoStartBreak == Some(true)
    ensures v.autoStartPomodoro <==> row.autoStartPomodoro == Some(true)
  {
    FormValues(row.focusDuration / 60, row.shortBreakDuration / 60, row.longBreakDuration / 60,
               T.IntervalOrDefault(row.longBreakInterval),
               row.autoStartPomodoro.GetOr(false), row.autoStartBreak.GetOr(false))
  }

  /** What a save does to the timer: the new durations, the remaining time of
      the current phase reset to its new duration (running or not), and the
      form's interval. */
  function ApplySaved(s: T.TimerState, v: FormValues): (r: T.TimerState)
    ensures r.durations == AppliedDurations(v)
    ensures r.timeLeft == AppliedDurations(v).Of(s.sessionType)
    ensures r.longBreakInterval == v.longBreakInterval
    ensures T.Saved(r)
    ensures r.(durations := s.durations, timeLeft := s.timeLeft, longBreakInterval := s.longBreakInterval,
               stored := s.stored) == s
  {
    T.Persist(s.(durations := AppliedDurations(v), timeLeft := AppliedDurations(v).Of(s.sessionType)))
      .(longBreakInterval := v.longBreakInterval)
  }

  // ---------------------------------------------------------------------
  // Properties of the settings round trip

  /** Saving then loading gives the form back, except that an interval of 0
      comes back as 4. */
  lemma SaveThenLoad(v: FormValues)
    ensures FromRow(ToRow(v)) == v.(longBreakInterval := T.IntervalOrDefault(Some(v.longBreakInterval)))
    ensures v.longBreakInterval != 0 ==> FromRow(ToRow(v)) == v
  {
    var r := FromRow(ToRow(v));
    assert r.focusMinutes == v.focusMinutes;
    assert r.shortBreakMinutes == v.shortBreakMinutes;
    assert r.longBreakMinutes == v.longBreakMinutes;
  }

  /** Loading then saving gives the row back when its durations are whole
      minutes, its interval is non-zero and its flags are set. */
  lemma LoadThenSave(row: T.SettingsRow)
    requires row.focusDuration % 60 == 0 && row.shortBreakDuration % 60 == 0 && row.longBreakDuration % 60 == 0
    requires row.longBreakInterval.Some? && row.longBreakInterval.value != 0
    requires row.autoStartBreak.Some? && row.autoStartPomodoro.Some?
    ensures ToRow(FromRow(row)) == row
  {
  }

  /** The saved durations are what the timer starts the next phase with: a
      commit after a save sets the remaining time to the new duration of the
      phase it moves to. */
  lemma SavedDurationsDriveCommit(s: T.TimerState, v: FormValues)
    requires T.Committable(s)
    ensures var r := T.CommitStep(ApplySaved(s, v));
      r.timeLeft == AppliedDurations(v).Of(r.sessionType)
  {
  }

  /** An interval of 0 saved from the form reaches the timer unchanged, where
      it never yields a long break. */
  lemma ZeroIntervalNeverLongBreak(s: T.TimerState, v: FormValues, n: nat)
    requires v.longBreakInterval == 0
    ensures T.NextSession(T.Focus, n, ApplySaved(s, v).longBreakInterval) == T.ShortBreak
  {
  }

  class SettingsForm {
    var focusDuration: int
    var shortBreak: int
    var longBreak: int
    var longBreakInterval: int
    var autoStartPomodoro: bool
    var autoStartBreak: bool
    var userId: Option<string>

    function Values(): FormValues
      reads this
    {
      FormValues(focusDuration, shortBreak, longBreak, longBreakInterval, autoStartPomodoro, autoStartBreak)
    }

    constructor ()
      ensures Values() == Defaults && userId.None?
    {
      focusDuration, shortBreak, longBreak, longBreakInterval := 25, 5, 15, 4;
      autoStartPomodoro, autoStartBreak, userId := false, false, None;
    }

    /** `loadSettings`: `user` is the signed-in user's id, `data` the settings
        row, if the query returned one. */
    method LoadSettings(user: Option<string>, data: Option<T.SettingsRow>)
      modifies this
      ensures user.None? ==> Values() == old(Values()) && userId == old(userId)
      ensures user.Some? ==> userId == user
      ensures user.Some? ==> Values() == if data.Some? then FromRow(data.value) else old(Values())
    {
      if user.None? {
        return;
      }
      userId := user;
      if data.Some? {
        var row := data.value;
        focusDuration := row.focusDuration / 60;
        shortBreak := row.shortBreakDuration / 60;
        longBreak := row.longBreakDuration / 60;
        longBreakInterval := T.IntervalOrDefault(row.longBreakInterval);
        autoStartBreak := row.autoStartBreak.GetOr(false);
        autoStartPomodoro := row.autoStartPomodoro.GetOr(false);
      }
    }

    /** `handleSave`: returns the upsert it sends; without a user it does nothing. */
    method HandleSave(timer: T.TimerProvider) returns (upsert: Option<Upsert>)
      modifies timer
      ensures !Present(userId) ==> upsert.None? && timer.State() == old(timer.State())
      ensures Present(userId) ==> upsert == Some(Upsert(userId.value, ToRow(Values())))
      ensures Present(userId) ==> timer.State() == ApplySaved(old(timer.State()), Values())
    {
      if !Present(userId) {
        return None;
      }
      var v := Values();
      upsert := Some(Upsert(userId.value, ToRow(v)));
      var d := AppliedDurations(v);
      timer.SetDurations(d);
      if timer.sessionType == T.Focus {
        timer.SetTimeLeft(v.focusMinutes * 60);
      } else if timer.sessionType == T.ShortBreak {
        timer.SetTimeLeft(v.shortBreakMinutes * 60);
      } else {
        timer.SetTimeLeft(v.longBreakMinutes * 60);
      }
      timer.SetLongBreakInterval(v.longBreakInterval);
    }
  }
}
