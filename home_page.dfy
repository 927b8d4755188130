/** The older two-phase timer of the home page (`HomePage`).

    Phases strictly alternate between focus and break, `startTimer` always
    restarts the full duration, and the reload snapshot stores the absolute
    end time of the running phase, from which the remaining time is
    recomputed.  As for the context provider, the React state is the class
    `HomePage`, specified by step functions on `HomeState`; clock readings are
    integer milliseconds. */
module Home {
  import opened Base

  datatype SessionType = Focus | Break

  function Other(t: SessionType): SessionType {
    if t == Focus then Break else Focus
  }

  datatype Durations = Durations(focus: int, brk: int) {
    /** `durations[type]`, in seconds. */
    function Of(t: SessionType): int {
      if t == Focus then focus else brk
    }
  }

  /** The JSON blob `{ type, end, running }` kept under `pomodoro_state`. */
  datatype Snapshot = Snapshot(sessionType: SessionType, end: int, running: bool)

  /** A row appended to the remote `pomodoro_sessions` log. */
  datatype SessionRow = SessionRow(userId: string, startTime: int, endTime: int, kind: SessionType)

  datatype HomeState = HomeState(
    isRunning: bool, timeLeft: int, startTime: Option<int>, endTime: Option<int>,
    sessionType: SessionType, userId: Option<string>, durations: Durations, focusCount: int,
    stored: Option<Snapshot>, sessionLog: seq<SessionRow>)

  /** The state on mount; `stored` is whatever the previous page left in local storage. */
  function Initial(stored: Option<Snapshot>): (s: HomeState)
    ensures !s.isRunning && s.sessionType == Focus && s.timeLeft == 1500 && s.durations == Durations(1500, 300)
    ensures s.startTime.None? && s.endTime.None? && s.userId.None? && s.focusCount == 0
    ensures s.stored == stored && s.sessionLog == []
  {
    HomeState(false, 1500, None, None, Focus, None, Durations(1500, 300), 0, stored, [])
  }

  /** The snapshot saved at time `now`: the phase ends `timeLeft` seconds later. */
  function SnapshotAt(s: HomeState, now: int): Snapshot {
    Snapshot(s.sessionType, now + s.timeLeft * 1000, s.isRunning)
  }

  /** The save effect: a snapshot is written only while the timer runs. */
  function Persisted(s: HomeState, now: int): (r: HomeState)
    ensures r.(stored := s.stored) == s
    ensures s.isRunning ==> r.stored == Some(Snapshot(s.sessionType, now + s.timeLeft * 1000, true))
    ensures !s.isRunning ==> r.stored == s.stored
  {
    if s.isRunning then s.(stored := Some(SnapshotAt(s, now))) else s
  }

  /** The countdown effect's second branch: a running timer at 0 or below
      stops and stamps the end of the interval. */
  function Settle(s: HomeState, now: int): (r: HomeState)
    ensures r.isRunning ==> r.timeLeft > 0
    ensures s.isRunning && s.timeLeft <= 0 ==> !r.isRunning && r.endTime == Some(now)
    ensures !(s.isRunning && s.timeLeft <= 0) ==> r == s
    ensures r.(isRunning := s.isRunning, endTime := s.endTime) == s
  {
    if s.isRunning && s.timeLeft <= 0 then s.(isRunning := false, endTime := Some(now)) else s
  }

  /** Every state the page's effects leave behind runs only with time left. */
  predicate Valid(s: HomeState) {
    s.isRunning ==> s.timeLeft > 0
  }

  /** `Math.floor((end - now) / 1000)`: Dafny's division by a positive
      divisor rounds toward negative infinity, as `Math.floor` does. */
  function Remaining(end: int, now: int): (r: int)
    ensures r * 1000 <= end - now < r * 1000 + 1000
  {
    (end - now) / 1000
  }

  /** Reload recovery from a snapshot, once the durations are known. */
  function Recover(s: HomeState, p: Snapshot, d: Durations, now: int): (r: HomeState)
    ensures Remaining(p.end, now) > 0 ==>
      && r.sessionType == p.sessionType && r.timeLeft == Remaining(p.end, now) && r.isRunning == p.running
      && r.startTime == Some(now - (d.Of(p.sessionType) - Remaining(p.end, now)) * 1000)
    ensures Remaining(p.end, now) <= 0 ==>
      r.sessionType == Focus && r.timeLeft == d.focus && r.isRunning == s.isRunning && r.startTime == s.startTime
    ensures r.(sessionType := s.sessionType, timeLeft := s.timeLeft, isRunning := s.isRunning,
               startTime := s.startTime) == s
  {
    var remaining := Remaining(p.end, now);
    if remaining > 0 then
      s.(sessionType := p.sessionType, timeLeft := remaining, isRunning := p.running,
         startTime := Some(now - (d.Of(p.sessionType) - remaining) * 1000))
    else
      s.(sessionType := Focus, timeLeft := d.focus)
  }

  /** The settings branch of the mount effect: with a settings row, adopt its
      durations and, when a snapshot is stored, recover from it. */
  function WithSettings(s: HomeState, settings: Option<Durations>, now: int): (r: HomeState)
    ensures settings.None? ==> r == s
    ensures settings.Some? ==> r.durations == settings.value
    ensures settings.Some? && s.stored.Some? ==> r == Recover(s.(durations := settings.value), s.stored.value, settings.value, now)
    ensures s.stored.None? ==> r == s.(durations := r.durations)
  {
    match settings
    case None => s
    case Some(d) =>
      var s' := s.(durations := d);
      if s.stored.Some? then Recover(s', s.stored.value, d, now) else s'
  }

  /** The initial focus count, applied once a user id is known. */
  function WithCount(s: HomeState, user: Option<string>, count: Option<int>): (r: HomeState)
    ensures Present(user) && count.Some? ==> r.focusCount == count.value
    ensures !(Present(user) && count.Some?) ==> r == s
    ensures r.(focusCount := s.focusCount) == s
  {
    if Present(user) && count.Some? then s.(focusCount := count.value) else s
  }

  /** The mount effects: user, settings, reload recovery and the focus count,
      followed by the save and countdown effects they fire.  `settings` is
      `None` when the settings query fails or finds no row; `count` is the
      remote count of the user's focus sessions, if it is a number. */
  function InitStep(s: HomeState, user: Option<string>, settings: Option<Durations>,
                    count: Option<int>, now: int): (r: HomeState)
    ensures user.None? ==> r == s
    ensures user.Some? ==> r.userId == user
    ensures user.Some? && settings.Some? ==> r.durations == settings.value
    ensures Valid(s) && (user.None? || settings.None? || s.stored.None?) ==>
      r.sessionType == s.sessionType && r.timeLeft == s.timeLeft && r.isRunning == s.isRunning
    ensures user.Some? ==> Valid(r)
    ensures user.Some? && settings.Some? && s.stored.Some? && Remaining(s.stored.value.end, now) > 0 ==>
      && r.sessionType == s.stored.value.sessionType && r.timeLeft == Remaining(s.stored.value.end, now)
      && r.isRunning == s.stored.value.running
      && r.startTime == Some(now - (settings.value.Of(s.stored.value.sessionType) - Remaining(s.stored.value.end, now)) * 1000)
    ensures user.Some? && settings.Some? && s.stored.Some? && Remaining(s.stored.value.end, now) <= 0 ==>
      r.sessionType == Focus && r.timeLeft == settings.value.focus
    ensures Present(user) && count.Some? ==> r.focusCount == count.value
    ensures !(Present(user) && count.Some?) ==> r.focusCount == s.focusCount
    ensures r.sessionLog == s.sessionLog
    ensures user.Some? && !s.isRunning && s.endTime.None? ==>
      && r.endTime == s.endTime
      && (settings.None? ==> r.durations == s.durations && r.startTime == s.startTime && r.stored == s.stored)
      && (r.isRunning ==> r.stored == Some(Snapshot(r.sessionType, now + r.timeLeft * 1000, true)))
      && (!r.isRunning ==> r.stored == s.stored)
  {
    if user.None? then s
    else Settle(Persisted(WithCount(WithSettings(s.(userId := user), settings, now), user, count), now), now)
  }

  /** One call of the 1 Hz interval, armed only while running with time left,
      followed by the effects that the new `timeLeft` fires. */
  function TickStep(s: HomeState, now: int): (r: HomeState)
    ensures !(s.isRunning && s.timeLeft > 0) ==> r == s
    ensures s.isRunning && s.timeLeft > 0 ==>
      && r.timeLeft == s.timeLeft - 1
      && r.stored == Some(Snapshot(s.sessionType, now + (s.timeLeft - 1) * 1000, true))
      && (r.isRunning <==> s.timeLeft > 1)
      && r.endTime == (if s.timeLeft > 1 then s.endTime else Some(now))
    ensures r.(timeLeft := s.timeLeft, stored := s.stored, isRunning := s.isRunning, endTime := s.endTime) == s
    ensures Valid(s) ==> Valid(r)
  {
    if s.isRunning && s.timeLeft > 0 then Settle(Persisted(s.(timeLeft := s.timeLeft - 1), now), now)
    else s
  }

  /** `startTimer`: always a fresh start of the full duration. */
  function StartStep(s: HomeState, now: int): (r: HomeState)
    ensures r.startTime == Some(now) && r.timeLeft == s.durations.Of(s.sessionType)
    ensures r.stored == Some(Snapshot(s.sessionType, now + s.durations.Of(s.sessionType) * 1000, true))
    ensures r.isRunning <==> s.durations.Of(s.sessionType) > 0
    ensures r.endTime == if r.isRunning then s.endTime else Some(now)
    ensures r.(startTime := s.startTime, timeLeft := s.timeLeft, stored := s.stored, isRunning := s.isRunning,
               endTime := s.endTime) == s
    ensures Valid(r)
  {
    Settle(Persisted(s.(startTime := Some(now), timeLeft := s.durations.Of(s.sessionType), isRunning := true), now), now)
  }

  /** The pause button: only the running flag changes; the snapshot is not rewritten. */
  function PauseStep(s: HomeState): (r: HomeState)
    ensures !r.isRunning && r.(isRunning := s.isRunning) == s
  {
    s.(isRunning := false)
  }

  /** `resetTimer`. */
  function ResetStep(s: HomeState): (r: HomeState)
    ensures !r.isRunning && r.timeLeft == s.durations.Of(s.sessionType)
    ensures r.startTime.None? && r.endTime.None? && r.stored.None?
    ensures r.(isRunning := s.isRunning, timeLeft := s.timeLeft, startTime := s.startTime,
               endTime := s.endTime, stored := s.stored) == s
  {
    s.(isRunning := false, timeLeft := s.durations.Of(s.sessionType), startTime := None, endTime := None, stored := None)
  }

  /** `skipSession`. */
  function SkipStep(s: HomeState, now: int): (r: HomeState)
    ensures r.endTime == Some(now) && !r.isRunning
    ensures r.(endTime := s.endTime, isRunning := s.isRunning) == s
  {
    s.(endTime := Some(now), isRunning := false)
  }

  predicate Committable(s: HomeState) {
    s.startTime.Some? && s.endTime.Some? && Present(s.userId)
  }

  /** The completion effect, run when `endTime` changes; `count` is the
      recounted number of focus sessions after the insert, if it is a number. */
  function CommitStep(s: HomeState, count: Option<int>): (r: HomeState)
    ensures !Committable(s) ==> r == s
    ensures Committable(s) ==>
      && r.sessionLog == s.sessionLog + [SessionRow(s.userId.value, s.startTime.value, s.endTime.value, s.sessionType)]
      && r.sessionType == Other(s.sessionType) && r.sessionType != s.sessionType
      && r.timeLeft == s.durations.Of(r.sessionType)
      && r.startTime.None? && r.endTime.None? && r.stored.None?
      && r.focusCount == (if s.sessionType == Focus && count.Some? then count.value else s.focusCount)
      && r.isRunning == s.isRunning && r.durations == s.durations && r.userId == s.userId
  {
    if Committable(s) then
      var next := Other(s.sessionType);
      s.(sessionLog := s.sessionLog + [SessionRow(s.userId.value, s.startTime.value, s.endTime.value, s.sessionType)],
         focusCount := if s.sessionType == Focus && count.Some? then count.value else s.focusCount,
         sessionType := next,
         timeLeft := s.durations.Of(next),
         startTime := None,
         endTime := None,
         stored := None)
    else s
  }

  // ---------------------------------------------------------------------
  // Properties of the home page timer

  /** Reload round trip: a snapshot saved at `saved` with `left > 0` seconds to
      go, restored `k < left` whole seconds later, gives back the phase, the
      running flag and `left - k` seconds. */
  lemma {:induction false} ReloadRoundTrip(s: HomeState, saved: int, left: int, k: int, d: Durations)
    requires s.isRunning && s.timeLeft == left && 0 <= k < left
    ensures var r := Recover(s, SnapshotAt(s, saved), d, saved + 1000 * k);
      && r.timeLeft == left - k && r.sessionType == s.sessionType && r.isRunning
      && r.startTime == Some(saved + 1000 * k - (d.Of(s.sessionType) - (left - k)) * 1000)
  {
    RemainingExact(saved + left * 1000, saved + 1000 * k, left - k);
  }

  lemma RemainingExact(end: int, now: int, q: int)
    requires end - now == q * 1000
    ensures Remaining(end, now) == q
  {
    var r := Remaining(end, now);
    assert r * 1000 <= q * 1000 < r * 1000 + 1000;
  }

  /** A reload at or after the stored end of the phase falls back to the focus
      phase at the focus duration, never to a negative remaining time. */
  lemma ExpiredReloadFallsBack(s: HomeState, p: Snapshot, d: Durations, now: int)
    requires now >= p.end
    ensures var r := Recover(s, p, d, now); r.sessionType == Focus && r.timeLeft == d.focus
  {
  }

  /** Pausing does not rewrite the snapshot, so a reload after a pause (within
      the phase's saved end) comes back running. */
  lemma PausedReloadResumes(s: HomeState, saved: int, d: Durations, count: Option<int>, user: string, now: int)
    requires s.isRunning && s.timeLeft > 0 && now < saved + s.timeLeft * 1000 - 999
    ensures var paused := PauseStep(Persisted(s, saved));
      && !paused.isRunning
      && paused.stored == Some(Snapshot(s.sessionType, saved + s.timeLeft * 1000, true))
      && InitStep(Initial(paused.stored), Some(user), Some(d), count, now).isRunning
  {
    var p := Snapshot(s.sessionType, saved + s.timeLeft * 1000, true);
    assert Remaining(p.end, now) > 0;
  }

  /** Resuming after a pause restarts the full duration of the phase. */
  lemma ResumeRestartsFullDuration(s: HomeState, now: int)
    ensures StartStep(PauseStep(s), now).timeLeft == s.durations.Of(s.sessionType)
  {
  }

  /** Two commits bring the phase back: focus and break strictly alternate. */
  lemma PhasesAlternate(s: HomeState, c1: Option<int>, c2: Option<int>, t1: int, t2: int, u1: int, u2: int)
    requires Committable(s)
    ensures var a := CommitStep(s, c1);
      var b := CommitStep(a.(startTime := Some(t1), endTime := Some(u1)), c2);
      a.sessionType != s.sessionType && b.sessionType == s.sessionType
  {
  }

  /** A timer started with a positive duration counts down and stops itself
      when it reaches 0, stamping the end exactly once. */
  function Ticks(s: HomeState, n: nat, now: int): HomeState
    decreases n
  {
    if n == 0 then s else Ticks(TickStep(s, now), n - 1, now + 1000)
  }

  lemma {:induction false} CountsDownToZero(s: HomeState, n: nat, now: int)
    requires s.isRunning && 0 < n <= s.timeLeft
    ensures var r := Ticks(s, n, now);
      && r.timeLeft == s.timeLeft - n
      && (r.isRunning <==> n < s.timeLeft)
      && r.endTime == (if n < s.timeLeft then s.endTime else Some(now + 1000 * (n - 1)))
      && r.sessionType == s.sessionType && r.startTime == s.startTime
    decreases n
  {
    if n > 1 {
      CountsDownToZero(TickStep(s, now), n - 1, now + 1000);
    }
  }

  lemma {:induction false} StoppedIgnoresTicks(s: HomeState, n: nat, now: int)
    requires !s.isRunning
    ensures Ticks(s, n, now) == s
    decreases n
  {
    if n > 0 {
      StoppedIgnoresTicks(s, n - 1, now + 1000);
    }
  }

  class HomePage {
    var isRunning: bool
    var timeLeft: int
    var startTime: Option<int>
    var endTime: Option<int>
    var sessionType: SessionType
    var userId: Option<string>
    var durations: Durations
    var focusCount: int
    var stored: Option<Snapshot>
    var sessionLog: seq<SessionRow>

    function State(): HomeState
      reads this
    {
      HomeState(isRunning, timeLeft, startTime, endTime, sessionType, userId, durations, focusCount, stored, sessionLog)
    }

    constructor (saved: Option<Snapshot>)
      ensures State() == Initial(saved) && Valid(State())
    {
      isRunning, timeLeft, startTime, endTime := false, 1500, None, None;
      sessionType, userId, durations, focusCount := Focus, None, Durations(1500, 300), 0;
      stored, sessionLog := saved, [];
    }

    /** The save effect. */
    method SaveSnapshot(now: int)
      modifies this
      ensures State() == Persisted(old(State()), now)
    {
      if isRunning {
        stored := Some(Snapshot(sessionType, now + timeLeft * 1000, isRunning));
      }
    }

    /** The countdown effect's stop branch. */
    method StopIfDone(now: int)
      modifies this
      ensures State() == Settle(old(State()), now)
    {
      if isRunning && timeLeft <= 0 {
        isRunning := false;
        endTime := Some(now);
      }
    }

    method Init(user: Option<string>, settings: Option<Durations>, count: Option<int>, now: int)
      modifies this
      ensures State() == InitStep(old(State()), user, settings, count, now)
    {
      if user.None? {
        return;
      }
      userId := user;
      ApplySettings(settings, now);
      if Present(user) && count.Some? {
        focusCount := count.value;
      }
      SaveSnapshot(now);
      StopIfDone(now);
    }

    /** The settings query's success branch and the recovery from local storage. */
    method ApplySettings(settings: Option<Durations>, now: int)
      modifies this
      ensures State() == WithSettings(old(State()), settings, now)
    {
      if settings.Some? {
        var d := settings.value;
        durations := d;
        if stored.Some? {
          var p := stored.value;
          var remaining := Remaining(p.end, now);
          if remaining > 0 {
            sessionType := p.sessionType;
            timeLeft := remaining;
            isRunning := p.running;
            startTime := Some(now - (d.Of(p.sessionType) - remaining) * 1000);
          } else {
            sessionType := Focus;
            timeLeft := d.focus;
          }
        }
      }
    }

    method Tick(now: int)
      modifies this
      ensures State() == TickStep(old(State()), now)
    {
      if isRunning && timeLeft > 0 {
        timeLeft := timeLeft - 1;
        SaveSnapshot(now);
        StopIfDone(now);
      }
    }

    method Commit(count: Option<int>)
      modifies this
      ensures State() == CommitStep(old(State()), count)
    {
      if startTime.Some? && endTime.Some? && Present(userId) {
        sessionLog := sessionLog + [SessionRow(userId.value, startTime.value, endTime.value, sessionType)];
        if sessionType == Focus && count.Some? {
          focusCount := count.value;
        }
        var next := Other(sessionType);
        sessionType := next;
        timeLeft := durations.Of(next);
        startTime := None;
        endTime := None;
        stored := None;
      }
    }

    method StartTimer(now: int)
      modifies this
      ensures State() == StartStep(old(State()), now)
    {
      startTime := Some(now);
      timeLeft := durations.Of(sessionType);
      isRunning := true;
      SaveSnapshot(now);
      StopIfDone(now);
    }

    method Pause()
      modifies this
      ensures State() == PauseStep(old(State()))
    {
      isRunning := false;
    }

    method ResetTimer()
      modifies this
      ensures State() == ResetStep(old(State()))
    {
      isRunning := false;
      timeLeft := durations.Of(sessionType);
      startTime := None;
      endTime := None;
      stored := None;
    }

    method SkipSession(now: int)
      modifies this
      ensures State() == SkipStep(old(State()), now)
    {
      endTime := Some(now);
      isRunning := false;
    }
  }
}
