/** The task list provider (`TaskProvider`): an ordered list of the user's
    tasks whose head is the active task, merged with per-task session
    statistics, and the user's total of focus sessions.  New tasks go to the
    front.  Remote queries are parameters: `None` stands for a query that
    failed or returned no data. */
module TaskContext {
  import opened Base

  /** The optional statistics fields of a task. */
  datatype Stats = Stats(totalSessions: int, focusCount: int, shortBreakCount: int, longBreakCount: int)

  const NoStats := Stats(0, 0, 0, 0)

  datatype Task = Task(id: Option<string>, name: string, completedPomodoros: int, stats: Option<Stats>)

  /** A row of the `tasks` table. */
  datatype TaskRow = TaskRow(id: string, name: string, completedPomodoros: int)

  /** A row of the `get_task_sessions` statistics. */
  datatype TaskStat = TaskStat(taskId: string, counts: Stats)

  /** A row of `get_total_pomodoros_per_user`. */
  datatype TotalEntry = TotalEntry(userId: string, totalPomodoroSessions: int)

  /** The argument of `addTask`: a task without an id. */
  datatype NewTask = NewTask(name: string, completedPomodoros: int)

  /** The insert `addTask` sends, and the update `updateTask` sends. */
  datatype InsertRequest = InsertRequest(userId: string, name: string, completedPomodoros: int)
  datatype UpdateRequest = UpdateRequest(id: string, completedPomodoros: int)

  datatype TaskState = TaskState(tasks: seq<Task>, userId: Option<string>, totalPomodoros: int) {
    /** `activeTask`: the head of the list, or null. */
    function Active(): (r: Option<Task>)
      ensures r.Some? <==> |tasks| > 0
      ensures r.Some? ==> r.value == tasks[0]
    {
      if |tasks| > 0 then Some(tasks[0]) else None
    }
  }

  /** The statistics row of a task: the first row with a matching task id. */
  function StatFor(stats: seq<TaskStat>, id: string): (r: Option<TaskStat>)
    ensures r.None? <==> forall k :: 0 <= k < |stats| ==> stats[k].taskId != id
    ensures r.Some? ==> exists i :: (0 <= i < |stats| && stats[i] == r.value && r.value.taskId == id
      && forall k :: 0 <= k < i ==> stats[k].taskId != id)
  {
    Find(stats, (st: TaskStat) => st.taskId == id)
  }

  /** The counts shown for a task; every count is 0 when no row matches or
      the statistics query returned nothing. */
  function CountsOf(stats: Option<seq<TaskStat>>, id: string): (r: Stats)
    ensures stats.None? ==> r == NoStats
    ensures stats.Some? && StatFor(stats.value, id).None? ==> r == NoStats
    ensures stats.Some? && StatFor(stats.value, id).Some? ==> r == StatFor(stats.value, id).value.counts
  {
    if stats.None? then NoStats
    else match StatFor(stats.value, id)
      case None => NoStats
      case Some(st) => st.counts
  }

  function MergeRow(row: TaskRow, stats: Option<seq<TaskStat>>): Task {
    Task(Some(row.id), row.name, row.completedPomodoros, Some(CountsOf(stats, row.id)))
  }

  /** The row a loaded task came from. */
  function RowOf(t: Task): TaskRow
    requires t.id.Some?
  {
    TaskRow(t.id.value, t.name, t.completedPomodoros)
  }

  /** The task list built from the fetched rows and statistics. */
  function Merge(rows: seq<TaskRow>, stats: Option<seq<TaskStat>>): (r: seq<Task>)
    ensures |r| == |rows|
    ensures forall i :: 0 <= i < |rows| ==> r[i].id == Some(rows[i].id) && RowOf(r[i]) == rows[i]
    ensures forall i :: 0 <= i < |rows| ==> r[i].stats == Some(CountsOf(stats, rows[i].id))
  {
    seq(|rows|, i requires 0 <= i < |rows| => MergeRow(rows[i], stats))
  }

  /** The total of the entry for `uid`, or 0 when none matches. */
  function TotalFor(entries: seq<TotalEntry>, uid: string): (r: int)
    ensures (forall k :: 0 <= k < |entries| ==> entries[k].userId != uid) ==> r == 0
    ensures (exists k :: 0 <= k < |entries| && entries[k].userId == uid) ==>
      exists i :: 0 <= i < |entries| && entries[i].userId == uid && r == entries[i].totalPomodoroSessions
        && forall k :: 0 <= k < i ==> entries[k].userId != uid
  {
    match Find(entries, (e: TotalEntry) => e.userId == uid)
    case None => 0
    case Some(e) => e.totalPomodoroSessions
  }

  /** `loadTasksAndStats`: the list is replaced only when the task query returned rows. */
  function LoadStep(s: TaskState, rows: Option<seq<TaskRow>>, stats: Option<seq<TaskStat>>): (r: TaskState)
    ensures rows.None? ==> r == s
    ensures rows.Some? ==> r.tasks == Merge(rows.value, stats)
    ensures r.userId == s.userId && r.totalPomodoros == s.totalPomodoros
  {
    if rows.Some? then s.(tasks := Merge(rows.value, stats)) else s
  }

  /** `recalculateTotalPomodoros`: an RPC error leaves the total as it was. */
  function RecalculateStep(s: TaskState, uid: string, rpc: Option<seq<TotalEntry>>): (r: TaskState)
    ensures rpc.None? ==> r == s
    ensures rpc.Some? ==> r == s.(totalPomodoros := TotalFor(rpc.value, uid))
  {
    if rpc.Some? then s.(totalPomodoros := TotalFor(rpc.value, uid)) else s
  }

  /** No user, or signed out: everything cleared. */
  function ClearStep(s: TaskState): (r: TaskState)
    ensures r.tasks == [] && r.userId.None? && r.totalPomodoros == 0
    ensures r.Active().None?
  {
    TaskState([], None, 0)
  }

  /** Adopting the user `uid`, then loading its tasks and its total. */
  function SignInStep(s: TaskState, uid: string, rows: Option<seq<TaskRow>>,
                      stats: Option<seq<TaskStat>>, rpc: Option<seq<TotalEntry>>): (r: TaskState)
    ensures r.userId == Some(uid)
    ensures r.tasks == if rows.Some? then Merge(rows.value, stats) else s.tasks
    ensures r.totalPomodoros == if rpc.Some? then TotalFor(rpc.value, uid) else s.totalPomodoros
  {
    RecalculateStep(LoadStep(s.(userId := Some(uid)), rows, stats), uid, rpc)
  }

  /** `fetchAll`: `user` is the id of the signed-in user, if there is one. */
  function FetchAllStep(s: TaskState, user: Option<string>, rows: Option<seq<TaskRow>>,
                        stats: Option<seq<TaskStat>>, rpc: Option<seq<TotalEntry>>): (r: TaskState)
    ensures user.None? ==> r == ClearStep(s)
    ensures user.Some? ==> r == SignInStep(s, user.value, rows, stats, rpc)
  {
    if user.None? then ClearStep(s) else SignInStep(s, user.value, rows, stats, rpc)
  }

  /** The auth state listener: it tests the id itself, so an empty id signs out. */
  function AuthChangeStep(s: TaskState, user: Option<string>, rows: Option<seq<TaskRow>>,
                          stats: Option<seq<TaskStat>>, rpc: Option<seq<TotalEntry>>): (r: TaskState)
    ensures !Present(user) ==> r == ClearStep(s)
    ensures Present(user) ==> r == SignInStep(s, user.value, rows, stats, rpc)
  {
    if Present(user) then SignInStep(s, user.value, rows, stats, rpc) else ClearStep(s)
  }

  /** `addTask`: `inserted` is the row the insert returned, `None` on error or no row. */
  function AddTaskStep(s: TaskState, inserted: Option<TaskRow>): (r: (TaskState, Option<Task>))
    ensures !Present(s.userId) || inserted.None? ==> r == (s, None)
    ensures Present(s.userId) && inserted.Some? ==>
      && r.1 == Some(Task(Some(inserted.value.id), inserted.value.name, inserted.value.completedPomodoros, None))
      && r.0 == s.(tasks := [r.1.value] + s.tasks)
  {
    if Present(s.userId) && inserted.Some? then
      var t := Task(Some(inserted.value.id), inserted.value.name, inserted.value.completedPomodoros, None);
      (s.(tasks := [t] + s.tasks), Some(t))
    else (s, None)
  }

  // ---------------------------------------------------------------------
  // Properties of the task list

  /** A successful add makes the new task the active one and keeps the old
      list, in order, behind it. */
  lemma AddedTaskIsActive(s: TaskState, row: TaskRow)
    requires Present(s.userId)
    ensures var (r, t) := AddTaskStep(s, Some(row));
      && t.Some? && r.Active() == t
      && |r.tasks| == |s.tasks| + 1 && r.tasks[1..] == s.tasks
  {
    var (r, t) := AddTaskStep(s, Some(row));
    assert r.tasks[1..] == s.tasks;
  }

  /** Loading forgets nothing of the rows: the rows read back from the merged list. */
  lemma {:induction false} MergeKeepsRows(rows: seq<TaskRow>, stats: Option<seq<TaskStat>>)
    ensures var ts := Merge(rows, stats);
      (forall i :: 0 <= i < |ts| ==> ts[i].id.Some?) &&
      seq(|ts|, i requires 0 <= i < |ts| && ts[i].id.Some? => RowOf(ts[i])) == rows
  {
    var ts := Merge(rows, stats);
    assert forall i :: 0 <= i < |ts| ==> ts[i].id.Some?;
    var back := seq(|ts|, i requires 0 <= i < |ts| && ts[i].id.Some? => RowOf(ts[i]));
    assert |back| == |rows|;
    assert forall i :: 0 <= i < |rows| ==> back[i] == rows[i];
  }

  predicate UniqueTaskIds(stats: seq<TaskStat>) {
    forall i, j :: 0 <= i < j < |stats| ==> stats[i].taskId != stats[j].taskId
  }

  /** With one statistics row per task, a task's row is the one carrying its id. */
  lemma StatForUnique(stats: seq<TaskStat>, i: int)
    requires UniqueTaskIds(stats) && 0 <= i < |stats|
    ensures StatFor(stats, stats[i].taskId) == Some(stats[i])
  {
    var r := StatFor(stats, stats[i].taskId);
    var j :| 0 <= j < |stats| && stats[j] == r.value && r.value.taskId == stats[i].taskId
      && forall k :: 0 <= k < j ==> stats[k].taskId != stats[i].taskId;
    if j != i {
      assert stats[j].taskId == stats[i].taskId;
    }
  }

  /** With one statistics row per task, the merged list does not depend on
      the order in which the statistics rows arrive. */
  lemma {:induction false} MergeIgnoresStatOrder(rows: seq<TaskRow>, a: seq<TaskStat>, b: seq<TaskStat>)
    requires UniqueTaskIds(a) && UniqueTaskIds(b) && multiset(a) == multiset(b)
    ensures Merge(rows, Some(a)) == Merge(rows, Some(b))
  {
    forall id: string
      ensures CountsOf(Some(a), id) == CountsOf(Some(b), id)
    {
      SameStat(a, b, id);
      SameStat(b, a, id);
    }
    var ma, mb := Merge(rows, Some(a)), Merge(rows, Some(b));
    assert forall i :: 0 <= i < |rows| ==> ma[i] == mb[i];
  }

  lemma SameStat(a: seq<TaskStat>, b: seq<TaskStat>, id: string)
    requires UniqueTaskIds(a) && UniqueTaskIds(b) && multiset(a) == multiset(b)
    ensures StatFor(a, id).Some? ==> StatFor(b, id) == StatFor(a, id)
  {
    if StatFor(a, id).Some? {
      var i :| 0 <= i < |a| && a[i] == StatFor(a, id).value && a[i].taskId == id
        && forall k :: 0 <= k < i ==> a[k].taskId != id;
      assert a[i] in multiset(b);
      var j :| 0 <= j < |b| && b[j] == a[i];
      StatForUnique(b, j);
    }
  }

  /** After a sign-out (or a session without a user id) the list is empty,
      there is no active task, the total is 0 and `addTask` is refused. */
  lemma SignOutRefusesAdd(s: TaskState, user: Option<string>, rows: Option<seq<TaskRow>>,
                          stats: Option<seq<TaskStat>>, rpc: Option<seq<TotalEntry>>, row: TaskRow)
    requires !Present(user)
    ensures var r := AuthChangeStep(s, user, rows, stats, rpc);
      && r.Active().None? && r.totalPomodoros == 0
      && AddTaskStep(r, Some(row)) == (r, None)
  {
  }

  class TaskProvider {
    var tasks: seq<Task>
    var userId: Option<string>
    var totalPomodoros: int

    function State(): TaskState
      reads this
    {
      TaskState(tasks, userId, totalPomodoros)
    }

    constructor ()
      ensures State() == TaskState([], None, 0)
    {
      tasks, userId, totalPomodoros := [], None, 0;
    }

    /** `activeTask`. */
    function ActiveTask(): Option<Task>
      reads this
    {
      State().Active()
    }

    method LoadTasksAndStats(rows: Option<seq<TaskRow>>, stats: Option<seq<TaskStat>>)
      modifies this
      ensures State() == LoadStep(old(State()), rows, stats)
    {
      if rows.Some? {
        tasks := Merge(rows.value, stats);
      }
    }

    method RecalculateTotalPomodoros(uid: string, rpc: Option<seq<TotalEntry>>)
      modifies this
      ensures State() == RecalculateStep(old(State()), uid, rpc)
    {
      if rpc.None? {
        return;
      }
      totalPomodoros := TotalFor(rpc.value, uid);
    }

    method Clear()
      modifies this
      ensures State() == ClearStep(old(State()))
    {
      userId := None;
      tasks := [];
      totalPomodoros := 0;
    }

    method FetchAll(user: Option<string>, rows: Option<seq<TaskRow>>,
                    stats: Option<seq<TaskStat>>, rpc: Option<seq<TotalEntry>>)
      modifies this
      ensures State() == FetchAllStep(old(State()), user, rows, stats, rpc)
    {
      if user.None? {
        Clear();
        return;
      }
      userId := user;
      LoadTasksAndStats(rows, stats);
      RecalculateTotalPomodoros(user.value, rpc);
    }

    method OnAuthStateChange(user: Option<string>, rows: Option<seq<TaskRow>>,
                             stats: Option<seq<TaskStat>>, rpc: Option<seq<TotalEntry>>)
      modifies this
      ensures State() == AuthChangeStep(old(State()), user, rows, stats, rpc)
    {
      if Present(user) {
        userId := user;
        LoadTasksAndStats(rows, stats);
        RecalculateTotalPomodoros(user.value, rpc);
      } else {
        Clear();
      }
    }

    /** `addTask`: returns the insert it sends (none without a user) and the
        task it resolves to. */
    method AddTask(task: NewTask, inserted: Option<TaskRow>) returns (request: Option<InsertRequest>, r: Option<Task>)
      modifies this
      ensures request.Some? <==> Present(old(userId))
      ensures request.Some? ==> request.value == InsertRequest(old(userId).value, task.name, task.completedPomodoros)
      ensures (State(), r) == AddTaskStep(old(State()), if Present(old(userId)) then inserted else None)
    {
      if !Present(userId) {
        return None, None;
      }
      request := Some(InsertRequest(userId.value, task.name, task.completedPomodoros));
      if inserted.None? {
        return request, None;
      }
      var t := Task(Some(inserted.value.id), inserted.value.name, inserted.value.completedPomodoros, None);
      tasks := [t] + tasks;
      r := Some(t);
    }

    /** `updateTask`: the update it sends, if any; the list itself is not touched. */
    method UpdateTask(t: Task) returns (request: Option<UpdateRequest>)
      ensures request.Some? <==> Present(t.id) && Present(userId)
      ensures request.Some? ==> request.value == UpdateRequest(t.id.value, t.completedPomodoros)
    {
      if !Present(t.id) || !Present(userId) {
        return None;
      }
      request := Some(UpdateRequest(t.id.value, t.completedPomodoros));
    }
  }
}
