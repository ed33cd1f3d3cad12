/** The application component's board state: building the board from a task
    list, and the two updaters that move a task between columns and add a
    new task. The updaters work on a spread copy `{ ...prev }`, which shares
    the column list and the task dictionary with the previous board, so they
    change the one board in place; the model updates the `Board` object. */
module KanbanApp {
  import opened JsRuntime
  import opened Interfaces

  /** The TypeError thrown when `findIndex` gives -1 and the updater reads
      `columns[-1].taskIds`. */
  datatype Fault = MissingColumn(status: TaskStatus)

  /** `columns.findIndex(col => col.id === id)`. */
  function IndexOf(columns: seq<Column>, id: TaskStatus): (r: int)
    ensures -1 <= r < |columns|
    ensures r == -1 <==> forall i :: 0 <= i < |columns| ==> columns[i].id != id
    ensures 0 <= r ==> columns[r].id == id && forall j :: 0 <= j < r ==> columns[j].id != id
  {
    FindIndex(columns, (c: Column) => c.id == id)
  }

  /** `findIndex` over columns depends on their ids only. */
  lemma IndexOfSameIds(a: seq<Column>, b: seq<Column>, id: TaskStatus)
    requires |a| == |b|
    requires forall k :: 0 <= k < |a| ==> a[k].id == b[k].id
    ensures IndexOf(a, id) == IndexOf(b, id)
  {
    var i, j := IndexOf(a, id), IndexOf(b, id);
    if i >= 0 {
      assert b[i].id == id;
    }
    if j >= 0 {
      assert a[j].id == id;
    }
  }

  /** With distinct column ids, `findIndex` by a column's id finds that column. */
  lemma IndexOfDistinct(cs: seq<Column>, k: nat)
    requires k < |cs| && DistinctIds(cs)
    ensures IndexOf(cs, cs[k].id) == k
  {
    var r := IndexOf(cs, cs[k].id);
    assert r != -1;
    assert cs[r].id == cs[k].id;
  }

  // ---------------------------------------------------------------------
  // Building the board

  /** The ids of the tasks of `ts` whose status is `s`, in input order. */
  function IdsWithStatus(ts: seq<TaskRecord>, s: TaskStatus): (r: seq<string>)
    ensures |r| <= |ts|
  {
    if |ts| == 0 then []
    else
      var last := ts[|ts| - 1];
      IdsWithStatus(ts[..|ts| - 1], s) + (if last.status == s then [last.id] else [])
  }

  /** The dictionary left by storing every task of `ts` under its id, in
      input order. */
  function TaskIndex(ts: seq<TaskRecord>): (r: map<string, Task>)
    ensures forall k :: k in r ==> r[k].Task? && r[k].id == k
    ensures forall i :: 0 <= i < |ts| ==> ts[i].id in r
    ensures forall k :: k in r ==> exists i :: 0 <= i < |ts| && ts[i].id == k
  {
    if |ts| == 0 then map[]
    else
      var last := ts[|ts| - 1];
      var r := TaskIndex(ts[..|ts| - 1])[last.id := last];
      assert forall i :: 0 <= i < |ts| - 1 ==> ts[..|ts| - 1][i] == ts[i];
      r
  }

  /** The three fixed columns of the initial board, each listing the ids of
      the tasks with its status. */
  function InitialColumns(ts: seq<TaskRecord>): seq<Column>
  {
    [Column(TODO, "To Do", IdsWithStatus(ts, TODO)),
     Column(IN_PROGRESS, "In Progress", IdsWithStatus(ts, IN_PROGRESS)),
     Column(DONE, "Done", IdsWithStatus(ts, DONE))]
  }

  /** `createInitialBoard`: three empty columns, then every task is stored in
      the dictionary and its id pushed onto the first column whose id is the
      task's status, if there is one. */
  method CreateInitialBoard(tasks: seq<TaskRecord>) returns (board: Board)
    ensures fresh(board)
    ensures |board.columns| == 3
    ensures board.columns[0].id == TODO && board.columns[0].title == "To Do"
    ensures board.columns[1].id == IN_PROGRESS && board.columns[1].title == "In Progress"
    ensures board.columns[2].id == DONE && board.columns[2].title == "Done"
    ensures board.columns == InitialColumns(tasks)
    ensures board.tasks == TaskIndex(tasks)
    ensures board.Valid()
  {
    var columns := [Column(TODO, "To Do", []),
                    Column(IN_PROGRESS, "In Progress", []),
                    Column(DONE, "Done", [])];
    var tasksById: map<string, Task> := map[];
    assert tasks[..0] == [];
    for i := 0 to |tasks|
      invariant columns == InitialColumns(tasks[..i])
      invariant tasksById == TaskIndex(tasks[..i])
    {
      var task := tasks[i];
      assert tasks[..i + 1] == tasks[..i] + [task];
      InitialBoardStep(tasks[..i], task);
      TaskIndexSnoc(tasks[..i], task);
      tasksById := tasksById[task.id := task];
      var k := IndexOf(columns, task.status);
      if k >= 0 {
        columns := columns[k := columns[k].(taskIds := columns[k].taskIds + [task.id])];
        assert columns == PushOnto(InitialColumns(tasks[..i]), k, task.id);
      }
    }
    assert tasks[..|tasks|] == tasks;
    InitialBoardValid(tasks);
    board := new Board(columns, tasksById);
  }

  /** `findIndex` by status over the three fixed columns. */
  lemma InitialColumnsIndex(ts: seq<TaskRecord>, s: TaskStatus)
    ensures IndexOf(InitialColumns(ts), s) ==
            if s == TODO then 0 else if s == IN_PROGRESS then 1 else if s == DONE then 2 else -1
  {
    var cs := InitialColumns(ts);
    assert cs[0].id == TODO && cs[1].id == IN_PROGRESS && cs[2].id == DONE;
  }

  /** One step of `createInitialBoard` on the columns: the id of one more
      task is pushed onto the column of its status, if any. */
  lemma InitialBoardStep(ts: seq<TaskRecord>, t: TaskRecord)
    ensures var cs := InitialColumns(ts);
            var k := IndexOf(cs, t.status);
            InitialColumns(ts + [t]) == if k >= 0 then PushOnto(cs, k, t.id) else cs
  {
    BaseStatusesDistinct();
    InitialColumnsIndex(ts, t.status);
    IdsWithStatusSnoc(ts, t, TODO);
    IdsWithStatusSnoc(ts, t, IN_PROGRESS);
    IdsWithStatusSnoc(ts, t, DONE);
    var cs, next := InitialColumns(ts), InitialColumns(ts + [t]);
    assert next[0].taskIds == cs[0].taskIds + (if t.status == TODO then [t.id] else []);
    assert next[1].taskIds == cs[1].taskIds + (if t.status == IN_PROGRESS then [t.id] else []);
    assert next[2].taskIds == cs[2].taskIds + (if t.status == DONE then [t.id] else []);
    var k := IndexOf(cs, t.status);
    if k >= 0 {
      var r := PushOnto(cs, k, t.id);
      assert r == cs[k := cs[k].(taskIds := cs[k].taskIds + [t.id])];
      assert next[0] == r[0] && next[1] == r[1] && next[2] == r[2];
    } else {
      assert next[0] == cs[0] && next[1] == cs[1] && next[2] == cs[2];
    }
  }

  /** The dictionary after one more task. */
  lemma TaskIndexSnoc(ts: seq<TaskRecord>, t: TaskRecord)
    ensures TaskIndex(ts + [t]) == TaskIndex(ts)[t.id := t]
  {
    assert (ts + [t])[..|ts|] == ts;
  }

  /** The ids with status `s` after one more task. */
  lemma IdsWithStatusSnoc(ts: seq<TaskRecord>, t: TaskRecord, s: TaskStatus)
    ensures IdsWithStatus(ts + [t], s) ==
            IdsWithStatus(ts, s) + (if t.status == s then [t.id] else [])
  {
    assert (ts + [t])[..|ts|] == ts;
  }

  /** A column's ids are exactly the ids of the tasks carrying its status. */
  lemma {:induction false} IdsWithStatusExactly(ts: seq<TaskRecord>, s: TaskStatus, x: string)
    ensures x in IdsWithStatus(ts, s) <==>
            exists i :: 0 <= i < |ts| && ts[i].status == s && ts[i].id == x
  {
    if |ts| > 0 {
      var n := |ts| - 1;
      IdsWithStatusExactly(ts[..n], s, x);
      if x in IdsWithStatus(ts, s) {
        if x in IdsWithStatus(ts[..n], s) {
          var i :| 0 <= i < n && ts[..n][i].status == s && ts[..n][i].id == x;
          assert ts[i] == ts[..n][i];
        } else {
          assert ts[n].status == s && ts[n].id == x;
        }
      } else {
        forall i | 0 <= i < |ts| && ts[i].status == s
          ensures ts[i].id != x
        {
          if i < n {
            assert ts[..n][i] == ts[i];
          }
        }
      }
    }
  }

  /** Grouping keeps input order: the ids of a concatenation are the ids of
      the first part followed by those of the second. */
  lemma {:induction false} IdsWithStatusAppend(ts: seq<TaskRecord>, us: seq<TaskRecord>, s: TaskStatus)
    ensures IdsWithStatus(ts + us, s) == IdsWithStatus(ts, s) + IdsWithStatus(us, s)
  {
    if |us| == 0 {
      assert ts + us == ts;
    } else {
      var n := |us| - 1;
      assert (ts + us)[..|ts + us| - 1] == ts + us[..n];
      IdsWithStatusAppend(ts, us[..n], s);
    }
  }

  /** When several tasks share an id, the dictionary keeps the last one. */
  lemma {:induction false} TaskIndexLastWins(ts: seq<TaskRecord>, i: nat)
    requires i < |ts|
    requires forall j :: i < j < |ts| ==> ts[j].id != ts[i].id
    ensures ts[i].id in TaskIndex(ts) && TaskIndex(ts)[ts[i].id] == ts[i]
  {
    var n := |ts| - 1;
    if i < n {
      forall j | i < j < n
        ensures ts[..n][j].id != ts[..n][i].id
      {
        assert ts[..n][j] == ts[j];
      }
      TaskIndexLastWins(ts[..n], i);
      assert ts[..n][i] == ts[i];
    }
  }

  /** A task whose status names none of the three columns is stored in the
      dictionary but listed in no column (when no other task shares its id). */
  lemma StatusOutsideColumnsUnplaced(ts: seq<TaskRecord>, i: nat)
    requires i < |ts| && !IsBaseStatus(ts[i].status)
    requires forall j :: 0 <= j < |ts| && j != i ==> ts[j].id != ts[i].id
    ensures ts[i].id in TaskIndex(ts)
    ensures forall c :: c in InitialColumns(ts) ==> ts[i].id !in c.taskIds
  {
    IdsWithStatusExactly(ts, TODO, ts[i].id);
    IdsWithStatusExactly(ts, IN_PROGRESS, ts[i].id);
    IdsWithStatusExactly(ts, DONE, ts[i].id);
  }

  /** The initial board has distinct column ids and lists only stored tasks. */
  lemma InitialBoardValid(ts: seq<TaskRecord>)
    ensures DistinctIds(InitialColumns(ts))
    ensures Placed(InitialColumns(ts), TaskIndex(ts))
  {
    var cs := InitialColumns(ts);
    forall k, x | 0 <= k < |cs| && x in cs[k].taskIds
      ensures x in TaskIndex(ts)
    {
      IdsWithStatusExactly(ts, cs[k].id, x);
    }
  }

  // ---------------------------------------------------------------------
  // Moving a task

  /** The columns once the column at `si` has dropped every occurrence of
      `taskId`. */
  function DropFrom(cs: seq<Column>, si: nat, taskId: string): (r: seq<Column>)
    requires si < |cs|
    ensures |r| == |cs| && taskId !in r[si].taskIds
    ensures multiset(r[si].taskIds) == multiset(cs[si].taskIds)[taskId := 0]
    ensures forall k :: 0 <= k < |cs| ==> r[k].id == cs[k].id && r[k].title == cs[k].title
    ensures forall k :: 0 <= k < |cs| && k != si ==> r[k] == cs[k]
  {
    cs[si := cs[si].(taskIds := Without(cs[si].taskIds, taskId))]
  }

  /** The columns once `taskId` has been pushed onto the column at `di`. */
  function PushOnto(cs: seq<Column>, di: nat, taskId: string): (r: seq<Column>)
    requires di < |cs|
    ensures |r| == |cs|
    ensures |r[di].taskIds| == |cs[di].taskIds| + 1
    ensures r[di].taskIds[|cs[di].taskIds|] == taskId
    ensures r[di].taskIds[..|cs[di].taskIds|] == cs[di].taskIds
    ensures forall k :: 0 <= k < |cs| ==> r[k].id == cs[k].id && r[k].title == cs[k].title
    ensures forall k :: 0 <= k < |cs| && k != di ==> r[k] == cs[k]
  {
    cs[di := cs[di].(taskIds := cs[di].taskIds + [taskId])]
  }

  /** The columns after a move from the column at `si` to the column at
      `di`: the task is gone from the source, it is the last id of the
      destination, whose earlier ids are as they were (less the task when
      source and destination coincide), and every other column is as it was. */
  function MovedColumns(cs: seq<Column>, si: nat, di: nat, taskId: string): (r: seq<Column>)
    requires si < |cs| && di < |cs|
    ensures |r| == |cs|
    ensures forall k :: 0 <= k < |cs| ==> r[k].id == cs[k].id && r[k].title == cs[k].title
    ensures si != di ==> taskId !in r[si].taskIds
    ensures si != di ==> multiset(r[si].taskIds) == multiset(cs[si].taskIds)[taskId := 0]
    ensures |r[di].taskIds| > 0 && r[di].taskIds[|r[di].taskIds| - 1] == taskId
    ensures r[di].taskIds[..|r[di].taskIds| - 1] ==
            if si == di then Without(cs[di].taskIds, taskId) else cs[di].taskIds
    ensures forall k :: 0 <= k < |cs| && k != si && k != di ==> r[k] == cs[k]
  {
    PushOnto(DropFrom(cs, si, taskId), di, taskId)
  }

  /** Entries kept apart from the status and the update stamp. */
  predicate KeepsFields(a: Task, b: Task)
  {
    a.Task? == b.Task? &&
    (a.Task? ==> a.id == b.id && a.title == b.title && a.description == b.description &&
                 a.priority == b.priority && a.dueDate == b.dueDate &&
                 a.createdAt == b.createdAt && a.userId == b.userId)
  }

  /** `{ ...entry, status, updatedAt: new Date() }`, where `now` is the
      clock reading. */
  function Restamped(entry: Option<Task>, status: TaskStatus, now: int): (r: Task)
    ensures r.status == status && r.updatedAt == Date(now)
    ensures entry.None? ==> r.Fragment?
    ensures entry.Some? ==> KeepsFields(entry.value, r)
  {
    if entry.Some? then entry.value.(status := status, updatedAt := Date(now))
    else Fragment(status, Date(now))
  }

  /** Dropping a task from a column preserves the board invariant. */
  lemma DropPreservesValid(cs: seq<Column>, tasks: map<string, Task>, si: nat, taskId: string)
    requires si < |cs|
    requires DistinctIds(cs) && Placed(cs, tasks)
    ensures DistinctIds(DropFrom(cs, si, taskId)) && Placed(DropFrom(cs, si, taskId), tasks)
  {
    var r := DropFrom(cs, si, taskId);
    forall x | x in r[si].taskIds
      ensures x in cs[si].taskIds
    {
      assert multiset(r[si].taskIds)[x] == multiset(cs[si].taskIds)[x];
    }
  }

  /** Moving preserves the board invariant. */
  lemma MovePreservesValid(cs: seq<Column>, tasks: map<string, Task>, si: nat, di: nat,
                           taskId: string, entry: Task)
    requires si < |cs| && di < |cs|
    requires DistinctIds(cs) && Placed(cs, tasks)
    ensures DistinctIds(MovedColumns(cs, si, di, taskId))
    ensures Placed(MovedColumns(cs, si, di, taskId), tasks[taskId := entry])
  {
    var mid := DropFrom(cs, si, taskId);
    var r := MovedColumns(cs, si, di, taskId);
    forall k, x | 0 <= k < |r| && x in r[k].taskIds && x != taskId
      ensures x in tasks
    {
      assert x in mid[k].taskIds by {
        if k == di {
          assert r[k].taskIds == mid[k].taskIds + [taskId];
        }
      }
      assert x in cs[k].taskIds by {
        if k == si {
          assert multiset(mid[k].taskIds)[x] == multiset(cs[k].taskIds)[x];
        }
      }
    }
  }

  // ---------------------------------------------------------------------
  // The application state

  class App {
    /** The board, or null while no task list has been loaded. */
    var board: Board?

    constructor ()
      ensures board == null
    {
      board := null;
    }

    /** `setBoard(createInitialBoard(tasks))` once a task list has arrived. */
    method Load(tasks: seq<TaskRecord>)
      modifies this
      ensures board != null && fresh(board)
      ensures board.columns == InitialColumns(tasks) && board.tasks == TaskIndex(tasks)
      ensures board.Valid()
    {
      board := CreateInitialBoard(tasks);
    }

    /** The board updater of `handleTaskMove`. A null board is left null. A
        missing source column throws before anything changes; a missing
        destination column throws after the source column has already been
        filtered. Otherwise the task is moved and its entry restamped with
        the destination status. */
    method HandleTaskMove(taskId: string, sourceColumn: TaskStatus,
                          destinationColumn: TaskStatus, now: int)
      returns (thrown: Option<Fault>)
      modifies board
      ensures old(board) == null ==> thrown == None
      ensures board != null ==>
        var cs := old(board.columns);
        var si := IndexOf(cs, sourceColumn);
        var di := IndexOf(cs, destinationColumn);
        if si < 0 then
          thrown == Some(MissingColumn(sourceColumn)) &&
          board.columns == cs && board.tasks == old(board.tasks)
        else if di < 0 then
          thrown == Some(MissingColumn(destinationColumn)) &&
          board.columns == DropFrom(cs, si, taskId) && board.tasks == old(board.tasks)
        else
          thrown == None &&
          board.columns == MovedColumns(cs, si, di, taskId) &&
          board.tasks == old(board.tasks)[taskId := Restamped(Lookup(old(board.tasks), taskId), destinationColumn, now)]
      ensures board != null && old(board.Valid()) ==> board.Valid()
    {
      if board == null {
        return None;
      }
      ghost var cs := board.columns;
      var si := IndexOf(board.columns, sourceColumn);
      if si < 0 {
        return Some(MissingColumn(sourceColumn));
      }
      board.columns := board.columns[si := board.columns[si].(taskIds := Without(board.columns[si].taskIds, taskId))];
      var di := IndexOf(board.columns, destinationColumn);
      IndexOfSameIds(board.columns, cs, destinationColumn);
      if old(board.Valid()) {
        DropPreservesValid(cs, board.tasks, si, taskId);
      }
      if di < 0 {
        return Some(MissingColumn(destinationColumn));
      }
      board.columns := board.columns[di := board.columns[di].(taskIds := board.columns[di].taskIds + [taskId])];
      var entry := Restamped(Lookup(board.tasks, taskId), destinationColumn, now);
      if old(board.Valid()) {
        MovePreservesValid(cs, board.tasks, si, di, taskId, entry);
      }
      board.tasks := board.tasks[taskId := entry];
      thrown := None;
    }

    /** The board updater of `handleCreateTask`. A null board is left null.
        Otherwise the task is stored under its id, and then its id is pushed
        onto the column whose id is its status; with no such column the
        updater throws after the task has been stored. */
    method HandleCreateTask(newTask: TaskRecord) returns (thrown: Option<Fault>)
      modifies board
      ensures old(board) == null ==> thrown == None
      ensures board != null ==>
        var cs := old(board.columns);
        var k := IndexOf(cs, newTask.status);
        board.tasks == old(board.tasks)[newTask.id := newTask] &&
        if k < 0 then
          thrown == Some(MissingColumn(newTask.status)) && board.columns == cs
        else
          thrown == None && board.columns == PushOnto(cs, k, newTask.id)
      ensures board != null && old(board.Valid()) ==> board.Valid()
    {
      if board == null {
        return None;
      }
      board.tasks := board.tasks[newTask.id := newTask];
      var k := IndexOf(board.columns, newTask.status);
      if k < 0 {
        return Some(MissingColumn(newTask.status));
      }
      board.columns := board.columns[k := board.columns[k].(taskIds := board.columns[k].taskIds + [newTask.id])];
      thrown := None;
    }
  }
}
