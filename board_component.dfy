/** The board component: which move a drag issues, and the `activeTask`
    field that tracks the card being dragged. Pointer sensors and collision
    detection decide what is under the pointer; here that arrives as the
    `over` id. */
module BoardComponent {
  import opened JsRuntime
  import opened Interfaces
  import KanbanApp

  /** The dragged item: its id and `data.current?.type`. */
  datatype Active = Active(id: string, kind: Option<string>)

  /** A call `onTaskMove(taskId, source, destination)`. */
  datatype Move = Move(taskId: string, source: TaskStatus, destination: TaskStatus)

  const TASK_KIND: string := "Task"

  /** `columns.find(col => col.taskIds.includes(taskId))`, as an index
      (-1 when no column lists the task). */
  function ColumnHolding(columns: seq<Column>, taskId: string): (r: int)
    ensures -1 <= r < |columns|
    ensures r == -1 <==> forall i :: 0 <= i < |columns| ==> taskId !in columns[i].taskIds
    ensures 0 <= r ==> taskId in columns[r].taskIds &&
                       forall j :: 0 <= j < r ==> taskId !in columns[j].taskIds
  {
    FindIndex(columns, (c: Column) => taskId in c.taskIds)
  }

  /** `columns.find(col => col.id === overId || col.taskIds.includes(overId))`,
      as an index: the pointer is over a column or over one of its cards. */
  function ColumnUnder(columns: seq<Column>, overId: string): (r: int)
    ensures -1 <= r < |columns|
    ensures r == -1 <==> forall i :: 0 <= i < |columns| ==>
                           columns[i].id != overId && overId !in columns[i].taskIds
    ensures 0 <= r ==> (columns[r].id == overId || overId in columns[r].taskIds) &&
                       forall j :: 0 <= j < r ==>
                         columns[j].id != overId && overId !in columns[j].taskIds
  {
    FindIndex(columns, (c: Column) => c.id == overId || overId in c.taskIds)
  }

  /** The move decision of `handleDragOver`, which `handleDragEnd` repeats:
      nothing without a drop target, when the item is dropped on itself or
      when it is not a task; otherwise a move from the first column listing
      the task to the first column that is, or lists, the target, when both
      exist, both ids are non-empty and they differ. */
  function HandleDragOver(columns: seq<Column>, active: Active, over: Option<string>): (r: Option<Move>)
    ensures over.None? ==> r.None?
    ensures over == Some(active.id) ==> r.None?
    ensures active.kind != Some(TASK_KIND) ==> r.None?
    ensures r.Some? ==>
              var s, d := ColumnHolding(columns, active.id), ColumnUnder(columns, over.value);
              0 <= s && 0 <= d &&
              r.value == Move(active.id, columns[s].id, columns[d].id)
    ensures r.Some? ==> r.value.source != r.value.destination &&
                        Truthy(r.value.source) && Truthy(r.value.destination)
    ensures over.Some? && over.value != active.id && active.kind == Some(TASK_KIND) &&
            (var s, d := ColumnHolding(columns, active.id), ColumnUnder(columns, over.value);
             0 <= s && 0 <= d && Truthy(columns[s].id) && Truthy(columns[d].id) &&
             columns[s].id != columns[d].id)
            ==> r.Some?
  {
    if over.None? then None
    else if active.id == over.value then None
    else if active.kind != Some(TASK_KIND) then None
    else
      var s := ColumnHolding(columns, active.id);
      var d := ColumnUnder(columns, over.value);
      var activeColumnId := if s >= 0 then Some(columns[s].id) else None;
      var overColumnId := if d >= 0 then Some(columns[d].id) else None;
      if Present(activeColumnId) && Present(overColumnId) && activeColumnId != overColumnId
      then Some(Move(active.id, activeColumnId.value, overColumnId.value))
      else None
  }

  /** On a board with distinct column ids, a move the drag handlers issue
      names two different existing columns, the source one lists the task,
      and the application's updater then moves it without a fault: the task
      leaves the source column and ends the destination column. */
  lemma DragMoveLocatesColumns(columns: seq<Column>, active: Active, over: Option<string>)
    requires DistinctIds(columns)
    requires HandleDragOver(columns, active, over).Some?
    ensures var m := HandleDragOver(columns, active, over).value;
            var si := KanbanApp.IndexOf(columns, m.source);
            var di := KanbanApp.IndexOf(columns, m.destination);
            0 <= si && 0 <= di && si != di &&
            si == ColumnHolding(columns, m.taskId) &&
            m.taskId in columns[si].taskIds &&
            var moved := KanbanApp.MovedColumns(columns, si, di, m.taskId);
            m.taskId !in moved[si].taskIds &&
            moved[di].taskIds == columns[di].taskIds + [m.taskId]
  {
    var m := HandleDragOver(columns, active, over).value;
    var s := ColumnHolding(columns, m.taskId);
    var d := ColumnUnder(columns, over.value);
    var si := KanbanApp.IndexOf(columns, m.source);
    var di := KanbanApp.IndexOf(columns, m.destination);
    KanbanApp.IndexOfDistinct(columns, s);
    KanbanApp.IndexOfDistinct(columns, d);
    var moved := KanbanApp.MovedColumns(columns, si, di, m.taskId);
    assert moved[di].taskIds == moved[di].taskIds[..|moved[di].taskIds| - 1] + [m.taskId];
  }

  /** The component's state: the id of the card being dragged. */
  class BoardView {
    var activeTask: Option<string>

    constructor ()
      ensures activeTask == None
    {
      activeTask := None;
    }

    /** `handleDragStart`: remember the dragged id. */
    method HandleDragStart(active: Active)
      modifies this
      ensures activeTask == Some(active.id)
    {
      activeTask := Some(active.id);
    }

    /** `handleDragEnd`: forget the dragged id on every path, then issue the
        same move decision as `handleDragOver`. */
    method HandleDragEnd(board: Board, active: Active, over: Option<string>)
      returns (move: Option<Move>)
      modifies this
      ensures activeTask == None
      ensures move == HandleDragOver(board.columns, active, over)
    {
      activeTask := None;
      move := HandleDragOver(board.columns, active, over);
    }

    /** `getActiveTask`: nothing while no card is dragged, otherwise the
        dictionary entry of the dragged id (nothing when it has none). */
    function GetActiveTask(board: Board): (r: Option<Task>)
      reads this, board
      ensures !Present(activeTask) ==> r.None?
      ensures Present(activeTask) ==> r == Lookup(board.tasks, activeTask.value)
    {
      if !Present(activeTask) then None
      else Lookup(board.tasks, activeTask.value)
    }
  }
}
