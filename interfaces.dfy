/** The task, column and board records the client works with. */
module Interfaces {
  import opened JsRuntime

  /** A task status. The declared type admits "todo", "inprogress", "done" and
      "custom-N", but nothing checks the strings that arrive from the server,
      so a status is any string; only the three base values name a column of
      the initial board. */
  type TaskStatus = string

  const TODO: TaskStatus := "todo"
  const IN_PROGRESS: TaskStatus := "inprogress"
  const DONE: TaskStatus := "done"

  /** The three base statuses are different strings. */
  lemma BaseStatusesDistinct()
    ensures TODO != IN_PROGRESS && TODO != DONE && IN_PROGRESS != DONE
  {
    assert TODO[0] != IN_PROGRESS[0] && TODO[0] != DONE[0] && IN_PROGRESS[0] != DONE[0];
  }

  /** A status that one of the three fixed columns carries. */
  predicate IsBaseStatus(s: TaskStatus)
  {
    s == TODO || s == IN_PROGRESS || s == DONE
  }

  datatype Priority = Low | Medium | High

  /** `Date | string`: a date object (milliseconds since the epoch) or the
      ISO text the server stores. */
  datatype Moment = Date(epochMillis: int) | Iso(text: string)

  /** A task entry of the board's dictionary. `Fragment` is what the move
      updater stores when it restamps an id that has no entry: spreading
      `undefined` contributes no fields, so only the status and the stamp
      are left. */
  datatype Task =
    | Task(id: string, title: string, description: string, status: TaskStatus,
           priority: Priority, dueDate: Option<string>, createdAt: Moment,
           updatedAt: Moment, userId: string)
    | Fragment(status: TaskStatus, updatedAt: Moment)

  /** A complete task record, as the API returns it. */
  type TaskRecord = t: Task | t.Task?
    witness Task("", "", "", TODO, Low, None, Date(0), Date(0), "")

  datatype Column = Column(id: TaskStatus, title: string, taskIds: seq<string>)

  /** No two columns carry the same id. */
  predicate DistinctIds(columns: seq<Column>)
  {
    forall i, j :: 0 <= i < j < |columns| ==> columns[i].id != columns[j].id
  }

  /** Every id listed in a column has an entry in the task dictionary. */
  predicate Placed(columns: seq<Column>, tasks: map<string, Task>)
  {
    forall i, x :: 0 <= i < |columns| && x in columns[i].taskIds ==> x in tasks
  }

  /** The board: its column list and its task dictionary, both updated in
      place by the client's updaters. */
  class Board {
    var columns: seq<Column>
    var tasks: map<string, Task>

    constructor (columns: seq<Column>, tasks: map<string, Task>)
      ensures this.columns == columns && this.tasks == tasks
    {
      this.columns := columns;
      this.tasks := tasks;
    }

    /** What every board built and updated by the client satisfies. */
    predicate Valid()
      reads this
    {
      DistinctIds(columns) && Placed(columns, tasks)
    }
  }
}
