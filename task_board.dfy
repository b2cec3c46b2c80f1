/** The kanban board: one column per task status, and drag-and-drop between columns. */
module TaskBoard {
  import opened Common
  import opened Domain
  import opened Seqs

  datatype Column = Column(id: TaskStatus, title: string)

  const Columns: seq<Column> := [
    Column(Todo, "To Do"),
    Column(InProgress, "In Progress"),
    Column(Review, "Review"),
    Column(Done, "Done")
  ]

  /** The column a task of status `st` is shown in. */
  function ColumnOf(st: TaskStatus): (i: nat)
    ensures i < |Columns| && Columns[i].id == st
  {
    match st
    case Todo => 0
    case InProgress => 1
    case Review => 2
    case Done => 3
  }

  /** The board has a column for every status and no status twice. */
  lemma ColumnsListEachStatusOnce()
    ensures forall i :: 0 <= i < |Columns| ==> ColumnOf(Columns[i].id) == i
    ensures forall i, j :: 0 <= i < j < |Columns| ==> Columns[i].id != Columns[j].id
  {
  }

  /** `getTasksByStatus`: the tasks in one column, in their original order. */
  function TasksByStatus(tasks: seq<Task>, status: TaskStatus): (r: seq<Task>)
    ensures forall t :: t in r <==> t in tasks && t.status == status
  {
    Filter(tasks, (t: Task) => t.status == status)
  }

  /** The number of tasks shown in the columns from index `from` on. */
  function ColumnTotal(tasks: seq<Task>, from: nat): nat
    requires from <= |Columns|
    decreases |Columns| - from
  {
    if from == |Columns| then 0 else |TasksByStatus(tasks, Columns[from].id)| + ColumnTotal(tasks, from + 1)
  }

  /** Every task sits in exactly one column, so the column counts add up to the number of tasks. */
  lemma {:induction false} ColumnCountsSum(tasks: seq<Task>)
    ensures ColumnTotal(tasks, 0) == |tasks|
  {
    if tasks != [] {
      ColumnCountsSum(tasks[1..]);
      var t := tasks[0];
      forall st: TaskStatus
        ensures |TasksByStatus(tasks, st)| == |TasksByStatus(tasks[1..], st)| + (if t.status == st then 1 else 0)
      {
      }
    }
  }

  /**
   * `handleDrop(status)`: when a task is being dragged and its status (as
   * captured at drag start) differs from the target column, every task
   * with its id takes the target status; otherwise nothing changes.
   */
  function Drop(tasks: seq<Task>, dragged: Option<Task>, status: TaskStatus): (r: seq<Task>)
    ensures |r| == |tasks|
    ensures forall i :: 0 <= i < |tasks| ==> r[i].id == tasks[i].id
  {
    if dragged.Some? && dragged.value.status != status then
      UpdateWhere(tasks, (t: Task) => t.id == dragged.value.id, (t: Task) => t.(status := status))
    else tasks
  }

  /**
   * A drop keeps the number and the order of the tasks and changes only
   * the status of the dragged id's tasks, which all end up in the target
   * column.
   */
  lemma DropOnlyMovesDragged(tasks: seq<Task>, dragged: Option<Task>, status: TaskStatus)
    ensures |Drop(tasks, dragged, status)| == |tasks|
    ensures dragged.None? || dragged.value.status == status ==> Drop(tasks, dragged, status) == tasks
    ensures forall i :: 0 <= i < |tasks| ==>
      var t := Drop(tasks, dragged, status)[i];
      && t.(status := tasks[i].status) == tasks[i]
      && (dragged.Some? && tasks[i].id == dragged.value.id && dragged.value.status != status ==> t.status == status)
      && (dragged.None? || tasks[i].id != dragged.value.id ==> t == tasks[i])
    ensures dragged.Some? && dragged.value.status != status ==>
      forall t :: t in tasks && t.id == dragged.value.id ==> t.(status := status) in TasksByStatus(Drop(tasks, dragged, status), status)
  {
    if dragged.Some? && dragged.value.status != status {
      var r := Drop(tasks, dragged, status);
      forall t | t in tasks && t.id == dragged.value.id
        ensures t.(status := status) in TasksByStatus(r, status)
      {
        var i :| 0 <= i < |tasks| && tasks[i] == t;
        assert r[i] == t.(status := status);
      }
    }
  }

  class Board {
    var tasks: seq<Task>
    var draggedTask: Option<Task>
    var dragOverColumn: Option<TaskStatus>

    constructor (initial: seq<Task>)
      ensures tasks == initial && draggedTask.None? && dragOverColumn.None?
    {
      tasks := initial;
      draggedTask := None;
      dragOverColumn := None;
    }

    method HandleDragStart(task: Task)
      modifies this
      ensures draggedTask == Some(task)
      ensures tasks == old(tasks) && dragOverColumn == old(dragOverColumn)
    {
      draggedTask := Some(task);
    }

    method HandleDragEnd()
      modifies this
      ensures draggedTask.None? && dragOverColumn.None? && tasks == old(tasks)
    {
      draggedTask := None;
      dragOverColumn := None;
    }

    method HandleDragOver(status: TaskStatus)
      modifies this
      ensures dragOverColumn == Some(status)
      ensures tasks == old(tasks) && draggedTask == old(draggedTask)
    {
      dragOverColumn := Some(status);
    }

    method HandleDragLeave()
      modifies this
      ensures dragOverColumn.None?
      ensures tasks == old(tasks) && draggedTask == old(draggedTask)
    {
      dragOverColumn := None;
    }

    method HandleDrop(status: TaskStatus)
      modifies this
      ensures tasks == Drop(old(tasks), old(draggedTask), status)
      ensures draggedTask.None? && dragOverColumn.None?
    {
      if draggedTask.Some? && draggedTask.value.status != status {
        tasks := Drop(tasks, draggedTask, status);
      }
      draggedTask := None;
      dragOverColumn := None;
    }
  }
}
