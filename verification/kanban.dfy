/** The board state of src/components/KanbanBoard.jsx: four columns keyed by status, the
    updates the board applies after creating, moving, dropping and editing a task, and the
    counters under the board.  A key outside the four columns reads as `undefined`, and
    spreading it throws; such an update is modelled as `None`. */
module Kanban {
  import opened Wrappers
  import opened Seqs
  import opened Models
  import opened Tasks

  /** The column a status names, or None when the status is not one of the four keys. */
  function Column(b: Grouped, status: string): (r: Option<seq<Task>>)
    ensures r.Some? <==> ValidStatus(status)
  {
    if status == "todo" then Some(b.todo)
    else if status == "in-progress" then Some(b.inProgress)
    else if status == "review" then Some(b.review)
    else if status == "done" then Some(b.done)
    else None
  }

  function WithColumn(b: Grouped, status: string, ts: seq<Task>): (r: Grouped)
    requires ValidStatus(status)
    ensures Column(r, status) == Some(ts)
    ensures forall s :: ValidStatus(s) && s != status ==> Column(r, s) == Column(b, s)
  {
    if status == "todo" then b.(todo := ts)
    else if status == "in-progress" then b.(inProgress := ts)
    else if status == "review" then b.(review := ts)
    else b.(done := ts)
  }

  /** handleTaskCreated: the new task is appended to the column its status names. */
  function TaskCreated(b: Grouped, t: Task): (r: Option<Grouped>)
    ensures r.Some? <==> ValidStatus(t.status)
    ensures r.Some? ==> Column(r.value, t.status) == Some(Column(b, t.status).value + [t])
    ensures r.Some? ==> forall s :: ValidStatus(s) && s != t.status ==> Column(r.value, s) == Column(b, s)
  {
    match Column(b, t.status)
    case None => None
    case Some(ts) => Some(WithColumn(b, t.status, ts + [t]))
  }

  function HasId(id: TaskId): Task -> bool {
    (t: Task) => t.id == id
  }

  function NotId(id: TaskId): Task -> bool {
    (t: Task) => t.id != id
  }

  /** The removal step of a move: the task taken out of every column. */
  function RemoveEverywhere(b: Grouped, id: TaskId): Grouped {
    Grouped(Filter(b.todo, NotId(id)), Filter(b.inProgress, NotId(id)),
            Filter(b.review, NotId(id)), Filter(b.done, NotId(id)))
  }

  /** The number of entries of the board carrying a task id. */
  function Occurrences(b: Grouped, id: TaskId): nat {
    Count(b.todo, HasId(id)) + Count(b.inProgress, HasId(id)) + Count(b.review, HasId(id)) + Count(b.done, HasId(id))
  }

  /** The state update of handleTaskStatusUpdate: remove the task id from every column, then
      append the server's copy to the target column. */
  function MoveTask(b: Grouped, id: TaskId, newStatus: string, updated: Task): (r: Option<Grouped>)
    ensures r.Some? <==> ValidStatus(newStatus)
  {
    if !ValidStatus(newStatus) then None
    else
      var removed := RemoveEverywhere(b, id);
      Some(WithColumn(removed, newStatus, Column(removed, newStatus).value + [updated]))
  }

  /** handleTaskStatusUpdate: a failed request leaves the board alone. */
  function StatusUpdated(b: Grouped, id: TaskId, newStatus: string, response: Result<Task>): (r: Option<Grouped>)
    ensures response.Err? ==> r == Some(b)
    ensures response.Ok? ==> r == MoveTask(b, id, newStatus, response.value)
  {
    match response
    case Err(_) => Some(b)
    case Ok(u) => MoveTask(b, id, newStatus, u)
  }

  /** A sequence filtered free of an id no longer holds it. */
  lemma {:induction false} RemovedHasNone(s: seq<Task>, id: TaskId)
    ensures Count(Filter(s, NotId(id)), HasId(id)) == 0
  {
    forall i | 0 <= i < |Filter(s, NotId(id))| ensures !HasId(id)(Filter(s, NotId(id))[i]) {
      assert NotId(id)(Filter(s, NotId(id))[i]);
    }
    FilterNone(Filter(s, NotId(id)), HasId(id));
  }

  /** Removing an id, then removing it again, changes nothing more. */
  lemma {:induction false} RemoveIdempotent(s: seq<Task>, id: TaskId)
    ensures Filter(Filter(s, NotId(id)), NotId(id)) == Filter(s, NotId(id))
  {
    FilterAll(Filter(s, NotId(id)), NotId(id));
  }

  /** Appending the moved task and filtering it out again gives the column without it. */
  lemma AppendedRemoved(s: seq<Task>, id: TaskId, updated: Task)
    requires updated.id == id
    ensures Filter(Filter(s, NotId(id)) + [updated], NotId(id)) == Filter(s, NotId(id))
    ensures Count(Filter(s, NotId(id)) + [updated], HasId(id)) == 1
  {
    FilterConcat(Filter(s, NotId(id)), [updated], NotId(id));
    FilterConcat(Filter(s, NotId(id)), [updated], HasId(id));
    RemoveIdempotent(s, id);
    RemovedHasNone(s, id);
    assert Filter([updated], NotId(id)) == [];
    assert Filter([updated], HasId(id)) == [updated];
  }

  /** One column after a move: it holds the moved id once if it is the target and not at
      all otherwise, and its other tasks are those it had, in order. */
  lemma ColumnAfterMove(b: Grouped, id: TaskId, newStatus: string, updated: Task, s: string)
    requires ValidStatus(newStatus) && ValidStatus(s) && updated.id == id
    ensures var col := Column(MoveTask(b, id, newStatus, updated).value, s).value;
      && Count(col, HasId(id)) == (if s == newStatus then 1 else 0)
      && Filter(col, NotId(id)) == Filter(Column(b, s).value, NotId(id))
  {
    var before := Column(b, s).value;
    if s == newStatus {
      AppendedRemoved(before, id, updated);
    } else {
      RemovedHasNone(before, id);
      RemoveIdempotent(before, id);
    }
  }

  /** After a move of the task the server returned, its id is on the board exactly once, as
      the last entry of the target column, and every other task keeps its column and its
      order there. */
  lemma MovePlacesTaskOnce(b: Grouped, id: TaskId, newStatus: string, updated: Task)
    requires ValidStatus(newStatus) && updated.id == id
    ensures var b' := MoveTask(b, id, newStatus, updated).value;
      && Occurrences(b', id) == 1
      && var col := Column(b', newStatus).value; |col| > 0 && col[|col| - 1] == updated
    ensures var b' := MoveTask(b, id, newStatus, updated).value;
      forall s :: ValidStatus(s) ==> Filter(Column(b', s).value, NotId(id)) == Filter(Column(b, s).value, NotId(id))
  {
    ColumnAfterMove(b, id, newStatus, updated, "todo");
    ColumnAfterMove(b, id, newStatus, updated, "in-progress");
    ColumnAfterMove(b, id, newStatus, updated, "review");
    ColumnAfterMove(b, id, newStatus, updated, "done");
  }

  /** Filtering out one id drops exactly the entries that carry it. */
  lemma RemovedLength(s: seq<Task>, id: TaskId)
    ensures |Filter(s, NotId(id))| + Count(s, HasId(id)) == |s|
  {
    FilterSplitCount(s, HasId(id), NotId(id));
  }

  /** A move keeps the number of tasks on the board when the task was on it exactly once,
      and the total counter counts every entry. */
  lemma MoveKeepsTotal(b: Grouped, id: TaskId, newStatus: string, updated: Task)
    requires ValidStatus(newStatus) && Occurrences(b, id) == 1
    ensures Size(MoveTask(b, id, newStatus, updated).value) == Size(b)
  {
    RemovedLength(b.todo, id);
    RemovedLength(b.inProgress, id);
    RemovedLength(b.review, id);
    RemovedLength(b.done, id);
  }

  /** A move succeeds for every response of the server's status route: that route answers
      success only for one of the four column keys. */
  lemma ServerStatusIsAColumn(b: Grouped, st: Store, caller: UserId, id: TaskId, s: string, env: Env)
    ensures StatusUpdated(b, id, s, UpdateStatus(st, caller, id, Some(s), env).res).Some?
  {
  }

  /** handleDrop: the dragged task, if any, is moved only onto a column other than its own;
      the drag state is always cleared. */
  function Drop(dragged: Option<Task>, column: string): (r: (Option<(TaskId, string)>, Option<Task>))
    ensures r.1.None?
    ensures r.0.Some? <==> dragged.Some? && dragged.value.status != column
    ensures r.0.Some? ==> r.0.value == (dragged.value.id, column)
  {
    if dragged.Some? && dragged.value.status != column then (Some((dragged.value.id, column)), None)
    else (None, None)
  }

  function ReplaceById(ts: seq<Task>, updated: Task): (r: seq<Task>)
    ensures |r| == |ts|
    ensures forall i :: 0 <= i < |ts| ==> r[i] == if ts[i].id == updated.id then updated else ts[i]
  {
    seq(|ts|, i requires 0 <= i < |ts| => if ts[i].id == updated.id then updated else ts[i])
  }

  /** onTaskUpdate of the detail modal: the task is replaced by id inside its column. */
  function DetailUpdate(b: Grouped, updated: Task): Grouped {
    Grouped(ReplaceById(b.todo, updated), ReplaceById(b.inProgress, updated),
            ReplaceById(b.review, updated), ReplaceById(b.done, updated))
  }

  function Ids(ts: seq<Task>): seq<TaskId> {
    seq(|ts|, i requires 0 <= i < |ts| => ts[i].id)
  }

  /** A detail update never moves a task between columns, whatever its new status: each
      column keeps its ids in order and the board its size. */
  lemma DetailUpdateStaysInPlace(b: Grouped, updated: Task)
    ensures forall s :: ValidStatus(s) ==> Ids(Column(DetailUpdate(b, updated), s).value) == Ids(Column(b, s).value)
    ensures Size(DetailUpdate(b, updated)) == Size(b)
  {
  }

  /** A task edited to a new status stays in its old column. */
  lemma DetailUpdateIgnoresStatus(t: Task)
    requires t.status == "todo"
    ensures DetailUpdate(Grouped([t], [], [], []), t.(status := "done")) == Grouped([t.(status := "done")], [], [], [])
  {
  }

  function IsHighPriority(t: Task): bool {
    t.priority == Some("high") || t.priority == Some("urgent")
  }

  function HighPriority(): Task -> bool {
    (t: Task) => IsHighPriority(t)
  }

  /** The high-priority counter, summed column by column. */
  function HighPriorityCount(b: Grouped): nat {
    Count(b.todo, HighPriority()) + Count(b.inProgress, HighPriority()) + Count(b.review, HighPriority())
    + Count(b.done, HighPriority())
  }

  /** The counter equals the number of high or urgent tasks on the whole board and never
      exceeds the total counter. */
  lemma HighPriorityCountsBoard(b: Grouped)
    ensures HighPriorityCount(b) == Count(b.todo + b.inProgress + b.review + b.done, HighPriority())
    ensures HighPriorityCount(b) <= Size(b)
  {
    FilterConcat(b.todo, b.inProgress, HighPriority());
    FilterConcat(b.todo + b.inProgress, b.review, HighPriority());
    FilterConcat(b.todo + b.inProgress + b.review, b.done, HighPriority());
  }
}
