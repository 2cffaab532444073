/**
 * The tasks slice: a map from to-do list id to that list's tasks, newest
 * first, edited in place by case reducers that react to task operations and
 * to the to-do list slice's actions.
 */
module Tasks {
  import opened Wrappers

  datatype TaskStatus = New | InProgress | Completed | Draft
  datatype TaskPriority = Low | Middle | Hi | Urgently | Later

  /** A task record as the server returns it. */
  datatype Task = Task(
    id: string, todoListId: string,
    title: string, description: string, status: TaskStatus, priority: TaskPriority,
    startDate: string, deadline: string,
    order: int, addedDate: string)

  /** A partial field set: `None` marks a field the caller did not give. */
  datatype TaskPatch = TaskPatch(
    title: Option<string>, description: Option<string>, status: Option<TaskStatus>,
    priority: Option<TaskPriority>, startDate: Option<string>, deadline: Option<string>)

  /** The complete field snapshot the server requires on every update. */
  datatype UpdateTaskModel = UpdateTaskModel(
    deadline: string, description: string, priority: TaskPriority,
    startDate: string, title: string, status: TaskStatus)

  /** The argument (and, on success, the result) of the update operation. */
  datatype UpdateTaskArg = UpdateTaskArg(taskId: string, domainModel: TaskPatch, todolistId: string)

  /** A field after a merge: the patch's value when given, else the current one. */
  predicate FieldFrom<T(==)>(result: T, patch: Option<T>, current: T) {
    match patch
    case Some(v) => result == v
    case None => result == current
  }

  /** The shallow merge `{ ...task, ...patch }` done by the reducer on success. */
  function Overlay(t: Task, p: TaskPatch): (r: Task)
    ensures r.id == t.id && r.todoListId == t.todoListId && r.order == t.order && r.addedDate == t.addedDate
    ensures FieldFrom(r.title, p.title, t.title) && FieldFrom(r.description, p.description, t.description)
    ensures FieldFrom(r.status, p.status, t.status) && FieldFrom(r.priority, p.priority, t.priority)
    ensures FieldFrom(r.startDate, p.startDate, t.startDate) && FieldFrom(r.deadline, p.deadline, t.deadline)
  {
    t.(title := p.title.GetOr(t.title), description := p.description.GetOr(t.description),
       status := p.status.GetOr(t.status), priority := p.priority.GetOr(t.priority),
       startDate := p.startDate.GetOr(t.startDate), deadline := p.deadline.GetOr(t.deadline))
  }

  /** The six updatable fields of a task. */
  function ModelOf(t: Task): UpdateTaskModel {
    UpdateTaskModel(t.deadline, t.description, t.priority, t.startDate, t.title, t.status)
  }

  /** The snapshot sent by the update operation: the current task's fields overlaid by the patch. */
  function ApiModel(t: Task, p: TaskPatch): (r: UpdateTaskModel)
    ensures FieldFrom(r.deadline, p.deadline, t.deadline) && FieldFrom(r.description, p.description, t.description)
    ensures FieldFrom(r.priority, p.priority, t.priority) && FieldFrom(r.startDate, p.startDate, t.startDate)
    ensures FieldFrom(r.title, p.title, t.title) && FieldFrom(r.status, p.status, t.status)
  {
    var base := ModelOf(t);
    base.(deadline := p.deadline.GetOr(base.deadline), description := p.description.GetOr(base.description),
          priority := p.priority.GetOr(base.priority), startDate := p.startDate.GetOr(base.startDate),
          title := p.title.GetOr(base.title), status := p.status.GetOr(base.status))
  }

  /** The snapshot sent to the server is exactly the record the reducer commits on success. */
  lemma SentModelMatchesCommittedTask(t: Task, p: TaskPatch)
    ensures ApiModel(t, p) == ModelOf(Overlay(t, p))
  {
  }

  /** `findIndex` on task ids: the first position holding `id`, or -1. */
  function FirstIndexOf(ts: seq<Task>, id: string): (r: int)
    ensures -1 <= r < |ts|
    ensures r == -1 <==> forall j :: 0 <= j < |ts| ==> ts[j].id != id
    ensures r >= 0 ==> ts[r].id == id && forall j :: 0 <= j < r ==> ts[j].id != id
    decreases |ts|
  {
    if ts == [] then -1
    else if ts[0].id == id then 0
    else
      var k := FirstIndexOf(ts[1..], id);
      if k == -1 then -1 else k + 1
  }

  /** Reference definition: the list without its first task carrying `id`. */
  function WithoutFirst(ts: seq<Task>, id: string): seq<Task>
    decreases |ts|
  {
    if ts == [] then []
    else if ts[0].id == id then ts[1..]
    else [ts[0]] + WithoutFirst(ts[1..], id)
  }

  /** Reference definition: the list with its first task carrying `id` merged with the patch. */
  function UpdateFirst(ts: seq<Task>, id: string, p: TaskPatch): seq<Task>
    decreases |ts|
  {
    if ts == [] then []
    else if ts[0].id == id then [Overlay(ts[0], p)] + ts[1..]
    else [ts[0]] + UpdateFirst(ts[1..], id, p)
  }

  /** Removing the first match is splicing at `findIndex`; with no match the list is unchanged. */
  lemma {:induction false} WithoutFirstIsSplice(ts: seq<Task>, id: string)
    ensures var i := FirstIndexOf(ts, id);
      WithoutFirst(ts, id) == if i == -1 then ts else ts[..i] + ts[i + 1..]
    decreases |ts|
  {
    if ts != [] && ts[0].id != id {
      WithoutFirstIsSplice(ts[1..], id);
      var k := FirstIndexOf(ts[1..], id);
      if k != -1 {
        assert [ts[0]] + (ts[1..][..k] + ts[1..][k + 1..]) == ts[..k + 1] + ts[k + 2..];
      } else {
        assert [ts[0]] + ts[1..] == ts;
      }
    }
  }

  /** Merging into the first match is a write at `findIndex`; with no match the list is unchanged. */
  lemma {:induction false} UpdateFirstIsIndexedWrite(ts: seq<Task>, id: string, p: TaskPatch)
    ensures var i := FirstIndexOf(ts, id);
      UpdateFirst(ts, id, p) == if i == -1 then ts else ts[i := Overlay(ts[i], p)]
    decreases |ts|
  {
    if ts != [] {
      if ts[0].id == id {
        assert [Overlay(ts[0], p)] + ts[1..] == ts[0 := Overlay(ts[0], p)];
      } else {
        UpdateFirstIsIndexedWrite(ts[1..], id, p);
        var k := FirstIndexOf(ts[1..], id);
        if k != -1 {
          assert [ts[0]] + ts[1..][k := Overlay(ts[1..][k], p)] == ts[k + 1 := Overlay(ts[k + 1], p)];
        } else {
          assert [ts[0]] + ts[1..] == ts;
        }
      }
    }
  }

  /**
   * Removing a task: with no match the list is unchanged; otherwise exactly the
   * first match goes, the length drops by one and the others keep their order.
   */
  lemma {:induction false} RemoveTaskEffect(ts: seq<Task>, id: string)
    ensures (forall j :: 0 <= j < |ts| ==> ts[j].id != id) ==> WithoutFirst(ts, id) == ts
    ensures var i := FirstIndexOf(ts, id);
      i != -1 ==>
        && |WithoutFirst(ts, id)| == |ts| - 1
        && (forall j :: 0 <= j < i ==> WithoutFirst(ts, id)[j] == ts[j])
        && (forall j :: i <= j < |ts| - 1 ==> WithoutFirst(ts, id)[j] == ts[j + 1])
  {
    WithoutFirstIsSplice(ts, id);
  }

  /**
   * Updating a task: length, order and every other task are unchanged; the
   * first match takes the patched fields and keeps the rest, its id and its
   * list id; with no match nothing changes.
   */
  lemma {:induction false} UpdateTaskEffect(ts: seq<Task>, id: string, p: TaskPatch)
    ensures |UpdateFirst(ts, id, p)| == |ts|
    ensures (forall j :: 0 <= j < |ts| ==> ts[j].id != id) ==> UpdateFirst(ts, id, p) == ts
    ensures var i := FirstIndexOf(ts, id);
      i != -1 ==>
        && UpdateFirst(ts, id, p)[i] == Overlay(ts[i], p)
        && (forall j :: 0 <= j < |ts| && j != i ==> UpdateFirst(ts, id, p)[j] == ts[j])
  {
    UpdateFirstIsIndexedWrite(ts, id, p);
  }

  /** The slice's state, updated in place by the case reducers. */
  class TasksStore {
    var tasks: map<string, seq<Task>>

    constructor ()
      ensures tasks == map[]
    {
      tasks := map[];
    }

    /** `removeTask`: drops the first task with the id from an existing list. */
    method RemoveTask(taskId: string, todolistId: string)
      requires todolistId in tasks
      modifies this
      ensures tasks == old(tasks)[todolistId := WithoutFirst(old(tasks)[todolistId], taskId)]
    {
      var list := tasks[todolistId];
      var index := FirstIndexOf(list, taskId);
      WithoutFirstIsSplice(list, taskId);
      if index != -1 {
        tasks := tasks[todolistId := list[..index] + list[index + 1..]];
      } else {
        assert tasks == tasks[todolistId := list];
      }
    }

    /** `fetchTasks.fulfilled`: the list's entry becomes exactly the fetched tasks. */
    method FetchTasksFulfilled(fetched: seq<Task>, todolistId: string)
      modifies this
      ensures tasks == old(tasks)[todolistId := fetched]
    {
      tasks := tasks[todolistId := fetched];
    }

    /** `addTask.fulfilled`: the new task goes first in the list named by its own list id. */
    method AddTaskFulfilled(task: Task)
      requires task.todoListId in tasks
      modifies this
      ensures tasks == old(tasks)[task.todoListId := [task] + old(tasks)[task.todoListId]]
    {
      var list := tasks[task.todoListId];
      tasks := tasks[task.todoListId := [task] + list];
    }

    /** `updateTask.fulfilled`: merges the patch into the first task with the id, if any. */
    method UpdateTaskFulfilled(arg: UpdateTaskArg)
      requires arg.todolistId in tasks
      modifies this
      ensures tasks == old(tasks)[arg.todolistId := UpdateFirst(old(tasks)[arg.todolistId], arg.taskId, arg.domainModel)]
    {
      var list := tasks[arg.todolistId];
      var index := FirstIndexOf(list, arg.taskId);
      UpdateFirstIsIndexedWrite(list, arg.taskId, arg.domainModel);
      if index != -1 {
        tasks := tasks[arg.todolistId := list[index := Overlay(list[index], arg.domainModel)]];
      } else {
        assert tasks == tasks[arg.todolistId := list];
      }
    }

    /** `addTodolist`: the new list starts with no tasks. */
    method AddTodolist(todolistId: string)
      modifies this
      ensures tasks == old(tasks)[todolistId := []]
    {
      tasks := tasks[todolistId := []];
    }

    /** `removeTodolist`: deletes exactly that list's entry. */
    method RemoveTodolist(todolistId: string)
      modifies this
      ensures tasks == old(tasks) - {todolistId}
    {
      tasks := tasks - {todolistId};
    }

    /** `setTodolists`: every incoming list id maps to no tasks; other entries stay. */
    method SetTodolists(todolistIds: seq<string>)
      modifies this
      ensures tasks.Keys == old(tasks).Keys + set id | id in todolistIds
      ensures forall id :: id in todolistIds ==> tasks[id] == []
      ensures forall id :: id in old(tasks) && id !in todolistIds ==> tasks[id] == old(tasks)[id]
    {
      var i := 0;
      while i < |todolistIds|
        invariant 0 <= i <= |todolistIds|
        invariant tasks.Keys == old(tasks).Keys + set id | id in todolistIds[..i]
        invariant forall id :: id in todolistIds[..i] ==> tasks[id] == []
        invariant forall id :: id in old(tasks) && id !in todolistIds[..i] ==> tasks[id] == old(tasks)[id]
      {
        assert todolistIds[..i + 1] == todolistIds[..i] + [todolistIds[i]];
        tasks := tasks[todolistIds[i] := []];
        i := i + 1;
      }
      assert todolistIds[..i] == todolistIds;
    }

    /** `clearTasksAndTodolists`: the whole slice becomes empty. */
    method ClearTasksAndTodolists()
      modifies this
      ensures tasks == map[]
    {
      tasks := map[];
    }
  }
}
