/** The list of tasks the screen owns (a `mutableStateListOf<Task>`): an ordered,
    mutable list updated in place by the add, delete and edit handlers. */
module Store {
  import opened Tasks

  class TaskStore {
    var tasks: seq<Task>

    /** The screen starts with no tasks. */
    constructor ()
      ensures tasks == []
    {
      tasks := [];
    }

    /** `tasks.indexOf(t)`: a front-to-back scan for the first structurally equal task. */
    method IndexOf(t: Task) returns (i: int)
      ensures -1 <= i < |tasks|
      ensures i == -1 <==> t !in tasks
      ensures 0 <= i ==> tasks[i] == t && forall k :: 0 <= k < i ==> tasks[k] != t
      ensures i == FirstIndex(tasks, t)
    {
      var k := 0;
      while k < |tasks|
        invariant 0 <= k <= |tasks|
        invariant forall j :: 0 <= j < k ==> tasks[j] != t
      {
        if tasks[k] == t {
          assert t !in tasks[..k];
          return k;
        }
        k := k + 1;
      }
      assert tasks[..k] == tasks;
      return -1;
    }

    /** The add handler: `tasks.add(Task(title, imageUri))`. */
    method Append(t: Task)
      modifies this
      ensures tasks == old(tasks) + [t]
    {
      tasks := tasks + [t];
    }

    /** The delete handler: `tasks.remove(t)`, which reports whether a task was removed. */
    method Remove(t: Task) returns (removed: bool)
      modifies this
      ensures removed <==> t in old(tasks)
      ensures tasks == RemoveFirst(old(tasks), t)
    {
      var i := IndexOf(t);
      removed := i != -1;
      if removed {
        RemoveFirstAt(tasks, t);
        tasks := tasks[..i] + tasks[i + 1..];
      }
    }

    /** The edit handler: look the task up by value and, when found, overwrite
        that slot with its copy carrying `newTitle`. */
    method EditTitle(t: Task, newTitle: string)
      modifies this
      ensures tasks == EditFirst(old(tasks), t, newTitle)
    {
      var i := IndexOf(t);
      if i != -1 {
        tasks := tasks[i := WithTitle(t, newTitle)];
      }
    }
  }

  /** A run of presses of Add Task: the tasks appear after the old ones, in the order added. */
  method AppendInOrder(store: TaskStore, ts: seq<Task>)
    modifies store
    ensures store.tasks == old(store.tasks) + ts
  {
    for k := 0 to |ts|
      invariant store.tasks == old(store.tasks) + ts[..k]
    {
      store.Append(ts[k]);
      assert ts[..k + 1] == ts[..k] + [ts[k]];
    }
    assert ts[..|ts|] == ts;
  }
}
