/** The two drafts the screen keeps outside the list: the add form at the top
    of the screen and the per-row edit dialog. */
module Forms {
  import opened Tasks
  import opened Store

  /** The add form: the text typed in the title field and the image picked for the next task. */
  class AddForm {
    var title: string
    var image: Option<string>

    /** The draft starts empty: no title, no image. */
    constructor ()
      ensures title == "" && image == None
    {
      title := "";
      image := None;
    }

    /** Typing in the title field replaces the draft title. */
    method EnterTitle(text: string)
      modifies this
      ensures title == text && image == old(image)
    {
      title := text;
    }

    /** A result from the image picker replaces the draft image. */
    method PickImage(uri: string)
      modifies this
      ensures image == Some(uri) && title == old(title)
    {
      image := Some(uri);
    }

    /** The Add Task button: commit only a non-empty title, then clear the draft.
        An empty title commits nothing and keeps the draft, picked image included. */
    method Submit(store: TaskStore)
      modifies this, store
      ensures old(title) != "" ==> store.tasks == old(store.tasks) + [Task(old(title), old(image))]
      ensures old(title) != "" ==> title == "" && image == None
      ensures old(title) == "" ==> store.tasks == old(store.tasks)
      ensures old(title) == "" ==> title == old(title) && image == old(image)
    {
      if title != "" {
        store.Append(Task(title, image));
        title := "";
        image := None;
      }
    }
  }

  /** The edit dialog of one row: whether it is shown, and the title being typed.
      `task` is the row's current value, passed in afresh each time the list is
      drawn; the draft is seeded from it once and then kept. */
  class EditDialog {
    var task: Task
    var open: bool
    var draft: string

    constructor (task: Task)
      ensures this.task == task && !open && draft == task.title
    {
      this.task := task;
      open := false;
      draft := task.title;
    }

    /** The list is drawn again and hands this row its current task: only the
        task changes, the remembered draft and open flag stay as they were. */
    method Rebind(current: Task)
      modifies this
      ensures task == current
      ensures open == old(open) && draft == old(draft)
    {
      task := current;
    }

    /** The row's edit icon shows the dialog; the draft is left as it was. */
    method Open()
      modifies this
      ensures open && draft == old(draft) && task == old(task)
    {
      open := true;
    }

    /** Typing in the dialog's title field changes only the draft. */
    method EnterTitle(text: string)
      requires open
      modifies this
      ensures draft == text && open && task == old(task)
    {
      draft := text;
    }

    /** Save changes: edit the first task equal to `task` with the draft title,
        with no check that the title is non-empty, then hide the dialog. */
    method Confirm(store: TaskStore)
      requires open
      modifies this, store
      ensures store.tasks == EditFirst(old(store.tasks), old(task), old(draft))
      ensures !open && draft == old(draft) && task == old(task)
    {
      store.EditTitle(task, draft);
      open := false;
    }

    /** Cancel, or dismissing the dialog: hide it and leave the list untouched. */
    method Close(store: TaskStore)
      requires open
      modifies this
      ensures !open && draft == old(draft) && task == old(task)
      ensures store.tasks == old(store.tasks)
    {
      open := false;
    }
  }

  /** A client of the screen: add then edit a task, delete one of two equal
      tasks, and press Add Task with an image but no title. */
  method Scenarios()
  {
    var store := new TaskStore();
    var milk := Task("Buy milk", None);
    store.Append(milk);
    assert store.tasks == [milk];
    store.EditTitle(milk, "Buy oat milk");
    assert store.tasks == [Task("Buy oat milk", None)];

    var a := Task("A", None);
    var dup := new TaskStore();
    dup.Append(a);
    dup.Append(a);
    var removed := dup.Remove(a);
    assert removed && dup.tasks == [a];

    var form := new AddForm();
    form.PickImage("content://image/1");
    form.Submit(store);
    assert store.tasks == [Task("Buy oat milk", None)];
    assert form.title == "" && form.image == Some("content://image/1");
  }

  /** Two saves from the same row's dialog: the second one edits the row's current value. */
  method TwoSaves()
  {
    var list := new TaskStore();
    list.Append(Task("A", None));
    var dialog := new EditDialog(Task("A", None));
    dialog.Open();
    dialog.EnterTitle("B");
    dialog.Confirm(list);
    assert list.tasks == [Task("B", None)];
    dialog.Rebind(list.tasks[0]);
    dialog.Open();
    dialog.EnterTitle("C");
    dialog.Confirm(list);
    assert list.tasks == [Task("C", None)];
  }
}
