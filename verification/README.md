# Task list state, modelled in Dafny

This project models the in-memory state behind the task-list screen of the
Extended-ToDo Android app (`MainActivity.kt`). It covers three things:

- the task record `Task(title, imageUri?)`, which has no identifier, so two tasks are equal when their fields are;
- the screen's task list with its three handlers: add appends, delete removes the first equal task, and edit overwrites the first equal task's title in place;
- the two drafts: the add form (title text and picked image, with a non-empty guard and a reset), and each row's edit dialog (open flag and draft title, with Save, Cancel and dismiss).

Files:

- `tasks.dfy` (module `Tasks`): the `Task` value, and pure functions that say what each handler does to a list (`FirstIndex`, `RemoveFirst`, `EditFirst`), plus lemmas relating them.
- `store.dfy` (module `Store`): class `TaskStore` with a `tasks: seq<Task>` field. Its methods update that field in place. `IndexOf`, `Remove` and `EditTitle` are proved against the functions of `Tasks`. `Append` is specified directly as adding at the end, and `AppendInOrder` shows that a run of adds keeps call order.
- `forms.dfy` (module `Forms`): classes `AddForm` and `EditDialog`, whose methods reassign the draft fields and call into the store. It also has two client methods. `Scenarios` walks through the add, edit and duplicate-delete cases. `TwoSaves` shows two saves from the same row's dialog.

Notes on the handlers:

- The edit dialog edits only the title. The code writes `task.copy(title = newTitle)`, so the image is kept. No image can be re-picked while editing.
- The edit handler returns nothing. The code never reports whether a match was found.
- The delete handler's `Remove` does return whether a task was removed, because that is what Kotlin's `MutableList.remove` returns. The screen ignores this value.

## Model

| member | source | states |
|---|---|---|
| Tasks.WithTitle | app/src/main/java/com/example/tasklistapp/MainActivity.kt:79 | `task.copy(title = newTitle)` has the new title and keeps the image reference |
| Tasks.FirstIndex | app/src/main/java/com/example/tasklistapp/MainActivity.kt:77 | `indexOf` is -1 exactly when no equal task is listed; otherwise it is the position of an equal task with no equal task before it |
| Tasks.RemoveFirst | app/src/main/java/com/example/tasklistapp/MainActivity.kt:72 | `remove` leaves the list unchanged when nothing matches; otherwise it removes exactly one copy of the task (length drops by one, multiset loses one `t`) |
| Tasks.EditFirst | app/src/main/java/com/example/tasklistapp/MainActivity.kt:76-81 | edit keeps the length; with no match it is a no-op; at the first match the task gets the new title (empty or not) and keeps its image; every other index is unchanged |
| Tasks.RemoveFirstAt | app/src/main/java/com/example/tasklistapp/MainActivity.kt:72 | delete removes exactly the earliest equal task and keeps everything before and after it in order, later duplicates included |
| Tasks.AppendThenRemove | app/src/main/java/com/example/tasklistapp/MainActivity.kt:71-87 | adding a task that is not listed and then deleting it restores the original list |
| Tasks.AppendThenRemoveDuplicate | app/src/main/java/com/example/tasklistapp/MainActivity.kt:71-87 | if an equal task is already listed, add-then-delete removes the earlier copy, and the new row stays at the end |
| Tasks.EditSameTitle | app/src/main/java/com/example/tasklistapp/MainActivity.kt:76-81 | saving an edit with an unchanged title leaves the list as it was |
| Tasks.EditThenFind | app/src/main/java/com/example/tasklistapp/MainActivity.kt:76-81 | after an edit that changes the title, a new lookup of the old value finds nothing, or only a later duplicate |
| Store.TaskStore.constructor | app/src/main/java/com/example/tasklistapp/MainActivity.kt:52 | the list starts empty |
| Store.TaskStore.IndexOf | app/src/main/java/com/example/tasklistapp/MainActivity.kt:77 | the linear scan returns -1 exactly when the task is absent; otherwise it returns a matching index with no match before it, which equals `FirstIndex` |
| Store.TaskStore.Append | app/src/main/java/com/example/tasklistapp/MainActivity.kt:85-87 | add puts the task at the end and leaves all earlier tasks in place |
| Store.TaskStore.Remove | app/src/main/java/com/example/tasklistapp/MainActivity.kt:71-73 | delete reports whether the task was listed, and the new list is `RemoveFirst` of the old one |
| Store.AppendInOrder | app/src/main/java/com/example/tasklistapp/MainActivity.kt:85-87 | a run of adds lists the new tasks after the old ones, in call order |
| Store.TaskStore.EditTitle | app/src/main/java/com/example/tasklistapp/MainActivity.kt:76-81 | the new list is `EditFirst` of the old one |
| Forms.AddForm.constructor | app/src/main/java/com/example/tasklistapp/MainActivity.kt:100-101 | the add draft starts with title `""` and no image |
| Forms.AddForm.EnterTitle | app/src/main/java/com/example/tasklistapp/MainActivity.kt:119-121 | typing replaces the draft title and keeps the picked image |
| Forms.AddForm.PickImage | app/src/main/java/com/example/tasklistapp/MainActivity.kt:102-106 | a picker result becomes the draft image, and the title is kept |
| Forms.AddForm.Submit | app/src/main/java/com/example/tasklistapp/MainActivity.kt:139-145 | with a non-empty title, appends `Task(title, image)` and resets the draft to `""` with no image; with an empty title, changes neither the list nor the draft, so the picked image is kept |
| Forms.EditDialog.constructor | app/src/main/java/com/example/tasklistapp/MainActivity.kt:177-178 | the dialog starts closed, with its draft seeded from the row's title |
| Forms.EditDialog.Rebind | app/src/main/java/com/example/tasklistapp/MainActivity.kt:163-178 | each time the list is drawn, the row is handed its current task; the remembered draft and open flag are kept |
| Forms.EditDialog.Open | app/src/main/java/com/example/tasklistapp/MainActivity.kt:203 | the edit icon opens the dialog and leaves the draft and task as they were |
| Forms.EditDialog.EnterTitle | app/src/main/java/com/example/tasklistapp/MainActivity.kt:214 | typing, only possible while the dialog is shown, changes only the draft title |
| Forms.EditDialog.Confirm | app/src/main/java/com/example/tasklistapp/MainActivity.kt:219-221 | Save, only possible while the dialog is shown, applies `EditFirst` with the row's current task and the draft title, with no emptiness check, then closes the dialog |
| Forms.EditDialog.Close | app/src/main/java/com/example/tasklistapp/MainActivity.kt:226-229 | Cancel (and dismissing, line 211, which runs the same code), only possible while the dialog is shown, closes the dialog and leaves the list untouched |

## Left out

- Layout and rendering are not modelled: columns, rows, text fields, buttons, theme, the preview, and the per-row loop that draws the list. They hold no list logic.
- The runtime permission request, its Android-version branch and the "Permission denied" toast are not modelled. They are calls into the operating system.
- Forms.AddForm.PickImage: takes the picked reference as a plain string. The code stores `uri.toString()`, so a cancelled picker writes the text `"null"` into the draft. That platform quirk is not modelled, and neither is the picker activity itself.
- The per-row grayscale toggle and its colour-matrix filter are not modelled. They only affect how the image is drawn.
- Compose `remember` lifetimes are not modelled beyond what `EditDialog` keeps. The row's task is re-bound on every redraw (`Rebind`), while the draft title is seeded once and never re-seeded, as the code does. When a redraw moves a dialog to a different row, or drops its row, that is not modelled.
