/** The task record of the task-list screen and the value-level meaning of
    the three store operations (append, remove-first-match, edit-first-match).
    Tasks carry no identifier: two tasks are the same task exactly when their
    fields are equal, so every lookup is by value and picks the earliest match. */
module Tasks {

  datatype Option<T> = None | Some(value: T)

  /** A row of the list: a title and an optional opaque image reference. */
  datatype Task = Task(title: string, imageUri: Option<string>)

  /** `task.copy(title = newTitle)`: a new record that differs from `t` at most in its title. */
  function WithTitle(t: Task, newTitle: string): (r: Task)
    ensures r.title == newTitle
    ensures r.imageUri == t.imageUri
  {
    t.(title := newTitle)
  }

  /** `indexOf`: the position of the first task structurally equal to `t`, or -1. */
  function FirstIndex(s: seq<Task>, t: Task): (i: int)
    ensures -1 <= i < |s|
    ensures i == -1 <==> t !in s
    ensures 0 <= i ==> s[i] == t && t !in s[..i]
  {
    if s == [] then -1
    else if s[0] == t then 0
    else
      var j := FirstIndex(s[1..], t);
      assert j >= 0 ==> s[..j + 1] == [s[0]] + s[1..][..j];
      if j == -1 then -1 else j + 1
  }

  /** `remove`: drop the first task equal to `t`; leave the list alone when there is none. */
  function RemoveFirst(s: seq<Task>, t: Task): (r: seq<Task>)
    ensures t !in s ==> r == s
    ensures t in s ==> |r| == |s| - 1
    ensures multiset(r) == multiset(s) - multiset{t}
  {
    if s == [] then []
    else
      assert s == [s[0]] + s[1..];
      if s[0] == t then s[1..] else [s[0]] + RemoveFirst(s[1..], t)
  }

  /** The edit handler: overwrite the first task equal to `t` by its copy with `newTitle`. */
  function EditFirst(s: seq<Task>, t: Task, newTitle: string): (r: seq<Task>)
    ensures |r| == |s|
    ensures t !in s ==> r == s
    ensures t in s ==> r[FirstIndex(s, t)] == Task(newTitle, s[FirstIndex(s, t)].imageUri)
    ensures forall k :: 0 <= k < |s| && k != FirstIndex(s, t) ==> r[k] == s[k]
  {
    var i := FirstIndex(s, t);
    if i == -1 then s else s[i := WithTitle(t, newTitle)]
  }

  /** Removal takes out exactly the slot `FirstIndex` finds and keeps everything
      before and after it in order; later duplicates of `t` stay. */
  lemma {:induction false} RemoveFirstAt(s: seq<Task>, t: Task)
    requires t in s
    ensures RemoveFirst(s, t) == s[..FirstIndex(s, t)] + s[FirstIndex(s, t) + 1..]
  {
    if s[0] != t {
      InTail(s, t);
      var j := FirstIndex(s[1..], t);
      assert FirstIndex(s, t) == j + 1;
      RemoveFirstAt(s[1..], t);
      var front, back := s[1..][..j], s[1..][j + 1..];
      assert RemoveFirst(s, t) == [s[0]] + (front + back);
      SlicesOfTail(s, j);
      ConcatAssoc([s[0]], front, back);
    }
  }

  /** A task present in `s` but not at its head is present in its tail. */
  lemma InTail(s: seq<Task>, t: Task)
    requires t in s && s[0] != t
    ensures t in s[1..]
  {
  }

  /** How prefixes and suffixes of `s[1..]` sit inside `s`. */
  lemma SlicesOfTail<T>(s: seq<T>, j: nat)
    requires j + 1 < |s|
    ensures s[..j + 1] == [s[0]] + s[1..][..j]
    ensures s[j + 2..] == s[1..][j + 1..]
  {
  }

  lemma ConcatAssoc<T>(a: seq<T>, b: seq<T>, c: seq<T>)
    ensures a + (b + c) == (a + b) + c
  {
  }

  /** Adding a task that is not yet listed and then deleting it gives back the original list. */
  lemma {:induction false} AppendThenRemove(s: seq<Task>, t: Task)
    requires t !in s
    ensures RemoveFirst(s + [t], t) == s
  {
    if s == [] {
    } else {
      assert (s + [t])[1..] == s[1..] + [t];
      AppendThenRemove(s[1..], t);
      assert s == [s[0]] + s[1..];
    }
  }

  /** When an equal task is already listed, deleting right after an add removes
      the earlier copy instead: the new row survives at the end of the list. */
  lemma {:induction false} AppendThenRemoveDuplicate(s: seq<Task>, t: Task)
    requires t in s
    ensures RemoveFirst(s + [t], t) == RemoveFirst(s, t) + [t]
  {
    assert (s + [t])[1..] == s[1..] + [t];
    if s[0] != t {
      InTail(s, t);
      AppendThenRemoveDuplicate(s[1..], t);
      ConcatAssoc([s[0]], RemoveFirst(s[1..], t), [t]);
    }
  }

  /** Saving an edit whose title equals the current title leaves the list as it was. */
  lemma EditSameTitle(s: seq<Task>, t: Task)
    ensures EditFirst(s, t, t.title) == s
  {
  }

  /** After an edit that changes the title, the edited row no longer matches `t`:
      a second lookup of `t` finds only a later duplicate, or nothing. */
  lemma EditThenFind(s: seq<Task>, t: Task, newTitle: string)
    requires t in s && newTitle != t.title
    ensures FirstIndex(EditFirst(s, t, newTitle), t) == -1 || FirstIndex(EditFirst(s, t, newTitle), t) > FirstIndex(s, t)
  {
  }
}
