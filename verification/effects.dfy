/** How the task routes move the counts the views show.

    The views report `CountsOf(tasks, caller)` (see `Views.Describes`). Each
    lemma here says how one route changes those counts, for every user `u`.
    Because `update` and `delete` ignore ownership, the task they touch may
    belong to someone other than the caller; only its owner's counts move.
 */
module Effects {
  import opened Models
  import opened Tasks
  import opened Views

  /** Whether a key counts towards a filter's selection, as 0 or 1. */
  function Hit(tasks: map<TaskId, ToDo>, id: TaskId, q: Query): int
  {
    if id in tasks && Matches(q, tasks[id]) then 1 else 0
  }

  /** Storing a task under a key: the key leaves the selection if its old
      task matched, and joins it if the new task matches. */
  lemma SelectedStore(tasks: map<TaskId, ToDo>, id: TaskId, t: ToDo, q: Query)
    ensures Selected(tasks[id := t], q) - {id} == Selected(tasks, q) - {id}
    ensures id in Selected(tasks[id := t], q) <==> Matches(q, t)
    ensures |Selected(tasks[id := t], q)|
            == |Selected(tasks, q)| - Hit(tasks, id, q) + (if Matches(q, t) then 1 else 0)
  {
    var a, b := Selected(tasks, q), Selected(tasks[id := t], q);
    assert b - {id} == a - {id};
    if id in a { assert |a - {id}| == |a| - 1; }
    else { assert a - {id} == a; }
    if id in b { assert |b - {id}| == |b| - 1; }
    else { assert b - {id} == b; }
  }

  /** Removing a key takes it out of the selection. */
  lemma SelectedRemove(tasks: map<TaskId, ToDo>, id: TaskId, q: Query)
    ensures Selected(tasks - {id}, q) == Selected(tasks, q) - {id}
    ensures |Selected(tasks - {id}, q)| == |Selected(tasks, q)| - Hit(tasks, id, q)
  {
    var a, b := Selected(tasks, q), Selected(tasks - {id}, q);
    assert b == a - {id};
    if id !in a { assert a - {id} == a; }
  }

  /** Adding a task gives the caller one more task, uncompleted; nobody
      else's counts move. */
  lemma AddEffect(s: State, title: Option<string>, u: UserId)
    requires CurrentUser(s).Some?
    ensures var c, c' := CountsOf(s.tasks, u), CountsOf(Add(s, title).0.tasks, u);
            if u == CurrentUser(s).value then c' == Counts(c.total + 1, c.completed, c.uncompleted + 1)
            else c' == c
  {
    var r := Add(s, title);
    var id, t := r.1, r.0.tasks[r.1];
    assert r.0.tasks == s.tasks[id := t];
    SelectedStore(s.tasks, id, t, Query(u, None));
    SelectedStore(s.tasks, id, t, Query(u, Some(true)));
    SelectedStore(s.tasks, id, t, Query(u, Some(false)));
  }

  /** Toggling moves one task of its owner between the completed and the
      uncompleted count; no total moves, and no other user's counts move. */
  lemma ToggleEffect(s: State, id: TaskId, u: UserId)
    requires id in s.tasks
    ensures var c, c' := CountsOf(s.tasks, u), CountsOf(Toggle(s, id).tasks, u);
            var t := s.tasks[id];
            && c'.total == c.total
            && (t.owner != u ==> c' == c)
            && (t.owner == u && !t.complete ==> c' == Counts(c.total, c.completed + 1, c.uncompleted - 1))
            && (t.owner == u && t.complete ==> c' == Counts(c.total, c.completed - 1, c.uncompleted + 1))
  {
    var t := s.tasks[id];
    var t' := t.(complete := !t.complete);
    assert Toggle(s, id).tasks == s.tasks[id := t'];
    SelectedStore(s.tasks, id, t', Query(u, None));
    SelectedStore(s.tasks, id, t', Query(u, Some(true)));
    SelectedStore(s.tasks, id, t', Query(u, Some(false)));
  }

  /** Deleting a task takes it out of its owner's counts; no other user's
      counts move. */
  lemma DeleteEffect(s: State, id: TaskId, u: UserId)
    requires id in s.tasks
    ensures var c, c' := CountsOf(s.tasks, u), CountsOf(Delete(s, id).tasks, u);
            var t := s.tasks[id];
            && (t.owner != u ==> c' == c)
            && (t.owner == u && t.complete ==> c' == Counts(c.total - 1, c.completed - 1, c.uncompleted))
            && (t.owner == u && !t.complete ==> c' == Counts(c.total - 1, c.completed, c.uncompleted - 1))
  {
    SelectedRemove(s.tasks, id, Query(u, None));
    SelectedRemove(s.tasks, id, Query(u, Some(true)));
    SelectedRemove(s.tasks, id, Query(u, Some(false)));
  }
}
