/** The task routes: `add`, `update` and `delete`.

    None of the three is guarded by `login_required`, and `update` and
    `delete` take a task id from the URL without comparing the task's owner
    with the caller: any client, logged in or not, may toggle or delete any
    task. The model keeps that: neither `Toggle` nor `Delete` looks at the
    session.

    Preconditions mark where the handlers crash instead of answering: `add`
    reads `current_user.id`, which the anonymous user does not have, and
    `update`/`delete` use the result of `.first()` without checking it for
    `None`.
 */
module Tasks {
  import Ids
  import opened Models

  /** The `add` route: a new incomplete task owned by the caller. */
  function Add(s: State, title: Option<string>): (r: (State, TaskId))
    requires CurrentUser(s).Some?
    ensures var (s', id) := r;
            && id !in s.tasks
            && s'.tasks.Keys == s.tasks.Keys + {id}
            && s'.tasks[id] == ToDo(title, false, CurrentUser(s).value)
            && (forall t :: t in s.tasks ==> s'.tasks[t] == s.tasks[t])
            && s'.users == s.users
            && s'.session == s.session
  {
    var id := Ids.FreshId(s.tasks.Keys);
    (s.(tasks := s.tasks[id := ToDo(title, false, CurrentUser(s).value)]), id)
  }

  /** The `update` route: flips the completion flag of one task. */
  function Toggle(s: State, id: TaskId): (r: State)
    requires id in s.tasks
    ensures r.tasks.Keys == s.tasks.Keys
    ensures r.tasks[id].complete == !s.tasks[id].complete
    ensures r.tasks[id].title == s.tasks[id].title && r.tasks[id].owner == s.tasks[id].owner
    ensures forall t :: t in s.tasks && t != id ==> r.tasks[t] == s.tasks[t]
    ensures r.users == s.users && r.session == s.session
  {
    var t := s.tasks[id];
    s.(tasks := s.tasks[id := t.(complete := !t.complete)])
  }

  /** The `delete` route: removes one task. */
  function Delete(s: State, id: TaskId): (r: State)
    requires id in s.tasks
    ensures r.tasks.Keys == s.tasks.Keys - {id}
    ensures |r.tasks| == |s.tasks| - 1
    ensures forall t :: t in r.tasks ==> r.tasks[t] == s.tasks[t]
    ensures r.users == s.users && r.session == s.session
  {
    s.(tasks := s.tasks - {id})
  }

  /** Toggling the same task twice restores the original state. */
  lemma ToggleTwice(s: State, id: TaskId)
    requires id in s.tasks
    ensures Toggle(Toggle(s, id), id) == s
  {
    var r := Toggle(Toggle(s, id), id);
    assert r.tasks == s.tasks;
  }

  /** Toggle and delete answer the same whoever is in the session. */
  lemma TaskRoutesIgnoreCaller(s: State, id: TaskId, who: Option<UserId>)
    requires id in s.tasks
    ensures Toggle(s.(session := who), id) == Toggle(s, id).(session := who)
    ensures Delete(s.(session := who), id) == Delete(s, id).(session := who)
  {
  }

  /** The ownership gap, exhibited: a user who owns no task can toggle and
      delete the task of another user. */
  lemma OwnershipGap()
    ensures var s := State(map[1 := User("a@example.com", "alice", "h1"),
                               2 := User("b@example.com", "bob", "h2")],
                           map[1 := ToDo(Some("buy milk"), false, 1)],
                           Some(2));
            && Valid(s)
            && CurrentUser(s) == Some(2) && s.tasks[1].owner == 1
            && Toggle(s, 1).tasks[1].complete
            && 1 !in Delete(s, 1).tasks
  {
  }

  lemma AddPreservesValid(s: State, title: Option<string>)
    requires Valid(s)
    requires CurrentUser(s).Some?
    ensures Valid(Add(s, title).0)
  {
  }

  lemma TogglePreservesValid(s: State, id: TaskId)
    requires Valid(s)
    requires id in s.tasks
    ensures Valid(Toggle(s, id))
  {
  }

  lemma DeletePreservesValid(s: State, id: TaskId)
    requires Valid(s)
    requires id in s.tasks
    ensures Valid(Delete(s, id))
  {
  }
}
