/** The two read-only views: `dashboard` and `tasks`.

    Both are `login_required` and show the caller's tasks with three counts.
    `dashboard` runs four separate queries on the task table (the list, and a
    `count()` per filter); `tasks` follows the `current_user.tasks`
    relationship, counts the completed entries of that list, and derives the
    uncompleted count by subtraction. The results are stated against a
    reference definition, the set of task keys a filter selects.
 */
module Views {
  import Ids
  import opened Models

  /** A task row as a query returns it: key and record. */
  datatype Row = Row(id: TaskId, task: ToDo)

  /** The arguments of a `filter_by` on the task table: the owner, and
      optionally the completion flag. */
  datatype Query = Query(owner: UserId, complete: Option<bool>)

  predicate Matches(q: Query, t: ToDo)
  {
    t.owner == q.owner && (q.complete.None? || t.complete == q.complete.value)
  }

  /** Reference definition: the keys of the tasks a filter selects. */
  function Selected(tasks: map<TaskId, ToDo>, q: Query): set<TaskId>
  {
    set id | id in tasks && Matches(q, tasks[id])
  }

  /** The keys carried by the matching rows of a row list. */
  function RowIds(rows: seq<Row>, q: Query): set<TaskId>
  {
    set x | x in rows && Matches(q, x.task) :: x.id
  }

  ghost predicate IncreasingIds(rows: seq<Row>)
  {
    forall i, j :: 0 <= i < j < |rows| ==> rows[i].id < rows[j].id
  }

  /** No key occurs on two rows. */
  ghost predicate DistinctIds(rows: seq<Row>)
  {
    forall i, j :: 0 <= i < j < |rows| ==> rows[i].id != rows[j].id
  }

  /** The rows for a list of keys, in that order. */
  function RowsOf(tasks: map<TaskId, ToDo>, ids: seq<TaskId>): (rows: seq<Row>)
    requires forall i :: 0 <= i < |ids| ==> ids[i] in tasks
    ensures |rows| == |ids|
    ensures forall i :: 0 <= i < |rows| ==> rows[i] == Row(ids[i], tasks[ids[i]])
    ensures forall id :: id in ids ==> Row(id, tasks[id]) in rows
  {
    if ids == [] then []
    else
      var rest := RowsOf(tasks, ids[1..]);
      assert forall id :: id in ids ==> id == ids[0] || id in ids[1..];
      [Row(ids[0], tasks[ids[0]])] + rest
  }

  /** The rows for a listing of all the keys form a full scan. */
  lemma RowsOfListing(tasks: map<TaskId, ToDo>, ids: seq<TaskId>)
    requires Ids.SortedListing(tasks.Keys, ids)
    ensures var rows := RowsOf(tasks, ids);
            && |rows| == |tasks|
            && (forall i :: 0 <= i < |rows| ==> rows[i].id in tasks && tasks[rows[i].id] == rows[i].task)
            && (forall id :: id in tasks ==> Row(id, tasks[id]) in rows)
            && IncreasingIds(rows)
  {
    var rows := RowsOf(tasks, ids);
    forall i, j | 0 <= i < j < |rows| ensures rows[i].id < rows[j].id {
      assert rows[i].id == ids[i] && rows[j].id == ids[j];
    }
  }

  /** The task table as a full scan returns it: every row once, in key order. */
  function Table(tasks: map<TaskId, ToDo>): (rows: seq<Row>)
    ensures |rows| == |tasks|
    ensures forall i :: 0 <= i < |rows| ==> rows[i].id in tasks && tasks[rows[i].id] == rows[i].task
    ensures forall id :: id in tasks ==> Row(id, tasks[id]) in rows
    ensures IncreasingIds(rows)
  {
    var ids := Ids.SortedKeys(tasks.Keys);
    RowsOfListing(tasks, ids);
    RowsOf(tasks, ids)
  }

  /** A row is in the full scan exactly when the table maps its key to its
      record. */
  lemma TableMember(tasks: map<TaskId, ToDo>, x: Row)
    ensures x in Table(tasks) <==> x.id in tasks && tasks[x.id] == x.task
  {
  }

  /** `filter_by(...).all()`: the matching rows, in the order scanned. */
  function Select(rows: seq<Row>, q: Query): (r: seq<Row>)
    ensures forall x :: x in r ==> x in rows && Matches(q, x.task)
    ensures forall x :: x in rows && Matches(q, x.task) ==> x in r
    ensures |r| <= |rows|
  {
    if rows == [] then []
    else
      var rest := Select(rows[1..], q);
      assert forall x :: x in rows ==> x == rows[0] || x in rows[1..];
      (if Matches(q, rows[0].task) then [rows[0]] else []) + rest
  }

  lemma IncreasingHead(rows: seq<Row>)
    requires rows != [] && IncreasingIds(rows)
    ensures forall x :: x in rows[1..] ==> rows[0].id < x.id
  {
    forall x | x in rows[1..] ensures rows[0].id < x.id {
      var j :| 0 <= j < |rows[1..]| && rows[1..][j] == x;
      assert rows[j + 1] == x;
    }
  }

  lemma IncreasingCons(h: Row, rest: seq<Row>)
    requires IncreasingIds(rest)
    requires forall x :: x in rest ==> h.id < x.id
    ensures IncreasingIds([h] + rest)
  {
    var r := [h] + rest;
    forall i, j | 0 <= i < j < |r| ensures r[i].id < r[j].id {
      if i == 0 {
        assert r[j] == rest[j - 1];
      } else {
        assert r[i] == rest[i - 1] && r[j] == rest[j - 1];
      }
    }
  }

  /** Selecting keeps the scan's key order. */
  lemma {:induction false} SelectIncreasing(rows: seq<Row>, q: Query)
    requires IncreasingIds(rows)
    ensures IncreasingIds(Select(rows, q))
  {
    if rows != [] {
      assert IncreasingIds(rows[1..]);
      SelectIncreasing(rows[1..], q);
      IncreasingHead(rows);
      var rest := Select(rows[1..], q);
      if Matches(q, rows[0].task) {
        IncreasingCons(rows[0], rest);
      } else {
        assert [] + rest == rest;
      }
    }
  }

  /** `filter_by(...).count()`. */
  function Count(rows: seq<Row>, q: Query): (n: nat)
    ensures n <= |rows|
    ensures n == 0 <==> forall x :: x in rows ==> !Matches(q, x.task)
    ensures n == |rows| <==> forall x :: x in rows ==> Matches(q, x.task)
  {
    if rows == [] then 0
    else (if Matches(q, rows[0].task) then 1 else 0) + Count(rows[1..], q)
  }

  /** `sum(1 for task in todo_list if task.complete)`. */
  function CountComplete(list: seq<Row>): (n: nat)
    ensures n <= |list|
    ensures n == 0 <==> forall x :: x in list ==> !x.task.complete
    ensures n == |list| <==> forall x :: x in list ==> x.task.complete
  {
    if list == [] then 0
    else (if list[0].task.complete then 1 else 0) + CountComplete(list[1..])
  }

  /** Over rows with distinct keys, the count of matches is the number of
      matching keys. */
  lemma {:induction false} CountIsCardinality(rows: seq<Row>, q: Query)
    requires DistinctIds(rows)
    ensures Count(rows, q) == |RowIds(rows, q)|
  {
    if rows == [] {
      assert RowIds(rows, q) == {};
    } else {
      var h, t := rows[0], rows[1..];
      forall i, j | 0 <= i < j < |t| ensures t[i].id != t[j].id {
        assert t[i] == rows[i + 1] && t[j] == rows[j + 1];
      }
      CountIsCardinality(t, q);
      assert forall x :: x in rows <==> x == h || x in t;
      forall x | x in t ensures x.id != h.id {
        var j :| 0 <= j < |t| && t[j] == x;
        assert rows[j + 1] == x;
      }
      assert h.id !in RowIds(t, q);
      if Matches(q, h.task) {
        assert RowIds(rows, q) == {h.id} + RowIds(t, q);
      } else {
        assert RowIds(rows, q) == RowIds(t, q);
      }
    }
  }

  /** The rows of the full scan that match a filter carry exactly the keys
      the reference definition selects. */
  lemma TableRowIds(tasks: map<TaskId, ToDo>, q: Query)
    ensures RowIds(Table(tasks), q) == Selected(tasks, q)
  {
    var rows := Table(tasks);
    forall id | id in Selected(tasks, q) ensures id in RowIds(rows, q) {
      assert Row(id, tasks[id]) in rows;
    }
  }

  /** A `count()` query on the task table is the size of its selection. */
  lemma CountTable(tasks: map<TaskId, ToDo>, q: Query)
    ensures Count(Table(tasks), q) == |Selected(tasks, q)|
  {
    assert DistinctIds(Table(tasks));
    CountIsCardinality(Table(tasks), q);
    TableRowIds(tasks, q);
  }

  /** The completed and the uncompleted tasks of an owner split its tasks. */
  lemma SelectedSplit(tasks: map<TaskId, ToDo>, u: UserId)
    ensures |Selected(tasks, Query(u, Some(true)))| + |Selected(tasks, Query(u, Some(false)))|
            == |Selected(tasks, Query(u, None))|
  {
    var done, open := Selected(tasks, Query(u, Some(true))), Selected(tasks, Query(u, Some(false)));
    assert Selected(tasks, Query(u, None)) == done + open;
    assert done * open == {};
  }

  /** Counting the completed entries of an owner's list counts the owner's
      completed rows. */
  lemma {:induction false} CountCompleteOfSelect(rows: seq<Row>, u: UserId)
    ensures CountComplete(Select(rows, Query(u, None))) == Count(rows, Query(u, Some(true)))
  {
    if rows != [] {
      CountCompleteOfSelect(rows[1..], u);
      var rest := Select(rows[1..], Query(u, None));
      if Matches(Query(u, None), rows[0].task) {
        assert ([rows[0]] + rest)[1..] == rest;
      } else {
        assert [] + rest == rest;
      }
    }
  }

  /** The list query and the count query with the same filter agree. */
  lemma {:induction false} SelectCount(rows: seq<Row>, q: Query)
    ensures |Select(rows, q)| == Count(rows, q)
  {
    if rows != [] {
      SelectCount(rows[1..], q);
    }
  }

  /** What both views hand to their template. */
  datatype Summary = Summary(todoList: seq<Row>, total: int, completed: int, uncompleted: int)

  datatype Counts = Counts(total: int, completed: int, uncompleted: int)

  /** Reference definition of the three counts for one owner: how many tasks
      it owns, how many of those are complete, and how many are not. */
  function CountsOf(tasks: map<TaskId, ToDo>, u: UserId): Counts
  {
    Counts(|Selected(tasks, Query(u, None))|,
           |Selected(tasks, Query(u, Some(true)))|,
           |Selected(tasks, Query(u, Some(false)))|)
  }

  /** The view's list holds exactly the owner's tasks, in key order; the
      total is the list's length, and the counts are the owner's. */
  ghost predicate Describes(tasks: map<TaskId, ToDo>, u: UserId, v: Summary)
  {
    && (forall x :: x in v.todoList <==> x.id in tasks && tasks[x.id] == x.task && x.task.owner == u)
    && IncreasingIds(v.todoList)
    && v.total == |v.todoList|
    && Counts(v.total, v.completed, v.uncompleted) == CountsOf(tasks, u)
  }

  /** In any summary that describes an owner's tasks, the completed and
      uncompleted counts add up to the total. */
  lemma DescribedCountsAddUp(tasks: map<TaskId, ToDo>, u: UserId, v: Summary)
    requires Describes(tasks, u, v)
    ensures v.completed + v.uncompleted == v.total
    ensures 0 <= v.completed <= v.total && 0 <= v.uncompleted <= v.total
  {
    SelectedSplit(tasks, u);
  }

  /** `filter_by(user_id=u).all()` on the task table. */
  function OwnedRows(tasks: map<TaskId, ToDo>, u: UserId): (list: seq<Row>)
    ensures forall x :: x in list <==> x.id in tasks && tasks[x.id] == x.task && x.task.owner == u
    ensures |list| == |Selected(tasks, Query(u, None))|
    ensures IncreasingIds(list)
  {
    var rows := Table(tasks);
    var list := Select(rows, Query(u, None));
    forall x ensures x in list <==> x.id in tasks && tasks[x.id] == x.task && x.task.owner == u {
      TableMember(tasks, x);
    }
    SelectCount(rows, Query(u, None));
    SelectIncreasing(rows, Query(u, None));
    CountTable(tasks, Query(u, None));
    list
  }

  /** The four queries of the `dashboard` route. */
  function DashboardSummary(tasks: map<TaskId, ToDo>, u: UserId): Summary
  {
    var rows := Table(tasks);
    Summary(OwnedRows(tasks, u), Count(rows, Query(u, None)),
            Count(rows, Query(u, Some(true))), Count(rows, Query(u, Some(false))))
  }

  lemma DashboardSummaryDescribes(tasks: map<TaskId, ToDo>, u: UserId)
    ensures Describes(tasks, u, DashboardSummary(tasks, u))
  {
    CountTable(tasks, Query(u, None));
    CountTable(tasks, Query(u, Some(true)));
    CountTable(tasks, Query(u, Some(false)));
  }

  /** The `dashboard` route. */
  function Dashboard(s: State): (r: Option<Summary>)
    ensures r.None? <==> CurrentUser(s).None?
    ensures r.Some? ==> Describes(s.tasks, CurrentUser(s).value, r.value)
    ensures r.Some? ==> r.value.completed + r.value.uncompleted == r.value.total
  {
    match CurrentUser(s)
    case None => None
    case Some(u) =>
      var v := DashboardSummary(s.tasks, u);
      DashboardSummaryDescribes(s.tasks, u);
      DescribedCountsAddUp(s.tasks, u, v);
      Some(v)
  }

  /** The `current_user.tasks` list with its completed entries counted and
      the uncompleted ones derived by subtraction. */
  function TasksSummary(tasks: map<TaskId, ToDo>, u: UserId): Summary
  {
    var list := OwnedRows(tasks, u);
    var total := |list|;
    var completed := CountComplete(list);
    Summary(list, total, completed, total - completed)
  }

  lemma TasksSummaryDescribes(tasks: map<TaskId, ToDo>, u: UserId)
    ensures Describes(tasks, u, TasksSummary(tasks, u))
  {
    var list := OwnedRows(tasks, u);
    assert list == Select(Table(tasks), Query(u, None));
    CountCompleteOfSelect(Table(tasks), u);
    CountTable(tasks, Query(u, Some(true)));
    assert CountComplete(list) == |Selected(tasks, Query(u, Some(true)))|;
    SelectedSplit(tasks, u);
    var v := TasksSummary(tasks, u);
    assert v.total == |list| && v.completed == CountComplete(list);
  }

  /** The `tasks` route. */
  function TasksView(s: State): (r: Option<Summary>)
    ensures r.None? <==> CurrentUser(s).None?
    ensures r.Some? ==> Describes(s.tasks, CurrentUser(s).value, r.value)
    ensures r.Some? ==> r.value.completed + r.value.uncompleted == r.value.total
  {
    match CurrentUser(s)
    case None => None
    case Some(u) =>
      var v := TasksSummary(s.tasks, u);
      TasksSummaryDescribes(s.tasks, u);
      DescribedCountsAddUp(s.tasks, u, v);
      Some(v)
  }

  /** The two views show the same list and the same counts. */
  lemma ViewsAgree(s: State)
    ensures TasksView(s) == Dashboard(s)
  {
    if CurrentUser(s).Some? {
      var u := CurrentUser(s).value;
      DashboardSummaryDescribes(s.tasks, u);
      TasksSummaryDescribes(s.tasks, u);
    }
  }
}
