# To-do list application: accounts, tasks and dashboard counts

This project models the logic underneath the route handlers of a small Flask
to-do application (`app.py`). The application keeps two tables and a login
session:

- `user`: id, unique e-mail, username, bcrypt password hash;
- `to_do`: id, title, `complete` flag (false on creation), owner `user_id`;
- the Flask-Login session, which names the current user.

Each route becomes a pure state transition over finite maps (`Models.State`):

| route | model |
|---|---|
| `sign_up` with the `SignUp` form | `Auth.SignUp`, validators in `Forms` |
| `log_in` with the `LogIn` form | `Auth.LogIn` |
| `log_out` | `Auth.LogOut` |
| `add` | `Tasks.Add` |
| `update/<id>` | `Tasks.Toggle` |
| `delete/<id>` | `Tasks.Delete` |
| `dashboard` | `Views.Dashboard` |
| `tasks` | `Views.TasksView` |

Library behaviour the application depends on is modelled as follows:

- WTForms validators run per field in declaration order and collect every error.
  `InputRequired` stops its field's chain on an empty field.
- The bcrypt hash and check, and the `Email()` syntax check, are opaque functions in `Models.Env`.
- `filter_by(email=...).first()` returns the matching user with the least key.
- A new row's key is one more than the largest key in its table, or 1 for an
  empty table. That is SQLite's rule for an integer primary key.
- A listing query returns rows in key order.
- `load_user` resolves the session to a user only when the stored id is in the user table (`Models.CurrentUser`).

The model keeps two behaviours of the code that a reader may not expect:

- **No ownership check.** `update` and `delete` are not `login_required` and
  never compare the task's owner with the caller. Any client may toggle or
  delete any task. `Tasks.Toggle` and `Tasks.Delete` therefore do not look at
  the session. `Tasks.TaskRoutesIgnoreCaller` and `Tasks.OwnershipGap` state this.
- **Crashes are preconditions.** The handlers crash in three places:
  - `update` and `delete` use the result of `.first()` without checking for `None`.
  - `add` reads `current_user.id`, and `add` is not `login_required`.
  The model turns each crash into a `requires`: the task id is stored, or a user is logged in.

Behaviours of the code a reader may not expect, all kept as written:

- Toggle and delete do not enforce ownership.
- A missing task id crashes rather than reporting "not found".
- `add` does not require a login.

The dashboard runs three separate `count()` queries rather than deriving one
count from the others. `Views.Dashboard` proves that `completed + uncompleted == total` holds anyway.

The invariant `Models.Valid` says three things:

- e-mails are unique;
- every task's owner is a stored user;
- a session id names a stored user.

Every route preserves it (the `...PreservesValid` lemmas).

## Model

| member | source | states |
|---|---|---|
| Forms.SignUpErrors | app.py:49-59 | The sign-up form has no errors exactly when the username has 3..20 characters, the e-mail 8..120 and passes the syntax check, the password 8..20, and no stored user holds the e-mail. A non-empty e-mail held by a stored user is reported as a duplicate. A non-empty field outside its bounds is reported as a length error. |
| Forms.BoundedFieldErrors | app.py:51-53 | A field checked by `InputRequired()` then `Length(lo, hi)` has no errors exactly when its length is within the bounds. It reports a length error exactly when it is non-empty and out of bounds, and only errors about itself. The username and password fields use this chain, as does the log-in password (line 65). |
| Forms.SignUpEmailErrors | app.py:52-59 | The sign-up e-mail field has no errors exactly when it has 8..120 characters, passes the syntax check, and no stored user holds it. A non-empty address out of bounds gets a length error. A non-empty address a stored user holds gets the duplicate error. No error concerns another field. |
| Forms.LogInErrors | app.py:62-66 | The log-in form has no errors exactly when the e-mail has 8..120 characters and passes the syntax check, and the password has 8..20. It never reports a duplicate or a username error. |
| Auth.FirstWithEmail | app.py:84 | The lookup finds nothing exactly when no stored user holds the e-mail. Otherwise it returns a user holding the e-mail, the one with the least key. |
| Auth.FirstWithEmailUnique | app.py:36 | When e-mails are unique, looking up a stored user's e-mail returns that user. |
| Auth.SignUp | app.py:92-103 | A form that fails any validator leaves the state unchanged and reports at least one error; a duplicate e-mail is among them. Otherwise exactly one user is added, under a key not used before. The new user has the given username and e-mail and the hash of the password. Users, tasks and the session are otherwise unchanged. |
| Auth.LogIn | app.py:79-89 | Tasks and users never change. A refused log-in leaves the session unchanged. An accepted log-in requires a valid form, and the session then names a user with the given e-mail whose stored hash checks against the password. With unique e-mails, log-in is accepted exactly when the form is valid and such a user exists. |
| Auth.LogOut | app.py:106-111 | After log-out nobody is logged in. An anonymous caller is turned away with the state unchanged. The tables are untouched. |
| Auth.SignUpPreservesValid | app.py:56-59 | Sign-up keeps e-mails unique, owners stored and the session valid. |
| Auth.LogInPreservesValid | app.py:84-87 | Log-in keeps the invariant: the session only ever names a stored user. |
| Auth.LogOutPreservesValid | app.py:110 | Log-out keeps the invariant. |
| Auth.RegisteredHoldsAlone | app.py:96-101 | After a successful sign-up, the new user is the only user holding that e-mail. |
| Auth.SignUpTwice | app.py:56-59 | After one successful sign-up, a second sign-up with the same e-mail is rejected as a duplicate. Exactly one stored user then holds the e-mail. |
| Auth.SignUpThenLogIn | app.py:84-87 | If bcrypt's check accepts a password against its own hash, a user who has just signed up can log in with the same e-mail and password. The session then names the new user. |
| Models.CurrentUser | app.py:28-30 | The session resolves to a user exactly when it holds an id that is in the user table, and then to that id. |
| Ids.FreshId | app.py:43 | A new key is above every key in use, so it is unused. It is 1 for an empty table and otherwise one more than the largest key. |
| Tasks.Add | app.py:119-126 | Requires a logged-in caller. Adds exactly one task under an unused key: the given title, `complete = false`, owned by the caller. Every existing task, the users and the session are unchanged. |
| Tasks.Toggle | app.py:129-135 | Requires only that the id is stored. It does not require a login or ownership. It flips that task's flag and keeps its title and owner. The set of keys, every other task, the users and the session are unchanged. |
| Tasks.Delete | app.py:138-144 | Requires only that the id is stored. It does not require a login or ownership. It removes exactly that key, and the store shrinks by one. Every remaining task, the users and the session are unchanged. |
| Tasks.ToggleTwice | app.py:132-134 | Toggling the same task twice restores the original state. |
| Tasks.TaskRoutesIgnoreCaller | app.py:129-144 | Toggle and delete give the same result whoever is in the session. |
| Tasks.OwnershipGap | app.py:129-144 | In a valid state, one logged-in user can complete and delete a task owned by another user. |
| Tasks.AddPreservesValid | app.py:122-125 | Adding a task keeps every task's owner a stored user, and keeps the rest of the invariant. |
| Tasks.TogglePreservesValid | app.py:132-134 | Toggling keeps the invariant. |
| Tasks.DeletePreservesValid | app.py:141-143 | Deleting keeps the invariant. |
| Views.Select | app.py:168 | A filtered listing holds exactly the scanned rows that match the filter. |
| Views.SelectIncreasing | app.py:168 | Filtering a listing keeps its key order. |
| Views.Table | app.py:168 | The full scan has one row per stored task, in increasing key order, each carrying its stored record. |
| Views.SelectCount | app.py:168-169 | The list query and the count query with the same filter agree on the number of rows. |
| Views.Count | app.py:169-171 | A `count()` is at most the number of scanned rows. It is 0 exactly when no row matches the filter, and all of them exactly when every row matches. |
| Views.CountIsCardinality | app.py:169-171 | Over rows with pairwise distinct keys, a `count()` equals the number of distinct matching keys. |
| Views.CountTable | app.py:169-171 | A `count()` on the task table is the number of stored tasks the filter selects. |
| Views.CountComplete | app.py:159 | Counting the completed entries of a list gives at most the list's length. It is 0 exactly when no entry is complete, and the length exactly when every entry is. |
| Views.CountCompleteOfSelect | app.py:157-159 | Counting the completed entries of an owner's list gives the same number as counting the owner's completed rows in the table. |
| Views.SelectedSplit | app.py:170-171 | An owner's completed tasks and uncompleted tasks together make up all of the owner's tasks. |
| Views.OwnedRows | app.py:168 | The owner's task list (the `dashboard` query, and the relationship list the `tasks` view reads) holds exactly the stored tasks with that owner, each with its stored record, in increasing key order. Its length is the number of tasks the owner has. |
| Views.DescribedCountsAddUp | app.py:168-171 | Whenever a summary describes an owner's tasks, completed plus uncompleted equals the total. Both counts lie between 0 and the total. |
| Views.Dashboard | app.py:164-172 | Answers exactly when someone is logged in. The list holds exactly the caller's stored tasks, in key order. The total is the list's length and the number of the caller's tasks. The other two counts are the caller's complete and incomplete tasks, and they add up to the total. |
| Views.TasksView | app.py:153-161 | Answers exactly when someone is logged in. It shows the same list as the dashboard. Its total is the list's length. The completed count is the caller's complete tasks, and the uncompleted count, computed as total minus completed, is the caller's incomplete tasks. |
| Views.ViewsAgree | app.py:153-172 | The `tasks` view and the `dashboard` view show the same list and the same three counts. |
| Effects.SelectedStore | app.py:132-133 | Storing a task under a key changes a filter's selection by at most that key. The key is selected afterwards exactly when the new task matches. The size changes accordingly: minus one if the old task matched, plus one if the new one does. |
| Effects.SelectedRemove | app.py:141-142 | Removing a key removes it from every filter's selection and changes nothing else, so the size drops by one exactly when the removed task matched. |
| Effects.AddEffect | app.py:122-125 | Adding a task raises the caller's total and uncompleted counts by one and leaves the completed count alone. Every other user's counts are unchanged. |
| Effects.ToggleEffect | app.py:132-134 | Toggling never changes a total. It moves the owner's task between completed and uncompleted. No other user's counts change, including the caller's when the task is someone else's. |
| Effects.DeleteEffect | app.py:141-143 | Deleting lowers the owner's total by one, and lowers the completed or uncompleted count according to the task's flag. No other user's counts change. |
| Scenario.AliceAccount | app.py:79-103 | Alice (`a@example.com`, password `password1`) signs up on an empty store and gets key 1. A second sign-up with her e-mail is refused as a duplicate. She then logs in and the session holds key 1. |
| Scenario.BuyMilk | app.py:119-172 | A logged-in user with no tasks adds "buy milk": the dashboard shows 1 task, 0 completed, 1 uncompleted. Toggling it shows 1, 1, 0. Deleting it shows 0, 0, 0. |

## Left out

- HTTP and Flask plumbing is left out: routing, redirects, `render_template`, templates and the GET requests that only render a form. Each route model is the handler's effect on a submitted request.
- The crash response (HTTP 500) of `add`, `update` and `delete` is not modelled. Each crash is a precondition instead.
- `validate_on_submit` is called twice in `sign_up` (app.py:96-97). The second call re-runs the same validators on the same state, so the model runs them once.
- WTForms' CSRF token check is not modelled. The `Email()` syntax rules are not modelled either: they belong to a library and are the abstract `Env.emailSyntax`.
- bcrypt internals and salting are not modelled. The hash of a password is `Env.hash`, and the check is `Env.check`.
- `change_background_color`, `index`, `about_page` and the `__main__` block (`db.create_all`, `app.run`) are not modelled. They store an arbitrary string in the session, render static pages, or start the server.
- Column length limits (`String(n)`) are not modelled, because SQLite does not enforce them.
- The `NULL` state of the nullable `complete` column is not modelled. Only `add` creates tasks, and it always stores `false`.
- Transactions, commits and concurrent requests are not modelled. Each route is one atomic step.
- SQLite's rowid overflow and random-rowid fallback are not modelled. New keys are always the largest key plus one.
- The login session is modelled as a single "current identity" field rather than one per client.
- Row order: listing tasks in key order is a modelling choice. The query has no ORDER BY, so SQL does not promise an order.
