/** The records of the application and the state the route handlers act on.

    The `user` and `to_do` tables become finite maps from primary key to
    record; the Flask-Login session becomes a single "current identity" field.
    Password hashing and the e-mail syntax check belong to libraries whose
    rules are not part of this model; they are supplied as an `Env`.
 */
module Models {

  datatype Option<+T> = None | Some(value: T)

  type UserId = nat
  type TaskId = nat

  /** A bcrypt hash, stored as its UTF-8 decoded text. */
  type Digest = string

  /** A row of the `user` table, without its key. */
  datatype User = User(email: string, username: string, password: Digest)

  /** A row of the `to_do` table, without its key. The title is `None` when
      the add request carried no `title` field (the column is nullable). */
  datatype ToDo = ToDo(title: Option<string>, complete: bool, owner: UserId)

  /** Both tables and the identity stored in the login session. */
  datatype State = State(
    users: map<UserId, User>,
    tasks: map<TaskId, ToDo>,
    session: Option<UserId>)

  /** The libraries the application calls into and whose rules are opaque:
      the bcrypt hash of a password, bcrypt's check of a password against a
      stored hash, and the `Email()` syntax validator. The salt bcrypt draws
      on every call is abstracted away: `hash` is a function, so the same
      password always gets the same digest here. */
  datatype Env = Env(
    hash: string -> Digest,
    check: (Digest, string) -> bool,
    emailSyntax: string -> bool)

  /** What bcrypt promises: a password checks against its own hash. */
  ghost predicate SoundHash(env: Env)
  {
    forall p :: env.check(env.hash(p), p)
  }

  const EmptyState := State(map[], map[], None)

  /** No two users share an e-mail address (the column is declared unique). */
  ghost predicate UniqueEmails(users: map<UserId, User>)
  {
    forall i, j :: i in users && j in users && users[i].email == users[j].email ==> i == j
  }

  /** Every task's `user_id` references a stored user. */
  ghost predicate OwnersExist(s: State)
  {
    forall t :: t in s.tasks ==> s.tasks[t].owner in s.users
  }

  /** The invariant every handler preserves. */
  ghost predicate Valid(s: State)
  {
    && UniqueEmails(s.users)
    && OwnersExist(s)
    && (s.session.Some? ==> s.session.value in s.users)
  }

  /** The user Flask-Login resolves from the session. `load_user` looks the
      stored id up in the user table; an id that is not there yields the
      anonymous user. */
  function CurrentUser(s: State): (r: Option<UserId>)
    ensures r.Some? <==> s.session.Some? && s.session.value in s.users
    ensures r.Some? ==> r == s.session
  {
    if s.session.Some? && s.session.value in s.users then s.session else None
  }

  lemma EmptyStateValid()
    ensures Valid(EmptyState)
  {
  }
}
