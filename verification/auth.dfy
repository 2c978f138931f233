/** The account routes: `sign_up`, `log_in` and `log_out`.

    A rejected form re-renders the page and leaves the state as it was; an
    accepted sign-up stores one user and redirects to the log-in page; an
    accepted log-in stores the user's id in the session.
 */
module Auth {
  import Ids
  import opened Models
  import opened Forms

  /** `User.query.filter_by(email=e).first()`: the matching user with the
      least key, or `None` when no user holds the address. */
  function FirstWithEmail(users: map<UserId, User>, email: string): (r: Option<UserId>)
    ensures r.None? <==> !EmailTaken(users, email)
    ensures r.Some? ==> r.value in users && users[r.value].email == email
    ensures r.Some? ==> forall id :: id in users && users[id].email == email ==> r.value <= id
  {
    var ids := set id | id in users && users[id].email == email;
    assert forall id :: id in users && users[id].email == email ==> id in ids;
    if ids == {} then None else Some(Ids.Min(ids))
  }

  /** Under unique e-mails the lookup finds the one user holding the address. */
  lemma FirstWithEmailUnique(users: map<UserId, User>, id: UserId)
    requires UniqueEmails(users)
    requires id in users
    ensures FirstWithEmail(users, users[id].email) == Some(id)
  {
  }

  datatype SignUpOutcome = Registered(id: UserId) | Rejected(errors: seq<FormError>)

  datatype SignUpResult = SignUpResult(state: State, outcome: SignUpOutcome)

  /** The `sign_up` route on a submitted form. */
  function SignUp(s: State, env: Env, form: SignUpForm): (r: SignUpResult)
    ensures r.outcome.Rejected? <==> !SignUpAcceptable(s.users, env, form)
    ensures r.outcome.Rejected? ==> r.state == s && r.outcome.errors != []
    ensures r.outcome.Rejected? && form.email != "" && EmailTaken(s.users, form.email) ==>
              EmailRegistered in r.outcome.errors
    ensures r.outcome.Registered? ==>
              && r.outcome.id !in s.users
              && r.state.users.Keys == s.users.Keys + {r.outcome.id}
              && |r.state.users| == |s.users| + 1
              && (forall id :: id in s.users ==> r.state.users[id] == s.users[id])
              && r.state.users[r.outcome.id].email == form.email
              && r.state.users[r.outcome.id].username == form.username
              && r.state.users[r.outcome.id].password == env.hash(form.password)
              && r.state.tasks == s.tasks
              && r.state.session == s.session
  {
    var errs := SignUpErrors(s.users, env, form);
    if errs != [] then
      SignUpResult(s, Rejected(errs))
    else
      var id := Ids.FreshId(s.users.Keys);
      var user := User(form.email, form.username, env.hash(form.password));
      SignUpResult(s.(users := s.users[id := user]), Registered(id))
  }

  datatype LogInResult = LogInResult(state: State, accepted: bool)

  /** The `log_in` route on a submitted form. */
  function LogIn(s: State, env: Env, form: LogInForm): (r: LogInResult)
    ensures r.state.users == s.users && r.state.tasks == s.tasks
    ensures !r.accepted ==> r.state == s
    ensures r.accepted ==>
              && LogInErrors(env, form) == []
              && r.state.session.Some?
              && r.state.session.value in s.users
              && s.users[r.state.session.value].email == form.email
              && env.check(s.users[r.state.session.value].password, form.password)
    ensures UniqueEmails(s.users) ==>
              (r.accepted <==>
                 && LogInErrors(env, form) == []
                 && exists id :: id in s.users && s.users[id].email == form.email
                                 && env.check(s.users[id].password, form.password))
  {
    if LogInErrors(env, form) != [] then LogInResult(s, false)
    else
      match FirstWithEmail(s.users, form.email)
      case None => LogInResult(s, false)
      case Some(id) =>
        if env.check(s.users[id].password, form.password) then
          LogInResult(s.(session := Some(id)), true)
        else
          LogInResult(s, false)
  }

  /** The `log_out` route. `login_required` turns an anonymous caller away
      without touching the session. */
  function LogOut(s: State): (r: State)
    ensures r.users == s.users && r.tasks == s.tasks
    ensures CurrentUser(r) == None
    ensures CurrentUser(s).Some? ==> r == s.(session := None)
    ensures CurrentUser(s).None? ==> r == s
  {
    if CurrentUser(s).Some? then s.(session := None) else s
  }

  lemma SignUpPreservesValid(s: State, env: Env, form: SignUpForm)
    requires Valid(s)
    ensures Valid(SignUp(s, env, form).state)
  {
  }

  lemma LogInPreservesValid(s: State, env: Env, form: LogInForm)
    requires Valid(s)
    ensures Valid(LogIn(s, env, form).state)
  {
  }

  lemma LogOutPreservesValid(s: State)
    requires Valid(s)
    ensures Valid(LogOut(s))
  {
  }

  /** After a sign-up, the new user is the only one holding its address. */
  lemma RegisteredHoldsAlone(s: State, env: Env, form: SignUpForm)
    requires SignUp(s, env, form).outcome.Registered?
    ensures var r := SignUp(s, env, form);
            (set i | i in r.state.users && r.state.users[i].email == form.email) == {r.outcome.id}
  {
  }

  /** Registering the same address twice: the second attempt is refused as a
      duplicate and exactly one stored user holds the address. */
  lemma SignUpTwice(s: State, env: Env, form1: SignUpForm, form2: SignUpForm)
    requires SignUp(s, env, form1).outcome.Registered?
    requires form2.email == form1.email
    ensures var r := SignUp(SignUp(s, env, form1).state, env, form2);
            && r.outcome.Rejected?
            && EmailRegistered in r.outcome.errors
            && |set id | id in r.state.users && r.state.users[id].email == form1.email| == 1
  {
    var r1 := SignUp(s, env, form1);
    RegisteredHoldsAlone(s, env, form1);
    assert EmailTaken(r1.state.users, form1.email) by {
      assert r1.state.users[r1.outcome.id].email == form1.email;
    }
    var r2 := SignUp(r1.state, env, form2);
    assert r2.state == r1.state;
  }

  /** A user who has just signed up can log in with the same address and
      password, and the session then holds the new user's id. */
  lemma SignUpThenLogIn(s: State, env: Env, form: SignUpForm)
    requires Valid(s)
    requires SoundHash(env)
    requires SignUp(s, env, form).outcome.Registered?
    ensures var r1 := SignUp(s, env, form);
            var r2 := LogIn(r1.state, env, LogInForm(form.email, form.password));
            r2.accepted && r2.state.session == Some(r1.outcome.id)
  {
    var r1 := SignUp(s, env, form);
    var id := r1.outcome.id;
    SignUpPreservesValid(s, env, form);
    FirstWithEmailUnique(r1.state.users, id);
    assert env.check(env.hash(form.password), form.password);
  }
}
