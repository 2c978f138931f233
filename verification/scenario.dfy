/** An end-to-end session: register, fail to register the same address
    again, log in, add a task, complete it, delete it, and read the dashboard
    after each task step. */
module Scenario {
  import opened Models
  import opened Forms
  import opened Auth
  import opened Tasks
  import opened Views
  import opened Effects

  /** The counts on the dashboard of a logged-in caller. */
  function Shown(s: State): Counts
    requires CurrentUser(s).Some?
  {
    var d := Dashboard(s).value;
    Counts(d.total, d.completed, d.uncompleted)
  }

  lemma ShownIsCountsOf(s: State)
    requires CurrentUser(s).Some?
    ensures Shown(s) == CountsOf(s.tasks, CurrentUser(s).value)
  {
  }

  /** Alice registers, a second registration with her address is refused,
      and she logs in. */
  lemma AliceAccount(env: Env)
    requires SoundHash(env)
    requires env.emailSyntax("a@example.com")
    ensures var alice := SignUpForm("alice", "a@example.com", "password1");
            var r1 := SignUp(EmptyState, env, alice);
            var r2 := SignUp(r1.state, env, SignUpForm("alice2", "a@example.com", "password2"));
            var l := LogIn(r1.state, env, LogInForm("a@example.com", "password1"));
            && r1.outcome == Registered(1)
            && r2.outcome.Rejected? && EmailRegistered in r2.outcome.errors
            && l.accepted && l.state.session == Some(1)
            && CurrentUser(l.state) == Some(1) && l.state.tasks == map[]
  {
    var alice := SignUpForm("alice", "a@example.com", "password1");
    assert |alice.username| == 5 && |alice.email| == 13 && |alice.password| == 9;
    assert SignUpAcceptable(EmptyState.users, env, alice);
    SignUpTwice(EmptyState, env, alice, SignUpForm("alice2", "a@example.com", "password2"));
    SignUpThenLogIn(EmptyState, env, alice);
  }

  /** A logged-in user with no tasks adds one, completes it and deletes it. */
  lemma BuyMilk(s: State)
    requires CurrentUser(s).Some? && s.tasks == map[]
    ensures var s3 := Add(s, Some("buy milk"));
            var s4 := Toggle(s3.0, s3.1);
            var s5 := Delete(s4, s3.1);
            && Shown(s3.0) == Counts(1, 0, 1)
            && Shown(s4) == Counts(1, 1, 0)
            && Shown(s5) == Counts(0, 0, 0)
  {
    var u := CurrentUser(s).value;
    assert CountsOf(s.tasks, u) == Counts(0, 0, 0);
    var s3 := Add(s, Some("buy milk"));
    AddEffect(s, Some("buy milk"), u);
    ShownIsCountsOf(s3.0);
    var s4 := Toggle(s3.0, s3.1);
    ToggleEffect(s3.0, s3.1, u);
    ShownIsCountsOf(s4);
    var s5 := Delete(s4, s3.1);
    DeleteEffect(s4, s3.1, u);
    ShownIsCountsOf(s5);
  }
}
