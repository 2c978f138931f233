/** The `SignUp` and `LogIn` forms and their WTForms validator chains.

    Each field runs its validators in declaration order and collects one
    error per failing validator. `InputRequired` is special: on an empty field
    it reports "required" and stops that field's chain. A form validates when
    no field reports an error. The `Email()` syntax check is the abstract
    `env.emailSyntax`; the CSRF token check is not modelled.
 */
module Forms {
  import opened Models

  const UsernameMin: nat := 3
  const UsernameMax: nat := 20
  const EmailMin: nat := 8
  const EmailMax: nat := 120
  const PasswordMin: nat := 8
  const PasswordMax: nat := 20

  datatype FieldName = UsernameField | EmailField | PasswordField

  datatype FormError =
    | Required(field: FieldName)
    | WrongLength(field: FieldName)
    | InvalidEmail
    | EmailRegistered

  datatype SignUpForm = SignUpForm(username: string, email: string, password: string)

  datatype LogInForm = LogInForm(email: string, password: string)

  /** Some stored user already holds this e-mail address. */
  predicate EmailTaken(users: map<UserId, User>, email: string)
  {
    exists id :: id in users && users[id].email == email
  }

  /** `InputRequired()`: an empty field reports only that it is required;
      otherwise the rest of the chain runs. */
  function InputRequired(f: FieldName, v: string, rest: seq<FormError>): seq<FormError>
  {
    if v == "" then [Required(f)] else rest
  }

  /** `Length(min=lo, max=hi)`, counting characters. */
  function LengthRule(f: FieldName, v: string, lo: nat, hi: nat): seq<FormError>
  {
    if lo <= |v| <= hi then [] else [WrongLength(f)]
  }

  /** `Email()` followed by `Length(min=8, max=120)`. */
  function EmailRules(env: Env, v: string): seq<FormError>
  {
    (if env.emailSyntax(v) then [] else [InvalidEmail]) + LengthRule(EmailField, v, EmailMin, EmailMax)
  }

  /** Errors a field with chain `InputRequired(), Length(min=lo, max=hi)`
      reports: none exactly when its length is in bounds, and only errors
      about that field. */
  function BoundedFieldErrors(f: FieldName, v: string, lo: nat, hi: nat): (errs: seq<FormError>)
    requires 1 <= lo
    ensures errs == [] <==> lo <= |v| <= hi
    ensures WrongLength(f) in errs <==> v != "" && !(lo <= |v| <= hi)
    ensures forall e :: e in errs ==> e == Required(f) || e == WrongLength(f)
  {
    InputRequired(f, v, LengthRule(f, v, lo, hi))
  }

  function UsernameErrors(v: string): seq<FormError>
  {
    BoundedFieldErrors(UsernameField, v, UsernameMin, UsernameMax)
  }

  function PasswordErrors(v: string): seq<FormError>
  {
    BoundedFieldErrors(PasswordField, v, PasswordMin, PasswordMax)
  }

  /** The sign-up e-mail chain: `InputRequired()`, `Email()`, `Length` and
      the form's inline `validate_email`, which rejects an address a stored
      user already holds. */
  function SignUpEmailErrors(users: map<UserId, User>, env: Env, v: string): (errs: seq<FormError>)
    ensures errs == [] <==>
              EmailMin <= |v| <= EmailMax && env.emailSyntax(v) && !EmailTaken(users, v)
    ensures WrongLength(EmailField) in errs <==> v != "" && !(EmailMin <= |v| <= EmailMax)
    ensures EmailRegistered in errs <==> v != "" && EmailTaken(users, v)
    ensures forall e :: e in errs ==>
              e == Required(EmailField) || e == WrongLength(EmailField) || e == InvalidEmail || e == EmailRegistered
  {
    InputRequired(EmailField, v,
      EmailRules(env, v) + (if EmailTaken(users, v) then [EmailRegistered] else []))
  }

  /** What sign-up accepts, stated field by field. */
  ghost predicate SignUpAcceptable(users: map<UserId, User>, env: Env, form: SignUpForm)
  {
    && UsernameMin <= |form.username| <= UsernameMax
    && EmailMin <= |form.email| <= EmailMax
    && PasswordMin <= |form.password| <= PasswordMax
    && env.emailSyntax(form.email)
    && forall id :: id in users ==> users[id].email != form.email
  }

  /** All errors of the sign-up form: the three field chains, with the
      form's inline `validate_email` appended to the e-mail chain. */
  function SignUpErrors(users: map<UserId, User>, env: Env, form: SignUpForm): (errs: seq<FormError>)
    ensures errs == [] <==> SignUpAcceptable(users, env, form)
    ensures EmailRegistered in errs <==> form.email != "" && EmailTaken(users, form.email)
    ensures WrongLength(UsernameField) in errs <==>
              form.username != "" && !(UsernameMin <= |form.username| <= UsernameMax)
    ensures WrongLength(EmailField) in errs <==>
              form.email != "" && !(EmailMin <= |form.email| <= EmailMax)
    ensures WrongLength(PasswordField) in errs <==>
              form.password != "" && !(PasswordMin <= |form.password| <= PasswordMax)
  {
    UsernameErrors(form.username)
    + SignUpEmailErrors(users, env, form.email)
    + PasswordErrors(form.password)
  }

  /** All errors of the log-in form. */
  function LogInErrors(env: Env, form: LogInForm): (errs: seq<FormError>)
    ensures errs == [] <==>
              && EmailMin <= |form.email| <= EmailMax
              && PasswordMin <= |form.password| <= PasswordMax
              && env.emailSyntax(form.email)
    ensures EmailRegistered !in errs
    ensures Required(UsernameField) !in errs && WrongLength(UsernameField) !in errs
  {
    InputRequired(EmailField, form.email, EmailRules(env, form.email))
    + PasswordErrors(form.password)
  }
}
