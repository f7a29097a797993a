/** `getAdminSession` and `signInAdmin` of `src/lib/admin-auth.ts`: who
    counts as an administrator, and which message a failed sign-in shows.
    What the auth service and the `admin_users` query answer are
    parameters; the calls made are reported in the result. */
module AdminAuth {
  import opened Wrappers
  import opened Text

  /** The signed-in user, as far as these functions look at it. */
  datatype User = User(id: string)

  /** `AdminSession`; `isAdmin` is always `true` and so not stored. */
  datatype AdminSession = AdminSession(user: User)

  /** What `getAdminSession` returns, and whether it queried `admin_users`. */
  datatype SessionLookup = SessionLookup(session: Option<AdminSession>, queriedAdmins: bool)

  /** `getAdminSession`: `adminRow` is what the `admin_users` query returns
      for the user (`None` when there is no row). */
  function GetAdminSession(user: Option<User>, adminRow: Option<string>): (r: SessionLookup)
    ensures r.queriedAdmins <==> user.Some?
    ensures r.session.Some? <==> user.Some? && adminRow.Some?
    ensures r.session.Some? ==> r.session.value.user == user.value
  {
    if user.None? then SessionLookup(None, false)
    else if adminRow.None? then SessionLookup(None, true)
    else SessionLookup(Some(AdminSession(user.value)), true)
  }

  /** The messages a sign-in can fail with. */
  datatype SignInError = InvalidCredentials | SignInFailed | AccessDenied
  {
    function Text(): string {
      match this
      case InvalidCredentials => "Invalid email or password."
      case SignInFailed => "Sign in failed. Please try again."
      case AccessDenied => "Access denied. You are not an administrator."
    }
  }

  /** Whether an auth error message, once lower-cased, mentions `invalid`,
      `credentials`, `email` or `password`. */
  predicate MentionsCredentials(message: string) {
    var m := ToLower(message);
    Contains(m, "invalid") || Contains(m, "credentials") || Contains(m, "email") || Contains(m, "password")
  }

  /** What `signInAdmin` returns, with the calls it made after the sign-in
      attempt. */
  datatype SignInOutcome = SignInOutcome(error: Option<SignInError>, queriedAdmins: bool, signOuts: nat)

  /** `signInAdmin`: `authError` is the message of the auth error, if any;
      `user` the user it signed in; `adminRow` what the `admin_users` query
      returns for that user. */
  function SignInAdmin(authError: Option<string>, user: Option<User>, adminRow: Option<string>): (r: SignInOutcome)
    ensures r.error.None? <==> authError.None? && user.Some? && adminRow.Some?
    ensures r.queriedAdmins <==> authError.None? && user.Some?
    ensures r.signOuts == (if r.error == Some(AccessDenied) then 1 else 0)
    ensures r.error == Some(AccessDenied) <==> authError.None? && user.Some? && adminRow.None?
    ensures r.error == Some(InvalidCredentials) <==> authError.Some? && MentionsCredentials(authError.value)
    ensures r.error == Some(SignInFailed) <==>
      (authError.Some? && !MentionsCredentials(authError.value)) || (authError.None? && user.None?)
  {
    if authError.Some? then
      if MentionsCredentials(authError.value) then SignInOutcome(Some(InvalidCredentials), false, 0)
      else SignInOutcome(Some(SignInFailed), false, 0)
    else if user.None? then SignInOutcome(Some(SignInFailed), false, 0)
    else if adminRow.None? then SignInOutcome(Some(AccessDenied), true, 1)
    else SignInOutcome(None, true, 0)
  }

  /** A sign-in that succeeds is one `getAdminSession` then accepts, and a
      user it turns away is one `getAdminSession` would turn away too. */
  lemma SignInAgreesWithSession(u: User, adminRow: Option<string>)
    ensures SignInAdmin(None, Some(u), adminRow).error.None? <==>
      GetAdminSession(Some(u), adminRow).session == Some(AdminSession(u))
  {
  }

  lemma ToLowerIdempotent(s: string)
    ensures ToLower(ToLower(s)) == ToLower(s)
  {
  }

  /** The keyword test ignores case: a message and its lower-cased form
      are treated alike. */
  lemma KeywordTestIgnoresCase(message: string)
    ensures MentionsCredentials(ToLower(message)) == MentionsCredentials(message)
  {
    ToLowerIdempotent(message);
  }

  lemma {:induction false} ToLowerConcat(a: string, b: string)
    ensures ToLower(a + b) == ToLower(a) + ToLower(b)
  {
    if a != [] {
      assert (a + b)[1..] == a[1..] + b;
      ToLowerConcat(a[1..], b);
    }
  }

  /** A message mentioning "Password" in any position, in any case, is
      reported as a bad e-mail or password. */
  lemma PasswordAnywhereIsInvalidCredentials(pre: string, post: string)
    ensures SignInAdmin(Some(pre + "Password" + post), None, None).error == Some(InvalidCredentials)
  {
    var w := "Password";
    var m := ToLower(pre + w + post);
    assert Contains(m, "password") by {
      ToLowerConcat(pre + w, post);
      ToLowerConcat(pre, w);
      assert ToLower(w) == "password";
      assert m[|pre|..|pre| + 8] == "password";
      ContainsAt(m, "password", |pre|);
    }
  }
}
