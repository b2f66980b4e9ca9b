/** The sign-in / sign-up page: its form handlers, the order of the calls
    they make into the session provider and the document store, and the
    error, success and loading flags they leave behind. */
module LoginForm {
  import opened Outcomes
  import opened Session

  /** The form's four inputs. */
  datatype FormData = FormData(name: string, userName: string, email: string, password: string)

  /** The profile document written for a new account; it has no password. */
  datatype Profile = Profile(name: string, userName: string, email: string)

  /** A call the page makes to a service, recorded in the order made. */
  datatype Call =
    | Login(email: string, password: string)
    | CheckUsername(userName: string)
    | Signup(email: string, password: string)
    | CreateUserDocument(uid: string, profile: Profile)
    | ResetPassword(email: string)

  /** What the services answer to each awaited step of one submission; the
      answers to steps a submission does not reach are never read. */
  datatype Replies = Replies(
    login: Outcome<Credential>,
    available: Outcome<bool>,
    signup: Outcome<Credential>,
    createDoc: Outcome<()>)

  const UsernameTaken := "Username is already taken"
  const EmailRequired := "Please enter your email address"
  const ResetSent := "Password reset email sent. Check your inbox."
  const FeedRoute := "/feed"

  /** What one submission does: the calls it makes in order, the error it
      leaves displayed and whether it navigates to the feed. */
  datatype SubmitEffect = SubmitEffect(calls: seq<Call>, error: string, navigated: bool)

  /** The submission, as a function of the mode, the form and the replies:
      log in; or check the username, sign up and write the profile, stopping
      at the first step that fails or at a taken username. */
  function SubmitSpec(isLogin: bool, f: FormData, r: Replies): SubmitEffect
  {
    if isLogin then
      var calls := [Login(f.email, f.password)];
      match r.login
      case Fail(m) => SubmitEffect(calls, m, false)
      case Ok(_) => SubmitEffect(calls, "", true)
    else
      var check := [CheckUsername(f.userName)];
      match r.available
      case Fail(m) => SubmitEffect(check, m, false)
      case Ok(free) =>
        if !free then SubmitEffect(check, UsernameTaken, false)
        else
          var upTo := check + [Signup(f.email, f.password)];
          match r.signup
          case Fail(m) => SubmitEffect(upTo, m, false)
          case Ok(c) =>
            var all := upTo + [CreateUserDocument(c.user.uid, Profile(f.name, f.userName, f.email))];
            match r.createDoc
            case Fail(m) => SubmitEffect(all, m, false)
            case Ok(_) => SubmitEffect(all, "", true)
  }

  /** The session-provider events one submission causes. */
  function SubmitAuthEvents(isLogin: bool, r: Replies): seq<Event>
  {
    if isLogin then [LoginSettled(r.login)]
    else if r.available == Ok(true) then [SignupSettled(r.signup)]
    else []
  }

  /** A submission navigates exactly when every awaited step succeeded (and,
      when signing up, the username was free); then no error is shown. */
  lemma SubmitNavigatesIffAllSucceed(isLogin: bool, f: FormData, r: Replies)
    ensures SubmitSpec(isLogin, f, r).navigated <==>
      if isLogin then r.login.Ok?
      else r.available == Ok(true) && r.signup.Ok? && r.createDoc.Ok?
    ensures SubmitSpec(isLogin, f, r).navigated ==> SubmitSpec(isLogin, f, r).error == ""
  {
  }

  /** A failed step's message is what the page shows. */
  lemma SubmitShowsFailureMessage(isLogin: bool, f: FormData, r: Replies)
    ensures isLogin && r.login.Fail? ==> SubmitSpec(isLogin, f, r).error == r.login.message
    ensures !isLogin && r.available.Fail? ==> SubmitSpec(isLogin, f, r).error == r.available.message
    ensures !isLogin && r.available == Ok(true) && r.signup.Fail? ==>
      SubmitSpec(isLogin, f, r).error == r.signup.message
    ensures !isLogin && r.available == Ok(true) && r.signup.Ok? && r.createDoc.Fail? ==>
      SubmitSpec(isLogin, f, r).error == r.createDoc.message
  {
  }

  /** A taken username ends the submission after the check: no account is
      created and no profile written. */
  lemma UsernameTakenStopsBeforeSignup(f: FormData, r: Replies)
    requires r.available == Ok(false)
    ensures SubmitSpec(false, f, r) == SubmitEffect([CheckUsername(f.userName)], UsernameTaken, false)
    ensures forall c :: c in SubmitSpec(false, f, r).calls ==> !c.Signup? && !c.CreateUserDocument?
  {
  }

  /** Signing up calls the services in a fixed order (username check, then
      account creation, then the profile write keyed by the new account's
      uid and holding name, username and e-mail), each only after the one
      before it succeeded. Logging in makes the one log-in call. */
  lemma SubmitCallOrder(isLogin: bool, f: FormData, r: Replies)
    ensures isLogin ==> SubmitSpec(isLogin, f, r).calls == [Login(f.email, f.password)]
    ensures !isLogin ==>
      var calls := SubmitSpec(isLogin, f, r).calls;
      1 <= |calls| <= 3
      && calls[0] == CheckUsername(f.userName)
      && (|calls| >= 2 <==> r.available == Ok(true))
      && (|calls| >= 2 ==> calls[1] == Signup(f.email, f.password))
      && (|calls| == 3 <==> r.available == Ok(true) && r.signup.Ok?)
      && (|calls| == 3 ==>
            calls[2] == CreateUserDocument(r.signup.value.user.uid, Profile(f.name, f.userName, f.email)))
  {
  }

  /** After a successful sign-up the provider holds the user whose uid keys
      the profile document just written. */
  lemma SignupProfileKeyedBySessionUser(f: FormData, r: Replies, s: SessionState)
    requires SubmitSpec(false, f, r).navigated
    ensures
      var u := Run(s, SubmitAuthEvents(false, r)).user;
      u.Some? && CreateUserDocument(u.value.uid, Profile(f.name, f.userName, f.email)) in SubmitSpec(false, f, r).calls
  {
    SubmitNavigatesIffAllSucceed(false, f, r);
    assert SubmitAuthEvents(false, r) == [SignupSettled(r.signup)];
    assert Run(s, [SignupSettled(r.signup)]) == Step(s, SignupSettled(r.signup));
  }

  /** The page component's state hooks, with the calls it has made so far
      and the route it is on. */
  class LoginPage {
    var isLogin: bool
    var form: FormData
    var error: string
    var success: string
    var loading: bool
    var route: string
    var trace: seq<Call>
    const auth: AuthProvider

    constructor (auth: AuthProvider, route: string)
      ensures this.auth == auth && this.route == route
      ensures isLogin && form == FormData("", "", "", "")
      ensures error == "" && success == "" && !loading && trace == []
    {
      this.auth := auth;
      this.route := route;
      isLogin := true;
      form := FormData("", "", "", "");
      error := "";
      success := "";
      loading := false;
      trace := [];
    }

    /** `handleSubmit`: clears both messages, sets loading, runs the awaited
        steps in order and stops at the first failure; every exit clears
        loading, and only a submission whose steps all succeeded navigates. */
    method HandleSubmit(replies: Replies)
      modifies this, auth
      ensures
        var e := SubmitSpec(old(isLogin), old(form), replies);
        trace == old(trace) + e.calls && error == e.error
        && route == (if e.navigated then FeedRoute else old(route))
      ensures success == "" && !loading
      ensures isLogin == old(isLogin) && form == old(form)
      ensures auth.State() == Run(old(auth.State()), SubmitAuthEvents(old(isLogin), replies))
    {
      ghost var s0 := auth.State();
      error := "";
      success := "";
      loading := true;
      if isLogin {
        trace := trace + [Login(form.email, form.password)];
        var credential := auth.Login(form.email, form.password, replies.login);
        assert auth.State() == Run(s0, [LoginSettled(replies.login)]);
        if credential.Fail? {
          error := credential.message;
          loading := false;
          return;
        }
        route := FeedRoute;
      } else {
        trace := trace + [CheckUsername(form.userName)];
        var available := replies.available;
        if available.Fail? {
          error := available.message;
          loading := false;
          return;
        }
        if !available.value {
          error := UsernameTaken;
          loading := false;
          return;
        }
        trace := trace + [Signup(form.email, form.password)];
        var credential := auth.Signup(form.email, form.password, replies.signup);
        assert auth.State() == Run(s0, [SignupSettled(replies.signup)]);
        if credential.Fail? {
          error := credential.message;
          loading := false;
          return;
        }
        var profile := Profile(form.name, form.userName, form.email);
        trace := trace + [CreateUserDocument(credential.value.user.uid, profile)];
        if replies.createDoc.Fail? {
          error := replies.createDoc.message;
          loading := false;
          return;
        }
        route := FeedRoute;
      }
      loading := false;
    }

    /** `handleForgotPassword`: with no e-mail entered it only sets an error;
        otherwise it asks for a reset e-mail and shows either the success
        message or the failure's message, clearing the other. */
    method HandleForgotPassword(reply: Outcome<()>)
      modifies this
      ensures form.email == "" ==>
        error == EmailRequired && success == old(success) && trace == old(trace)
      ensures form.email != "" ==> trace == old(trace) + [ResetPassword(form.email)]
      ensures form.email != "" && reply.Ok? ==> success == ResetSent && error == ""
      ensures form.email != "" && reply.Fail? ==> error == reply.message && success == ""
      ensures isLogin == old(isLogin) && form == old(form) && loading == old(loading) && route == old(route)
    {
      if form.email == "" {
        error := EmailRequired;
        return;
      }
      trace := trace + [ResetPassword(form.email)];
      var done := auth.ResetPassword(form.email, reply);
      if done.Ok? {
        success := ResetSent;
        error := "";
      } else {
        error := done.message;
        success := "";
      }
    }

    /** The mode switch: flips between log-in and sign-up and clears both
        messages. */
    method ToggleMode()
      modifies this
      ensures isLogin == !old(isLogin) && error == "" && success == ""
      ensures form == old(form) && loading == old(loading) && route == old(route) && trace == old(trace)
    {
      isLogin := !isLogin;
      error := "";
      success := "";
    }
  }
}
