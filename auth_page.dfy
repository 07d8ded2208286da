/**
 * my-app/src/pages/AuthPage.tsx: the login and register tabs. Each handler
 * clears the messages, runs its checks in a fixed order and stops at the first
 * that fails; only then does it call the session.
 */
module AuthPage {
  import opened Js
  import opened Types
  import opened AuthContext

  const FillIn := "Please fill in all fields"
  const Mismatch := "Passwords do not match"
  const TooShort := "Password must be at least 6 characters long"

  /** The login tab's check: both fields filled in. */
  function LoginCheck(email: string, password: string): (r: Option<string>)
    ensures r.None? <==> email != [] && password != []
    ensures r.Some? ==> r.value == FillIn
  {
    if email == [] || password == [] then Some(FillIn) else None
  }

  /** The register tab's checks: all four fields, then the match, then the length. */
  function RegisterCheck(username: string, email: string, password: string, confirm: string): (r: Option<string>)
    ensures username == [] || email == [] || password == [] || confirm == [] ==> r == Some(FillIn)
    ensures username != [] && email != [] && password != [] && confirm != [] && password != confirm ==>
      r == Some(Mismatch)
    ensures r == Some(TooShort) <==>
      username != [] && email != [] && confirm != [] && password == confirm && 0 < |password| < 6
    ensures r.None? <==>
      username != [] && email != [] && password == confirm && |password| >= 6
  {
    if username == [] || email == [] || password == [] || confirm == [] then Some(FillIn)
    else if password != confirm then Some(Mismatch)
    else if |password| < 6 then Some(TooShort)
    else None
  }

  /** The role this tab passes to `signup` for the chosen code. */
  function RoleArgument(code: string): (role: string)
    ensures role == RoleName(SalesExecutive) <==> code == "SE"
    ensures role == RoleName(SalesExecutive) || role == RoleName(PricingAnalyst)
  {
    if code == "SE" then RoleName(SalesExecutive) else RoleName(PricingAnalyst)
  }

  /** Through this tab, the code sent to the back end is the code chosen. */
  lemma RegisterSendsChosenCode(code: string)
    requires code == "SE" || code == "PA"
    ensures CodeForSignup(RoleArgument(code)) == code
  {
  }

  /** `error instanceof Error ? error.message : fallback` */
  function FailureMessage(reason: Reason, fallback: string): (m: string)
    ensures reason.ErrorObject? ==> m == reason.message
    ensures reason.OtherValue? ==> m == fallback
  {
    match reason
    case ErrorObject(message) => message
    case OtherValue => fallback
  }

  class Page {
    const session: Session
    var tab: int
    var error: Option<string>
    var success: Option<string>

    constructor (session: Session)
      ensures this.session == session
      ensures tab == 0 && error == None && success == None
    {
      this.session := session;
      tab := 0;
      error := None;
      success := None;
    }

    /** `handleTabChange`: switches tab and clears both messages. */
    method TabChange(newValue: int)
      modifies this
      ensures tab == newValue && error == None && success == None
    {
      tab := newValue;
      error := None;
      success := None;
    }

    /** `handleLogin`, with the outcomes of the login and profile calls as parameters. */
    method HandleLogin(email: string, password: string, reply: Remote<Option<string>>, profile: Remote<Profile>)
      returns (route: Option<string>)
      modifies this, session
      ensures tab == old(tab)
      ensures LoginCheck(email, password).Some? ==>
        error == LoginCheck(email, password) && success == None && route == None &&
        session.user == old(session.user) && session.token == old(session.token) &&
        session.isLoading == old(session.isLoading)
      ensures LoginCheck(email, password).None? ==>
        !session.isLoading &&
        session.token == if reply.Resolved? then StoredToken(reply.value, old(session.token)) else old(session.token)
      ensures LoginCheck(email, password).None? && SignInOutcome(reply, profile).Resolved? ==>
        error == None && success == Some("Login successful! Redirecting...") &&
        session.user == Some(SignInOutcome(reply, profile).value) &&
        route == Some(RouteOf(SignInOutcome(reply, profile).value))
      ensures LoginCheck(email, password).None? && SignInOutcome(reply, profile).Failed? ==>
        error == Some(FailureMessage(SignInOutcome(reply, profile).reason, "Login failed")) &&
        success == None && session.user == old(session.user) && route == None
    {
      error := None;
      success := None;
      route := None;
      var check := LoginCheck(email, password);
      if check.Some? {
        error := check;
        return;
      }
      var r;
      r, route := session.Login(email, password, reply, profile);
      if r.Resolved? {
        success := Some("Login successful! Redirecting...");
      } else {
        error := Some(FailureMessage(r.reason, "Login failed"));
      }
    }

    /**
     * `handleRegister`, with the outcomes of the register and profile calls as
     * parameters; `code` is the role code sent, when `signup` was called.
     */
    method HandleRegister(username: string, email: string, password: string, confirm: string, roleCode: string,
                          reply: Remote<Option<string>>, profile: Remote<Profile>)
      returns (code: Option<string>, route: Option<string>)
      modifies this, session
      ensures tab == old(tab)
      ensures RegisterCheck(username, email, password, confirm).Some? ==>
        error == RegisterCheck(username, email, password, confirm) && success == None &&
        code == None && route == None &&
        session.user == old(session.user) && session.token == old(session.token) &&
        session.isLoading == old(session.isLoading)
      ensures RegisterCheck(username, email, password, confirm).None? ==>
        code == Some(CodeForSignup(RoleArgument(roleCode))) && !session.isLoading &&
        session.token == if reply.Resolved? then StoredToken(reply.value, old(session.token)) else old(session.token)
      ensures RegisterCheck(username, email, password, confirm).None? && SignInOutcome(reply, profile).Resolved? ==>
        error == None && success == Some("Registration successful! Redirecting...") &&
        session.user == Some(SignInOutcome(reply, profile).value) &&
        route == Some(RouteOf(SignInOutcome(reply, profile).value))
      ensures RegisterCheck(username, email, password, confirm).None? && SignInOutcome(reply, profile).Failed? ==>
        error == Some(FailureMessage(SignInOutcome(reply, profile).reason, "Registration failed")) &&
        success == None && session.user == old(session.user) && route == None
    {
      error := None;
      success := None;
      code := None;
      route := None;
      var check := RegisterCheck(username, email, password, confirm);
      if check.Some? {
        error := check;
        return;
      }
      var sent, r;
      sent, r, route := session.Signup(username, email, password, RoleArgument(roleCode), reply, profile);
      code := Some(sent);
      if r.Resolved? {
        success := Some("Registration successful! Redirecting...");
      } else {
        error := Some(FailureMessage(r.reason, "Registration failed"));
      }
    }
  }
}
