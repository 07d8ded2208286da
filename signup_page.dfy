/**
 * my-app/src/pages/SignupPage.tsx: the stand-alone registration page. It
 * checks its three fields, then the password length, and forwards the chosen
 * role code ("SE" or "PA") to `signup` unchanged.
 */
module SignupPage {
  import opened Js
  import opened Types
  import opened AuthContext
  import AuthPage

  /** The page's checks: all three fields, then the length. */
  function RegisterCheck(username: string, email: string, password: string): (r: Option<string>)
    ensures username == [] || email == [] || password == [] ==> r == Some(AuthPage.FillIn)
    ensures r == Some(AuthPage.TooShort) <==> username != [] && email != [] && 0 < |password| < 6
    ensures r.None? <==> username != [] && email != [] && |password| >= 6
  {
    if username == [] || email == [] || password == [] then Some(AuthPage.FillIn)
    else if |password| < 6 then Some(AuthPage.TooShort)
    else None
  }

  /** Without a confirmation field, the page accepts what the register tab accepts when both passwords agree. */
  lemma ChecksAgreeWithRegisterTab(username: string, email: string, password: string)
    ensures RegisterCheck(username, email, password) ==
      AuthPage.RegisterCheck(username, email, password, password)
  {
  }

  /** As written, a user who picks either role is registered as a pricing analyst. */
  lemma EveryChoiceSentAsAnalyst(code: string)
    requires code == "SE" || code == "PA"
    ensures CodeForSignup(code) == "PA"
    ensures RoleOfCode(CodeForSignup(code)) == PricingAnalyst
  {
  }

  /**
   * Mapping the code to its `UserRole` first, as the register tab does, sends
   * the code chosen, and the profile reads back that role.
   */
  lemma CorrectedSendsChosenCode(code: string)
    requires code == "SE" || code == "PA"
    ensures CodeForSignup(AuthPage.RoleArgument(code)) == code
    ensures (RoleOfCode(CodeForSignup(AuthPage.RoleArgument(code))) == SalesExecutive) <==> code == "SE"
  {
    AuthPage.RegisterSendsChosenCode(code);
  }

  class Page {
    const session: Session
    var error: Option<string>
    var success: Option<string>

    constructor (session: Session)
      ensures this.session == session
      ensures error == None && success == None
    {
      this.session := session;
      error := None;
      success := None;
    }

    /**
     * `handleRegister`, with the outcomes of the register and profile calls as
     * parameters; `code` is the role code sent, when `signup` was called.
     */
    method HandleRegister(username: string, email: string, password: string, roleCode: string,
                          reply: Remote<Option<string>>, profile: Remote<Profile>)
      returns (code: Option<string>, route: Option<string>)
      modifies this, session
      ensures RegisterCheck(username, email, password).Some? ==>
        error == RegisterCheck(username, email, password) && success == None &&
        code == None && route == None &&
        session.user == old(session.user) && session.token == old(session.token) &&
        session.isLoading == old(session.isLoading)
      ensures RegisterCheck(username, email, password).None? ==>
        code == Some(CodeForSignup(roleCode)) && !session.isLoading &&
        session.token == if reply.Resolved? then StoredToken(reply.value, old(session.token)) else old(session.token)
      ensures RegisterCheck(username, email, password).None? && SignInOutcome(reply, profile).Resolved? ==>
        error == None && success == Some("Registration successful! Redirecting...") &&
        session.user == Some(SignInOutcome(reply, profile).value) &&
        route == Some(RouteOf(SignInOutcome(reply, profile).value))
      ensures RegisterCheck(username, email, password).None? && SignInOutcome(reply, profile).Failed? ==>
        error == Some(AuthPage.FailureMessage(SignInOutcome(reply, profile).reason, "Registration failed")) &&
        success == None && session.user == old(session.user) && route == None
    {
      error := None;
      success := None;
      code := None;
      route := None;
      var check := RegisterCheck(username, email, password);
      if check.Some? {
        error := check;
        return;
      }
      var sent, r;
      sent, r, route := session.Signup(username, email, password, roleCode, reply, profile);
      code := Some(sent);
      if r.Resolved? {
        success := Some("Registration successful! Redirecting...");
      } else {
        error := Some(AuthPage.FailureMessage(r.reason, "Registration failed"));
      }
    }
  }
}
