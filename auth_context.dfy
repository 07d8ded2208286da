/**
 * my-app/src/contexts/AuthContext.tsx: the mapping between the back end's role
 * codes and `UserRole`, and the session state (`user`, `isLoading` and the
 * stored auth token) that start-up, `login`, `signup` and `logout` update.
 * Each awaited remote call is a parameter holding its outcome.
 */
module AuthContext {
  import opened Js
  import opened Types

  /** What a rejected promise carries: an `Error` with a message, or some other value. */
  datatype Reason = ErrorObject(message: string) | OtherValue

  /** The outcome of an awaited remote call. */
  datatype Remote<T> = Resolved(value: T) | Failed(reason: Reason)

  /** The profile the back end returns; its role is a short code. */
  datatype Profile = Profile(id: string, username: string, email: string, role: string, createdAt: string)

  /** The profile's role code as a `UserRole`: "SE" is a sales executive, anything else an analyst. */
  function RoleOfCode(code: string): (r: UserRole)
    ensures r == SalesExecutive <==> code == "SE"
  {
    if code == "SE" then SalesExecutive else PricingAnalyst
  }

  /** The code `signup` sends for the role it is given. */
  function CodeForSignup(role: string): (code: string)
    ensures code == "SE" <==> role == RoleName(SalesExecutive)
    ensures code == "SE" || code == "PA"
  {
    if role == RoleName(SalesExecutive) then "SE" else "PA"
  }

  /** For the two roles, sending the code and reading it back is the identity. */
  lemma RoleCodeRoundTrip(role: UserRole)
    ensures RoleOfCode(CodeForSignup(RoleName(role))) == role
  {
  }

  /** And for the two codes, reading the role and sending it back is the identity. */
  lemma CodeRoleRoundTrip(code: string)
    requires code == "SE" || code == "PA"
    ensures CodeForSignup(RoleName(RoleOfCode(code))) == code
  {
  }

  /** The app's user built from a profile. */
  function UserOf(p: Profile): (u: User)
    ensures u.id == p.id && u.name == p.username && u.email == p.email
    ensures u.role == RoleOfCode(p.role)
  {
    User(p.id, p.username, p.email, RoleOfCode(p.role), p.createdAt)
  }

  /** Where a signed-in user is sent. */
  function RouteOf(u: User): (route: string)
    ensures route == "/sales" <==> u.role == SalesExecutive
    ensures route == "/analyst" <==> u.role == PricingAnalyst
  {
    match u.role
    case SalesExecutive => "/sales"
    case PricingAnalyst => "/analyst"
  }

  /** A token that `if (token)` accepts: present and not "". */
  predicate HasToken(t: Option<string>) {
    t.Some? && t.value != []
  }

  /** The token a login or register reply stores: its `access_token` when truthy. */
  function StoredToken(accessToken: Option<string>, previous: Option<string>): (t: Option<string>)
    ensures HasToken(accessToken) ==> t == accessToken
    ensures !HasToken(accessToken) ==> t == previous
  {
    if HasToken(accessToken) then accessToken else previous
  }

  /**
   * The outcome of an authenticate-then-fetch-profile sequence: the first
   * failure is rethrown, otherwise the user built from the profile.
   */
  function SignInOutcome(auth: Remote<Option<string>>, profile: Remote<Profile>): (r: Remote<User>)
    ensures auth.Failed? ==> r == Failed(auth.reason)
    ensures auth.Resolved? && profile.Failed? ==> r == Failed(profile.reason)
    ensures r.Resolved? <==> auth.Resolved? && profile.Resolved?
    ensures r.Resolved? ==> r.value == UserOf(profile.value)
  {
    if auth.Failed? then Failed(auth.reason)
    else if profile.Failed? then Failed(profile.reason)
    else Resolved(UserOf(profile.value))
  }

  /** The provider's state. */
  class Session {
    var user: Option<User>
    var isLoading: bool
    /** `localStorage["authToken"]` */
    var token: Option<string>

    /** The provider as first rendered, over whatever token is stored. */
    constructor (storedToken: Option<string>)
      ensures user == None && isLoading && token == storedToken
    {
      user := None;
      isLoading := true;
      token := storedToken;
    }

    /**
     * The start-up effect. `if (token)` tests truthiness, so a missing and
     * an empty stored token both skip the fetch; with a non-empty one the
     * profile sets the user, and a failed fetch removes the token.
     */
    method StartUp(profile: Remote<Profile>)
      modifies this
      ensures !isLoading
      ensures !HasToken(old(token)) ==> user == old(user) && token == old(token)
      ensures HasToken(old(token)) && profile.Resolved? ==>
        user == Some(UserOf(profile.value)) && token == old(token)
      ensures HasToken(old(token)) && profile.Failed? ==> user == old(user) && token == None
    {
      if HasToken(token) {
        match profile
        case Resolved(p) =>
          user := Some(UserOf(p));
        case Failed(_) =>
          token := None;
      }
      isLoading := false;
    }

    /**
     * `login(email, password)`: the login reply (its `access_token`) and then
     * the profile. On success the user is set and `route` is where it navigates;
     * a failure is rethrown with the user unchanged.
     */
    method Login(email: string, password: string, reply: Remote<Option<string>>, profile: Remote<Profile>)
      returns (r: Remote<User>, route: Option<string>)
      modifies this
      ensures r == SignInOutcome(reply, profile)
      ensures !isLoading
      ensures r.Resolved? ==> user == Some(r.value) && route == Some(RouteOf(r.value))
      ensures r.Failed? ==> user == old(user) && route == None
      ensures token == if reply.Resolved? then StoredToken(reply.value, old(token)) else old(token)
    {
      isLoading := true;
      r := SignInOutcome(reply, profile);
      route := None;
      if reply.Resolved? {
        token := StoredToken(reply.value, token);
      }
      if r.Resolved? {
        user := Some(r.value);
        route := Some(RouteOf(r.value));
      }
      isLoading := false;
    }

    /**
     * `signup(name, email, password, role)`: registers with the code for `role`
     * (returned as `code`), then fetches the profile, as `Login` does.
     */
    method Signup(name: string, email: string, password: string, role: string,
                  reply: Remote<Option<string>>, profile: Remote<Profile>)
      returns (code: string, r: Remote<User>, route: Option<string>)
      modifies this
      ensures code == CodeForSignup(role)
      ensures r == SignInOutcome(reply, profile)
      ensures !isLoading
      ensures r.Resolved? ==> user == Some(r.value) && route == Some(RouteOf(r.value))
      ensures r.Failed? ==> user == old(user) && route == None
      ensures token == if reply.Resolved? then StoredToken(reply.value, old(token)) else old(token)
    {
      isLoading := true;
      code := CodeForSignup(role);
      r := SignInOutcome(reply, profile);
      route := None;
      if reply.Resolved? {
        token := StoredToken(reply.value, token);
      }
      if r.Resolved? {
        user := Some(r.value);
        route := Some(RouteOf(r.value));
      }
      isLoading := false;
    }

    /** `logout()`: the token goes and the user is cleared whether or not the remote call succeeds. */
    method Logout(remoteOk: bool)
      modifies this
      ensures user == None && token == None
      ensures isLoading == old(isLoading)
    {
      token := None;
      user := None;
    }
  }
}
