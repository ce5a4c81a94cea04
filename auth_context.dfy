/** The client session held by `AuthProvider` (frontend/src/contexts/AuthContext.tsx):
    `{user, isLoading}` in React state plus the token persisted under the storage key
    'token'. The auth API client is outside the model: each operation receives what the
    remote call answered, and the object records which calls were made and which paths
    were pushed to the router. */
module AuthContext {
  import opened Options

  /** The profile the API returns for a signed-in account. */
  datatype User = User(id: int, email: string, fullName: Option<string>, role: string)

  datatype Credentials = Credentials(email: string, password: string)

  /** The object the registration page hands to `register`. */
  datatype RegisterData = RegisterData(fullName: string, email: string, password: string, role: string)

  /** What `authAPI.login` resolves to. */
  datatype LoginResponse = LoginResponse(accessToken: string, user: User)

  /** A call made through the auth API client. */
  datatype AuthCall = MeCall | LoginCall(credentials: Credentials) | RegisterCall(data: RegisterData)

  /** The three states of the session: still resolving, resolved without a user, signed in. */
  datatype Phase = Loading | Guest | Authenticated(user: User)

  const LoginPath := "/login"
  const AdminPath := "/admin"
  const DefaultLandingPath := "/dashboard"

  /** Where a successful login navigates: an explicit (non-empty) redirect wins, then the
      admin console for admins, then the dashboard. */
  function LoginTarget(redirectPath: Option<string>, role: string): (target: string)
    ensures Truthy(redirectPath) ==> target == redirectPath.value
    ensures !Truthy(redirectPath) ==> (target == AdminPath <==> role == "admin")
    ensures !Truthy(redirectPath) ==> (target == DefaultLandingPath <==> role != "admin")
  {
    if Truthy(redirectPath) then redirectPath.value
    else if role == "admin" then AdminPath
    else DefaultLandingPath
  }

  class AuthProvider {
    var user: Option<User>
    var isLoading: bool
    /** The value stored under the key 'token', if any. */
    var storedToken: Option<string>
    /** Every path handed to `router.push`, oldest first. */
    var navigations: seq<string>
    /** Every call made through the auth API client, oldest first. */
    var calls: seq<AuthCall>

    /** `isAuthenticated: !!user`. */
    predicate IsAuthenticated()
      reads this
    {
      user.Some?
    }

    /** `isAdmin: user?.role === 'admin'`. */
    predicate IsAdmin()
      reads this
    {
      user.Some? && user.value.role == "admin"
    }

    function Phase(): Phase
      reads this
    {
      if isLoading then Loading else if user.None? then Guest else Authenticated(user.value)
    }

    /** The provider mounts with no user and `isLoading` set; the stored token survives reloads. */
    constructor (persisted: Option<string>)
      ensures user == None && isLoading && storedToken == persisted
      ensures navigations == [] && calls == []
      ensures Phase() == Loading
    {
      user := None;
      isLoading := true;
      storedToken := persisted;
      navigations := [];
      calls := [];
    }

    /** `checkAuth`, run once on mount. `me` is what `authAPI.me()` would answer (`None` when it
        rejects); it is only consulted when a non-empty token is stored. */
    method CheckAuth(me: Option<User>)
      modifies this
      ensures !isLoading && navigations == old(navigations)
      ensures !Truthy(old(storedToken)) ==>
        calls == old(calls) && user == old(user) && storedToken == old(storedToken)
      ensures Truthy(old(storedToken)) ==> calls == old(calls) + [MeCall]
      ensures Truthy(old(storedToken)) && me.Some? ==> user == me && storedToken == old(storedToken)
      ensures Truthy(old(storedToken)) && me.None? ==> user == None && storedToken == None
      ensures old(user) == None ==> Phase() != Loading && (Phase() == Guest <==> user == None)
    {
      if Truthy(storedToken) {
        calls := calls + [MeCall];
        if me.Some? {
          user := me;
        } else {
          storedToken := None;
          user := None;
        }
      }
      isLoading := false;
    }

    /** `login`. `response` is what `authAPI.login` answered (`None` when it rejects; the error
        then propagates to the caller, reported here as `ok == false`, and nothing else changes). */
    method Login(credentials: Credentials, redirectPath: Option<string>, response: Option<LoginResponse>)
      returns (ok: bool)
      modifies this
      ensures ok == response.Some?
      ensures calls == old(calls) + [LoginCall(credentials)] && isLoading == old(isLoading)
      ensures !ok ==> user == old(user) && storedToken == old(storedToken) && navigations == old(navigations)
      ensures ok ==> storedToken == Some(response.value.accessToken) && user == Some(response.value.user)
      ensures ok ==> navigations == old(navigations) + [LoginTarget(redirectPath, response.value.user.role)]
      ensures ok ==> IsAuthenticated() && (IsAdmin() <==> response.value.user.role == "admin")
    {
      calls := calls + [LoginCall(credentials)];
      if response.None? {
        return false;
      }
      storedToken := Some(response.value.accessToken);
      user := Some(response.value.user);
      navigations := navigations + [LoginTarget(redirectPath, response.value.user.role)];
      ok := true;
    }

    /** `register`: the register call, then an automatic login with the same email and password
        and no redirect. A rejected registration skips the login. */
    method Register(data: RegisterData, registered: bool, loginResponse: Option<LoginResponse>)
      returns (ok: bool)
      modifies this
      ensures ok == (registered && loginResponse.Some?)
      ensures !registered ==> calls == old(calls) + [RegisterCall(data)]
      ensures registered ==>
        calls == old(calls) + [RegisterCall(data), LoginCall(Credentials(data.email, data.password))]
      ensures !ok ==> user == old(user) && storedToken == old(storedToken) && navigations == old(navigations)
      ensures ok ==> storedToken == Some(loginResponse.value.accessToken) && user == Some(loginResponse.value.user)
      ensures ok ==> navigations == old(navigations) + [LoginTarget(None, loginResponse.value.user.role)]
      ensures isLoading == old(isLoading)
    {
      calls := calls + [RegisterCall(data)];
      if !registered {
        return false;
      }
      ok := Login(Credentials(data.email, data.password), None, loginResponse);
    }

    /** `logout`: always succeeds locally and sends the viewer to the login page. */
    method Logout()
      modifies this
      ensures storedToken == None && user == None && !IsAuthenticated() && !IsAdmin()
      ensures navigations == old(navigations) + [LoginPath]
      ensures calls == old(calls) && isLoading == old(isLoading)
      ensures !isLoading ==> Phase() == Guest
    {
      storedToken := None;
      user := None;
      navigations := navigations + [LoginPath];
    }
  }
}
