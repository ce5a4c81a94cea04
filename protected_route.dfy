/** The redirect/render decision of `ProtectedRoute`
    (frontend/src/components/auth/ProtectedRoute.tsx). The effect and the render body test
    the session separately; `Decide` computes both and its contract states how they agree. */
module ProtectedRoute {
  import opened Options
  import AuthContext

  /** What the component renders. */
  datatype View = Spinner | Nothing | Children

  /** One evaluation: what is rendered and which path, if any, the effect pushes. */
  datatype Decision = Decision(view: View, push: Option<string>)

  const HomePath := "/"

  /** `role` is `user?.role`: `None` when there is no user. */
  function Decide(isLoading: bool, isAuthenticated: bool, role: Option<string>, requireAdmin: bool): (d: Decision)
    ensures isLoading ==> d.view == Spinner && d.push == None
    ensures d.view == Children <==> !isLoading && isAuthenticated && (!requireAdmin || role == Some("admin"))
    ensures d.view == Nothing <==> d.push.Some?
    ensures d.push == Some(AuthContext.LoginPath) <==> !isLoading && !isAuthenticated
    ensures d.push == Some(HomePath) <==> !isLoading && isAuthenticated && requireAdmin && role != Some("admin")
  {
    var push :=
      if isLoading then None
      else if !isAuthenticated then Some(AuthContext.LoginPath)
      else if requireAdmin && role != Some("admin") then Some(HomePath)
      else None;
    var view :=
      if isLoading then Spinner
      else if !isAuthenticated || (requireAdmin && role != Some("admin")) then Nothing
      else Children;
    Decision(view, push)
  }

  /** `requireAdmin` defaults to false: every signed-in viewer sees an ordinary protected page. */
  function DecideDefault(isLoading: bool, isAuthenticated: bool, role: Option<string>): (d: Decision)
    ensures !isLoading && isAuthenticated ==> d.view == Children && d.push == None
    ensures !isLoading && !isAuthenticated ==> d.push == Some(AuthContext.LoginPath)
  {
    Decide(isLoading, isAuthenticated, role, false)
  }

  /** The guard as it reads the session of an `AuthProvider`. */
  function DecideFor(p: AuthContext.AuthProvider, requireAdmin: bool): Decision
    reads p
  {
    Decide(p.isLoading, p.IsAuthenticated(), if p.user.Some? then Some(p.user.value.role) else None, requireAdmin)
  }

  /** On a resolved session the guard lets exactly the admins through an admin-only page,
      and sends every other viewer away with nothing rendered. */
  lemma AdminPageAdmitsExactlyAdmins(p: AuthContext.AuthProvider)
    requires !p.isLoading
    ensures DecideFor(p, true).view == Children <==> p.IsAdmin()
    ensures !p.IsAdmin() ==> DecideFor(p, true).view == Nothing && DecideFor(p, true).push.Some?
  {
  }
}
