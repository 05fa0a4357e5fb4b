/**
 * The navigation guard: before every navigation it looks the session up
 * and decides from two facts, "authenticated" and "target is public",
 * whether to proceed or to redirect to `login` or `home`.
 */
module Router {
  import opened Remote
  import opened Auth

  /** The value found at a route's `meta.public`. */
  datatype MetaValue = Absent | Boolean(flag: bool) | OtherValue(text: string)

  /** What the guard returns: nothing (proceed) or a redirect to a named route. */
  datatype Decision = Proceed | Redirect(name: string)

  const LoginRoute: string := "login"
  const HomeRoute: string := "home"

  /** `meta.public === true`: only the boolean `true` makes a route public. */
  predicate IsPublic(publicMeta: MetaValue)
  {
    publicMeta == Boolean(true)
  }

  /** The guard, given the session lookup's reply and the target's `meta.public`. */
  function Guard(session: Reply<AuthUser>, publicMeta: MetaValue): (d: Decision)
    // "Authenticated" means the lookup returned user data, whatever its error.
    ensures session.data.None? && publicMeta != Boolean(true) ==> d == Redirect(LoginRoute)
    ensures session.data.Some? && publicMeta == Boolean(true) ==> d == Redirect(HomeRoute)
    ensures d == Proceed <==> (session.data.Some? <==> publicMeta != Boolean(true))
  {
    var isAuthenticated := session.data.Some?;
    var isPublicRoute := IsPublic(publicMeta);
    if !isAuthenticated && !isPublicRoute then Redirect(LoginRoute)
    else if isAuthenticated && isPublicRoute then Redirect(HomeRoute)
    else Proceed
  }

  /** `meta.public` of each route in the route table; unknown names have none. */
  function RouteMeta(name: string): (m: MetaValue)
    ensures IsPublic(m) <==> name in {"login", "register"}
  {
    if name == "login" || name == "register" then Boolean(true) else Absent
  }

  /**
   * A redirect the guard issues is let through by the guard on the next
   * navigation, as long as the session has not changed: no redirect loop.
   */
  lemma RedirectSettles(session: Reply<AuthUser>, publicMeta: MetaValue)
    requires Guard(session, publicMeta).Redirect?
    ensures Guard(session, RouteMeta(Guard(session, publicMeta).name)) == Proceed
  {
  }
}
