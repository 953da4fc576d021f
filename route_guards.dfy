/** The two route guards. Each is a pure decision, taken at render time from
    `hasAuthToken()` alone, between rendering what it wraps and redirecting. */
module RouteGuards {
  import opened JsValues
  import AuthToken

  /** What `useLocation()` reports. */
  datatype Location = Location(pathname: string, search: string, hash: string)

  /** `<Navigate to replace state />`, or the wrapped content (the nested
      `<Outlet />` of the protected layout, the `children` of the public
      guard). */
  datatype GuardResult =
    | Navigate(to: string, replace: bool, state: Option<Location>)
    | RenderInner

  const LoginPath := "/login"
  const HomePath := "/"

  /** ProtectedRoute: without a token, replace the history entry with
      `/login` and remember where the user was going. */
  function ProtectedRoute(hasToken: bool, location: Location): (r: GuardResult)
    ensures r == RenderInner <==> hasToken
    ensures !hasToken ==> r == Navigate(LoginPath, true, Some(location))
  {
    if !hasToken then Navigate(LoginPath, true, Some(location)) else RenderInner
  }

  /** PublicRoute: with a token, replace the history entry with `/`,
      carrying no state. */
  function PublicRoute(hasToken: bool): (r: GuardResult)
    ensures r == RenderInner <==> !hasToken
    ensures hasToken ==> r == Navigate(HomePath, true, None)
  {
    if hasToken then Navigate(HomePath, true, None) else RenderInner
  }

  /** Whatever the store holds, exactly one of the two guards renders its
      content, and every redirect either guard issues replaces history. */
  lemma GuardsComplementary(store: AuthToken.TokenStore, location: Location)
    ensures (ProtectedRoute(store.HasAuthToken(), location) == RenderInner)
        != (PublicRoute(store.HasAuthToken()) == RenderInner)
    ensures ProtectedRoute(store.HasAuthToken(), location).Navigate? ==>
              ProtectedRoute(store.HasAuthToken(), location).replace
    ensures PublicRoute(store.HasAuthToken()).Navigate? ==>
              PublicRoute(store.HasAuthToken()).replace
  {
  }

  /** A stored empty string is no token: the protected guard redirects. */
  lemma EmptyTokenIsRedirected(store: AuthToken.TokenStore, location: Location)
    requires store.entry == Some("")
    ensures ProtectedRoute(store.HasAuthToken(), location) == Navigate(LoginPath, true, Some(location))
    ensures PublicRoute(store.HasAuthToken()) == RenderInner
  {
  }
}
