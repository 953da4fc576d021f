/** Whole flows across the token store, the login form and the router,
    each on fresh objects: what the user sees after logging in or out. */
module Scenarios {
  import opened JsValues
  import opened Records
  import opened AuthToken
  import opened RouteGuards
  import opened Routes
  import opened LoginPage

  /** A successful login answer carrying `token`. */
  function Accepted(token: JsStr): LoginResponse {
    Envelope(true, Undefined, Some(token))
  }

  /** Logging in with working storage and then following the navigation to
      `/`: a non-empty token shows the home page; an empty one is written,
      but the protected guard sends the user straight back to `/login`. */
  method LoginThenLand(token: string) returns (landing: Render)
    ensures token != "" ==> landing == Show(Home)
    ensures token == "" ==> landing == Redirect(LoginPath, true, Some(At(HomePath)))
  {
    var store := new TokenStore(true, false, None);
    var form := new LoginForm();
    var navigateTo := form.HandleSubmit(store, Resolved(Accepted(Str(token))), false);
    assert navigateTo == Some(AfterLogin);
    ProtectedPaths();
    landing := Resolve(At(navigateTo.value), store.HasAuthToken());
  }

  /** A success answer without a token still logs the user in: the page
      stores the text "undefined", which is a truthy token. */
  method LoginWithoutToken() returns (stored: Option<string>, loggedIn: bool)
    ensures stored == Some("undefined")
    ensures loggedIn
  {
    var store := new TokenStore(true, false, None);
    var form := new LoginForm();
    var navigateTo := form.HandleSubmit(store, Resolved(Accepted(Undefined)), false);
    stored := store.GetAuthToken();
    loggedIn := store.HasAuthToken();
  }

  /** A refused login leaves a previous session as it was and shows the
      server's reason. */
  method RefusedLoginKeepsSession(previous: Option<string>, reason: string) returns (error: string, kept: Option<string>)
    requires reason != ""
    ensures error == reason
    ensures kept == previous
  {
    var store := new TokenStore(true, false, previous);
    var form := new LoginForm();
    var navigateTo := form.HandleSubmit(store, Resolved(Envelope(false, Str(reason), None)), false);
    error := form.error;
    kept := store.GetAuthToken();
  }

  /** After a successful logout every protected page redirects to `/login`,
      whatever token was stored before. */
  method LogoutThenVisit(previous: Option<string>, pathname: string) returns (r: Render)
    ensures Lookup(pathname).guard == Protected ==> r == Redirect(LoginPath, true, Some(At(pathname)))
    ensures Lookup(pathname).guard != Protected ==> r.Show?
  {
    var store := new TokenStore(true, false, previous);
    var ok := store.ClearAuthToken();
    r := Resolve(At(pathname), store.HasAuthToken());
  }

  /** With storage disabled the user can never get past the login page:
      the token write fails, so there is no navigation, and every protected
      page redirects. */
  method BlockedStorageNeverLogsIn(token: string, pathname: string) returns (navigateTo: Option<string>, r: Render)
    ensures navigateTo == None
    ensures Lookup(pathname).guard == Protected ==> r == Redirect(LoginPath, true, Some(At(pathname)))
  {
    var store := new TokenStore(true, true, None);
    var form := new LoginForm();
    navigateTo := form.HandleSubmit(store, Resolved(Accepted(Str(token))), false);
    r := Resolve(At(pathname), store.HasAuthToken());
  }
}
