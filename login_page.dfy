/** The login form. Submitting is an async handler; it is split at its one
    `await` into `BeginSubmit` (what runs before the service call) and
    `CompleteSubmit` (what runs once the call settles), with the settled
    call given as an `Outcome`. */
module LoginPage {
  import opened JsValues
  import opened Records
  import opened AuthToken

  /** The body the login endpoint answers with: `data` is None when it is
      missing or null, otherwise `data.token` as JavaScript would read it. */
  type LoginResponse = Envelope<Option<JsStr>>

  const LoginFailed := "Login failed"

  /** Where `navigate` is sent after a successful login. */
  const AfterLogin := "/"

  /** The body reached the token write: `success` was set and `data` was an
      object. */
  predicate ReachesTokenWrite(outcome: Outcome<LoginResponse>) {
    outcome.Resolved? && outcome.value.success && outcome.value.data.Some?
  }

  /** The server refused the credentials. */
  predicate Refused(outcome: Outcome<LoginResponse>) {
    outcome.Resolved? && !outcome.value.success
  }

  /** The message shown when the server refuses: its own, or a fixed one
      when it sent none (or an empty one). */
  function RefusalMessage(response: LoginResponse): (m: string)
    ensures Truthy(response.message) ==> m == response.message.value
    ensures !Truthy(response.message) ==> m == LoginFailed
    ensures m != ""
  {
    OrElse(response.message, LoginFailed)
  }

  class LoginForm {
    var email: string
    var password: string
    var error: string
    var isLoading: bool
    var showPassword: bool

    /** The form as first rendered: empty fields, no error, not loading,
        password hidden. */
    constructor()
      ensures email == "" && password == "" && error == ""
      ensures !isLoading && !showPassword
    {
      email := "";
      password := "";
      error := "";
      isLoading := false;
      showPassword := false;
    }

    /** The part of `handleSubmit` before the `await`: clear the error and
        show the spinner. */
    method BeginSubmit()
      modifies this
      ensures error == "" && isLoading
      ensures email == old(email) && password == old(password)
      ensures showPassword == old(showPassword)
    {
      error := "";
      isLoading := true;
    }

    /** The part of `handleSubmit` after the `await`.
        - Success with a `data` object: the token is written to storage as
          `String(token)` directly (not through `setAuthToken`, so a missing
          token is stored as the text "undefined"), then the page navigates
          to `/`. A throwing write is caught: no navigation.
        - Success without `data`: reading `data.token` throws and is caught.
        - Refusal: the error shows the server's message or "Login failed".
        - A rejected call is caught: the error stays as it was.
        In every case the spinner stops. */
    method CompleteSubmit(store: TokenStore, outcome: Outcome<LoginResponse>, quotaExceeded: bool)
      returns (navigateTo: Option<string>)
      modifies this, store
      ensures !isLoading
      ensures navigateTo.Some? <==> ReachesTokenWrite(outcome) && store.Reachable() && !quotaExceeded
      ensures navigateTo.Some? ==> navigateTo.value == AfterLogin
      ensures navigateTo.Some? ==>
                store.entry == Some(Stringify(outcome.value.data.value))
                && (store.HasAuthToken() <==> Stringify(outcome.value.data.value) != "")
      ensures navigateTo.None? ==> store.entry == old(store.entry)
      ensures error == (if Refused(outcome) then RefusalMessage(outcome.value) else old(error))
      ensures email == old(email) && password == old(password)
      ensures showPassword == old(showPassword)
    {
      navigateTo := None;
      match outcome {
        case Rejected =>
        case Resolved(response) =>
          if response.success {
            match response.data {
              case None =>
              case Some(token) =>
                var stored := store.SetItem(Stringify(token), quotaExceeded);
                if stored {
                  navigateTo := Some(AfterLogin);
                }
            }
          } else {
            error := RefusalMessage(response);
          }
      }
      isLoading := false;
    }

    /** The whole submit handler, for a call that settles before anything
        else happens on the page. */
    method HandleSubmit(store: TokenStore, outcome: Outcome<LoginResponse>, quotaExceeded: bool)
      returns (navigateTo: Option<string>)
      modifies this, store
      ensures !isLoading
      ensures navigateTo.Some? <==> ReachesTokenWrite(outcome) && store.Reachable() && !quotaExceeded
      ensures navigateTo.Some? ==> navigateTo.value == AfterLogin
      ensures navigateTo.Some? ==> store.entry == Some(Stringify(outcome.value.data.value))
      ensures navigateTo.None? ==> store.entry == old(store.entry)
      ensures error == (if Refused(outcome) then RefusalMessage(outcome.value) else "")
      ensures Refused(outcome) ==> error != ""
      ensures email == old(email) && password == old(password)
      ensures showPassword == old(showPassword)
    {
      BeginSubmit();
      navigateTo := CompleteSubmit(store, outcome, quotaExceeded);
    }

    /** `togglePasswordVisibility`. */
    method TogglePasswordVisibility()
      modifies this
      ensures showPassword == !old(showPassword)
      ensures email == old(email) && password == old(password)
      ensures error == old(error) && isLoading == old(isLoading)
    {
      showPassword := !showPassword;
    }
  }

  /** Toggling twice restores the visibility the form started with. */
  method ToggleTwice(form: LoginForm)
    modifies form
    ensures form.showPassword == old(form.showPassword)
    ensures form.error == old(form.error) && form.isLoading == old(form.isLoading)
  {
    form.TogglePasswordVisibility();
    form.TogglePasswordVisibility();
  }
}
