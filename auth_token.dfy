/** The token store: safe accessors around the one browser-storage entry
    `authToken`. Storage may be missing altogether (not a browser) or may
    throw on every access (storage disabled); a write may also throw because
    the quota is exhausted. No accessor lets an error escape: reads degrade
    to "no token", writes report failure and change nothing. */
module AuthToken {
  import opened JsValues

  /** The storage key the whole application shares. */
  const TokenKey := "authToken"

  /** `Boolean(value)` for what `Storage.getItem` returns. */
  predicate Present(token: Option<string>) {
    Truthy(FromNullable(token))
  }

  class TokenStore {
    /** `typeof window !== 'undefined' && typeof window.localStorage !== 'undefined'`,
        fixed when the module loads. */
    const available: bool
    /** Every storage access throws (a security error when storage is disabled). */
    const blocked: bool
    /** The stored value under `authToken`; None when the key is absent. */
    var entry: Option<string>

    constructor(available: bool, blocked: bool, entry: Option<string>)
      ensures this.available == available && this.blocked == blocked
      ensures this.entry == entry
    {
      this.available := available;
      this.blocked := blocked;
      this.entry := entry;
    }

    /** Storage can be reached without an exception. */
    predicate Reachable()
      reads this
    {
      available && !blocked
    }

    /** `getAuthToken()`: the stored string, or null when the key is absent,
        storage is missing, or reading throws. */
    function GetAuthToken(): (r: Option<string>)
      reads this
      ensures r.Some? <==> Reachable() && entry.Some?
      ensures r.Some? ==> r == entry
    {
      if !Reachable() then None else entry
    }

    /** `hasAuthToken()`: truthiness of the stored value, so a stored empty
        string counts as logged out even though `getAuthToken()` returns it. */
    predicate HasAuthToken()
      reads this
      ensures HasAuthToken() <==> Reachable() && entry.Some? && entry.value != ""
    {
      Present(GetAuthToken())
    }

    /** `authHeader()`: a bearer header exactly when the token is truthy. */
    function AuthHeader(): (h: map<string, string>)
      reads this
      ensures HasAuthToken() ==> h == map["Authorization" := "Bearer " + entry.value]
      ensures !HasAuthToken() ==> h == map[]
      ensures "Authorization" in h <==> HasAuthToken()
    {
      var token := GetAuthToken();
      if Present(token) then map["Authorization" := "Bearer " + token.value] else map[]
    }

    /** `localStorage.setItem('authToken', value)` called directly: it
        throws when storage is missing or disabled, or when the quota is
        exhausted. Returns false where it would throw; on false nothing
        changed. */
    method SetItem(value: string, quotaExceeded: bool) returns (ok: bool)
      modifies this
      ensures ok <==> Reachable() && !quotaExceeded
      ensures ok ==> entry == Some(value) && GetAuthToken() == Some(value)
      ensures !ok ==> entry == old(entry)
    {
      if !Reachable() || quotaExceeded {
        return false;
      }
      entry := Some(value);
      ok := true;
    }

    /** `localStorage.removeItem('authToken')`: throws only when storage is
        missing or disabled. */
    method RemoveItem() returns (ok: bool)
      modifies this
      ensures ok <==> Reachable()
      ensures ok ==> entry == None && GetAuthToken() == None
      ensures !ok ==> entry == old(entry)
    {
      if !Reachable() {
        return false;
      }
      entry := None;
      ok := true;
    }

    /** `setAuthToken(token)`: a null or undefined token removes the key,
        anything else is stored as `String(token)`. Returns whether storage
        accepted the change; on false nothing changed. */
    method SetAuthToken(token: JsStr, quotaExceeded: bool) returns (ok: bool)
      modifies this
      ensures ok <==> Reachable() && (Nullish(token) || !quotaExceeded)
      ensures ok ==> entry == (if Nullish(token) then None else Some(Stringify(token)))
      ensures !ok ==> entry == old(entry)
      ensures ok ==> GetAuthToken() == (if Nullish(token) then None else Some(token.value))
      ensures ok ==> (HasAuthToken() <==> Truthy(token))
    {
      if !available {
        return false;
      }
      if Nullish(token) {
        ok := RemoveItem();
      } else {
        ok := SetItem(Stringify(token), quotaExceeded);
      }
    }

    /** `clearAuthToken()` is `setAuthToken(null)`: once it succeeds the
        user is logged out whatever was stored before. */
    method ClearAuthToken() returns (ok: bool)
      modifies this
      ensures ok <==> Reachable()
      ensures ok ==> entry == None && GetAuthToken() == None && !HasAuthToken()
      ensures !ok ==> entry == old(entry)
    {
      ok := SetAuthToken(Null, false);
    }
  }
}
