/** The session store: the authentication token and the user's email kept in
    the browser's `localStorage` under two keys. Outside a browser there is no
    storage, so every read yields nothing and every write is skipped. */
module AuthUtils {
  import opened Text

  const TokenKey := "auth_token"
  const EmailKey := "user_email"

  /** `localStorage.getItem(key)`. */
  function Lookup(storage: map<string, string>, key: string): (r: Option<string>)
    ensures r.Some? <==> key in storage
    ensures r.Some? ==> r.value == storage[key]
  {
    if key in storage then Some(storage[key]) else None
  }

  /** The storage after `setAuthToken(token, email)` in a browser: the token is
      stored, and the email too when it is a non-empty string. */
  function StoreToken(storage: map<string, string>, token: string, email: Option<string>): map<string, string>
  {
    var withToken := storage[TokenKey := token];
    if Truthy(email) then withToken[EmailKey := email.value] else withToken
  }

  /** The storage after `removeAuthToken()` in a browser. */
  function ClearSession(storage: map<string, string>): map<string, string>
  {
    storage - {TokenKey, EmailKey}
  }

  /** `!!getAuthToken()`: a token is stored and it is not the empty string. */
  predicate Authenticated(storage: map<string, string>)
  {
    Truthy(Lookup(storage, TokenKey))
  }

  /** After storing, the token reads back, and so does a non-empty email. */
  lemma StoreThenRead(storage: map<string, string>, token: string, email: Option<string>)
    ensures Lookup(StoreToken(storage, token, email), TokenKey) == Some(token)
    ensures Truthy(email) ==> Lookup(StoreToken(storage, token, email), EmailKey) == email
    ensures Authenticated(StoreToken(storage, token, email)) <==> token != ""
  {
    assert TokenKey != EmailKey;
  }

  /** Without an email, or with an empty one, a stored email stays as it was. */
  lemma StoreKeepsEmail(storage: map<string, string>, token: string, email: Option<string>)
    requires !Truthy(email)
    ensures Lookup(StoreToken(storage, token, email), EmailKey) == Lookup(storage, EmailKey)
  {
    assert TokenKey != EmailKey;
  }

  /** After clearing, neither key is present and nobody is signed in. */
  lemma ClearRemovesBoth(storage: map<string, string>)
    ensures Lookup(ClearSession(storage), TokenKey) == None
    ensures Lookup(ClearSession(storage), EmailKey) == None
    ensures !Authenticated(ClearSession(storage))
  {
  }

  /** No operation touches a key other than the token's and the email's. */
  lemma OtherKeysUntouched(storage: map<string, string>, token: string, email: Option<string>, key: string)
    requires key != TokenKey && key != EmailKey
    ensures Lookup(StoreToken(storage, token, email), key) == Lookup(storage, key)
    ensures Lookup(ClearSession(storage), key) == Lookup(storage, key)
  {
  }

  /** The browser's storage as these helpers see it. */
  class Session {
    /** Whether `window` is defined, that is whether the code runs in a browser. */
    const hasWindow: bool
    var storage: map<string, string>

    constructor (hasWindow: bool, storage: map<string, string>)
      ensures this.hasWindow == hasWindow && this.storage == storage
    {
      this.hasWindow := hasWindow;
      this.storage := storage;
    }

    /** `getAuthToken`: the stored token, if there is a browser and a token. */
    method GetAuthToken() returns (token: Option<string>)
      ensures token.Some? <==> hasWindow && TokenKey in storage
      ensures token.Some? ==> token.value == storage[TokenKey]
    {
      if hasWindow {
        token := Lookup(storage, TokenKey);
      } else {
        token := None;
      }
    }

    /** `getUserEmail`: the stored email, if there is a browser and an email. */
    method GetUserEmail() returns (email: Option<string>)
      ensures email.Some? <==> hasWindow && EmailKey in storage
      ensures email.Some? ==> email.value == storage[EmailKey]
    {
      if hasWindow {
        email := Lookup(storage, EmailKey);
      } else {
        email := None;
      }
    }

    /** `isAuthenticated`: a non-empty token is stored in a browser. */
    method IsAuthenticated() returns (signedIn: bool)
      ensures signedIn <==> hasWindow && Authenticated(storage)
      ensures signedIn ==> TokenKey in storage && storage[TokenKey] != ""
    {
      var token := GetAuthToken();
      signedIn := Truthy(token);
    }

    /** `setAuthToken`: in a browser the token is stored, and the email when it
        is a non-empty string; outside one nothing changes. */
    method SetAuthToken(token: string, email: Option<string>)
      modifies this
      ensures hasWindow ==> storage == StoreToken(old(storage), token, email)
      ensures !hasWindow ==> storage == old(storage)
    {
      if hasWindow {
        storage := storage[TokenKey := token];
        if Truthy(email) {
          storage := storage[EmailKey := email.value];
        }
      }
    }

    /** `removeAuthToken`: in a browser both keys are removed; outside one
        nothing changes. */
    method RemoveAuthToken()
      modifies this
      ensures hasWindow ==> storage == ClearSession(old(storage))
      ensures !hasWindow ==> storage == old(storage)
    {
      if hasWindow {
        storage := storage - {TokenKey};
        storage := storage - {EmailKey};
      }
    }
  }
}
