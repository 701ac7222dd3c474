/** The browser side's session: the token kept in `localStorage` and the page
    location. Storage is a map from keys to strings; setting
    `window.location.href` is an assignment to `location`. */
module ClientAuth {
  import opened Optional

  /** The key every reader of the session token uses. */
  const TokenKey := "book-manager-token"
  /** The key the login page writes the token under. */
  const LoginPageKey := "token"
  /** Where logging out sends the browser. */
  const LoginPath := "/"

  type Storage = map<string, string>

  datatype ClientState = ClientState(storage: Storage, location: string)

  /** `localStorage.getItem(key)`: `None` stands for `null`. */
  function GetItem(storage: Storage, key: string): Option<string> {
    if key in storage then Some(storage[key]) else None
  }

  /** `isAuthenticated()`: `!!localStorage.getItem(TokenKey)`, so a stored
      empty string counts as no token. */
  function Authenticated(storage: Storage): (r: bool)
    ensures r <==> TokenKey in storage && storage[TokenKey] != ""
  {
    match GetItem(storage, TokenKey)
    case Some(token) => token != ""
    case None => false
  }

  /** Removing the token key and going to the login page. */
  function LoggedOut(s: ClientState): (t: ClientState)
    ensures t.storage.Keys == s.storage.Keys - {TokenKey}
    ensures forall k :: k in t.storage ==> t.storage[k] == s.storage[k]
    ensures t.location == LoginPath
    ensures !Authenticated(t.storage)
  {
    ClientState(s.storage - {TokenKey}, LoginPath)
  }

  /** Logging out twice leaves the same state as logging out once. */
  lemma LogoutIdempotent(s: ClientState)
    ensures LoggedOut(LoggedOut(s)) == LoggedOut(s)
  {
  }

  /** What the login page does with the token it receives, as written: it
      stores it under "token", which nobody reads. */
  function StoreLoginTokenAsWritten(storage: Storage, token: string): (r: Storage)
    ensures r.Keys == storage.Keys + {LoginPageKey} && r[LoginPageKey] == token
    ensures forall k :: k in storage && k != LoginPageKey ==> r[k] == storage[k]
  {
    storage[LoginPageKey := token]
  }

  /** The evident intent: store it under the key the readers use. */
  function StoreLoginToken(storage: Storage, token: string): (r: Storage)
    ensures r.Keys == storage.Keys + {TokenKey} && r[TokenKey] == token
    ensures forall k :: k in storage && k != TokenKey ==> r[k] == storage[k]
  {
    storage[TokenKey := token]
  }

  /** As written, a successful login never makes the session authenticated:
      whatever was true before stays true. */
  lemma AsWrittenLoginDoesNotAuthenticate(storage: Storage, token: string)
    ensures Authenticated(StoreLoginTokenAsWritten(storage, token)) == Authenticated(storage)
    ensures !Authenticated(StoreLoginTokenAsWritten(map[], token))
  {
  }

  /** Corrected, any non-empty token makes the session authenticated. */
  lemma StoredLoginAuthenticates(storage: Storage, token: string)
    requires token != ""
    ensures Authenticated(StoreLoginToken(storage, token))
  {
  }

  /** The browser: its local storage and its current location. */
  class Browser {
    var storage: Storage
    var location: string

    constructor (storage: Storage, location: string)
      ensures this.storage == storage && this.location == location
    {
      this.storage := storage;
      this.location := location;
    }

    function State(): ClientState
      reads this
    {
      ClientState(storage, location)
    }

    /** `isAuthenticated()`: a read of storage that changes nothing. */
    method IsAuthenticated() returns (r: bool)
      ensures r == Authenticated(storage)
      ensures r <==> TokenKey in storage && storage[TokenKey] != ""
    {
      var token := GetItem(storage, TokenKey);
      r := token.Some? && token.value != "";
    }

    /** `logout()`: remove the token key only, then go to the login page. */
    method Logout()
      modifies this
      ensures State() == LoggedOut(old(State()))
      ensures !Authenticated(storage)
    {
      storage := storage - {TokenKey};
      location := LoginPath;
    }

    /** The login page's `localStorage.setItem("token", ...)`, as written. */
    method SaveLoginTokenAsWritten(token: string)
      modifies this
      ensures storage == StoreLoginTokenAsWritten(old(storage), token)
      ensures location == old(location)
    {
      storage := storage[LoginPageKey := token];
    }

    /** The same step storing under the key every reader uses. */
    method SaveLoginToken(token: string)
      modifies this
      ensures storage == StoreLoginToken(old(storage), token)
      ensures location == old(location)
    {
      storage := storage[TokenKey := token];
    }
  }
}
