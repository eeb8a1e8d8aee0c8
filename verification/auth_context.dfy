/** The client's session state: the bearer token kept in `localStorage`, the user
    decoded from it, and whether the sign-in modal is open. */
module AuthContext {
  import opened Common

  /** `{ sub, jti }` read from the token's payload; either claim may be missing. */
  datatype User = User(sub: Option<string>, jti: Option<string>)

  /** The claims `JSON.parse(atob(token.split('.')[1]))` produces. */
  datatype Claims = Claims(sub: Option<string>, jti: Option<string>)

  /** The `localStorage` key the token is kept under. */
  const TokenKey := "token"

  /** The `AuthProvider` component's state, with the browser's `localStorage`. */
  class AuthProvider {
    var user: Option<User>
    var token: Option<string>
    var isModalOpen: bool
    var storage: map<string, string>

    /** Mounting: the token is whatever `localStorage.getItem('token')` returns; there is
        no user until the token effect has run, and the modal is closed. */
    constructor (stored: map<string, string>)
      ensures storage == stored
      ensures token == (if TokenKey in stored then Some(stored[TokenKey]) else None)
      ensures user == None && !isModalOpen
    {
      storage := stored;
      token := if TokenKey in stored then Some(stored[TokenKey]) else None;
      user := None;
      isModalOpen := false;
    }

    /** `isAuthenticated: !!token`. */
    function IsAuthenticated(): (b: bool)
      reads this
      ensures b <==> token.Some? && token.value != ""
    {
      Truthy(token)
    }

    /** `login(newToken)`: store the token, adopt it, close the modal. The user is
        re-derived afterwards by `OnTokenChange`. */
    method Login(newToken: string)
      modifies this
      ensures storage == old(storage)[TokenKey := newToken]
      ensures token == Some(newToken) && !isModalOpen
      ensures user == old(user)
      ensures IsAuthenticated() <==> newToken != ""
    {
      storage := storage[TokenKey := newToken];
      token := Some(newToken);
      isModalOpen := false;
    }

    /** `logout()`: forget the stored token, the token and the user. */
    method Logout()
      modifies this
      ensures storage == old(storage) - {TokenKey}
      ensures token == None && user == None
      ensures isModalOpen == old(isModalOpen)
      ensures !IsAuthenticated()
    {
      storage := storage - {TokenKey};
      token := None;
      user := None;
    }

    method OpenModal()
      modifies this
      ensures isModalOpen
      ensures token == old(token) && user == old(user) && storage == old(storage)
    {
      isModalOpen := true;
    }

    method CloseModal()
      modifies this
      ensures !isModalOpen
      ensures token == old(token) && user == old(user) && storage == old(storage)
    {
      isModalOpen := false;
    }

    /** The effect that runs whenever `token` changes. `decode` stands for splitting the
        token and parsing its payload, and is `None` where that throws. A falsy token
        leaves everything as it is; a decodable one sets the user from its claims; an
        undecodable one logs out. */
    method OnTokenChange(decode: string -> Option<Claims>)
      modifies this
      ensures !Truthy(old(token)) ==>
                token == old(token) && user == old(user) && storage == old(storage)
      ensures Truthy(old(token)) && decode(old(token).value).Some? ==>
                && user == Some(User(decode(old(token).value).value.sub, decode(old(token).value).value.jti))
                && token == old(token) && storage == old(storage)
      ensures Truthy(old(token)) && decode(old(token).value).None? ==>
                && user == None && token == None && storage == old(storage) - {TokenKey}
                && !IsAuthenticated()
      ensures isModalOpen == old(isModalOpen)
    {
      if Truthy(token) {
        var claims := decode(token.value);
        if claims.Some? {
          user := Some(User(claims.value.sub, claims.value.jti));
        } else {
          Logout();
        }
      }
    }
  }

  /** A session as the contracts above describe it: signing in with a readable token
      authenticates and sets the user; signing out undoes both. */
  method SessionScenario(t: string, decode: string -> Option<Claims>)
    requires t != "" && decode(t).Some?
  {
    var auth := new AuthProvider(map[]);
    assert !auth.IsAuthenticated();
    auth.OpenModal();
    auth.Login(t);
    assert !auth.isModalOpen && auth.storage[TokenKey] == t;
    auth.OnTokenChange(decode);
    assert auth.IsAuthenticated() && auth.user == Some(User(decode(t).value.sub, decode(t).value.jti));
    auth.Logout();
    assert !auth.IsAuthenticated() && auth.user == None && TokenKey !in auth.storage;
  }
}
