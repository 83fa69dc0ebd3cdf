/** The session of `src/contexts/AuthContext.tsx`: hydration from
    `localStorage` on mount, `login`, `logout`, and the `useAuth` hook.
    `localStorage` is a map from key to value; `JSON.parse` and
    `JSON.stringify` are parameters. */
module AuthContext {
  import opened Wrappers

  datatype Role = Admin | Member

  datatype User = User(id: int, username: string, email: string, firstName: string, lastName: string, role: Role)

  /** The `data` of a successful login response. */
  datatype LoginData = LoginData(token: string, user: User)

  const TokenKey := "authToken"
  const UserKey := "userData"

  /** `localStorage.getItem(key)` is truthy: present and not "". */
  predicate Stored(storage: map<string, string>, key: string) {
    key in storage && storage[key] != ""
  }

  /** Everything the provider holds apart from `loading`. */
  datatype Session = Session(isAuthenticated: bool, user: Option<User>, storage: map<string, string>)

  /** The session the mount effect leaves: with both keys stored, the parsed
      user, or both keys removed when the text does not parse; with either
      key missing, the session as it was. `parse` returns `None` where
      `JSON.parse` throws. */
  function Hydrated(s: Session, parse: string -> Option<User>): (r: Session)
    ensures Stored(s.storage, TokenKey) && Stored(s.storage, UserKey) && parse(s.storage[UserKey]).Some? ==>
              r == Session(true, parse(s.storage[UserKey]), s.storage)
    ensures Stored(s.storage, TokenKey) && Stored(s.storage, UserKey) && parse(s.storage[UserKey]).None? ==>
              r == s.(storage := s.storage - {TokenKey, UserKey})
    ensures !(Stored(s.storage, TokenKey) && Stored(s.storage, UserKey)) ==> r == s
  {
    if Stored(s.storage, TokenKey) && Stored(s.storage, UserKey) then
      match parse(s.storage[UserKey])
      case Some(u) => Session(true, Some(u), s.storage)
      case None => s.(storage := s.storage - {TokenKey} - {UserKey})
    else s
  }

  /** The session `login` leaves, and what it returns. */
  function LoggedIn(s: Session, outcome: Call<LoginData>, stringify: User -> string): (r: (Session, bool))
    ensures r.1 <==> outcome.Returned? && outcome.response.success && outcome.response.data.Some?
    ensures r.1 ==> r.0 == Session(true, Some(outcome.response.data.value.user),
                                   s.storage[TokenKey := outcome.response.data.value.token]
                                            [UserKey := stringify(outcome.response.data.value.user)])
    ensures !r.1 ==> r.0 == s
  {
    match outcome
    case Returned(env) =>
      if env.success && env.data.Some? then
        var d := env.data.value;
        (Session(true, Some(d.user), s.storage[TokenKey := d.token][UserKey := stringify(d.user)]), true)
      else (s, false)
    case Threw(_) => (s, false)
  }

  /** The session `logout` leaves, whatever the server answered. */
  function LoggedOut(s: Session): (r: Session)
    ensures !r.isAuthenticated && r.user == None
    ensures TokenKey !in r.storage && UserKey !in r.storage
    ensures forall k :: k in s.storage && k != TokenKey && k != UserKey ==> k in r.storage && r.storage[k] == s.storage[k]
    ensures r.storage.Keys <= s.storage.Keys
  {
    Session(false, None, s.storage - {TokenKey} - {UserKey})
  }

  /** A fresh provider on the same storage: what a page reload sees. */
  function Reloaded(storage: map<string, string>, parse: string -> Option<User>): Session {
    Hydrated(Session(false, None, storage), parse)
  }

  /** A reload after a successful login restores the user, provided the token
      is not empty and parsing the stored text gives the user back. */
  lemma ReloadAfterLogin(s: Session, data: LoginData, msg: string, err: string,
                         stringify: User -> string, parse: string -> Option<User>)
    requires data.token != ""
    requires stringify(data.user) != ""
    requires parse(stringify(data.user)) == Some(data.user)
    ensures var after := LoggedIn(s, Returned(Envelope(true, msg, Some(data), err)), stringify).0;
            Reloaded(after.storage, parse) == after
  {
  }

  /** A reload after logout is signed out and leaves storage as logout left it. */
  lemma ReloadAfterLogout(s: Session, parse: string -> Option<User>)
    ensures Reloaded(LoggedOut(s).storage, parse) == Session(false, None, LoggedOut(s).storage)
  {
  }

  /** Hydrating twice is hydrating once. */
  lemma HydratedIdempotent(s: Session, parse: string -> Option<User>)
    ensures Hydrated(Hydrated(s, parse), parse) == Hydrated(s, parse)
  {
    var h := Hydrated(s, parse);
    if Stored(s.storage, TokenKey) && Stored(s.storage, UserKey) && parse(s.storage[UserKey]).None? {
      assert !Stored(h.storage, TokenKey);
    }
  }

  /** The provider. */
  class AuthProvider {
    var isAuthenticated: bool
    var user: Option<User>
    var loading: bool
    var storage: map<string, string>

    function Current(): Session
      reads this
    {
      Session(isAuthenticated, user, storage)
    }

    /** First render: signed out and loading, over the browser's storage. */
    constructor(initialStorage: map<string, string>)
      ensures !isAuthenticated && user == None && loading && storage == initialStorage
    {
      isAuthenticated := false;
      user := None;
      loading := true;
      storage := initialStorage;
    }

    /** The mount effect. */
    method Hydrate(parse: string -> Option<User>)
      modifies this
      ensures Current() == Hydrated(old(Current()), parse)
      ensures !loading
      ensures isAuthenticated <==> (old(isAuthenticated)
                || (Stored(old(storage), TokenKey) && Stored(old(storage), UserKey) && parse(old(storage)[UserKey]).Some?))
      ensures !(Stored(old(storage), TokenKey) && Stored(old(storage), UserKey)) ==> storage == old(storage)
    {
      var authToken := if TokenKey in storage then Some(storage[TokenKey]) else None;
      var userData := if UserKey in storage then Some(storage[UserKey]) else None;
      if Truthy(authToken) && Truthy(userData) {
        var parsed := parse(userData.value);
        if parsed.Some? {
          isAuthenticated := true;
          user := parsed;
        } else {
          storage := storage - {TokenKey};
          storage := storage - {UserKey};
        }
      }
      loading := false;
    }

    /** `login(username, password)` after the service call settles; it never
      throws. */
    method Login(outcome: Call<LoginData>, stringify: User -> string) returns (ok: bool)
      modifies this
      ensures (Current(), ok) == LoggedIn(old(Current()), outcome, stringify)
      ensures ok ==> isAuthenticated && user == Some(outcome.response.data.value.user)
      ensures ok ==> storage[TokenKey] == outcome.response.data.value.token
      ensures !ok ==> Current() == old(Current())
      ensures loading == old(loading)
    {
      ok := false;
      match outcome {
        case Returned(response) =>
          if response.success && response.data.Some? {
            storage := storage[TokenKey := response.data.value.token];
            storage := storage[UserKey := stringify(response.data.value.user)];
            isAuthenticated := true;
            user := Some(response.data.value.user);
            ok := true;
          }
        case Threw(_) =>
      }
    }

    /** `logout()`: the server call's outcome is ignored; the `finally` block
      always signs out. */
    method Logout()
      modifies this
      ensures Current() == LoggedOut(old(Current()))
      ensures loading == old(loading)
    {
      storage := storage - {TokenKey};
      storage := storage - {UserKey};
      isAuthenticated := false;
      user := None;
    }
  }

  /** `useAuth()`: the context value, or the error thrown outside a provider. */
  function UseAuth<T>(context: Option<T>): (r: Result<T>)
    ensures r.Ok? <==> context.Some?
    ensures r.Ok? ==> r.value == context.value
    ensures r.Err? ==> r.error == ErrorObject("useAuth must be used within an AuthProvider")
  {
    match context
    case Some(c) => Ok(c)
    case None => Err(ErrorObject("useAuth must be used within an AuthProvider"))
  }
}
