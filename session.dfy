/**
 * hooks/useAuth.js: the session — token, profile, loading flag and last
 * error — and the one persisted key, "tm_jwt".
 *
 * Each transition is a pure function over `AuthState`; the class
 * `AuthSession` performs it field by field and is specified by it.
 */
module Session {
  import opened Wrappers
  import opened JsValues
  import opened Client
  import AuthApi

  const TOKEN_KEY: string := "tm_jwt"

  /**
   * What `error` records: the error a request rejected with, or the TypeError
   * thrown by reading `access_token` of a null sign-in response.
   */
  datatype AuthError = RequestFailed(message: string) | UnreadableLoginData

  datatype AuthState = AuthState(
    token: Value,
    user: Value,
    loading: bool,
    error: Option<AuthError>,
    stored: map<string, string>)

  /** `isAuthenticated: Boolean(token)` */
  predicate IsAuthenticated(s: AuthState)
  {
    Truthy(s.token)
  }

  datatype LoginResult = LoginOk | LoginFailed(error: AuthError)

  // ----- storage -----

  /** `removeItem(TOKEN_KEY)`, whose exception on unavailable storage is swallowed. */
  function Removed(stored: map<string, string>, available: bool): (r: map<string, string>)
    ensures available ==> TOKEN_KEY !in r && forall k :: k in stored && k != TOKEN_KEY ==> k in r && r[k] == stored[k]
    ensures !available ==> r == stored
  {
    if available then stored - {TOKEN_KEY} else stored
  }

  /** `setItem(TOKEN_KEY, String(value))`, whose exception on unavailable storage is swallowed. */
  function Written(stored: map<string, string>, available: bool, value: string): (r: map<string, string>)
    ensures available ==> TOKEN_KEY in r && r[TOKEN_KEY] == value
    ensures available ==> forall k :: k in stored && k != TOKEN_KEY ==> k in r && r[k] == stored[k]
    ensures !available ==> r == stored
  {
    if available then stored[TOKEN_KEY := value] else stored
  }

  /** `window.localStorage`: a key-value map; when unavailable, every access throws. */
  class Storage {
    var items: map<string, string>
    const available: bool

    constructor (items: map<string, string>, available: bool)
      ensures this.items == items && this.available == available
    {
      this.items := items;
      this.available := available;
    }

    /** `getItem(key)`, with a throw read as null. */
    method GetItem(key: string) returns (v: Value)
      ensures v == if available && key in items then Str(items[key]) else Null
    {
      if available && key in items {
        v := Str(items[key]);
      } else {
        v := Null;
      }
    }

    method SetToken(value: string)
      modifies this
      ensures items == Written(old(items), available, value)
    {
      if available {
        items := items[TOKEN_KEY := value];
      }
    }

    method RemoveToken()
      modifies this
      ensures items == Removed(old(items), available)
    {
      if available {
        items := items - {TOKEN_KEY};
      }
    }
  }

  // ----- transitions -----

  /** The state `useAuth` starts in: the stored token (null if missing or unreadable), loading iff one was found. */
  function InitialState(stored: map<string, string>, available: bool): (s: AuthState)
    ensures s.loading <==> IsAuthenticated(s)
    ensures s.user == Null && s.error == None && s.stored == stored
    ensures available && TOKEN_KEY in stored ==> s.token == Str(stored[TOKEN_KEY])
    ensures !(available && TOKEN_KEY in stored) ==> s.token == Null
  {
    var token := if available && TOKEN_KEY in stored then Str(stored[TOKEN_KEY]) else Null;
    AuthState(token, Null, Truthy(token), None, stored)
  }

  /** `refreshMe`, given what the profile request resolved to. */
  function RefreshOf(s: AuthState, available: bool, me: Outcome<Value>): (r: AuthState)
    ensures !IsAuthenticated(s) ==> r == s
    ensures IsAuthenticated(s) && me.Ok? ==>
              r == s.(user := me.value, error := None, loading := false)
    ensures IsAuthenticated(s) && me.Fail? ==>
              && r.token == Null && r.user == Null && !IsAuthenticated(r)
              && r.error == Some(RequestFailed(me.message)) && !r.loading
              && r.stored == Removed(s.stored, available)
  {
    if !Truthy(s.token) then s
    else match me
      case Ok(profile) => s.(user := profile, error := None, loading := false)
      case Fail(message) =>
        AuthState(Null, Null, false, Some(RequestFailed(message)), Removed(s.stored, available))
  }

  /** `login`, given what the sign-in and then the profile request resolved to. */
  function LoginOf(s: AuthState, available: bool, login: Outcome<Value>, me: Outcome<Value>): (r: AuthState)
    ensures !r.loading
    ensures login.Fail? ==> r == s.(loading := false, error := Some(RequestFailed(login.message)))
    ensures login.Ok? && (login.value == Null || login.value == Undefined) ==>
              r == s.(loading := false, error := Some(UnreadableLoginData))
    ensures login.Ok? && login.value != Null && login.value != Undefined ==>
              && r.token == Get(login.value, "access_token")
              && r.stored == Written(s.stored, available, JsString(r.token))
              && (me.Ok? ==> r.user == me.value && r.error == None)
              && (me.Fail? ==> r.user == s.user && r.error == Some(RequestFailed(me.message)))
  {
    var started := s.(loading := true, error := None);
    match login
    case Fail(message) => started.(loading := false, error := Some(RequestFailed(message)))
    case Ok(data) =>
      if data == Null || data == Undefined then started.(loading := false, error := Some(UnreadableLoginData))
      else
        var nextToken := Get(data, "access_token");
        var signed := started.(token := nextToken, stored := Written(s.stored, available, JsString(nextToken)));
        match me
        case Ok(profile) => signed.(user := profile, loading := false)
        case Fail(message) => signed.(loading := false, error := Some(RequestFailed(message)))
  }

  /** What `login` returns: `{ok: true}` only when both requests succeeded. */
  function LoginResultOf(login: Outcome<Value>, me: Outcome<Value>): (r: LoginResult)
    ensures r.LoginOk? <==> login.Ok? && login.value != Null && login.value != Undefined && me.Ok?
  {
    match login
    case Fail(message) => LoginFailed(RequestFailed(message))
    case Ok(data) =>
      if data == Null || data == Undefined then LoginFailed(UnreadableLoginData)
      else if me.Fail? then LoginFailed(RequestFailed(me.message))
      else LoginOk
  }

  /** `logout`: token, profile and error cleared, the key removed; `loading` untouched. */
  function LogoutOf(s: AuthState, available: bool): (r: AuthState)
    ensures !IsAuthenticated(r) && r.user == Null && r.error == None
    ensures r.loading == s.loading && r.stored == Removed(s.stored, available)
  {
    s.(token := Null, user := Null, error := None, stored := Removed(s.stored, available))
  }

  // ----- the hook as an object -----

  class AuthSession {
    var token: Value
    var user: Value
    var loading: bool
    var error: Option<AuthError>
    const storage: Storage

    function State(): AuthState
      reads this, storage
    {
      AuthState(token, user, loading, error, storage.items)
    }

    /** Mounting the hook: read the stored token. */
    constructor (storage: Storage)
      ensures this.storage == storage
      ensures State() == InitialState(storage.items, storage.available)
    {
      var stored := storage.GetItem(TOKEN_KEY);
      token := stored;
      user := Null;
      loading := Truthy(stored);
      error := None;
      this.storage := storage;
    }

    /** `refreshMe`, run on mount and whenever the token changes; `me` is what `getMe` resolved to. */
    method RefreshMe(me: Outcome<Value>) returns (issued: Option<Request>)
      modifies this, storage
      ensures State() == RefreshOf(old(State()), storage.available, me)
      ensures issued == if Truthy(old(token)) then Some(AuthApi.GetMe(old(token))) else None
    {
      if !Truthy(token) {
        return None;
      }
      loading := true;
      error := None;
      issued := Some(AuthApi.GetMe(token));
      match me {
        case Ok(profile) =>
          user := profile;
        case Fail(message) =>
          user := Null;
          token := Null;
          storage.RemoveToken();
          error := Some(RequestFailed(message));
      }
      loading := false;
    }

    /** `login({email, password})`, given what `login` and then `getMe` resolved to. */
    method Login(email: string, password: string, login: Outcome<Value>, me: Outcome<Value>)
      returns (result: LoginResult, issued: seq<Request>)
      modifies this, storage
      ensures State() == LoginOf(old(State()), storage.available, login, me)
      ensures result == LoginResultOf(login, me)
      ensures issued == [AuthApi.Login(email, password)]
                        + if login.Ok? && login.value != Null && login.value != Undefined
                          then [AuthApi.GetMe(Get(login.value, "access_token"))] else []
    {
      loading := true;
      error := None;
      issued := [AuthApi.Login(email, password)];
      match login {
        case Fail(message) =>
          error := Some(RequestFailed(message));
          result := LoginFailed(RequestFailed(message));
        case Ok(data) =>
          if data == Null || data == Undefined {
            error := Some(UnreadableLoginData);
            result := LoginFailed(UnreadableLoginData);
          } else {
            var nextToken := Get(data, "access_token");
            token := nextToken;
            storage.SetToken(JsString(nextToken));
            issued := issued + [AuthApi.GetMe(nextToken)];
            match me {
              case Ok(profile) =>
                user := profile;
                result := LoginOk;
              case Fail(message) =>
                error := Some(RequestFailed(message));
                result := LoginFailed(RequestFailed(message));
            }
          }
      }
      loading := false;
    }

    method Logout()
      modifies this, storage
      ensures State() == LogoutOf(old(State()), storage.available)
    {
      user := Null;
      token := Null;
      error := None;
      storage.RemoveToken();
    }

    /** The hook's `isAuthenticated` field, read off the current state. */
    function IsAuthenticatedNow(): (r: bool)
      reads this, storage
      ensures r == IsAuthenticated(State())
    {
      Truthy(token)
    }
  }

  // ----- properties -----

  /** Logging out twice leaves the same state as logging out once. */
  lemma LogoutIdempotent(s: AuthState, available: bool)
    ensures LogoutOf(LogoutOf(s, available), available) == LogoutOf(s, available)
  {
  }

  /** Being signed in depends on the token alone, never on the profile. */
  lemma AuthenticatedIgnoresProfile(s: AuthState, profile: Value)
    ensures IsAuthenticated(s.(user := profile)) == IsAuthenticated(s)
  {
  }

  /**
   * As written, `login` does not clear a token it has set when the profile
   * fetch then fails: the session is still signed in until a refresh runs.
   */
  lemma LoginKeepsTokenOnProfileFailure(s: AuthState, available: bool, data: Value, message: string)
    requires data.Obj? && Truthy(Get(data, "access_token"))
    ensures var r := LoginOf(s, available, Ok(data), Fail(message));
            IsAuthenticated(r) && r.token == Get(data, "access_token")
            && LoginResultOf(Ok(data), Fail(message)) == LoginFailed(RequestFailed(message))
  {
  }

  /**
   * The token change makes the effect run `refreshMe`; when that profile fetch
   * fails too, the session ends signed out with the key removed.
   */
  lemma ProfileFailureThenRefreshSignsOut(s: AuthState, available: bool, data: Value, m1: string, m2: string)
    requires data.Obj? && Truthy(Get(data, "access_token"))
    ensures var r := RefreshOf(LoginOf(s, available, Ok(data), Fail(m1)), available, Fail(m2));
            !IsAuthenticated(r) && r.user == Null && (available ==> TOKEN_KEY !in r.stored)
  {
  }

  /** A profile is held only while a token is: every transition keeps this (login when it yields a token). */
  predicate ProfileBacked(s: AuthState)
  {
    s.user != Null ==> Truthy(s.token)
  }

  lemma ProfileBackedPreserved(s: AuthState, available: bool, login: Outcome<Value>, me: Outcome<Value>)
    requires ProfileBacked(s)
    ensures ProfileBacked(RefreshOf(s, available, me))
    ensures ProfileBacked(LogoutOf(s, available))
    ensures login.Ok? && Truthy(Get(login.value, "access_token")) ==> ProfileBacked(LoginOf(s, available, login, me))
    ensures login.Fail? ==> ProfileBacked(LoginOf(s, available, login, me))
  {
  }

  lemma InitialIsProfileBacked(stored: map<string, string>, available: bool)
    ensures ProfileBacked(InitialState(stored, available))
  {
  }

  /**
   * The persisted key is the only durable state: after a successful sign-in
   * with a string token a reload reads the same token back; after logout a
   * reload finds none.
   */
  lemma TokenSurvivesReload(s: AuthState, data: Value, t: string, me: Outcome<Value>)
    requires data.Obj? && Get(data, "access_token") == Str(t)
    ensures var r := LoginOf(s, true, Ok(data), me);
            InitialState(r.stored, true).token == r.token
    ensures InitialState(LogoutOf(s, true).stored, true).token == Null
  {
  }
}
