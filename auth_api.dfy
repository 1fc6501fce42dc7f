/** api/auth.js: registration, sign-in and profile requests. */
module AuthApi {
  import opened Wrappers
  import opened JsValues
  import opened Client

  /** `roles && roles.length ? roles : null` */
  function RolesField(roles: Value): Value
  {
    if Truthy(roles) && Truthy(Length(roles)) then roles else Null
  }

  function Register(email: string, password: string, roles: Value): Request
  {
    Request("/auth/register", "POST", Undefined,
            Obj(Put(Put(Put([], "email", Str(email)), "password", Str(password)), "roles", RolesField(roles))), None)
  }

  function Login(email: string, password: string): Request
  {
    Request("/auth/login", "POST", Undefined, Obj([("email", Str(email)), ("password", Str(password))]), None)
  }

  function GetMe(token: Value): Request
  {
    Request("/auth/me", "GET", token, Undefined, None)
  }

  /** Missing or empty roles are sent as null; a non-empty list is sent as given. */
  lemma RegisterRoles(email: string, password: string, roles: Value)
    ensures var roleField := Get(Register(email, password, roles).body, "roles");
            && (roles == Undefined || roles == Null || roles == Arr([]) ==> roleField == Null)
            && (roles.Arr? && roles.items != [] ==> roleField == roles)
  {
  }

  /** Neither `register` nor `login` passes a token, so no Authorization header is sent. */
  lemma SignInRequestsCarryNoToken(env: Option<string>, email: string, password: string, roles: Value,
                                   stringify: Value -> string)
    ensures "Authorization" !in Keys(Dispatch(env, Register(email, password, roles), stringify).headers)
    ensures "Authorization" !in Keys(Dispatch(env, Login(email, password), stringify).headers)
  {
    HeaderSet(Register(email, password, roles).token, Register(email, password, roles).body);
    HeaderSet(Login(email, password).token, Login(email, password).body);
  }

  /** `login` posts exactly `{email, password}` to /auth/login. */
  lemma LoginCall(env: Option<string>, email: string, password: string, stringify: Value -> string)
    ensures var call := Dispatch(env, Login(email, password), stringify);
            && call.verb == "POST" && call.url == Url(ApiBase(env) + "/auth/login", [])
            && call.body == Some(stringify(Obj([("email", Str(email)), ("password", Str(password))])))
  {
  }

  /** `getMe` reads /auth/me with the given token and no body. */
  lemma GetMeCall(env: Option<string>, token: Value, stringify: Value -> string)
    ensures var call := Dispatch(env, GetMe(token), stringify);
            && call.verb == "GET" && call.url == Url(ApiBase(env) + "/auth/me", [])
            && call.body == None
            && ("Authorization" in Keys(call.headers) <==> Truthy(token))
  {
    HeaderSet(token, Undefined);
  }
}
