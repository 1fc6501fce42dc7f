/**
 * The HTTP adapter of api/client.js: URL construction, header set, tolerant
 * body parsing and the mapping of a non-OK response to an error.
 *
 * `fetch` is an abstract `Response`; `JSON.parse` is a partial function
 * `parse` (None where it would throw) and `JSON.stringify` a function
 * `stringify`, both passed in by the caller.
 */
module Client {
  import opened Wrappers
  import opened JsValues

  const DEFAULT_BASE_URL: string := "http://localhost:3001"

  /** A logical request, as the resource clients hand it to `apiRequest`; `Undefined` body means none. */
  datatype Request = Request(
    path: string,
    verb: string,
    token: Value,
    body: Value,
    query: Option<seq<(string, Value)>>)

  /** What `fetch` resolves to. */
  datatype Response = Response(ok: bool, status: int, text: string)

  /** The URL handed to `fetch`: the joined base and path, and the search parameters in order. */
  datatype Url = Url(location: string, params: seq<(string, string)>)

  /** What `fetch` is called with. */
  datatype HttpCall = HttpCall(url: Url, verb: string, headers: seq<(string, string)>, body: Option<string>)

  /** The `Error` that `apiRequest` throws, with its `status` and `data` properties. */
  datatype ApiError = ApiError(message: string, status: int, data: Value)

  // ----- getBaseUrl / buildUrl -----

  /** `getBaseUrl()`, where `env` is REACT_APP_API_BASE_URL (None when unset). */
  function BaseUrl(env: Option<string>): (r: string)
    ensures env.Some? && !Blank(env.value) ==> r == Trim(env.value)
    ensures env.None? || Blank(env.value) ==> r == DEFAULT_BASE_URL
    ensures r != ""
  {
    if env.Some? && Trim(env.value) != "" then Trim(env.value) else DEFAULT_BASE_URL
  }

  /** `s.replace(/\/+$/, "")`: every trailing '/' removed, nothing else. */
  function StripTrailingSlashes(s: string): (r: string)
    ensures |r| <= |s| && r == s[..|r|]
    ensures r == [] || r[|r| - 1] != '/'
    ensures forall i :: |r| <= i < |s| ==> s[i] == '/'
  {
    if s != [] && s[|s| - 1] == '/' then StripTrailingSlashes(s[..|s| - 1]) else s
  }

  /** The path with a leading '/' added when it lacks one. */
  function NormalizePath(path: string): (r: string)
    ensures |r| > 0 && r[0] == '/'
    ensures |path| > 0 && path[0] == '/' ==> r == path
    ensures !(|path| > 0 && path[0] == '/') ==> r == "/" + path
  {
    if |path| > 0 && path[0] == '/' then path else "/" + path
  }

  /** The query values `buildUrl` skips: undefined, null and the empty string. */
  predicate Dropped(v: Value)
  {
    v == Undefined || v == Null || v == Str("")
  }

  /** The search parameters after setting, in order, every entry whose value is not dropped. */
  function QueryParams(entries: seq<(string, Value)>): (r: seq<(string, string)>)
    ensures UniqueKeys(r)
    ensures Keys(r) <= Keys(entries)
  {
    if |entries| == 0 then []
    else
      var init := entries[..|entries| - 1];
      var last := entries[|entries| - 1];
      assert entries == init + [last];
      KeysSnoc(init, last);
      var rest := QueryParams(init);
      if Dropped(last.1) then rest else Put(rest, last.0, JsString(last.1))
  }

  /** The base URL with its trailing slashes removed, which every request location starts with. */
  function ApiBase(env: Option<string>): string
  {
    StripTrailingSlashes(BaseUrl(env))
  }

  /** The search parameters of the URL: none without a query object. */
  function SearchParams(query: Option<seq<(string, Value)>>): seq<(string, string)>
  {
    if query.Some? then QueryParams(query.value) else []
  }

  /** The URL `buildUrl(path, query)` produces. */
  function UrlOf(env: Option<string>, path: string, query: Option<seq<(string, Value)>>): Url
  {
    Url(ApiBase(env) + NormalizePath(path), SearchParams(query))
  }

  /** `buildUrl`: join base and path, then set each surviving query entry on the URL. */
  method BuildUrl(env: Option<string>, path: string, query: Option<seq<(string, Value)>>) returns (url: Url)
    ensures url == UrlOf(env, path, query)
  {
    var baseUrl := StripTrailingSlashes(BaseUrl(env));
    assert baseUrl == ApiBase(env);
    var normalizedPath := NormalizePath(path);
    var params: seq<(string, string)> := [];
    if query.Some? {
      var entries := query.value;
      var i := 0;
      while i < |entries|
        invariant 0 <= i <= |entries|
        invariant params == QueryParams(entries[..i])
      {
        var (k, v) := entries[i];
        assert entries[..i + 1][..i] == entries[..i];
        if !Dropped(v) {
          params := Put(params, k, JsString(v));
        }
        i := i + 1;
      }
      assert entries[..|entries|] == entries;
    }
    url := Url(baseUrl + normalizedPath, params);
  }

  /**
   * For an object's entries (unique keys), a key is a search parameter exactly
   * when its value is not dropped, and then its value is `String(v)`.
   */
  lemma {:induction false} QueryParamsLookup(entries: seq<(string, Value)>, k: string)
    requires UniqueKeys(entries)
    ensures Lookup(QueryParams(entries), k) ==
              match Lookup(entries, k)
              case None => None
              case Some(v) => if Dropped(v) then None else Some(JsString(v))
  {
    if |entries| > 0 {
      var init := entries[..|entries| - 1];
      var last := entries[|entries| - 1];
      assert entries == init + [last];
      UniqueKeysSnoc(init, last);
      LookupSnoc(init, last, k);
      QueryParamsLookup(init, k);
    }
  }

  /** The joined location never has a doubled '/' at the seam and always shows the whole path. */
  lemma UrlLocationJoin(env: Option<string>, path: string)
    ensures var base := ApiBase(env);
            var loc := UrlOf(env, path, None).location;
            loc == base + NormalizePath(path) && loc[|base|] == '/'
            && (base == [] || loc[|base| - 1] != '/')
  {
  }

  // ----- parseJsonSafe -----

  /** `parseJsonSafe`: never throws; "" gives null, JSON gives its value, anything else `{detail: text}`. */
  function ParseJsonSafe(text: string, parse: string -> Option<Value>): (r: Value)
    ensures text == "" ==> r == Null
    ensures text != "" && parse(text).Some? ==> r == parse(text).value
    ensures text != "" && parse(text).None? ==> r == Obj([("detail", Str(text))])
  {
    if text == "" then Null
    else match parse(text)
      case Some(v) => v
      case None => Obj([("detail", Str(text))])
  }

  // ----- apiRequest -----

  /** `Request failed (<status>)` */
  function StatusMessage(status: int): string
  {
    "Request failed (" + IntToString(status) + ")"
  }

  /** `(data && (data.detail || data.message)) || "Request failed (<status>)"`, passed through `String`. */
  function ErrorMessage(data: Value, status: int): string
  {
    var chosen := if Truthy(data) then Or(Get(data, "detail"), Get(data, "message")) else data;
    if Truthy(chosen) then JsString(chosen) else StatusMessage(status)
  }

  /** The headers object of `apiRequest`, in insertion order. */
  function Headers(token: Value, body: Value): seq<(string, string)>
  {
    [("Accept", "application/json")]
    + (if Truthy(token) then [("Authorization", "Bearer " + JsString(token))] else [])
    + (if body != Undefined then [("Content-Type", "application/json")] else [])
  }

  /**
   * Accept is always JSON; Authorization is `Bearer <token>` exactly when the
   * token is truthy; Content-Type is JSON exactly when there is a body; no other header.
   */
  lemma HeaderSet(token: Value, body: Value)
    ensures var h := Headers(token, body);
            && UniqueKeys(h)
            && Lookup(h, "Accept") == Some("application/json")
            && ("Authorization" in Keys(h) <==> Truthy(token))
            && (Truthy(token) ==> Lookup(h, "Authorization") == Some("Bearer " + JsString(token)))
            && ("Content-Type" in Keys(h) <==> body != Undefined)
            && (body != Undefined ==> Lookup(h, "Content-Type") == Some("application/json"))
            && Keys(h) <= {"Accept", "Authorization", "Content-Type"}
  {
    var h := Headers(token, body);
    var auth := ("Authorization", "Bearer " + JsString(token));
    var json := ("Content-Type", "application/json");
    var rest := h[1..];
    assert rest == (if Truthy(token) then [auth] else []) + (if body != Undefined then [json] else []);
    if Truthy(token) && body != Undefined {
      assert rest[1..] == [json] && rest[1..][1..] == [];
      assert Keys(rest[1..]) == {"Content-Type"} && UniqueKeys(rest[1..]);
      assert Keys(rest) == {"Authorization", "Content-Type"};
      assert Lookup(rest, "Content-Type") == Lookup(rest[1..], "Content-Type");
    } else if Truthy(token) {
      assert rest == [auth] && rest[1..] == [];
      assert Keys(rest) == {"Authorization"};
    } else if body != Undefined {
      assert rest == [json] && rest[1..] == [];
      assert Keys(rest) == {"Content-Type"};
    } else {
      assert rest == [];
    }
    assert Keys(h) == {"Accept"} + Keys(rest);
  }

  /** Builds the headers object key by key, as `apiRequest` does. */
  method BuildHeaders(token: Value, body: Value) returns (headers: seq<(string, string)>)
    ensures headers == Headers(token, body)
  {
    headers := Put([], "Accept", "application/json");
    if Truthy(token) {
      assert Keys(headers) == {"Accept"};
      headers := Put(headers, "Authorization", "Bearer " + JsString(token));
    }
    if body != Undefined {
      assert Keys(headers) <= {"Accept", "Authorization"};
      headers := Put(headers, "Content-Type", "application/json");
    }
  }

  /** The body handed to `fetch`: the serialised `body`, or none. */
  function WireBody(body: Value, stringify: Value -> string): (r: Option<string>)
    ensures r.Some? <==> body != Undefined
    ensures r.Some? ==> r.value == stringify(body)
  {
    if body != Undefined then Some(stringify(body)) else None
  }

  /** The call `apiRequest(req)` makes to `fetch`. */
  function Dispatch(env: Option<string>, req: Request, stringify: Value -> string): HttpCall
  {
    HttpCall(UrlOf(env, req.path, req.query), req.verb, Headers(req.token, req.body), WireBody(req.body, stringify))
  }

  /**
   * `apiRequest`: the call it makes to `fetch` and what it resolves or rejects
   * with, given the response `res` that `fetch` resolves to.
   */
  method ApiRequest(env: Option<string>, req: Request, stringify: Value -> string,
                    parse: string -> Option<Value>, res: Response)
    returns (call: HttpCall, result: Result<Value, ApiError>)
    ensures call == Dispatch(env, req, stringify)
    ensures res.ok ==> result == Success(ParseJsonSafe(res.text, parse))
    ensures !res.ok ==>
              var data := ParseJsonSafe(res.text, parse);
              result == Failure(ApiError(ErrorMessage(data, res.status), res.status, data))
  {
    var url := BuildUrl(env, req.path, req.query);
    var headers := BuildHeaders(req.token, req.body);
    call := HttpCall(url, req.verb, headers, WireBody(req.body, stringify));
    var data := ParseJsonSafe(res.text, parse);
    if !res.ok {
      var message := ErrorMessage(data, res.status);
      result := Failure(ApiError(message, res.status, data));
      return;
    }
    result := Success(data);
  }

  /** The error message of a non-OK response: `detail` first, then `message`, then the status. */
  lemma ErrorMessageChoice(text: string, parse: string -> Option<Value>, status: int)
    ensures var data := ParseJsonSafe(text, parse);
            var detail := Get(data, "detail");
            var message := Get(data, "message");
            && (Truthy(detail) ==> ErrorMessage(data, status) == JsString(detail))
            && (!Truthy(detail) && Truthy(message) ==> ErrorMessage(data, status) == JsString(message))
            && (!Truthy(detail) && !Truthy(message) ==> ErrorMessage(data, status) == StatusMessage(status))
  {
  }

  /** A non-empty body that is not JSON surfaces verbatim as the error message. */
  lemma RawTextBecomesMessage(text: string, parse: string -> Option<Value>, status: int)
    requires text != "" && parse(text).None?
    ensures ErrorMessage(ParseJsonSafe(text, parse), status) == text
  {
  }

  /** An empty error body surfaces as "Request failed (<status>)". */
  lemma EmptyBodyMessage(parse: string -> Option<Value>, status: int)
    ensures ErrorMessage(ParseJsonSafe("", parse), status) == StatusMessage(status)
  {
  }

  /** A 2xx response with an empty body resolves to null rather than failing. */
  lemma EmptySuccessIsNull(parse: string -> Option<Value>, status: int)
    ensures ParseJsonSafe(Response(true, status, "").text, parse) == Null
  {
  }

  /** `{"detail":"Invalid credentials"}` on a 401 surfaces exactly "Invalid credentials". */
  lemma InvalidCredentialsMessage(text: string, parse: string -> Option<Value>)
    requires text != "" && parse(text) == Some(Obj([("detail", Str("Invalid credentials"))]))
    ensures ErrorMessage(ParseJsonSafe(text, parse), 401) == "Invalid credentials"
  {
  }

  /** `pageQuery({limit, offset})` */
  function PageQuery(limit: Value, offset: Value): (q: seq<(string, Value)>)
    ensures UniqueKeys(q) && Keys(q) == {"limit", "offset"}
    ensures Lookup(q, "limit") == Some(limit) && Lookup(q, "offset") == Some(offset)
  {
    var q := [("limit", limit), ("offset", offset)];
    assert q[1..][1..] == [];
    assert Keys(q[1..]) == {"offset"} && UniqueKeys(q[1..]);
    assert Lookup(q, "offset") == Lookup(q[1..], "offset");
    q
  }
}
