/** api/tasks.js: request builders for tasks and their comments. */
module TasksApi {
  import opened Wrappers
  import opened JsValues
  import opened Client

  /** `{...(filters || {}), limit, offset}`: `filters` is None when null or missing. */
  function ListQuery(filters: Option<seq<(string, Value)>>, limit: int, offset: int): seq<(string, Value)>
  {
    var spread := if filters.Some? then filters.value else [];
    Put(Put(spread, "limit", Num(limit)), "offset", Num(offset))
  }

  function ListTasks(token: Value, filters: Option<seq<(string, Value)>>, limit: int, offset: int): Request
  {
    Request("/tasks", "GET", token, Undefined, Some(ListQuery(filters, limit, offset)))
  }

  function CreateTask(token: Value, payload: Value): Request
  {
    Request("/tasks", "POST", token, payload, None)
  }

  function GetTask(token: Value, taskId: string): Request
  {
    Request("/tasks/" + taskId, "GET", token, Undefined, None)
  }

  function UpdateTask(token: Value, taskId: string, payload: Value): Request
  {
    Request("/tasks/" + taskId, "PATCH", token, payload, None)
  }

  function ListComments(token: Value, taskId: string): Request
  {
    Request("/tasks/" + taskId + "/comments", "GET", token, Undefined, None)
  }

  function AddComment(token: Value, taskId: string, body: string): Request
  {
    Request("/tasks/" + taskId + "/comments", "POST", token, Obj([("body", Str(body))]), None)
  }

  /**
   * The query of `listTasks`: `limit` and `offset` always hold the page window,
   * overriding same-named filters; every other key is the filter's own entry.
   */
  lemma ListQueryEntries(filters: Option<seq<(string, Value)>>, limit: int, offset: int, k: string)
    requires filters.Some? ==> UniqueKeys(filters.value)
    ensures var q := ListQuery(filters, limit, offset);
            && UniqueKeys(q)
            && Lookup(q, "limit") == Some(Num(limit))
            && Lookup(q, "offset") == Some(Num(offset))
            && (k != "limit" && k != "offset" ==>
                  Lookup(q, k) == if filters.Some? then Lookup(filters.value, k) else None)
  {
  }

  /** `listTasks` sends GET /tasks with no body; its search parameters come from the query object. */
  lemma ListTasksCall(env: Option<string>, token: Value, filters: Option<seq<(string, Value)>>,
                      limit: int, offset: int)
    ensures var call := Dispatch(env, ListTasks(token, filters, limit, offset), v => "");
            && call.verb == "GET"
            && call.url.location == ApiBase(env) + "/tasks"
            && call.body == None
            && call.url.params == SearchParams(Some(ListQuery(filters, limit, offset)))
  {
  }

  /**
   * The search parameters of `listTasks`: the page window as decimal strings, and
   * each other filter exactly when its value is not undefined, null or "".
   */
  lemma ListTasksUrl(token: Value, filters: Option<seq<(string, Value)>>, limit: int, offset: int, k: string)
    requires filters.Some? ==> UniqueKeys(filters.value)
    ensures var params := SearchParams(ListTasks(token, filters, limit, offset).query);
            && Lookup(params, "limit") == Some(IntToString(limit))
            && Lookup(params, "offset") == Some(IntToString(offset))
            && (k != "limit" && k != "offset" ==>
                  Lookup(params, k) ==
                    match (if filters.Some? then Lookup(filters.value, k) else None)
                    case None => None
                    case Some(v) => if Dropped(v) then None else Some(JsString(v)))
  {
    var q := ListQuery(filters, limit, offset);
    ListQueryEntries(filters, limit, offset, k);
    QueryParamsLookup(q, "limit");
    QueryParamsLookup(q, "offset");
    QueryParamsLookup(q, k);
  }

  /** With null or missing filters, the URL carries only `limit` and `offset`. */
  lemma NoFiltersOnlyWindow(token: Value, limit: int, offset: int)
    ensures Keys(SearchParams(ListTasks(token, None, limit, offset).query)) == {"limit", "offset"}
  {
    var params := SearchParams(ListTasks(token, None, limit, offset).query);
    forall k ensures k in Keys(params) <==> k in {"limit", "offset"} {
      ListTasksUrl(token, None, limit, offset, k);
    }
  }

  /** A filter set to null (or undefined, or "") never appears among the URL's parameters. */
  lemma NullFilterOmitted(token: Value, filters: seq<(string, Value)>, limit: int, offset: int, k: string)
    requires UniqueKeys(filters)
    requires k != "limit" && k != "offset"
    requires Lookup(filters, k) == Some(Null) || Lookup(filters, k) == Some(Undefined) || Lookup(filters, k) == Some(Str(""))
    ensures k !in Keys(SearchParams(ListTasks(token, Some(filters), limit, offset).query))
  {
    ListTasksUrl(token, Some(filters), limit, offset, k);
  }

  /** `createTask` posts the payload to /tasks unchanged, serialised as the body. */
  lemma CreateTaskCall(env: Option<string>, token: Value, payload: Value, stringify: Value -> string)
    requires payload != Undefined
    ensures var call := Dispatch(env, CreateTask(token, payload), stringify);
            && call.verb == "POST" && call.url == Url(ApiBase(env) + "/tasks", [])
            && call.body == Some(stringify(payload))
            && Lookup(call.headers, "Content-Type") == Some("application/json")
  {
    HeaderSet(token, payload);
  }

  /** `getTask` sends GET /tasks/{id} with no body and no Content-Type. */
  lemma GetTaskCall(env: Option<string>, token: Value, taskId: string, stringify: Value -> string)
    ensures var call := Dispatch(env, GetTask(token, taskId), stringify);
            && call.verb == "GET" && call.url == Url(ApiBase(env) + ("/tasks/" + taskId), [])
            && call.body == None && "Content-Type" !in Keys(call.headers)
  {
    HeaderSet(token, Undefined);
  }

  /** `updateTask` sends PATCH to the same address, with the patch serialised as the body. */
  lemma UpdateTaskCall(env: Option<string>, token: Value, taskId: string, payload: Value,
                       stringify: Value -> string)
    requires payload != Undefined
    ensures var call := Dispatch(env, UpdateTask(token, taskId, payload), stringify);
            && call.verb == "PATCH" && call.url == Url(ApiBase(env) + ("/tasks/" + taskId), [])
            && call.body == Some(stringify(payload))
            && Lookup(call.headers, "Content-Type") == Some("application/json")
  {
    HeaderSet(token, payload);
  }

  /** `listComments` sends GET /tasks/{id}/comments with no body. */
  lemma ListCommentsCall(env: Option<string>, token: Value, taskId: string, stringify: Value -> string)
    ensures var call := Dispatch(env, ListComments(token, taskId), stringify);
            && call.verb == "GET" && call.url == Url(ApiBase(env) + ("/tasks/" + taskId + "/comments"), [])
            && call.body == None
  {
  }

  /** `addComment` posts exactly `{body}` to the same address. */
  lemma AddCommentCall(env: Option<string>, token: Value, taskId: string, body: string,
                       stringify: Value -> string)
    ensures var call := Dispatch(env, AddComment(token, taskId, body), stringify);
            && call.verb == "POST" && call.url == Url(ApiBase(env) + ("/tasks/" + taskId + "/comments"), [])
            && call.body == Some(stringify(Obj([("body", Str(body))])))
  {
  }
}
