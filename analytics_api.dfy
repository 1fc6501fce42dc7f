/** api/analytics.js: team and project rollup requests. */
module AnalyticsApi {
  import opened Wrappers
  import opened JsValues
  import opened Client

  function GetTeamAnalytics(token: Value, teamId: string): Request
  {
    Request("/analytics/teams/" + teamId, "GET", token, Undefined, None)
  }

  function GetProjectAnalytics(token: Value, projectId: string): Request
  {
    Request("/analytics/projects/" + projectId, "GET", token, Undefined, None)
  }

  /** The team rollup is a plain GET: the token's headers, no body, no Content-Type, no query string. */
  lemma TeamAnalyticsCall(env: Option<string>, token: Value, teamId: string, stringify: Value -> string)
    ensures var call := Dispatch(env, GetTeamAnalytics(token, teamId), stringify);
            && call.verb == "GET" && call.url == Url(ApiBase(env) + ("/analytics/teams/" + teamId), [])
            && call.body == None && call.headers == Headers(token, Undefined)
            && "Content-Type" !in Keys(call.headers)
  {
    HeaderSet(token, Undefined);
  }

  /** The project rollup likewise, on /analytics/projects/{id}. */
  lemma ProjectAnalyticsCall(env: Option<string>, token: Value, projectId: string, stringify: Value -> string)
    ensures var call := Dispatch(env, GetProjectAnalytics(token, projectId), stringify);
            && call.verb == "GET" && call.url == Url(ApiBase(env) + ("/analytics/projects/" + projectId), [])
            && call.body == None && call.headers == Headers(token, Undefined)
            && "Content-Type" !in Keys(call.headers)
  {
    HeaderSet(token, Undefined);
  }
}
