/** api/teams.js: request builders for teams and their members. */
module TeamsApi {
  import opened Wrappers
  import opened JsValues
  import opened Client

  const DEFAULT_ROLE: string := "member"

  function ListTeams(token: Value, limit: int, offset: int): Request
  {
    Request("/teams", "GET", token, Undefined, Some(PageQuery(Num(limit), Num(offset))))
  }

  function CreateTeam(token: Value, name: string): Request
  {
    Request("/teams", "POST", token, Obj([("name", Str(name))]), None)
  }

  function GetTeam(token: Value, teamId: string): Request
  {
    Request("/teams/" + teamId, "GET", token, Undefined, None)
  }

  /** `role_in_team` is `roleInTeam || "member"`. */
  function AddTeamMember(token: Value, teamId: string, userId: Value, roleInTeam: Value): Request
  {
    Request("/teams/" + teamId + "/members", "POST", token,
            Obj([("user_id", userId), ("role_in_team", Or(roleInTeam, Str(DEFAULT_ROLE)))]), None)
  }

  /** `listTeams` sends GET /teams with no body; its search parameters come from the page window. */
  lemma ListTeamsCall(env: Option<string>, token: Value, limit: int, offset: int)
    ensures var call := Dispatch(env, ListTeams(token, limit, offset), v => "");
            && call.verb == "GET" && call.body == None
            && call.url.location == ApiBase(env) + "/teams"
            && call.url.params == SearchParams(Some(PageQuery(Num(limit), Num(offset))))
  {
  }

  /** The search parameters of `listTeams` are exactly `limit` and `offset`, as decimal strings. */
  lemma ListTeamsParams(token: Value, limit: int, offset: int)
    ensures var params := SearchParams(ListTeams(token, limit, offset).query);
            && Keys(params) == {"limit", "offset"}
            && Lookup(params, "limit") == Some(IntToString(limit))
            && Lookup(params, "offset") == Some(IntToString(offset))
  {
    var q := PageQuery(Num(limit), Num(offset));
    var params := QueryParams(q);
    forall k ensures Lookup(params, k) == (if k == "limit" then Some(IntToString(limit))
                                           else if k == "offset" then Some(IntToString(offset)) else None) {
      QueryParamsLookup(q, k);
    }
    assert forall k :: k in Keys(params) <==> k in {"limit", "offset"} by {
      forall k ensures k in Keys(params) <==> k in {"limit", "offset"} {
        assert Lookup(params, k).Some? <==> k in Keys(params);
      }
    }
  }

  /** `createTeam` posts exactly `{name}` to /teams. */
  lemma CreateTeamCall(env: Option<string>, token: Value, name: string, stringify: Value -> string)
    ensures var call := Dispatch(env, CreateTeam(token, name), stringify);
            && call.verb == "POST" && call.url == Url(ApiBase(env) + "/teams", [])
            && call.body == Some(stringify(Obj([("name", Str(name))])))
  {
  }

  /** `getTeam` reads /teams/{id} with neither body nor query. */
  lemma GetTeamCall(env: Option<string>, token: Value, teamId: string, stringify: Value -> string)
    ensures var call := Dispatch(env, GetTeam(token, teamId), stringify);
            && call.verb == "GET" && call.url == Url(ApiBase(env) + ("/teams/" + teamId), [])
            && call.body == None && "Content-Type" !in Keys(call.headers)
  {
    HeaderSet(token, Undefined);
  }

  /** A falsy role (undefined, null, "") is sent as "member"; any other role as given. */
  lemma AddTeamMemberRole(token: Value, teamId: string, userId: Value, roleInTeam: Value)
    ensures var req := AddTeamMember(token, teamId, userId, roleInTeam);
            && req.verb == "POST" && req.path == "/teams/" + teamId + "/members"
            && Get(req.body, "user_id") == userId
            && Get(req.body, "role_in_team") == (if Truthy(roleInTeam) then roleInTeam else Str("member"))
  {
    var fields := AddTeamMember(token, teamId, userId, roleInTeam).body.fields;
    assert fields[1..][1..] == [];
    assert Keys(fields[1..]) == {"role_in_team"};
    assert Keys(fields) == {"user_id", "role_in_team"};
    assert Lookup(fields, "role_in_team") == Lookup(fields[1..], "role_in_team");
  }
}
