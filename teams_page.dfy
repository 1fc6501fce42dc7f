/** pages/TeamsPage.js: the paginated team list, team creation, and the member panel of one team. */
module TeamsPage {
  import opened Wrappers
  import opened JsValues
  import opened Client
  import opened Entities
  import opened Pagination
  import opened TeamsApi
  import opened ListView

  const DEFAULT_LIMIT: nat := 20

  class Teams {
    const token: Value
    var limit: nat
    var offset: nat
    var page: Option<Page<Team>>
    var loading: bool
    var err: Option<string>
    var newTeamName: string
    var selectedTeam: Option<Team>
    var memberUserId: string
    var memberRole: string

    /** The first render; the mount effect then runs `Load(0, ...)`. */
    constructor (token: Value)
      ensures this.token == token
      ensures limit == DEFAULT_LIMIT && offset == 0 && page == None && !loading && err == None
      ensures newTeamName == "" && selectedTeam == None && memberUserId == "" && memberRole == DEFAULT_ROLE
    {
      this.token := token;
      limit, offset := DEFAULT_LIMIT, 0;
      page, loading, err := None, false, None;
      newTeamName, selectedTeam := "", None;
      memberUserId, memberRole := "", DEFAULT_ROLE;
    }

    /** `load(nextOffset)`, given what `listTeams` resolves to. */
    method Load(nextOffset: nat, res: Outcome<Page<Team>>) returns (issued: Request)
      modifies this`page, this`offset, this`err, this`loading
      ensures issued == ListTeams(token, limit, nextOffset)
      ensures ListState(page, offset, err) == AfterLoad(old(ListState(page, offset, err)), nextOffset, res, "Failed to load teams")
      ensures !loading
    {
      issued := ListTeams(token, limit, nextOffset);
      loading := true;
      err := None;
      match res {
        case Ok(p) =>
          page := Some(p);
          offset := nextOffset;
        case Fail(message) =>
          err := Some(ErrorText(message, "Failed to load teams"));
      }
      loading := false;
    }

    /** Prev: `load(Math.max(0, offset - limit))`. */
    method Prev(res: Outcome<Page<Team>>) returns (issued: Request)
      modifies this`page, this`offset, this`err, this`loading
      ensures issued == ListTeams(token, limit, PrevOffset(old(offset), limit))
      ensures ListState(page, offset, err) == AfterLoad(old(ListState(page, offset, err)), PrevOffset(old(offset), limit), res, "Failed to load teams")
      ensures !loading
    {
      var prev := PrevOffset(offset, limit);
      issued := Load(prev, res);
    }

    /** Next: `load(offset + limit)`. */
    method Next(res: Outcome<Page<Team>>) returns (issued: Request)
      modifies this`page, this`offset, this`err, this`loading
      ensures issued == ListTeams(token, limit, NextOffset(old(offset), limit))
      ensures ListState(page, offset, err) == AfterLoad(old(ListState(page, offset, err)), NextOffset(old(offset), limit), res, "Failed to load teams")
      ensures !loading
    {
      var next := NextOffset(offset, limit);
      issued := Load(next, res);
    }

    /**
     * The page-size select sets the limit and offset 0; the effect keyed on
     * `limit` then reloads from offset 0, but only when the limit changed.
     */
    method SetPageSize(n: nat, res: Outcome<Page<Team>>) returns (issued: Option<Request>)
      modifies this`limit, this`page, this`offset, this`err, this`loading
      ensures limit == n
      ensures n == old(limit) ==> issued == None && offset == 0 && page == old(page) && err == old(err) && loading == old(loading)
      ensures n != old(limit) ==>
                && issued == Some(ListTeams(token, n, 0))
                && ListState(page, offset, err) == AfterLoad(old(ListState(page, offset, err)).(offset := 0), 0, res, "Failed to load teams")
                && !loading
    {
      var changed := n != limit;
      limit := n;
      offset := 0;
      if changed {
        var request := Load(0, res);
        issued := Some(request);
      } else {
        issued := None;
      }
    }

    /**
     * `loadTeamDetail(teamId)`: a failure keeps whatever team the panel showed;
     * a null detail (an empty 2xx body) closes the panel.
     */
    method LoadTeamDetail(teamId: string, res: Outcome<Option<Team>>) returns (issued: Request)
      modifies this`selectedTeam, this`err
      ensures issued == GetTeam(token, teamId)
      ensures res.Ok? ==> selectedTeam == res.value && err == None
      ensures res.Fail? ==>
                selectedTeam == old(selectedTeam) && err == Some(ErrorText(res.message, "Failed to load team detail"))
    {
      issued := GetTeam(token, teamId);
      err := None;
      match res {
        case Ok(detail) => selectedTeam := detail;
        case Fail(message) => err := Some(ErrorText(message, "Failed to load team detail"));
      }
    }

    /** `onCreate`, given what `createTeam` and the reload from offset 0 resolve to. */
    method OnCreate(created: Outcome<Value>, reload: Outcome<Page<Team>>) returns (issued: seq<Request>)
      modifies this`newTeamName, this`page, this`offset, this`err, this`loading
      ensures Trim(old(newTeamName)) == "" ==>
                issued == [] && ListState(page, offset, err) == old(ListState(page, offset, err)) && newTeamName == old(newTeamName) && loading == old(loading)
      ensures Trim(old(newTeamName)) != "" ==>
                |issued| > 0 && issued[0] == CreateTeam(token, Trim(old(newTeamName))) && !loading
      ensures Trim(old(newTeamName)) != "" && created.Fail? ==>
                && issued == [issued[0]] && newTeamName == old(newTeamName)
                && ListState(page, offset, err) == old(ListState(page, offset, err)).(err := Some(ErrorText(created.message, "Failed to create team")))
      ensures Trim(old(newTeamName)) != "" && created.Ok? ==>
                && issued == [issued[0], ListTeams(token, limit, 0)] && newTeamName == ""
                && ListState(page, offset, err) == AfterLoad(old(ListState(page, offset, err)), 0, reload, "Failed to load teams")
    {
      var name := Trim(newTeamName);
      if name == "" {
        return [];
      }
      var request := CreateTeam(token, name);
      loading := true;
      err := None;
      issued := [request];
      match created {
        case Ok(_) =>
          newTeamName := "";
          var again := Load(0, reload);
          issued := issued + [again];
        case Fail(message) =>
          err := Some(ErrorText(message, "Failed to create team"));
      }
      loading := false;
    }

    /**
     * `onAddMember`, given what `addTeamMember` and the refetch of the team
     * resolve to. On success the form resets (role back to "member") and the
     * panel reloads the same team.
     */
    method OnAddMember(added: Outcome<Value>, detail: Outcome<Option<Team>>) returns (issued: seq<Request>)
      modifies this`err, this`memberUserId, this`memberRole, this`selectedTeam
      ensures !CanAddMember(old(selectedTeam), old(memberUserId)) ==>
                && issued == [] && err == old(err)
                && selectedTeam == old(selectedTeam) && memberUserId == old(memberUserId) && memberRole == old(memberRole)
      ensures CanAddMember(old(selectedTeam), old(memberUserId)) ==>
                && |issued| > 0
                && issued[0] == AddTeamMember(token, old(selectedTeam).value.id, Str(Trim(old(memberUserId))), Str(old(memberRole)))
      ensures CanAddMember(old(selectedTeam), old(memberUserId)) && added.Fail? ==>
                && issued == [issued[0]] && err == Some(ErrorText(added.message, "Failed to add member"))
                && selectedTeam == old(selectedTeam) && memberUserId == old(memberUserId) && memberRole == old(memberRole)
      ensures CanAddMember(old(selectedTeam), old(memberUserId)) && added.Ok? ==>
                && issued == [issued[0], GetTeam(token, old(selectedTeam).value.id)]
                && memberUserId == "" && memberRole == DEFAULT_ROLE
      ensures CanAddMember(old(selectedTeam), old(memberUserId)) && added.Ok? && detail.Ok? ==>
                selectedTeam == detail.value && err == None
      ensures CanAddMember(old(selectedTeam), old(memberUserId)) && added.Ok? && detail.Fail? ==>
                selectedTeam == old(selectedTeam) && err == Some(ErrorText(detail.message, "Failed to load team detail"))
    {
      var userId := Trim(memberUserId);
      if selectedTeam.None? || selectedTeam.value.id == "" || userId == "" {
        return [];
      }
      var teamId := selectedTeam.value.id;
      var request := AddTeamMember(token, teamId, Str(userId), Str(memberRole));
      err := None;
      issued := [request];
      if added.Fail? {
        err := Some(ErrorText(added.message, "Failed to add member"));
        return;
      }
      memberUserId := "";
      memberRole := DEFAULT_ROLE;
      var again := LoadTeamDetail(teamId, detail);
      issued := issued + [again];
    }

    /** The guard of `onAddMember`: an open team with an id, and a user id that is not blank. */
    static predicate CanAddMember(team: Option<Team>, userId: string)
    {
      team.Some? && team.value.id != "" && Trim(userId) != ""
    }

    /** Close: the member panel goes away. */
    method Close()
      modifies this`selectedTeam
      ensures selectedTeam == None
    {
      selectedTeam := None;
    }
  }
}
