/** pages/AnalyticsPage.js: team and project rollups, the project's counts drawn as percentage bars. */
module AnalyticsPage {
  import opened Wrappers
  import opened JsValues
  import opened Client
  import opened Entities
  import opened AnalyticsApi

  // ----- maxProject and Bar -----

  function Max(a: int, b: int): int
  {
    if a >= b then a else b
  }

  /** `maxProject`: the largest of the four counts, or 0 without project data. */
  function MaxProject(data: Option<ProjectRollup>): (r: int)
    ensures data.None? ==> r == 0
    ensures data.Some? ==>
              var d := data.value;
              && d.totalTasks <= r && d.openTasks <= r && d.inProgressTasks <= r && d.doneTasks <= r
              && (r == d.totalTasks || r == d.openTasks || r == d.inProgressTasks || r == d.doneTasks)
  {
    match data
    case None => 0
    case Some(d) => Max(Max(d.totalTasks, d.openTasks), Max(d.inProgressTasks, d.doneTasks))
  }

  /**
   * A bar's percentage: 0 when `max <= 0`, otherwise `Math.round(value / max * 100)`,
   * which is floating-point arithmetic and is kept here as the unevaluated pair.
   */
  datatype Percent = Zero | Rounded(value: int, max: int)

  function BarPercent(value: int, max: int): (r: Percent)
    ensures r.Zero? <==> max <= 0
    ensures r.Rounded? ==> r.value == value && r.max == max
  {
    if max > 0 then Rounded(value, max) else Zero
  }

  /** The four bars of a project: total, open, in progress, done, each against `maxProject`. */
  function ProjectBars(d: ProjectRollup): (r: seq<Percent>)
    ensures |r| == 4
  {
    var m := MaxProject(Some(d));
    [BarPercent(d.totalTasks, m), BarPercent(d.openTasks, m),
     BarPercent(d.inProgressTasks, m), BarPercent(d.doneTasks, m)]
  }

  /** A project whose counts are all zero (or less) draws four empty bars. */
  lemma EmptyProjectBarsZero(d: ProjectRollup)
    requires d.totalTasks <= 0 && d.openTasks <= 0 && d.inProgressTasks <= 0 && d.doneTasks <= 0
    ensures ProjectBars(d) == [Zero, Zero, Zero, Zero]
  {
  }

  /**
   * Once any count is positive, every bar is scaled against the same maximum,
   * which no count exceeds and which one of the counts attains.
   */
  lemma ProjectBarsScaled(d: ProjectRollup)
    requires d.totalTasks > 0 || d.openTasks > 0 || d.inProgressTasks > 0 || d.doneTasks > 0
    ensures var m := MaxProject(Some(d));
            && m > 0
            && ProjectBars(d) == [Rounded(d.totalTasks, m), Rounded(d.openTasks, m),
                                  Rounded(d.inProgressTasks, m), Rounded(d.doneTasks, m)]
            && forall i :: 0 <= i < 4 ==> ProjectBars(d)[i].value <= ProjectBars(d)[i].max
  {
  }

  // ----- the page -----

  class Analytics {
    const token: Value
    var teamId: string
    var projectId: string
    var teamData: Option<TeamRollup>
    var projectData: Option<ProjectRollup>
    var loading: bool
    var err: Option<string>

    constructor (token: Value)
      ensures this.token == token
      ensures teamId == "" && projectId == "" && teamData == None && projectData == None
      ensures !loading && err == None
    {
      this.token := token;
      teamId, projectId := "", "";
      teamData, projectData := None, None;
      loading, err := false, None;
    }

    /** `loadTeam`, given what `getTeamAnalytics` resolves to (None for a null body). */
    method LoadTeam(res: Outcome<Option<TeamRollup>>) returns (issued: Option<Request>)
      modifies this
      ensures teamId == old(teamId) && projectId == old(projectId) && projectData == old(projectData)
      ensures old(teamId) == "" ==>
                issued == None && teamData == old(teamData) && loading == old(loading) && err == old(err)
      ensures old(teamId) != "" ==> issued == Some(GetTeamAnalytics(token, teamId)) && !loading
      ensures old(teamId) != "" && res.Ok? ==> teamData == res.value && err == None
      ensures old(teamId) != "" && res.Fail? ==>
                teamData == old(teamData) && err == Some(ErrorText(res.message, "Failed to load team analytics"))
    {
      if teamId == "" {
        return None;
      }
      loading := true;
      err := None;
      issued := Some(GetTeamAnalytics(token, teamId));
      match res {
        case Ok(data) => teamData := data;
        case Fail(message) => err := Some(ErrorText(message, "Failed to load team analytics"));
      }
      loading := false;
    }

    /** `loadProject`, given what `getProjectAnalytics` resolves to (None for a null body). */
    method LoadProject(res: Outcome<Option<ProjectRollup>>) returns (issued: Option<Request>)
      modifies this
      ensures teamId == old(teamId) && projectId == old(projectId) && teamData == old(teamData)
      ensures old(projectId) == "" ==>
                issued == None && projectData == old(projectData) && loading == old(loading) && err == old(err)
      ensures old(projectId) != "" ==> issued == Some(GetProjectAnalytics(token, projectId)) && !loading
      ensures old(projectId) != "" && res.Ok? ==> projectData == res.value && err == None
      ensures old(projectId) != "" && res.Fail? ==>
                projectData == old(projectData)
                && err == Some(ErrorText(res.message, "Failed to load project analytics"))
    {
      if projectId == "" {
        return None;
      }
      loading := true;
      err := None;
      issued := Some(GetProjectAnalytics(token, projectId));
      match res {
        case Ok(data) => projectData := data;
        case Fail(message) => err := Some(ErrorText(message, "Failed to load project analytics"));
      }
      loading := false;
    }
  }
}
