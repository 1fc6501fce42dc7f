/** The records the pages hold, as the backend returns them. */
module Entities {
  /** A task; `status` is "" when the response leaves it out or null. */
  datatype Task = Task(id: string, title: string, status: string, priority: string, description: string)

  datatype Comment = Comment(id: string, body: string)

  datatype Member = Member(userId: string, roleInTeam: string)

  /** A team, with its members when it comes from the detail endpoint. */
  datatype Team = Team(id: string, name: string, members: seq<Member>)

  datatype Notification = Notification(id: string, message: string, isRead: bool)

  /** `/analytics/teams/{id}` */
  datatype TeamRollup = TeamRollup(totalProjects: int, totalTasks: int, doneTasks: int)

  /** `/analytics/projects/{id}` */
  datatype ProjectRollup = ProjectRollup(totalTasks: int, openTasks: int, inProgressTasks: int, doneTasks: int)
}
