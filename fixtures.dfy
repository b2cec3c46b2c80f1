/** The in-memory data the dashboard is seeded with. */
module Fixtures {
  import opened Common
  import opened Domain
  import Seqs

  const CurrentUser := User("1", "Sarah Chen", "sarah@company.com", Some("/professional-woman-avatar.png"), Manager)

  const Alex := User("2", "Alex Rivera", "alex@company.com", Some("/professional-man-avatar.png"), Member)
  const Jordan := User("3", "Jordan Kim", "jordan@company.com", Some("/professional-avatar.png"), Member)
  const Taylor := User("4", "Taylor Smith", "taylor@company.com", Some("/professional-woman-smiling-avatar.png"), Member)

  const TeamMembers: seq<User> := [CurrentUser, Alex, Jordan, Taylor]

  const MockTasks: seq<Task> := [
    Task("1", "Update Q4 sales projections",
         Some("Review and update the quarterly sales forecast based on current trends"),
         Todo, Alex, "2025-12-01", High, Some("1"), "2025-11-25", true),
    Task("2", "Prepare client presentation deck",
         Some("Create slides for the upcoming client meeting"),
         InProgress, Jordan, "2025-11-29", Medium, Some("1"), "2025-11-25", true),
    Task("3", "Review marketing budget allocation", None,
         Review, Taylor, "2025-11-30", High, Some("2"), "2025-11-24", true),
    Task("4", "Schedule team retrospective", None,
         Done, CurrentUser, "2025-11-26", High, Some("2"), "2025-11-24", true),
    Task("5", "Draft product roadmap for 2026",
         Some("Outline key milestones and features for next year"),
         Todo, Alex, "2025-12-05", Low, Some("3"), "2025-11-26", false),
    Task("6", "Coordinate with engineering on API updates", None,
         InProgress, Jordan, "2025-12-02", Medium, Some("3"), "2025-11-26", true)
  ]

  /** The tasks raised in the meeting with id `meetingId`. */
  function TasksOfMeeting(meetingId: string): seq<Task> {
    Seqs.Filter(MockTasks, (t: Task) => t.meetingId == Some(meetingId))
  }

  const MockMeetings: seq<Meeting> := [
    Meeting("1", "Weekly Team Standup", "2025-11-25", 30, TeamMembers, TasksOfMeeting("1"), None, None),
    Meeting("2", "Q4 Planning Session", "2025-11-24", 60, [CurrentUser, Jordan, Taylor], TasksOfMeeting("2"), None, None),
    Meeting("3", "Product Strategy Review", "2025-11-26", 45, TeamMembers, TasksOfMeeting("3"), None, None)
  ]
}
