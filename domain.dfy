/** The records of the dashboard: users, tasks and meetings. */
module Domain {
  import opened Common

  datatype UserRole = Manager | Member

  datatype TaskStatus = Todo | InProgress | Review | Done

  datatype ConfidenceLevel = High | Medium | Low

  datatype User = User(id: string, name: string, email: string, avatar: Option<string>, role: UserRole)

  datatype Task = Task(
    id: string,
    title: string,
    description: Option<string>,
    status: TaskStatus,
    owner: User,
    dueDate: string,
    confidence: ConfidenceLevel,
    meetingId: Option<string>,
    createdAt: string,
    approved: bool)

  datatype Meeting = Meeting(
    id: string,
    title: string,
    date: string,
    duration: int,
    participants: seq<User>,
    tasks: seq<Task>,
    transcript: Option<string>,
    isLive: Option<bool>)
}
