/**
 * The entity interfaces and enums shared by the API client and the pages.
 * Every optional (`?`) field is an Option; numbers used as ids and counts
 * are integers; dates and URLs stay strings, as the client never reads them.
 */
module Entities {
  import opened Wrappers

  datatype Project = Project(
    id: int,
    name: string,
    description: Option<string>,
    startDate: Option<string>,
    dueDate: Option<string>)

  datatype Priority = Urgent | High | Medium | Low | Backlog {
    /** The string each enum member stands for on the wire. */
    function Value(): string {
      match this
      case Urgent => "Urgent"
      case High => "High"
      case Medium => "Medium"
      case Low => "Low"
      case Backlog => "Backlog"
    }
  }

  datatype Status = ToDo | WorkInProgress | UnderReview | Completed {
    /** The string each enum member stands for on the wire. */
    function Value(): string {
      match this
      case ToDo => "To Do"
      case WorkInProgress => "In Progress"
      case UnderReview => "Under Review"
      case Completed => "Completed"
    }
  }

  /** A React `Key`: a string or a number. */
  datatype Key = StringKey(text: string) | NumberKey(number: int)

  datatype User = User(
    id: Option<Key>,            // `Key | null | undefined`: null and undefined both None
    userId: Option<int>,
    username: string,
    email: string,
    profilePictureUrl: Option<string>,
    cognitoId: Option<string>,
    teamId: Option<int>,
    teamName: Option<string>)

  datatype Attachment = Attachment(
    id: Option<int>,
    fileUrl: Option<string>,
    fileName: Option<string>,
    taskId: Option<int>,
    uploadedById: Option<int>,
    username: Option<string>,
    profilePictureUrl: Option<string>)

  datatype Comment = Comment(
    id: int,
    text: string,
    userId: Option<int>,
    taskId: Option<int>,
    username: Option<string>,
    profilePictureUrl: Option<string>)

  datatype Task = Task(
    id: int,
    title: string,
    description: Option<string>,
    status: Option<Status>,
    priority: Option<Priority>,
    tags: Option<string>,
    startDate: Option<string>,
    dueDate: Option<string>,
    points: Option<int>,
    projectId: int,
    authorUserId: Option<int>,
    assignedUserId: Option<int>,
    author: Option<User>,
    assignee: Option<User>,
    comments: Option<seq<Comment>>,
    attachments: Option<seq<Attachment>>)

  /** What `search` returns: comments and attachments always, the other three lists maybe. */
  datatype SearchResults = SearchResults(
    comments: seq<Comment>,
    attachments: seq<Attachment>,
    tasks: Option<seq<Task>>,
    projects: Option<seq<Project>>,
    users: Option<seq<User>>)

  datatype Team = Team(
    id: int,
    teamName: string,
    productOwnerUserId: Option<int>,
    projectManagerUserId: Option<int>,
    productOwnerUsername: Option<string>,
    projectManagerUsername: Option<string>)

  /** `Partial<Project>`: every field optional; the body of createProject. */
  datatype PartialProject = PartialProject(
    id: Option<int>,
    name: Option<string>,
    description: Option<string>,
    startDate: Option<string>,
    dueDate: Option<string>)

  /** `Partial<Task>`: every field optional; the body of createTask and updateTask. */
  datatype PartialTask = PartialTask(
    id: Option<int>,
    title: Option<string>,
    description: Option<string>,
    status: Option<Status>,
    priority: Option<Priority>,
    tags: Option<string>,
    startDate: Option<string>,
    dueDate: Option<string>,
    points: Option<int>,
    projectId: Option<int>,
    authorUserId: Option<int>,
    assignedUserId: Option<int>,
    author: Option<User>,
    assignee: Option<User>,
    comments: Option<seq<Comment>>,
    attachments: Option<seq<Attachment>>)

  /** The two enums map their members to pairwise distinct strings. */
  lemma EnumValuesInjective(p: Priority, q: Priority, s: Status, t: Status)
    ensures p.Value() == q.Value() ==> p == q
    ensures s.Value() == t.Value() ==> s == t
  {
  }
}
