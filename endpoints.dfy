/**
 * The endpoint table handed to `createApi`: for every endpoint, the request
 * its `query` builds and the cache tags it provides (queries) or
 * invalidates (mutations). The cache that consumes these tags is the
 * library's and is not modelled here; see the Invalidation module for the
 * matching rule it is assumed to apply.
 */
module Endpoints {
  import opened Wrappers
  import opened Entities
  import opened Decimal

  /** The declared `tagTypes`. */
  datatype TagType = Projects | Tasks | Users | Teams

  const TagTypes: seq<TagType> := [Projects, Tasks, Users, Teams]

  /** `"Tasks"` is Tag(Tasks, None); `{ type: "Tasks", id: 7 }` is Tag(Tasks, Some(7)). */
  datatype Tag = Tag(kind: TagType, id: Option<int>)

  datatype HttpMethod = GET | POST | PATCH

  datatype RequestBody =
    | ProjectBody(project: PartialProject)
    | TaskBody(task: PartialTask)
    | StatusBody(status: string)

  /** What an endpoint's `query` returns: a bare URL, or a URL with a method and maybe a body. */
  datatype QueryValue =
    | UrlOnly(url: string)
    | FetchArgs(url: string, httpMethod: HttpMethod, body: Option<RequestBody>)

  /** One endpoint applied to its argument. */
  datatype Endpoint =
    | GetProjects
    | GetSingleProject(id: int)
    | CreateProject(project: PartialProject)
    | GetTasks(projectId: int)
    | GetTasksByUser(userId: int)
    | CreateTask(task: PartialTask)
    | UpdateTaskStatus(projectId: int, taskId: int, status: string)
    | UpdateTask(projectId: int, taskId: int, task: PartialTask)
    | GetUsers
    | GetTeams
    | Search(query: string)
  {
    /** Declared with `build.mutation`. */
    predicate IsMutation() {
      CreateProject? || CreateTask? || UpdateTaskStatus? || UpdateTask?
    }

    /** Declared with `build.query`. */
    predicate IsQuery() {
      !IsMutation()
    }
  }

  /** Each endpoint's `query` arrow. */
  function Query(e: Endpoint): QueryValue {
    match e
    case GetProjects => UrlOnly("projects")
    case GetSingleProject(id) => FetchArgs("projects/" + IntToString(id), GET, None)
    case CreateProject(project) => FetchArgs("projects", POST, Some(ProjectBody(project)))
    case GetTasks(projectId) => FetchArgs("projects/" + IntToString(projectId) + "/tasks", GET, None)
    case GetTasksByUser(userId) => UrlOnly("users/" + IntToString(userId) + "/tasks")
    case CreateTask(task) => FetchArgs("tasks", POST, Some(TaskBody(task)))
    case UpdateTaskStatus(projectId, taskId, status) =>
      FetchArgs("projects/" + IntToString(projectId) + "/tasks/" + IntToString(taskId), PATCH, Some(StatusBody(status)))
    case UpdateTask(projectId, taskId, task) =>
      FetchArgs("projects/" + IntToString(projectId) + "/tasks/" + IntToString(taskId), PATCH, Some(TaskBody(task)))
    case GetUsers => UrlOnly("users")
    case GetTeams => UrlOnly("teams")
    case Search(query) => UrlOnly("search?query=" + query)
  }

  /** The URL, relative to the configured base URL: never empty and never starting with `/`. */
  function Url(e: Endpoint): (u: string)
    ensures |u| > 0 && u[0] != '/'
  {
    Query(e).url
  }

  /** The HTTP method; a bare URL string is fetched with GET. */
  function Method(e: Endpoint): (m: HttpMethod)
    ensures m == GET <==> e.IsQuery()
    ensures m == POST <==> e.CreateProject? || e.CreateTask?
    ensures m == PATCH <==> e.UpdateTaskStatus? || e.UpdateTask?
  {
    match Query(e)
    case UrlOnly(_) => GET
    case FetchArgs(_, httpMethod, _) => httpMethod
  }

  /** The request body: exactly the mutations send one. */
  function Body(e: Endpoint): (b: Option<RequestBody>)
    ensures b.Some? <==> e.IsMutation()
    ensures e.CreateProject? ==> b == Some(ProjectBody(e.project))
    ensures e.CreateTask? || e.UpdateTask? ==> b == Some(TaskBody(e.task))
    ensures e.UpdateTaskStatus? ==> b == Some(StatusBody(e.status))
  {
    match Query(e)
    case UrlOnly(_) => None
    case FetchArgs(_, _, body) => body
  }

  /** `result.map(({ id }) => ({ type: "Tasks", id }))` */
  function TaskTags(ts: seq<Task>): (r: seq<Tag>)
    ensures |r| == |ts|
    ensures forall i :: 0 <= i < |ts| ==> r[i] == Tag(Tasks, Some(ts[i].id))
  {
    if ts == [] then [] else [Tag(Tasks, Some(ts[0].id))] + TaskTags(ts[1..])
  }

  /**
   * `providesTags`. Only the two task lists look at the result; `result`
   * is None when the request failed. An empty array is truthy in
   * JavaScript, so an empty task list provides no tag at all.
   */
  function ProvidedTags(e: Endpoint, result: Option<seq<Task>>): (r: seq<Tag>)
    ensures r == [] <==> e.IsMutation() || e.Search? || ((e.GetTasks? || e.GetTasksByUser?) && result == Some([]))
  {
    match e
    case GetProjects => [Tag(Projects, None)]
    case GetSingleProject(id) => [Tag(Projects, Some(id))]
    case GetTasks(_) => if result.Some? then TaskTags(result.value) else [Tag(Tasks, None)]
    case GetTasksByUser(userId) => if result.Some? then TaskTags(result.value) else [Tag(Tasks, Some(userId))]
    case GetUsers => [Tag(Users, None)]
    case GetTeams => [Tag(Teams, None)]
    case _ => []
  }

  /** `invalidatesTags`: one tag per mutation, none for queries. */
  function InvalidatedTags(e: Endpoint): (r: seq<Tag>)
    ensures |r| == if e.IsMutation() then 1 else 0
    ensures forall t :: t in r ==> (t.kind == Projects <==> e.CreateProject?)
  {
    match e
    case CreateProject(_) => [Tag(Projects, None)]
    case CreateTask(_) => [Tag(Tasks, None)]
    case UpdateTaskStatus(_, taskId, _) => [Tag(Tasks, Some(taskId))]
    case UpdateTask(_, taskId, _) => [Tag(Tasks, Some(taskId))]
    case _ => []
  }

  // ---------------------------------------------------------------------
  // The REST resources behind the URLs, and a parser that recovers them.
  // ---------------------------------------------------------------------

  datatype Resource =
    | ProjectsRes
    | ProjectRes(id: int)
    | ProjectTasksRes(projectId: int)
    | ProjectTaskRes(projectId: int, taskId: int)
    | TasksRes
    | UserTasksRes(userId: int)
    | UsersRes
    | TeamsRes
    | SearchRes(value: string)   // the `query` value parsed from the URL string, not decoded

  /**
   * The resource each endpoint addresses. For `search` it is the value of
   * the `query` parameter: the term is sent unencoded, so the value ends at
   * the first `&` or `#` in it.
   */
  function ResourceOf(e: Endpoint): Resource {
    match e
    case GetProjects => ProjectsRes
    case GetSingleProject(id) => ProjectRes(id)
    case CreateProject(_) => ProjectsRes
    case GetTasks(projectId) => ProjectTasksRes(projectId)
    case GetTasksByUser(userId) => UserTasksRes(userId)
    case CreateTask(_) => TasksRes
    case UpdateTaskStatus(projectId, taskId, _) => ProjectTaskRes(projectId, taskId)
    case UpdateTask(projectId, taskId, _) => ProjectTaskRes(projectId, taskId)
    case GetUsers => UsersRes
    case GetTeams => TeamsRes
    case Search(query) => SearchRes(ParamValue(query))
  }

  /** A query-string value: what precedes the first `&` (next parameter) or `#` (fragment). */
  function ParamValue(s: string): (r: string)
    ensures r <= s && '&' !in r && '#' !in r
    ensures |r| < |s| ==> s[|r|] == '&' || s[|r|] == '#'
  {
    if s == [] || s[0] == '&' || s[0] == '#' then [] else [s[0]] + ParamValue(s[1..])
  }

  /** A term that `ParamValue` reads back unchanged: nothing that ends the value or that a server decodes. */
  predicate PlainTerm(t: string) {
    '&' !in t && '#' !in t && '%' !in t && '+' !in t
  }

  /** Splits s at the first occurrence of c. */
  function SplitAt(s: string, c: char): (r: Option<(string, string)>)
    ensures r.None? <==> c !in s
    ensures r.Some? ==> s == r.value.0 + [c] + r.value.1 && c !in r.value.0
  {
    if s == [] then None
    else if s[0] == c then Some(([], s[1..]))
    else match SplitAt(s[1..], c)
      case None => None
      case Some(parts) => Some(([s[0]] + parts.0, parts.1))
  }

  lemma {:induction false} SplitAtConcat(a: string, c: char, b: string)
    requires c !in a
    ensures SplitAt(a + [c] + b, c) == Some((a, b))
  {
    var s := a + [c] + b;
    if a == [] {
      assert s[1..] == b;
    } else {
      assert s[0] == a[0] != c;
      assert s[1..] == a[1..] + [c] + b;
      SplitAtConcat(a[1..], c, b);
      assert [s[0]] + a[1..] == a;
    }
  }

  function ParseProjectPath(rest: string): Option<Resource> {
    match SplitAt(rest, '/')
    case None =>
      (match ParseInt(rest)
       case Some(id) => Some(ProjectRes(id))
       case None => None)
    case Some(parts) =>
      match ParseInt(parts.0)
      case None => None
      case Some(projectId) =>
        if parts.1 == "tasks" then Some(ProjectTasksRes(projectId))
        else if "tasks/" <= parts.1 then
          (match ParseInt(parts.1[6..])
           case Some(taskId) => Some(ProjectTaskRes(projectId, taskId))
           case None => None)
        else None
  }

  function ParseUserPath(rest: string): Option<Resource> {
    match SplitAt(rest, '/')
    case None => None
    case Some(parts) =>
      if parts.1 == "tasks" then
        (match ParseInt(parts.0)
         case Some(userId) => Some(UserTasksRes(userId))
         case None => None)
      else None
  }

  /** Reads a relative URL back as the resource it names. */
  function ParseUrl(u: string): Option<Resource> {
    if u == "projects" then Some(ProjectsRes)
    else if u == "tasks" then Some(TasksRes)
    else if u == "users" then Some(UsersRes)
    else if u == "teams" then Some(TeamsRes)
    else if "search?query=" <= u then Some(SearchRes(ParamValue(u[13..])))
    else if "projects/" <= u then ParseProjectPath(u[9..])
    else if "users/" <= u then ParseUserPath(u[6..])
    else None
  }

  lemma NoSlashInNumber(n: int)
    ensures '/' !in IntToString(n)
  {
  }

  /** A URL under `projects/` reaches ParseProjectPath with what follows the prefix. */
  lemma ProjectsPrefix(rest: string)
    requires |rest| > 0
    ensures ParseUrl("projects/" + rest) == ParseProjectPath(rest)
  {
    var u := "projects/" + rest;
    assert u[0] == 'p' && u[8] == '/' && |u| > 9;
    assert "projects/" <= u;
    assert u[9..] == rest;
  }

  /** A URL under `users/` reaches ParseUserPath with what follows the prefix. */
  lemma UsersPrefix(rest: string)
    requires |rest| > 0
    ensures ParseUrl("users/" + rest) == ParseUserPath(rest)
  {
    var u := "users/" + rest;
    assert u[0] == 'u' && u[5] == '/' && |u| > 6;
    assert !("search?query=" <= u) && !("projects/" <= u);
    assert "users/" <= u;
    assert u[6..] == rest;
  }

  lemma SingleProjectUrlRoundTrip(id: int)
    ensures ParseUrl(Url(GetSingleProject(id))) == Some(ProjectRes(id))
  {
    NoSlashInNumber(id);
    IntRoundTrip(id);
    ProjectsPrefix(IntToString(id));
  }

  lemma ProjectTasksUrlRoundTrip(projectId: int)
    ensures ParseUrl(Url(GetTasks(projectId))) == Some(ProjectTasksRes(projectId))
  {
    var d := IntToString(projectId);
    NoSlashInNumber(projectId);
    IntRoundTrip(projectId);
    assert "projects/" + d + "/tasks" == "projects/" + (d + ['/'] + "tasks");
    ProjectsPrefix(d + ['/'] + "tasks");
    SplitAtConcat(d, '/', "tasks");
  }

  lemma UserTasksUrlRoundTrip(userId: int)
    ensures ParseUrl(Url(GetTasksByUser(userId))) == Some(UserTasksRes(userId))
  {
    var d := IntToString(userId);
    NoSlashInNumber(userId);
    IntRoundTrip(userId);
    assert "users/" + d + "/tasks" == "users/" + (d + ['/'] + "tasks");
    UsersPrefix(d + ['/'] + "tasks");
    SplitAtConcat(d, '/', "tasks");
  }

  lemma TaskUrlRoundTrip(projectId: int, taskId: int)
    ensures ParseUrl("projects/" + IntToString(projectId) + "/tasks/" + IntToString(taskId))
         == Some(ProjectTaskRes(projectId, taskId))
  {
    var d := IntToString(projectId);
    var tail := "tasks/" + IntToString(taskId);
    NoSlashInNumber(projectId);
    IntRoundTrip(projectId);
    IntRoundTrip(taskId);
    assert "projects/" + d + "/tasks/" + IntToString(taskId) == "projects/" + (d + ['/'] + tail);
    ProjectsPrefix(d + ['/'] + tail);
    SplitAtConcat(d, '/', tail);
    assert tail != "tasks" && "tasks/" <= tail;
    assert tail[6..] == IntToString(taskId);
  }

  lemma SearchUrlRoundTrip(query: string)
    ensures ParseUrl(Url(Search(query))) == Some(SearchRes(ParamValue(query)))
  {
  }

  /** Every endpoint's URL parses back to the resource it addresses (for search, the `query` value parsed from it). */
  lemma UrlRoundTrip(e: Endpoint)
    ensures ParseUrl(Url(e)) == Some(ResourceOf(e))
  {
    match e
    case GetSingleProject(id) => SingleProjectUrlRoundTrip(id);
    case GetTasks(projectId) => ProjectTasksUrlRoundTrip(projectId);
    case GetTasksByUser(userId) => UserTasksUrlRoundTrip(userId);
    case UpdateTaskStatus(projectId, taskId, _) => TaskUrlRoundTrip(projectId, taskId);
    case UpdateTask(projectId, taskId, _) => TaskUrlRoundTrip(projectId, taskId);
    case Search(query) => SearchUrlRoundTrip(query);
    case _ =>
  }

  /** Two query endpoints with the same URL string are the same endpoint with the same argument. */
  lemma QueryUrlsDistinct(e1: Endpoint, e2: Endpoint)
    requires e1.IsQuery() && e2.IsQuery()
    ensures Url(e1) == Url(e2) ==> e1 == e2
  {
    UrlRoundTrip(e1);
    UrlRoundTrip(e2);
    if e1.Search? && e2.Search? && Url(e1) == Url(e2) {
      assert e1.query == Url(e1)[13..] == Url(e2)[13..] == e2.query;
    }
  }

  /** A plain term parses back from its URL exactly as typed. */
  lemma PlainTermValue(t: string)
    requires PlainTerm(t)
    ensures ParamValue(t) == t
  {
  }

  /** For a plain term, the search URL parses back to exactly that term. */
  lemma PlainSearchRoundTrip(t: string)
    requires PlainTerm(t)
    ensures ParseUrl(Url(Search(t))) == Some(SearchRes(t))
  {
    PlainTermValue(t);
    UrlRoundTrip(Search(t));
  }

  /**
   * Because the term is not encoded, distinct terms can send the same
   * value: "R&D" sends `query=R` (and a parameter `D`), and in "a#b" the
   * `#b` is a fragment that is never sent.
   */
  lemma UnencodedTermsCollide()
    ensures Search("R&D") != Search("R") && ResourceOf(Search("R&D")) == ResourceOf(Search("R"))
    ensures Search("a#b") != Search("a") && ResourceOf(Search("a#b")) == ResourceOf(Search("a"))
  {
  }

  /** Two PATCH endpoints with the same URL address the same task of the same project. */
  lemma TaskUrlsDistinct(e1: Endpoint, e2: Endpoint)
    requires e1.UpdateTaskStatus? || e1.UpdateTask?
    requires e2.UpdateTaskStatus? || e2.UpdateTask?
    ensures Url(e1) == Url(e2) ==> e1.projectId == e2.projectId && e1.taskId == e2.taskId
  {
    UrlRoundTrip(e1);
    UrlRoundTrip(e2);
  }

  // ---------------------------------------------------------------------
  // The table, endpoint by endpoint.
  // ---------------------------------------------------------------------

  /** getProjects: GET `projects`, providing the general Projects tag. */
  lemma ProjectList(result: Option<seq<Task>>)
    ensures Url(GetProjects) == "projects" && Method(GetProjects) == GET && Body(GetProjects) == None
    ensures ProvidedTags(GetProjects, result) == [Tag(Projects, None)]
  {
  }

  /** getUsers and getTeams: GET `users` and `teams`, providing their general tags. */
  lemma UserAndTeamLists(result: Option<seq<Task>>)
    ensures Url(GetUsers) == "users" && Method(GetUsers) == GET && Body(GetUsers) == None
    ensures ProvidedTags(GetUsers, result) == [Tag(Users, None)]
    ensures Url(GetTeams) == "teams" && Method(GetTeams) == GET && Body(GetTeams) == None
    ensures ProvidedTags(GetTeams, result) == [Tag(Teams, None)]
  {
  }

  /** getSingleProject: GET `projects/{id}`, providing exactly the one tag of that project. */
  lemma SingleProject(id: int, result: Option<seq<Task>>)
    ensures Url(GetSingleProject(id)) == "projects/" + IntToString(id)
    ensures Method(GetSingleProject(id)) == GET && Body(GetSingleProject(id)) == None
    ensures ProvidedTags(GetSingleProject(id), result) == [Tag(Projects, Some(id))]
    ensures ParseInt(Url(GetSingleProject(id))[9..]) == Some(id)
  {
    var u := Url(GetSingleProject(id));
    assert u[9..] == IntToString(id);
    IntRoundTrip(id);
  }

  /**
   * getTasks: GET `projects/{projectId}/tasks`; with a result, one tag per
   * task in result order; without one, only the general Tasks tag. The tags
   * do not depend on the project.
   */
  lemma ProjectTasks(projectId: int, otherProjectId: int, result: Option<seq<Task>>)
    ensures Url(GetTasks(projectId)) == "projects/" + IntToString(projectId) + "/tasks"
    ensures Method(GetTasks(projectId)) == GET && Body(GetTasks(projectId)) == None
    ensures result.None? ==> ProvidedTags(GetTasks(projectId), result) == [Tag(Tasks, None)]
    ensures result.Some? ==>
      var tags := ProvidedTags(GetTasks(projectId), result);
      |tags| == |result.value| &&
      forall i :: 0 <= i < |tags| ==> tags[i] == Tag(Tasks, Some(result.value[i].id))
    ensures ProvidedTags(GetTasks(projectId), result) == ProvidedTags(GetTasks(otherProjectId), result)
  {
  }

  /**
   * getTasksByUser: GET `users/{userId}/tasks`; with a result, one tag per
   * task; without one, the user id reused as a task-tag id.
   */
  lemma UserTasks(userId: int, result: Option<seq<Task>>)
    ensures Url(GetTasksByUser(userId)) == "users/" + IntToString(userId) + "/tasks"
    ensures Method(GetTasksByUser(userId)) == GET && Body(GetTasksByUser(userId)) == None
    ensures result.None? ==> ProvidedTags(GetTasksByUser(userId), result) == [Tag(Tasks, Some(userId))]
    ensures result.Some? ==>
      var tags := ProvidedTags(GetTasksByUser(userId), result);
      |tags| == |result.value| &&
      forall i :: 0 <= i < |tags| ==> tags[i] == Tag(Tasks, Some(result.value[i].id))
  {
  }

  /** createProject: POST `projects` with the partial project unchanged; invalidates the general Projects tag. */
  lemma ProjectCreation(project: PartialProject)
    ensures Url(CreateProject(project)) == "projects" && Method(CreateProject(project)) == POST
    ensures Body(CreateProject(project)) == Some(ProjectBody(project))
    ensures InvalidatedTags(CreateProject(project)) == [Tag(Projects, None)]
  {
  }

  /** createTask: POST `tasks` with the partial task unchanged; invalidates the general Tasks tag. */
  lemma TaskCreation(task: PartialTask)
    ensures Url(CreateTask(task)) == "tasks" && Method(CreateTask(task)) == POST
    ensures Body(CreateTask(task)) == Some(TaskBody(task))
    ensures InvalidatedTags(CreateTask(task)) == [Tag(Tasks, None)]
  {
  }

  /**
   * updateTaskStatus: PATCH `projects/{projectId}/tasks/{taskId}` with only
   * the status as body; invalidates exactly the task's tag, whatever the
   * project and the status.
   */
  lemma StatusUpdate(projectId: int, taskId: int, status: string, otherProjectId: int, otherStatus: string)
    ensures Url(UpdateTaskStatus(projectId, taskId, status))
         == "projects/" + IntToString(projectId) + "/tasks/" + IntToString(taskId)
    ensures Method(UpdateTaskStatus(projectId, taskId, status)) == PATCH
    ensures Body(UpdateTaskStatus(projectId, taskId, status)) == Some(StatusBody(status))
    ensures InvalidatedTags(UpdateTaskStatus(projectId, taskId, status)) == [Tag(Tasks, Some(taskId))]
    ensures InvalidatedTags(UpdateTaskStatus(projectId, taskId, status))
         == InvalidatedTags(UpdateTaskStatus(otherProjectId, taskId, otherStatus))
  {
  }

  /**
   * updateTask reaches the same URL with the same method as updateTaskStatus
   * and invalidates the same tag; only its body, the partial task, differs.
   */
  lemma TaskUpdate(projectId: int, taskId: int, task: PartialTask, status: string)
    ensures Url(UpdateTask(projectId, taskId, task)) == Url(UpdateTaskStatus(projectId, taskId, status))
    ensures Method(UpdateTask(projectId, taskId, task)) == Method(UpdateTaskStatus(projectId, taskId, status)) == PATCH
    ensures Body(UpdateTask(projectId, taskId, task)) == Some(TaskBody(task))
    ensures InvalidatedTags(UpdateTask(projectId, taskId, task)) == [Tag(Tasks, Some(taskId))]
  {
  }

  /**
   * search: GET `search?query=` followed by the term exactly as given (no
   * percent-encoding), and no tags. See UnencodedTermsCollide for what the
   * URL then holds as the `query` value.
   */
  lemma SearchQuery(term: string, result: Option<seq<Task>>)
    ensures Url(Search(term)) == "search?query=" + term
    ensures Url(Search(term))[13..] == term
    ensures Method(Search(term)) == GET && Body(Search(term)) == None
    ensures ProvidedTags(Search(term), result) == [] && InvalidatedTags(Search(term)) == []
    ensures Url(Search("R&D")) == "search?query=R&D"
  {
  }

  /** Every tag any endpoint provides or invalidates has one of the declared tag types. */
  lemma TagTypesDeclared(e: Endpoint, result: Option<seq<Task>>)
    ensures forall t :: t in ProvidedTags(e, result) ==> t.kind in TagTypes
    ensures forall t :: t in InvalidatedTags(e) ==> t.kind in TagTypes
  {
  }
}
