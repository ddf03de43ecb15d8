/**
 * The search page: the two pieces of component state and their handlers,
 * the skip rule that decides whether the search query is issued, and what
 * the page shows for a given state of that query.
 */
module SearchPage {
  import opened Wrappers
  import opened Entities
  import Endpoints

  /** The shortest committed term that is searched for. */
  const MinTermLength: nat := 3

  /** The `skip` option passed with the search query. */
  predicate Skip(term: string) {
    |term| < MinTermLength
  }

  /** The query the page subscribes to for a committed term, or None while it is skipped. */
  function SearchRequest(term: string): (r: Option<Endpoints.Endpoint>)
    ensures r.None? <==> |term| < MinTermLength
    ensures r.Some? ==> r.value == Endpoints.Search(term)
    ensures r.Some? ==> Endpoints.Url(r.value) == "search?query=" + term
  {
    if Skip(term) then None else Some(Endpoints.Search(term))
  }

  /** The `Search` component's state. */
  class Search {
    var searchTerm: string
    var selectedValue: string

    /** Both pieces of state start as the empty string, so nothing is queried. */
    constructor ()
      ensures searchTerm == "" && selectedValue == ""
      ensures Request() == None
    {
      searchTerm := "";
      selectedValue := "";
    }

    /** The query issued for the current state; the selector plays no part in it. */
    function Request(): Option<Endpoints.Endpoint>
      reads this
    {
      SearchRequest(searchTerm)
    }

    /** `handleSearch` once its debounce delay has passed: commits the input's value verbatim. */
    method HandleSearch(value: string)
      modifies this`searchTerm
      ensures searchTerm == value && selectedValue == old(selectedValue)
      ensures Request() == SearchRequest(value)
    {
      searchTerm := value;
    }

    /** `handleSelect`: records the type selector's value and nothing else. */
    method HandleSelect(value: string)
      modifies this`selectedValue
      ensures selectedValue == value && searchTerm == old(searchTerm)
      ensures Request() == old(Request())
    {
      selectedValue := value;
    }
  }

  // ---------------------------------------------------------------------
  // Rendering the query's state.
  // ---------------------------------------------------------------------

  /** What the page reads from the search query's hook result. */
  datatype QueryState = QueryState(isLoading: bool, isError: bool, data: Option<SearchResults>)

  /** The three result groups; their headings read "Tasks", "Projects" and "Users". */
  datatype Group = TaskGroup | ProjectGroup | UserGroup {
    /** The position of the group on the page. */
    function Rank(): nat {
      match this
      case TaskGroup => 0
      case ProjectGroup => 1
      case UserGroup => 2
    }
  }

  /** One child of the results block: a group heading or one card. */
  datatype Node = Heading(group: Group) | TaskCard(task: Task) | ProjectCard(project: Project) | UserCard(user: User) {
    function GroupOf(): Group {
      match this
      case Heading(g) => g
      case TaskCard(_) => TaskGroup
      case ProjectCard(_) => ProjectGroup
      case UserCard(_) => UserGroup
    }

    /** Where the node may stand: a group's heading before its cards, groups by rank. */
    function Order(): nat {
      2 * GroupOf().Rank() + (if Heading? then 0 else 1)
    }
  }

  /** The children of the page's results area. */
  datatype Block = LoadingNotice | ErrorNotice | ResultList(nodes: seq<Node>) {
    function Rank(): nat {
      match this
      case LoadingNotice => 0
      case ErrorNotice => 1
      case ResultList(_) => 2
    }
  }

  /** A list that is present and not empty: `list && list.length > 0`. */
  predicate NonEmpty<T>(list: Option<seq<T>>) {
    list.Some? && |list.value| > 0
  }

  function HeadingIf(g: Group, shown: bool): seq<Node> {
    if shown then [Heading(g)] else []
  }

  function TaskCards(ts: seq<Task>): seq<Node> {
    seq(|ts|, i requires 0 <= i < |ts| => TaskCard(ts[i]))
  }

  function ProjectCards(ps: seq<Project>): seq<Node> {
    seq(|ps|, i requires 0 <= i < |ps| => ProjectCard(ps[i]))
  }

  function UserCards(us: seq<User>): seq<Node> {
    seq(|us|, i requires 0 <= i < |us| => UserCard(us[i]))
  }

  /** The results block: for each group its heading when non-empty, then `list?.map(...)`. */
  function ResultNodes(res: SearchResults): (r: seq<Node>)
    ensures r == [] <==> !NonEmpty(res.tasks) && !NonEmpty(res.projects) && !NonEmpty(res.users)
  {
    HeadingIf(TaskGroup, NonEmpty(res.tasks)) + TaskCards(res.tasks.GetOr([]))
    + HeadingIf(ProjectGroup, NonEmpty(res.projects)) + ProjectCards(res.projects.GetOr([]))
    + HeadingIf(UserGroup, NonEmpty(res.users)) + UserCards(res.users.GetOr([]))
  }

  /** The page's results area for a state of the search query. */
  function Render(q: QueryState): (r: seq<Block>)
    ensures LoadingNotice in r <==> q.isLoading
    ensures ErrorNotice in r <==> q.isError
    ensures (|r| > 0 && r[|r| - 1].ResultList?) <==> !q.isLoading && !q.isError && q.data.Some?
    ensures forall i :: 0 <= i < |r| && r[i].ResultList? ==> q.data.Some? && r[i].nodes == ResultNodes(q.data.value)
    ensures forall i, j :: 0 <= i < j < |r| ==> r[i].Rank() < r[j].Rank()
  {
    (if q.isLoading then [LoadingNotice] else [])
    + (if q.isError then [ErrorNotice] else [])
    + (if !q.isLoading && !q.isError && q.data.Some? then [ResultList(ResultNodes(q.data.value))] else [])
  }

  // ---------------------------------------------------------------------
  // What the results block shows.
  // ---------------------------------------------------------------------

  /** The cards of one group, in page order. */
  function CardsOf(nodes: seq<Node>, g: Group): seq<Node> {
    if nodes == [] then []
    else (if !nodes[0].Heading? && nodes[0].GroupOf() == g then [nodes[0]] else []) + CardsOf(nodes[1..], g)
  }

  lemma {:induction false} CardsOfConcat(a: seq<Node>, b: seq<Node>, g: Group)
    ensures CardsOf(a + b, g) == CardsOf(a, g) + CardsOf(b, g)
  {
    if a == [] {
      assert a + b == b;
    } else {
      var head := if !a[0].Heading? && a[0].GroupOf() == g then [a[0]] else [];
      assert (a + b)[0] == a[0];
      assert (a + b)[1..] == a[1..] + b;
      assert CardsOf(a + b, g) == head + CardsOf(a[1..] + b, g);
      CardsOfConcat(a[1..], b, g);
      assert CardsOf(a, g) == head + CardsOf(a[1..], g);
    }
  }

  /** A run of cards that all belong to g is kept whole; one whose nodes all belong elsewhere vanishes. */
  lemma {:induction false} CardsOfUniform(nodes: seq<Node>, g: Group, h: Group)
    requires forall i :: 0 <= i < |nodes| ==> !nodes[i].Heading? && nodes[i].GroupOf() == h
    ensures CardsOf(nodes, g) == if g == h then nodes else []
  {
    if nodes != [] {
      CardsOfUniform(nodes[1..], g, h);
    }
  }

  lemma CardsOfHeading(g: Group, shown: bool, h: Group)
    ensures CardsOf(HeadingIf(g, shown), h) == []
  {
  }

  /** Headings contribute no cards, so a group's cards come from the three card runs alone. */
  lemma CardsOfRuns(h1: seq<Node>, c1: seq<Node>, h2: seq<Node>, c2: seq<Node>, h3: seq<Node>, c3: seq<Node>, g: Group)
    requires CardsOf(h1, g) == [] && CardsOf(h2, g) == [] && CardsOf(h3, g) == []
    ensures CardsOf(h1 + c1 + h2 + c2 + h3 + c3, g) == CardsOf(c1, g) + CardsOf(c2, g) + CardsOf(c3, g)
  {
    CardsOfConcat(h1, c1, g);
    CardsOfConcat(h1 + c1, h2, g);
    CardsOfConcat(h1 + c1 + h2, c2, g);
    CardsOfConcat(h1 + c1 + h2 + c2, h3, g);
    CardsOfConcat(h1 + c1 + h2 + c2 + h3, c3, g);
  }

  lemma CardsOfSections(res: SearchResults, g: Group)
    ensures CardsOf(ResultNodes(res), g)
         == CardsOf(TaskCards(res.tasks.GetOr([])), g)
          + CardsOf(ProjectCards(res.projects.GetOr([])), g)
          + CardsOf(UserCards(res.users.GetOr([])), g)
  {
    CardsOfHeading(TaskGroup, NonEmpty(res.tasks), g);
    CardsOfHeading(ProjectGroup, NonEmpty(res.projects), g);
    CardsOfHeading(UserGroup, NonEmpty(res.users), g);
    CardsOfRuns(HeadingIf(TaskGroup, NonEmpty(res.tasks)), TaskCards(res.tasks.GetOr([])),
                HeadingIf(ProjectGroup, NonEmpty(res.projects)), ProjectCards(res.projects.GetOr([])),
                HeadingIf(UserGroup, NonEmpty(res.users)), UserCards(res.users.GetOr([])), g);
  }

  lemma TaskCardsOnly(ts: seq<Task>, g: Group)
    ensures CardsOf(TaskCards(ts), g) == if g == TaskGroup then TaskCards(ts) else []
  {
    CardsOfUniform(TaskCards(ts), g, TaskGroup);
  }

  lemma ProjectCardsOnly(ps: seq<Project>, g: Group)
    ensures CardsOf(ProjectCards(ps), g) == if g == ProjectGroup then ProjectCards(ps) else []
  {
    CardsOfUniform(ProjectCards(ps), g, ProjectGroup);
  }

  lemma UserCardsOnly(us: seq<User>, g: Group)
    ensures CardsOf(UserCards(us), g) == if g == UserGroup then UserCards(us) else []
  {
    CardsOfUniform(UserCards(us), g, UserGroup);
  }

  /** Every group's cards are its list's elements, one each, in the list's order. */
  lemma CardsShown(res: SearchResults, g: Group)
    ensures CardsOf(ResultNodes(res), g) ==
      match g
      case TaskGroup => TaskCards(res.tasks.GetOr([]))
      case ProjectGroup => ProjectCards(res.projects.GetOr([]))
      case UserGroup => UserCards(res.users.GetOr([]))
  {
    TaskCardsOnly(res.tasks.GetOr([]), g);
    ProjectCardsOnly(res.projects.GetOr([]), g);
    UserCardsOnly(res.users.GetOr([]), g);
    CardsOfSections(res, g);
  }

  /** The condition under which the page shows group g's heading. */
  predicate GroupShown(res: SearchResults, g: Group) {
    match g
    case TaskGroup => NonEmpty(res.tasks)
    case ProjectGroup => NonEmpty(res.projects)
    case UserGroup => NonEmpty(res.users)
  }

  /** Card runs hold no heading. */
  lemma CardsHoldNoHeading(ts: seq<Task>, ps: seq<Project>, us: seq<User>, g: Group)
    ensures multiset(TaskCards(ts))[Heading(g)] == 0
    ensures multiset(ProjectCards(ps))[Heading(g)] == 0
    ensures multiset(UserCards(us))[Heading(g)] == 0
  {
    assert Heading(g) !in TaskCards(ts);
    assert Heading(g) !in ProjectCards(ps);
    assert Heading(g) !in UserCards(us);
  }

  lemma HeadingIfCount(h: Group, shown: bool, g: Group)
    ensures multiset(HeadingIf(h, shown))[Heading(g)] == if shown && h == g then 1 else 0
  {
  }

  /** A node's count in six runs laid end to end is the sum of its counts in the runs. */
  lemma CountOfRuns(h1: seq<Node>, c1: seq<Node>, h2: seq<Node>, c2: seq<Node>, h3: seq<Node>, c3: seq<Node>, x: Node)
    ensures multiset(h1 + c1 + h2 + c2 + h3 + c3)[x]
         == multiset(h1)[x] + multiset(c1)[x] + multiset(h2)[x] + multiset(c2)[x] + multiset(h3)[x] + multiset(c3)[x]
  {
    var a := h1 + c1 + h2 + c2 + h3;
    assert multiset(a + c3) == multiset(a) + multiset(c3);
    var b := h1 + c1 + h2 + c2;
    assert multiset(b + h3) == multiset(b) + multiset(h3);
    var c := h1 + c1 + h2;
    assert multiset(c + c2) == multiset(c) + multiset(c2);
    assert multiset(h1 + c1 + h2) == multiset(h1 + c1) + multiset(h2);
    assert multiset(h1 + c1) == multiset(h1) + multiset(c1);
  }

  /** A group's heading is shown, once, exactly when its list is present and not empty. */
  lemma HeadingShown(res: SearchResults, g: Group)
    ensures Heading(g) in ResultNodes(res) <==> GroupShown(res, g)
    ensures multiset(ResultNodes(res))[Heading(g)] == if GroupShown(res, g) then 1 else 0
  {
    var c1, c2, c3 := TaskCards(res.tasks.GetOr([])), ProjectCards(res.projects.GetOr([])), UserCards(res.users.GetOr([]));
    CardsHoldNoHeading(res.tasks.GetOr([]), res.projects.GetOr([]), res.users.GetOr([]), g);
    HeadingIfCount(TaskGroup, NonEmpty(res.tasks), g);
    HeadingIfCount(ProjectGroup, NonEmpty(res.projects), g);
    HeadingIfCount(UserGroup, NonEmpty(res.users), g);
    CountOfRuns(HeadingIf(TaskGroup, NonEmpty(res.tasks)), c1,
                HeadingIf(ProjectGroup, NonEmpty(res.projects)), c2,
                HeadingIf(UserGroup, NonEmpty(res.users)), c3, Heading(g));
    assert Heading(g) in ResultNodes(res) <==> Heading(g) in multiset(ResultNodes(res));
  }

  predicate Ordered(nodes: seq<Node>) {
    forall i, j :: 0 <= i < j < |nodes| ==> nodes[i].Order() <= nodes[j].Order()
  }

  /**
   * The results block is ordered: Tasks, then Projects, then Users, and
   * within a group its heading before its cards.
   */
  lemma ResultsOrdered(res: SearchResults)
    ensures Ordered(ResultNodes(res))
  {
  }

  /** The comments and attachments of a search result never reach the page. */
  lemma RenderIgnoresCommentsAndAttachments(q: QueryState, comments: seq<Comment>, attachments: seq<Attachment>)
    requires q.data.Some?
    ensures Render(q.(data := Some(q.data.value.(comments := comments, attachments := attachments)))) == Render(q)
  {
  }
}
