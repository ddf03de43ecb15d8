# Project-management dashboard client: endpoint table and search page

This project models the two pieces of the dashboard's client that carry logic
of their own.

- **The endpoint table.** `src/state/api.ts` passes eleven endpoints to the
  data-fetching library's `createApi`. For each endpoint, applied to its
  argument, the model gives:
  - the relative URL, the HTTP method and the request body its `query` arrow builds;
  - the cache tags it provides (queries) or invalidates (mutations).

  Around the table the model adds:
  - the entity interfaces and enums it uses, as datatypes with `Option`
    fields (`entities.dfy`);
  - how a template literal prints an integer id (`decimal.dfy`);
  - a parser that reads every URL back as the REST resource it names, and,
    for `search`, as the `query` value of the URL string (`endpoints.dfy`);
  - one explicitly named assumption about how the library matches an
    invalidated tag against a provided tag. From it the model derives, for
    each mutation, which cached queries it invalidates (`invalidation.dfy`).
    The library refetches an invalidated query that has a subscriber and
    drops one that has none; the lemma names say "refetch" in that sense.
- **The search page.** `src/app/search/page.tsx` is modelled in `search_page.dfy`:
  - the `Search` component as a class with its two state fields,
    `searchTerm` and `selectedValue`, and the two handlers that change them;
  - the skip rule that decides whether the `search` query is issued;
  - a pure function that gives, for the query's loading flag, error flag and
    data, the blocks the page shows, in page order: the loading notice, the
    error notice, and the results list of headings and cards.

Modules: `Wrappers` (Option), `Decimal`, `Entities`, `Endpoints`,
`Invalidation`, `SearchPage`.

Two facts about the code shape the table:
- A task list with a result provides one per-task tag for each task of the
  result. Without a result, `getTasks` provides only the general `Tasks` tag
  and `getTasksByUser` provides `Tasks:{userId}`.
- A query whose arrow returns a bare URL string is fetched with the library
  base query's default method, GET. The model writes it out in
  `Endpoints.Method`.

## Model

| member | source | states |
|---|---|---|
| `Entities.EnumValuesInjective` | src/state/api.ts:11-24 | `Priority` and `Status` map their members to pairwise distinct wire strings (true by construction of the two enums) |
| `Decimal.NatToDigits` | src/state/api.ts:105 | a natural number prints as a non-empty run of digits with no leading zero |
| `Decimal.IntToString` | src/state/api.ts:105 | an integer id prints as digits, with a leading minus sign only for a negative value |
| `Decimal.DigitsRoundTrip` | src/state/api.ts:105 | reading the printed digits back gives the number |
| `Decimal.IntRoundTrip` | src/state/api.ts:105 | `ParseInt(IntToString(n)) == Some(n)` for every integer |
| `Decimal.IntToStringInjective` | src/state/api.ts:105 | distinct ids print differently |
| `Endpoints.Url` | src/state/api.ts:100-172 | every URL is relative: non-empty, with no leading `/`; its shape per endpoint is stated by `UrlRoundTrip` and the per-endpoint lemmas below |
| `Endpoints.Method` | src/state/api.ts:98-174 | GET exactly for the queries (a bare URL string defaults to GET); POST exactly for the two creations; PATCH exactly for the two task updates |
| `Endpoints.Body` | src/state/api.ts:110-162 | exactly the mutations send a body; creations and `updateTask` send their argument unchanged; `updateTaskStatus` sends only `{status}` |
| `Endpoints.TaskTags` | src/state/api.ts:125 | one `{Tasks, id}` tag per task, at the task's position |
| `Endpoints.ProvidedTags` | src/state/api.ts:98-174 | the provided tags are empty exactly for mutations, for `search`, and for a task list whose result is an empty array |
| `Endpoints.InvalidatedTags` | src/state/api.ts:110-162 | every mutation invalidates exactly one tag and a query none; that tag has type Projects exactly for `createProject` |
| `Endpoints.UrlRoundTrip` | src/state/api.ts:98-174 | every endpoint's URL parses back to the REST resource it addresses; for `search`, to the undecoded `query` value of the URL string, which ends at the first `&` or `#` |
| `Endpoints.QueryUrlsDistinct` | src/state/api.ts:99-173 | two queries with the same URL are the same endpoint with the same argument |
| `Endpoints.ParamValue` | src/state/api.ts:172 | the value read is a prefix of the text after `query=`, holds no `&` or `#`, and stops short only at one of them |
| `Endpoints.PlainSearchRoundTrip` | src/state/api.ts:171-173 | a term without `&`, `#`, `%` or `+` parses back from its search URL exactly |
| `Endpoints.UnencodedTermsCollide` | src/state/api.ts:172 | because the term is not encoded, `"R&D"` sends the same `query` value as `"R"`, and `"a#b"` the same as `"a"` |
| `Endpoints.TaskUrlsDistinct` | src/state/api.ts:143-162 | two task updates with the same URL address the same project and task |
| `Endpoints.ProjectList` | src/state/api.ts:99-102 | `getProjects` issues GET `projects` with no body and provides `[Projects]` |
| `Endpoints.UserAndTeamLists` | src/state/api.ts:163-170 | `getUsers` and `getTeams` issue GET `users` and `teams` and provide `[Users]` and `[Teams]` |
| `Endpoints.SingleProject` | src/state/api.ts:103-109 | `getSingleProject({id})` issues GET `projects/{id}`; the URL gives back the id; it provides exactly `[{Projects, id}]` whatever the result |
| `Endpoints.ProjectTasks` | src/state/api.ts:118-127 | GET `projects/{projectId}/tasks`; one `{Tasks, id}` per returned task in result order; only the general `Tasks` tag without a result; the tags do not depend on the project |
| `Endpoints.UserTasks` | src/state/api.ts:128-134 | GET `users/{userId}/tasks`; one `{Tasks, id}` per returned task; without a result, `{Tasks, userId}`, the user id reused as a task-tag id |
| `Endpoints.ProjectCreation` | src/state/api.ts:110-117 | POST `projects` with the partial project as body; invalidates `[Projects]` |
| `Endpoints.TaskCreation` | src/state/api.ts:135-142 | POST `tasks` with the partial task as body; invalidates `[Tasks]` |
| `Endpoints.StatusUpdate` | src/state/api.ts:143-152 | PATCH `projects/{projectId}/tasks/{taskId}` with body `{status}`; invalidates exactly `[{Tasks, taskId}]`, the same for any project and status |
| `Endpoints.TaskUpdate` | src/state/api.ts:153-162 | same URL and method as `updateTaskStatus` for equal ids; the partial task as body; invalidates exactly `[{Tasks, taskId}]` |
| `Endpoints.SearchQuery` | src/state/api.ts:171-173 | GET `search?query=` followed by the raw, unencoded term; no tags |
| `Endpoints.TagTypesDeclared` | src/state/api.ts:97-174 | every provided or invalidated tag has one of the declared tag types (true by construction of `TagType`) |
| `Invalidation.OnlyMutationsRefetchQueries` | src/state/api.ts:98-174 | a refetch is only ever caused by a mutation, and only of a query other than `search` |
| `Invalidation.CreateProjectRefetches` | src/state/api.ts:99-117 | `createProject` refetches exactly `getProjects` and every `getSingleProject` |
| `Invalidation.CreateTaskRefetchesTaskLists` | src/state/api.ts:118-142 | `createTask` refetches a task list exactly when its result is not an empty array |
| `Invalidation.EmptyTaskListNotRefetched` | src/state/api.ts:123-126 | a project's task list that came back empty is not refetched after `createTask` |
| `Invalidation.UpdateRefetches` | src/state/api.ts:118-162 | a task update refetches a loaded list exactly when it holds that task; a failed project list never; a failed user list exactly when the user id equals the task id |
| `Invalidation.UpdateSparesOtherTask` | src/state/api.ts:143-151 | updating task 7 does not refetch a list holding only task 8 |
| `Invalidation.TaskMutationsSpareProjects` | src/state/api.ts:99-162 | `createTask`, `updateTaskStatus` and `updateTask` never invalidate `getProjects` or `getSingleProject` |
| `Invalidation.NeverRefetched` | src/state/api.ts:163-173 | no mutation refetches `getUsers`, `getTeams` or `search` |
| `Invalidation.ProvidedTagsListed` | src/state/api.ts:123-133 | corrected tags: every task list also carries the general Tasks tag; nothing is lost and nothing else is added |
| `Invalidation.ListedCreateTaskRefetchesTaskLists` | src/state/api.ts:123-141 | with the corrected tags, `createTask` refetches every task list, empty or not |
| `Invalidation.ListedKeepsUpdates` | src/state/api.ts:123-161 | the correction leaves the refetches caused by task updates unchanged |
| `SearchPage.SearchRequest` | src/app/search/page.tsx:18-20 | the query is skipped exactly when the committed term is shorter than 3; otherwise `search` is issued with that term, whose URL is `search?query=` plus the term |
| `SearchPage.Search.constructor` | src/app/search/page.tsx:12-13 | both state fields start empty, so no query is issued |
| `SearchPage.Search.HandleSearch` | src/app/search/page.tsx:22-27 | a commit sets `searchTerm` to the input's value verbatim, keeps `selectedValue`, and the issued query follows the new term |
| `SearchPage.Search.HandleSelect` | src/app/search/page.tsx:28-31 | changes only `selectedValue`; the issued query is unchanged |
| `SearchPage.ResultNodes` | src/app/search/page.tsx:65-86 | the results list is empty exactly when no list is present and non-empty; its cards are stated by `CardsShown`, how many times each heading appears by `HeadingShown`, and the order by `ResultsOrdered` |
| `SearchPage.Render` | src/app/search/page.tsx:62-64 | loading notice iff loading; error notice iff error; the results list iff neither, with data present, holding that data's nodes; blocks in that order |
| `SearchPage.CardsShown` | src/app/search/page.tsx:69-85 | each group's cards are its list's elements, one card each, in list order; an absent list gives none |
| `SearchPage.HeadingShown` | src/app/search/page.tsx:66-82 | a group's heading appears iff that list is present and non-empty, and then exactly once |
| `SearchPage.ResultsOrdered` | src/app/search/page.tsx:65-86 | groups come in the order Tasks, Projects, Users, and a group's heading before its cards |
| `SearchPage.RenderIgnoresCommentsAndAttachments` | src/app/search/page.tsx:64-86 | the result's `comments` and `attachments` do not change what is shown |

`selectedValue` plays no part in `SearchRequest` or `Render`: neither takes it
as an argument. So changing the type selector changes neither the query nor
what is shown.

## Tag matching

`Invalidation.Hits` is an assumption, not code of this repository. It is the
data-fetching library's rule for matching tags:
- An invalidated tag without an id hits every provided tag of its type.
- An invalidated tag with an id hits only the provided tag of the same type
  and id.

Everything in `invalidation.dfy` is derived from this rule and the endpoint
table.

## Findings

| source | as written | input that shows it | evidently intended | confidence | as-written member | corrected member |
|---|---|---|---|---|---|---|
| src/state/api.ts:123-133 | a loaded task list provides only its per-task tags; an empty array is truthy, so an empty list provides no tag | `getTasks({projectId: 1})` returns `[]`; then `createTask(...)` invalidates `Tasks` | every task list stays reachable by the general `Tasks` tag, so that creating a task refetches it | medium, not executed; rests on the tag-matching assumption | `Invalidation.EmptyTaskListNotRefetched` | `Invalidation.ListedCreateTaskRefetchesTaskLists` |

The endpoint table in `endpoints.dfy` keeps `ProvidedTags` as written.
`Invalidation.ProvidedTagsListed` is the corrected definition beside it.
`Invalidation.ListedKeepsUpdates` shows the correction changes nothing for
task updates.

## Left out

- The library's cache is not modelled. That covers the cache store, the tag
  index, request deduplication, refetch on invalidation, subscriber counts
  and stale-response discard. This is library code behind `createApi` and
  `fetchBaseQuery`, not code of this repository. Only its tag-matching rule
  is used, as the named assumption `Invalidation.Hits`.
- How the query hook turns the cache state into `isLoading`, `isError` and
  `data` is not modelled, including what it returns while skipped. That is
  library code. `SearchPage.Render` takes these three values as input.
- HTTP is not modelled: the fetch itself and the base URL read from
  `NEXT_PUBLIC_API_BASE_URL` are I/O. URLs are modelled relative to that base.
- The debounce timer of `handleSearch` is not modelled. A commit is one
  atomic `HandleSearch` call. In the code, every render creates a new
  debounced `handleSearch`, and the effect that depends on its `cancel`
  cancels the pending commit whenever the component re-renders, not only on
  unmount. A re-render within 500 ms of typing, such as from a change of the
  type selector or from the query changing its loading state, drops the
  pending value. The atomic `HandleSearch` does not capture these lost
  commits.
- Endpoints.ParamValue: the URL parser of the fetch request strips leading
  and trailing spaces and control characters from the whole URL, and removes
  every tab, line feed and carriage return. This is not modelled, so for a
  term such as `"abc "` the model's `query` value keeps the trailing space
  that the request drops.
- Endpoints.ParseUrl: percent-decoding and `+` decoding of the query value
  are not modelled. `PlainSearchRoundTrip` excludes terms with `%` or `+`
  for this reason.
- The `error` argument of `providesTags` and `invalidatesTags` is not
  modelled, because no endpoint reads it. Only the two task lists read
  `result`, so `result` is modelled as an optional task list.
- Not modelled, because they carry no logic: the JSX markup, the CSS
  classes, the React keys of the cards, the `console.log` in `handleSelect`,
  and the option values of the type selector.
- `src/components/AttachmentCard/index.tsx` and
  `src/components/CommentCard/index.tsx` are not part of this model. They
  are presentational markup.
- Two TypeScript-only quirks do not reach the model's behaviour:
  `getTeams` is typed as returning users, and `User.id` uses a `Key` type
  that is not imported. `User.id` is modelled as an optional string or number.
- `Partial<Project>` and `Partial<Task>` are modelled as separate datatypes
  whose fields are all optional.
- Decimal.IntToString: ids are unbounded integers printed in plain decimal.
  JavaScript also prints non-integer numbers with a fraction; those are not
  modelled. For magnitudes of 1e21 or more JavaScript uses exponent form
  (`1e+21`), while the model prints such ids in plain decimal.
- SearchPage.SearchRequest: term length is counted in Unicode scalar values.
  JavaScript's `length` counts UTF-16 code units, so the two differ for terms
  containing characters outside the Basic Multilingual Plane.
