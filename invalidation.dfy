/**
 * Which mutation makes the cache refetch which query. The matching of tags
 * is done by the library behind `createApi`, not by this repository; its
 * rule is stated here once, as the named assumption Hits, and everything
 * else in this module is derived from it and from the endpoint table.
 */
module Invalidation {
  import opened Wrappers
  import opened Entities
  import opened Endpoints

  /**
   * ASSUMPTION (the data-fetching library's rule, not repository code): an
   * invalidated tag without an id hits every provided tag of its type, with
   * or without an id; one with an id hits only the provided tag of the same
   * type and the same id.
   */
  predicate Hits(invalidated: Tag, provided: Tag) {
    invalidated.kind == provided.kind && (invalidated.id.None? || invalidated.id == provided.id)
  }

  /**
   * Some invalidated tag hits some provided tag: the cached query is
   * invalidated (the library refetches it if it has a subscriber; the
   * lemma names below say "refetch" in that sense).
   */
  predicate Invalidates(invalidated: seq<Tag>, provided: seq<Tag>) {
    exists i, j :: 0 <= i < |invalidated| && 0 <= j < |provided| && Hits(invalidated[i], provided[j])
  }

  /** Only a mutation can cause a refetch, and only of a query. */
  lemma OnlyMutationsRefetchQueries(m: Endpoint, q: Endpoint, result: Option<seq<Task>>)
    requires Invalidates(InvalidatedTags(m), ProvidedTags(q, result))
    ensures m.IsMutation() && q.IsQuery() && !q.Search?
  {
  }

  /** createProject refetches exactly the project list and every single project. */
  lemma CreateProjectRefetches(project: PartialProject, q: Endpoint, result: Option<seq<Task>>)
    ensures Invalidates(InvalidatedTags(CreateProject(project)), ProvidedTags(q, result))
        <==> q.GetProjects? || q.GetSingleProject?
  {
    var inv := InvalidatedTags(CreateProject(project));
    var prov := ProvidedTags(q, result);
    if q.GetProjects? || q.GetSingleProject? {
      assert Hits(inv[0], prov[0]);
    }
  }

  /**
   * createTask refetches a task list (of a project or of a user) exactly
   * when that list provided at least one tag: after a failure, or when it
   * held at least one task. A list that came back empty is not refetched.
   */
  lemma CreateTaskRefetchesTaskLists(task: PartialTask, q: Endpoint, result: Option<seq<Task>>)
    requires q.GetTasks? || q.GetTasksByUser?
    ensures Invalidates(InvalidatedTags(CreateTask(task)), ProvidedTags(q, result))
        <==> result != Some([])
  {
    var inv := InvalidatedTags(CreateTask(task));
    var prov := ProvidedTags(q, result);
    if result != Some([]) {
      assert Hits(inv[0], prov[0]);
    }
  }

  /** A concrete instance: a project whose task list came back empty keeps it after createTask. */
  lemma EmptyTaskListNotRefetched(task: PartialTask, projectId: int)
    ensures !Invalidates(InvalidatedTags(CreateTask(task)), ProvidedTags(GetTasks(projectId), Some([])))
  {
  }

  /** Is some task of the list the task with this id? */
  predicate HasTask(ts: seq<Task>, taskId: int) {
    exists i :: 0 <= i < |ts| && ts[i].id == taskId
  }

  /**
   * updateTask and updateTaskStatus refetch a loaded task list exactly when
   * it holds the updated task; a project's list that failed to load is not
   * refetched; a user's list that failed to load is refetched exactly when
   * the user id equals the task id (the user id stands in as a task-tag id).
   */
  lemma UpdateRefetches(m: Endpoint, q: Endpoint, result: Option<seq<Task>>)
    requires m.UpdateTaskStatus? || m.UpdateTask?
    requires q.GetTasks? || q.GetTasksByUser?
    ensures result.Some? ==>
      (Invalidates(InvalidatedTags(m), ProvidedTags(q, result)) <==> HasTask(result.value, m.taskId))
    ensures result.None? && q.GetTasks? ==> !Invalidates(InvalidatedTags(m), ProvidedTags(q, result))
    ensures result.None? && q.GetTasksByUser? ==>
      (Invalidates(InvalidatedTags(m), ProvidedTags(q, result)) <==> q.userId == m.taskId)
  {
    var inv := InvalidatedTags(m);
    var prov := ProvidedTags(q, result);
    if result.Some? {
      if HasTask(result.value, m.taskId) {
        var j :| 0 <= j < |result.value| && result.value[j].id == m.taskId;
        assert Hits(inv[0], prov[j]);
      }
      if Invalidates(inv, prov) {
        var i, j :| 0 <= i < |inv| && 0 <= j < |prov| && Hits(inv[i], prov[j]);
        assert result.value[j].id == m.taskId;
      }
    } else if q.GetTasksByUser? && q.userId == m.taskId {
      assert Hits(inv[0], prov[0]);
    }
  }

  /** Updating task 7 never refetches a list whose only task is task 8. */
  lemma UpdateSparesOtherTask(projectId: int, t: Task)
    requires t.id == 8
    ensures !Invalidates(InvalidatedTags(UpdateTaskStatus(projectId, 7, "Completed")),
                         ProvidedTags(GetTasks(projectId), Some([t])))
  {
  }

  /** The three task mutations never reach the project list or a single project. */
  lemma TaskMutationsSpareProjects(m: Endpoint, q: Endpoint, result: Option<seq<Task>>)
    requires m.CreateTask? || m.UpdateTaskStatus? || m.UpdateTask?
    requires q.GetProjects? || q.GetSingleProject?
    ensures !Invalidates(InvalidatedTags(m), ProvidedTags(q, result))
  {
  }

  /** No mutation ever refetches the users, the teams or a search. */
  lemma NeverRefetched(m: Endpoint, q: Endpoint, result: Option<seq<Task>>)
    requires q.GetUsers? || q.GetTeams? || q.Search?
    ensures !Invalidates(InvalidatedTags(m), ProvidedTags(q, result))
  {
  }

  // ---------------------------------------------------------------------
  // Corrected task-list tags: always provide the general Tasks tag too.
  // ---------------------------------------------------------------------

  /** ProvidedTags with the general Tasks tag added to every task list that lacks it. */
  function ProvidedTagsListed(e: Endpoint, result: Option<seq<Task>>): (r: seq<Tag>)
    ensures e.GetTasks? || e.GetTasksByUser? ==> Tag(Tasks, None) in r
    ensures forall t :: t in ProvidedTags(e, result) ==> t in r
    ensures forall t :: t in r ==> t in ProvidedTags(e, result) || t == Tag(Tasks, None)
  {
    if (e.GetTasks? && result.Some?) || e.GetTasksByUser? then ProvidedTags(e, result) + [Tag(Tasks, None)]
    else ProvidedTags(e, result)
  }

  /** With the corrected tags, createTask refetches every task list, empty or not. */
  lemma ListedCreateTaskRefetchesTaskLists(task: PartialTask, q: Endpoint, result: Option<seq<Task>>)
    requires q.GetTasks? || q.GetTasksByUser?
    ensures Invalidates(InvalidatedTags(CreateTask(task)), ProvidedTagsListed(q, result))
  {
  }

  /** The correction changes nothing for the per-task tags: updates still refetch exactly as before. */
  lemma ListedKeepsUpdates(m: Endpoint, q: Endpoint, result: Option<seq<Task>>)
    requires m.UpdateTaskStatus? || m.UpdateTask?
    ensures Invalidates(InvalidatedTags(m), ProvidedTagsListed(q, result))
        <==> Invalidates(InvalidatedTags(m), ProvidedTags(q, result))
  {
    var inv := InvalidatedTags(m);
    var before := ProvidedTags(q, result);
    var prov := ProvidedTagsListed(q, result);
    if Invalidates(inv, prov) {
      var i, j :| 0 <= i < |inv| && 0 <= j < |prov| && Hits(inv[i], prov[j]);
      assert j < |before| && prov[j] == before[j];
    }
    if Invalidates(inv, before) {
      var i, j :| 0 <= i < |inv| && 0 <= j < |before| && Hits(inv[i], before[j]);
      assert prov[j] == before[j];
    }
  }
}
