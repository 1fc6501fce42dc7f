/**
 * pages/TasksPage.js: the filtered, paginated task table, with a detail
 * pane for the selected task (status, priority, description, comments).
 */
module TasksPage {
  import opened Wrappers
  import opened JsValues
  import opened Client
  import opened Entities
  import opened Pagination
  import opened TasksApi
  import opened ListView

  const DEFAULT_LIMIT: nat := 20

  // ----- filters -----

  /** `s || null` for a text input. */
  function NullIfEmpty(s: string): (r: Value)
    ensures s == "" ==> r == Null
    ensures s != "" ==> r == Str(s)
  {
    if s != "" then Str(s) else Null
  }

  /** The `filters` memo: the four inputs, each empty one as null. */
  function FiltersOf(projectId: string, q: string, status: string, priority: string): seq<(string, Value)>
  {
    [("project_id", NullIfEmpty(projectId)), ("q", NullIfEmpty(q)),
     ("status", NullIfEmpty(status)), ("priority", NullIfEmpty(priority))]
  }

  /** The filters object has exactly the four keys, each holding its input or null. */
  lemma FiltersEntries(projectId: string, q: string, status: string, priority: string)
    ensures var f := FiltersOf(projectId, q, status, priority);
            && UniqueKeys(f)
            && Keys(f) == {"project_id", "q", "status", "priority"}
            && Lookup(f, "project_id") == Some(NullIfEmpty(projectId))
            && Lookup(f, "q") == Some(NullIfEmpty(q))
            && Lookup(f, "status") == Some(NullIfEmpty(status))
            && Lookup(f, "priority") == Some(NullIfEmpty(priority))
  {
    var f := FiltersOf(projectId, q, status, priority);
    var t1 := f[1..];
    var t2 := t1[1..];
    var t3 := t2[1..];
    assert t3[1..] == [];
    assert Keys(t3) == {"priority"} && UniqueKeys(t3);
    assert Keys(t2) == {"status", "priority"} && UniqueKeys(t2);
    assert Keys(t1) == {"q", "status", "priority"} && UniqueKeys(t1);
    assert Lookup(f, "priority") == Lookup(t1, "priority") == Lookup(t2, "priority") == Lookup(t3, "priority");
    assert Lookup(f, "status") == Lookup(t1, "status") == Lookup(t2, "status");
    assert Lookup(f, "q") == Lookup(t1, "q");
  }

  /** A filter input reaches the URL exactly when it is non-empty, and then verbatim. */
  function InUrl(s: string): Option<string>
  {
    if s != "" then Some(s) else None
  }

  /** The input behind each filter key. */
  function FilterInput(k: string, projectId: string, q: string, status: string, priority: string): string
  {
    if k == "project_id" then projectId else if k == "q" then q else if k == "status" then status else priority
  }

  /**
   * The URL of the table's `listTasks`: each filter appears as itself when
   * its input is non-empty and is absent otherwise; the window is always there.
   */
  lemma FilterInUrl(token: Value, projectId: string, q: string, status: string,
                    priority: string, limit: nat, offset: nat, k: string)
    requires k in {"project_id", "q", "status", "priority"}
    ensures var params := SearchParams(ListTasks(token, Some(FiltersOf(projectId, q, status, priority)),
                                                 limit, offset).query);
            && Lookup(params, k) == InUrl(FilterInput(k, projectId, q, status, priority))
            && Lookup(params, "limit") == Some(IntToString(limit))
            && Lookup(params, "offset") == Some(IntToString(offset))
  {
    var f := FiltersOf(projectId, q, status, priority);
    var input := FilterInput(k, projectId, q, status, priority);
    FilterLookup(projectId, q, status, priority, k);
    NullIfEmptyInUrl(input);
    ListTasksUrl(token, Some(f), limit, offset, k);
  }

  /** An input turned into a filter value survives into the URL exactly when non-empty, as itself. */
  lemma NullIfEmptyInUrl(s: string)
    ensures Dropped(NullIfEmpty(s)) <==> s == ""
    ensures s != "" ==> JsString(NullIfEmpty(s)) == s
  {
  }

  /** The filters object holds each of its four keys' input, or null. */
  lemma FilterLookup(projectId: string, q: string, status: string, priority: string, k: string)
    requires k in {"project_id", "q", "status", "priority"}
    ensures UniqueKeys(FiltersOf(projectId, q, status, priority))
    ensures Lookup(FiltersOf(projectId, q, status, priority), k) ==
              Some(NullIfEmpty(FilterInput(k, projectId, q, status, priority)))
  {
    FiltersEntries(projectId, q, status, priority);
    if k == "project_id" {
    } else if k == "q" {
    } else if k == "status" {
    } else {
      assert k == "priority";
    }
  }

  // ----- the status-filter scenario -----

  /** A stand-in server that filters by `filters.status` when it is truthy and returns one page of the rest. */
  function ServeByStatus(items: seq<Task>, filters: seq<(string, Value)>): Page<Task>
  {
    var wanted := match Lookup(filters, "status") case Some(v) => v case None => Undefined;
    var shown := if Truthy(wanted) then StatusMatches(items, wanted) else items;
    Page(shown, Meta(|shown|, 20, 0))
  }

  /** `items.filter(t => t.status === status)` */
  function StatusMatches(items: seq<Task>, status: Value): (r: seq<Task>)
    ensures forall t :: t in r <==> t in items && Str(t.status) == status
  {
    if items == [] then []
    else (if Str(items[0].status) == status then [items[0]] else []) + StatusMatches(items[1..], status)
  }

  /** The three tasks of the status-filter scenario, one per status. */
  function ScenarioTasks(): seq<Task>
  {
    [Task("t1", "Task Open", "open", "low", ""),
     Task("t2", "Task In Progress", "in_progress", "medium", ""),
     Task("t3", "Task Done", "done", "high", "")]
  }

  /** With status "Any" the filter is null, and the table gets all three tasks. */
  lemma AnyStatusShowsAll()
    ensures ServeByStatus(ScenarioTasks(), FiltersOf("project-123", "", "", "")).items == ScenarioTasks()
  {
    FiltersEntries("project-123", "", "", "");
  }

  /** After choosing in_progress and applying, only "Task In Progress" remains in the table. */
  lemma InProgressShowsOnlyThatTask()
    ensures ServeByStatus(ScenarioTasks(), FiltersOf("project-123", "", "in_progress", "")).items == [ScenarioTasks()[1]]
  {
    var items := ScenarioTasks();
    FiltersEntries("project-123", "", "in_progress", "");
    var wanted := Str("in_progress");
    assert items[1..][1..][1..] == [];
    assert StatusMatches(items[1..][1..], wanted) == [];
    assert StatusMatches(items[1..], wanted) == [items[1]];
    assert StatusMatches(items, wanted) == [items[1]];
  }

  /** That request's URL carries `status=in_progress`. */
  lemma InProgressFilterInUrl()
    ensures Lookup(SearchParams(ListTasks(Str("test-token"), Some(FiltersOf("project-123", "", "in_progress", "")),
                                          DEFAULT_LIMIT, 0).query), "status") == Some("in_progress")
  {
    FilterInUrl(Str("test-token"), "project-123", "", "in_progress", "", DEFAULT_LIMIT, 0, "status");
    assert FilterInput("status", "project-123", "", "in_progress", "") == "in_progress";
  }

  // ----- requests of the detail pane -----

  /** `{project_id, title}` of the create form. */
  function NewTaskPayload(projectId: string, title: string): Value
  {
    Obj([("project_id", Str(projectId)), ("title", Str(title))])
  }

  /** "Update description": `{description: selected.description || null}`. */
  function DescriptionPatch(t: Task): (r: Value)
    ensures Get(r, "description") == NullIfEmpty(t.description)
  {
    Obj([("description", NullIfEmpty(t.description))])
  }

  /** `res || []` for the comment list. */
  function CommentsOrEmpty(res: Option<seq<Comment>>): (r: seq<Comment>)
    ensures res.None? ==> r == []
    ensures res.Some? ==> r == res.value
  {
    if res.Some? then res.value else []
  }

  class Tasks {
    const token: Value
    var projectId: string
    var q: string
    var status: string
    var priority: string
    var limit: nat
    var offset: nat
    var page: Option<Page<Task>>
    var loading: bool
    var err: Option<string>
    var selected: Option<Task>
    var selectedComments: seq<Comment>
    var commentBody: string
    var newTitle: string

    constructor (token: Value)
      ensures this.token == token
      ensures projectId == "" && q == "" && status == "" && priority == ""
      ensures limit == DEFAULT_LIMIT && offset == 0 && page == None && !loading && err == None
      ensures selected == None && selectedComments == [] && commentBody == "" && newTitle == ""
    {
      this.token := token;
      projectId, q, status, priority := "", "", "", "";
      limit, offset := DEFAULT_LIMIT, 0;
      page, loading, err := None, false, None;
      selected, selectedComments, commentBody, newTitle := None, [], "", "";
    }

    function Filters(): seq<(string, Value)>
      reads this`projectId, this`q, this`status, this`priority
    {
      FiltersOf(projectId, q, status, priority)
    }

    /** The `try`/`catch`/`finally` of `load`: store the page and its offset, or the error. */
    method Receive(nextOffset: nat, res: Outcome<Page<Task>>)
      modifies this`page, this`offset, this`err, this`loading
      ensures ListState(page, offset, err) == AfterLoad(old(ListState(page, offset, err)), nextOffset, res, "Failed to load tasks") && !loading
    {
      match res {
        case Ok(p) =>
          page, offset, err := Some(p), nextOffset, None;
        case Fail(message) =>
          err := Some(ErrorText(message, "Failed to load tasks"));
      }
      loading := false;
    }

    /** `load(nextOffset)`, given what `listTasks` resolves to. */
    method Load(nextOffset: nat, res: Outcome<Page<Task>>) returns (issued: Option<Request>)
      modifies this`page, this`offset, this`err, this`loading, this`selected
      ensures old(projectId) == "" ==>
                && issued == None && page == None && selected == None
                && offset == old(offset) && err == old(err) && loading == old(loading)
      ensures old(projectId) != "" ==>
                && issued == Some(ListTasks(token, Some(Filters()), limit, nextOffset))
                && ListState(page, offset, err) == AfterLoad(old(ListState(page, offset, err)), nextOffset, res, "Failed to load tasks")
                && selected == old(selected) && !loading
    {
      if projectId == "" {
        page := None;
        selected := None;
        return None;
      }
      issued := Some(ListTasks(token, Some(Filters()), limit, nextOffset));
      Receive(nextOffset, res);
    }

    /** Prev: `load(Math.max(0, offset - limit))`. */
    method Prev(res: Outcome<Page<Task>>) returns (issued: Option<Request>)
      modifies this`page, this`offset, this`err, this`loading, this`selected
      ensures old(projectId) != "" ==>
                && issued == Some(ListTasks(token, Some(Filters()), limit, PrevOffset(old(offset), limit)))
                && ListState(page, offset, err) == AfterLoad(old(ListState(page, offset, err)), PrevOffset(old(offset), limit), res, "Failed to load tasks")
                && selected == old(selected) && !loading
      ensures old(projectId) == "" ==>
                && issued == None && page == None && selected == None
                && offset == old(offset) && err == old(err) && loading == old(loading)
    {
      var prev := PrevOffset(offset, limit);
      issued := Load(prev, res);
    }

    /** Next: `load(offset + limit)`. */
    method Next(res: Outcome<Page<Task>>) returns (issued: Option<Request>)
      modifies this`page, this`offset, this`err, this`loading, this`selected
      ensures old(projectId) != "" ==>
                && issued == Some(ListTasks(token, Some(Filters()), limit, NextOffset(old(offset), limit)))
                && ListState(page, offset, err) == AfterLoad(old(ListState(page, offset, err)), NextOffset(old(offset), limit), res, "Failed to load tasks")
                && selected == old(selected) && !loading
      ensures old(projectId) == "" ==>
                && issued == None && page == None && selected == None
                && offset == old(offset) && err == old(err) && loading == old(loading)
    {
      var next := NextOffset(offset, limit);
      issued := Load(next, res);
    }

    /** The page-size select: new limit, back to offset 0, and no request until the next load. */
    method SetPageSize(n: nat)
      modifies this`limit, this`offset
      ensures limit == n && offset == 0
    {
      limit := n;
      offset := 0;
    }

    /** `loadComments(task)`: open the detail pane on `task` and fetch its comments. */
    method LoadComments(task: Task, res: Outcome<Option<seq<Comment>>>) returns (issued: Request)
      modifies this`selected, this`selectedComments, this`commentBody, this`err
      ensures issued == ListComments(token, task.id)
      ensures selected == Some(task) && commentBody == ""
      ensures res.Ok? ==> selectedComments == CommentsOrEmpty(res.value) && err == old(err)
      ensures res.Fail? ==> selectedComments == [] && err == Some(ErrorText(res.message, "Failed to load comments"))
    {
      selected := Some(task);
      selectedComments := [];
      commentBody := "";
      issued := ListComments(token, task.id);
      match res {
        case Ok(comments) => selectedComments := CommentsOrEmpty(comments);
        case Fail(message) => err := Some(ErrorText(message, "Failed to load comments"));
      }
    }

    /** `onCreate`, given what `createTask` and the reload from offset 0 resolve to. */
    method OnCreate(created: Outcome<Value>, reload: Outcome<Page<Task>>) returns (issued: seq<Request>)
      modifies this`newTitle, this`page, this`offset, this`err, this`loading, this`selected
      ensures selected == old(selected)
      ensures old(projectId) == "" || Trim(old(newTitle)) == "" ==>
                issued == [] && ListState(page, offset, err) == old(ListState(page, offset, err)) && newTitle == old(newTitle) && loading == old(loading)
      ensures old(projectId) != "" && Trim(old(newTitle)) != "" ==>
                |issued| > 0 && issued[0] == CreateTask(token, NewTaskPayload(projectId, Trim(old(newTitle))))
                && !loading
      ensures old(projectId) != "" && Trim(old(newTitle)) != "" && created.Fail? ==>
                && issued == [issued[0]] && newTitle == old(newTitle)
                && ListState(page, offset, err) == old(ListState(page, offset, err)).(err := Some(ErrorText(created.message, "Failed to create task")))
      ensures old(projectId) != "" && Trim(old(newTitle)) != "" && created.Ok? ==>
                && issued == [issued[0], ListTasks(token, Some(Filters()), limit, 0)] && newTitle == ""
                && ListState(page, offset, err) == AfterLoad(old(ListState(page, offset, err)), 0, reload, "Failed to load tasks")
    {
      var title := Trim(newTitle);
      if projectId == "" || title == "" {
        return [];
      }
      issued := [CreateTask(token, NewTaskPayload(projectId, title))];
      loading := true;
      err := None;
      var again := AfterCreate(created, reload);
      if again.Some? {
        issued := issued + [again.value];
      }
    }

    /** The rest of `onCreate` once `createTask` has settled: clear the title and reload from 0, or show the error. */
    method AfterCreate(created: Outcome<Value>, reload: Outcome<Page<Task>>) returns (again: Option<Request>)
      requires projectId != ""
      modifies this`newTitle, this`page, this`offset, this`err, this`loading, this`selected
      ensures selected == old(selected) && !loading
      ensures created.Fail? ==>
                && again == None && newTitle == old(newTitle)
                && ListState(page, offset, err) == old(ListState(page, offset, err)).(err := Some(ErrorText(created.message, "Failed to create task")))
      ensures created.Ok? ==>
                && again == Some(ListTasks(token, Some(Filters()), limit, 0)) && newTitle == ""
                && ListState(page, offset, err) == AfterLoad(old(ListState(page, offset, err)), 0, reload, "Failed to load tasks")
    {
      match created {
        case Ok(_) =>
          newTitle := "";
          again := Load(0, reload);
        case Fail(message) =>
          err := Some(ErrorText(message, "Failed to create task"));
          again := None;
      }
      loading := false;
    }

    /**
     * `onUpdateSelected(patch)`, given what `updateTask` (None for the null of
     * an empty 2xx body, which closes the detail panel) and the reload at the
     * current offset resolve to.
     */
    method OnUpdateSelected(patch: Value, res: Outcome<Option<Task>>, reload: Outcome<Page<Task>>)
      returns (issued: seq<Request>)
      modifies this`page, this`offset, this`err, this`loading, this`selected
      ensures old(selected).None? ==>
                issued == [] && ListState(page, offset, err) == old(ListState(page, offset, err)) && selected == None && loading == old(loading)
      ensures old(selected).Some? ==> |issued| > 0 && issued[0] == UpdateTask(token, old(selected).value.id, patch)
      ensures old(selected).Some? && res.Fail? ==>
                && issued == [issued[0]] && selected == old(selected) && loading == old(loading)
                && ListState(page, offset, err) == old(ListState(page, offset, err)).(err := Some(ErrorText(res.message, "Failed to update task")))
      ensures old(selected).Some? && res.Ok? && projectId != "" ==>
                && issued == [issued[0], ListTasks(token, Some(Filters()), limit, old(offset))]
                && selected == res.value && !loading
                && ListState(page, offset, err) == AfterLoad(old(ListState(page, offset, err)), old(offset), reload, "Failed to load tasks")
      ensures old(selected).Some? && res.Ok? && projectId == "" ==>
                && issued == [issued[0]] && selected == None && page == None
                && offset == old(offset) && err == None && loading == old(loading)
    {
      if selected.None? {
        return [];
      }
      err := None;
      issued := [UpdateTask(token, selected.value.id, patch)];
      match res {
        case Ok(updated) =>
          selected := updated;
          var again := Load(offset, reload);
          if again.Some? {
            issued := issued + [again.value];
          }
        case Fail(message) =>
          err := Some(ErrorText(message, "Failed to update task"));
      }
    }

    /** `onAddComment`, given what `addComment` and the refetch of the comments resolve to. */
    method OnAddComment(added: Outcome<Value>, refetched: Outcome<Option<seq<Comment>>>)
      returns (issued: seq<Request>)
      modifies this`err, this`commentBody, this`selectedComments
      ensures old(selected).None? || Trim(old(commentBody)) == "" ==>
                && issued == [] && err == old(err)
                && selectedComments == old(selectedComments) && commentBody == old(commentBody)
      ensures old(selected).Some? && Trim(old(commentBody)) != "" ==>
                |issued| > 0 && issued[0] == AddComment(token, selected.value.id, Trim(old(commentBody)))
      ensures old(selected).Some? && Trim(old(commentBody)) != "" && added.Fail? ==>
                && issued == [issued[0]] && commentBody == old(commentBody)
                && selectedComments == old(selectedComments)
                && err == Some(ErrorText(added.message, "Failed to add comment"))
      ensures old(selected).Some? && Trim(old(commentBody)) != "" && added.Ok? ==>
                && issued == [issued[0], ListComments(token, selected.value.id)] && commentBody == ""
      ensures old(selected).Some? && Trim(old(commentBody)) != "" && added.Ok? && refetched.Ok? ==>
                selectedComments == CommentsOrEmpty(refetched.value) && err == None
      ensures old(selected).Some? && Trim(old(commentBody)) != "" && added.Ok? && refetched.Fail? ==>
                && selectedComments == old(selectedComments)
                && err == Some(ErrorText(refetched.message, "Failed to add comment"))
    {
      var body := Trim(commentBody);
      if selected.None? || body == "" {
        return [];
      }
      var taskId := selected.value.id;
      err := None;
      issued := [AddComment(token, taskId, body)];
      if added.Fail? {
        err := Some(ErrorText(added.message, "Failed to add comment"));
        return;
      }
      commentBody := "";
      issued := issued + [ListComments(token, taskId)];
      match refetched {
        case Ok(comments) => selectedComments := CommentsOrEmpty(comments);
        case Fail(message) => err := Some(ErrorText(message, "Failed to add comment"));
      }
    }

    /** Typing in the description box edits the selected task locally; nothing is sent. */
    method EditDescription(text: string)
      requires selected.Some?
      modifies this`selected
      ensures selected == Some(old(selected).value.(description := text))
    {
      selected := Some(selected.value.(description := text));
    }

    /** Close: the detail pane goes away. */
    method CloseDetail()
      modifies this`selected
      ensures selected == None
    {
      selected := None;
    }
  }
}
