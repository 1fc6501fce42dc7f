/**
 * pages/BoardsPage.js: the kanban board. Tasks of one project are grouped
 * into status columns; dragging a card moves the task to the destination
 * column at once and rolls it back if the server refuses the update.
 */
module BoardsPage {
  import opened Wrappers
  import opened JsValues
  import opened Client
  import opened Entities
  import opened Pagination
  import opened TasksApi

  /** The board always loads one window of this many tasks, from offset 0. */
  const LOAD_LIMIT: int := 200

  // ----- tasksByStatus -----

  /** `t.status || "open"`: the column a task belongs to. */
  function StatusKey(t: Task): (r: string)
    ensures r != ""
    ensures t.status != "" ==> r == t.status
    ensures t.status == "" ==> r == "open"
  {
    if t.status != "" then t.status else "open"
  }

  /** The tasks whose column is `key`, in list order. */
  function Bucket(tasks: seq<Task>, key: string): seq<Task>
  {
    if tasks == [] then []
    else
      var last := tasks[|tasks| - 1];
      Bucket(tasks[..|tasks| - 1], key) + (if StatusKey(last) == key then [last] else [])
  }

  /** The column keys the tasks carry. */
  function StatusKeys(tasks: seq<Task>): set<string>
  {
    if tasks == [] then {} else StatusKeys(tasks[..|tasks| - 1]) + {StatusKey(tasks[|tasks| - 1])}
  }

  /** The three columns the board draws, which exist even when empty. */
  function DefaultBuckets(): map<string, seq<Task>>
  {
    map["open" := [], "in_progress" := [], "done" := []]
  }

  /** `tasksByStatus`: one bucket per default column and per status that occurs, filled in list order. */
  method GroupByStatus(tasks: seq<Task>) returns (groups: map<string, seq<Task>>)
    ensures groups.Keys == {"open", "in_progress", "done"} + StatusKeys(tasks)
    ensures forall k :: k in groups ==> groups[k] == Bucket(tasks, k)
  {
    groups := DefaultBuckets();
    var i := 0;
    while i < |tasks|
      invariant 0 <= i <= |tasks|
      invariant forall k :: k in groups <==> k in DefaultBuckets() || k in StatusKeys(tasks[..i])
      invariant forall k :: k in groups ==> groups[k] == Bucket(tasks[..i], k)
    {
      var t := tasks[i];
      var key := StatusKey(t);
      BucketStep(tasks, i);
      StatusKeysHaveTasks(tasks[..i], key);
      if key !in groups {
        groups := groups[key := []];
      }
      groups := groups[key := groups[key] + [t]];
      i := i + 1;
    }
    assert tasks[..|tasks|] == tasks;
    assert groups.Keys == DefaultBuckets().Keys + StatusKeys(tasks);
  }

  /** One more task extends only its own bucket, and adds its column to the keys. */
  lemma BucketStep(tasks: seq<Task>, i: int)
    requires 0 <= i < |tasks|
    ensures forall k :: Bucket(tasks[..i + 1], k) ==
                          Bucket(tasks[..i], k) + (if StatusKey(tasks[i]) == k then [tasks[i]] else [])
    ensures StatusKeys(tasks[..i + 1]) == StatusKeys(tasks[..i]) + {StatusKey(tasks[i])}
  {
    assert tasks[..i + 1][..i] == tasks[..i];
  }

  /** A task is in a bucket exactly when it is one of the tasks and its column is that bucket's key. */
  lemma {:induction false} BucketMembership(tasks: seq<Task>, key: string, t: Task)
    ensures t in Bucket(tasks, key) <==> t in tasks && StatusKey(t) == key
  {
    if tasks != [] {
      var init := tasks[..|tasks| - 1];
      assert tasks == init + [tasks[|tasks| - 1]];
      BucketMembership(init, key, t);
    }
  }

  /** Each task is in the bucket of its own column and in no other. */
  lemma EachTaskInOneBucket(tasks: seq<Task>, i: int, key: string)
    requires 0 <= i < |tasks|
    ensures tasks[i] in Bucket(tasks, key) <==> key == StatusKey(tasks[i])
  {
    BucketMembership(tasks, key, tasks[i]);
  }

  /** Grouping commutes with concatenation, so the order inside a bucket is the list order. */
  lemma {:induction false} BucketAppend(a: seq<Task>, b: seq<Task>, key: string)
    ensures Bucket(a + b, key) == Bucket(a, key) + Bucket(b, key)
  {
    if b != [] {
      var init := b[..|b| - 1];
      assert (a + b)[..|a + b| - 1] == a + init;
      assert (a + b)[|a + b| - 1] == b[|b| - 1];
      BucketAppend(a, init, key);
    } else {
      assert a + b == a;
    }
  }

  /** Beyond the three default columns, a bucket exists only for a status some task carries, and is then non-empty. */
  lemma {:induction false} StatusKeysHaveTasks(tasks: seq<Task>, key: string)
    ensures key in StatusKeys(tasks) <==> Bucket(tasks, key) != []
  {
    if tasks != [] {
      StatusKeysHaveTasks(tasks[..|tasks| - 1], key);
    }
  }

  // ----- the drag-move -----

  /** What the drag-and-drop library reports at the end of a drag. */
  datatype Location = Location(droppableId: string, index: int)
  datatype DropResult = DropResult(source: Location, destination: Option<Location>, draggableId: string)

  /** `tasks.find(t => t.id === id)` */
  function FindTask(tasks: seq<Task>, id: string): (r: Option<Task>)
    ensures r.Some? ==> r.value in tasks && r.value.id == id
    ensures r.Some? ==> exists i :: 0 <= i < |tasks| && tasks[i] == r.value && forall j :: 0 <= j < i ==> tasks[j].id != id
    ensures r.None? ==> forall i :: 0 <= i < |tasks| ==> tasks[i].id != id
  {
    if tasks == [] then None
    else if tasks[0].id == id then Some(tasks[0])
    else FindTask(tasks[1..], id)
  }

  /** The optimistic step: every task with the dragged id takes the new status; nothing else changes. */
  function MoveStatus(tasks: seq<Task>, id: string, status: string): (r: seq<Task>)
    ensures |r| == |tasks|
    ensures forall i :: 0 <= i < |tasks| ==> r[i].id == tasks[i].id
    ensures forall i :: 0 <= i < |tasks| && tasks[i].id != id ==> r[i] == tasks[i]
    ensures forall i :: 0 <= i < |tasks| && tasks[i].id == id ==> r[i] == tasks[i].(status := status)
  {
    seq(|tasks|, i requires 0 <= i < |tasks| =>
      if tasks[i].id == id then tasks[i].(status := status) else tasks[i])
  }

  /** The rollback: every task with the dragged id is replaced by the snapshot taken before the move. */
  function RestoreTask(tasks: seq<Task>, id: string, moved: Task): (r: seq<Task>)
    ensures |r| == |tasks|
    ensures forall i :: 0 <= i < |tasks| && tasks[i].id != id ==> r[i] == tasks[i]
    ensures forall i :: 0 <= i < |tasks| && tasks[i].id == id ==> r[i] == moved
  {
    seq(|tasks|, i requires 0 <= i < |tasks| => if tasks[i].id == id then moved else tasks[i])
  }

  predicate UniqueIds(tasks: seq<Task>)
  {
    forall i, j :: 0 <= i < j < |tasks| ==> tasks[i].id != tasks[j].id
  }

  /** With unique ids, rolling back the optimistic step gives back exactly the list before the drag. */
  lemma RollbackRestoresSnapshot(tasks: seq<Task>, id: string, status: string)
    requires UniqueIds(tasks)
    requires FindTask(tasks, id).Some?
    ensures RestoreTask(MoveStatus(tasks, id, status), id, FindTask(tasks, id).value) == tasks
  {
    var moved := FindTask(tasks, id).value;
    var back := RestoreTask(MoveStatus(tasks, id, status), id, moved);
    forall i | 0 <= i < |tasks| ensures back[i] == tasks[i] {
      if tasks[i].id == id {
        var k :| 0 <= k < |tasks| && tasks[k] == moved;
        assert k == i;
      }
    }
  }

  /** After the optimistic step the dragged task sits in the destination column, and in no other. */
  lemma OptimisticMoveShowsInDestination(tasks: seq<Task>, id: string, toCol: string)
    requires toCol != ""
    requires FindTask(tasks, id).Some?
    ensures var moved := MoveStatus(tasks, id, toCol);
            && FindTask(tasks, id).value.(status := toCol) in Bucket(moved, toCol)
            && forall k, t :: k != toCol && t in Bucket(moved, k) ==> t.id != id
  {
    var m := FindTask(tasks, id).value;
    var moved := MoveStatus(tasks, id, toCol);
    var i :| 0 <= i < |tasks| && tasks[i] == m;
    assert moved[i] == m.(status := toCol);
    BucketMembership(moved, toCol, moved[i]);
    forall k, t | k != toCol && t in Bucket(moved, k) ensures t.id != id {
      BucketMembership(moved, k, t);
    }
  }

  /** The update `onDragEnd` sends: only the new status. */
  function MoveRequest(token: Value, id: string, toCol: string): Request
  {
    UpdateTask(token, id, Obj([("status", Str(toCol))]))
  }

  /** The drops `onDragEnd` ignores: no destination, dropped where it started, or an unknown card. */
  predicate DropIgnored(drop: DropResult, tasks: seq<Task>)
  {
    || drop.destination.None?
    || (drop.source.droppableId == drop.destination.value.droppableId
        && drop.destination.value.index == drop.source.index)
    || FindTask(tasks, drop.draggableId).None?
  }

  /** A move whose update is in flight: the dragged id, its snapshot, and the request sent. */
  datatype PendingMove = PendingMove(id: string, moved: Task, request: Request)

  // ----- load / onCreateTask -----

  /** The request `load` sends: the project filter, limit 200, offset 0. */
  function LoadRequest(token: Value, projectId: string): Request
  {
    ListTasks(token, Some([("project_id", Str(projectId))]), LOAD_LIMIT, 0)
  }

  /** The board's load carries the project id and the 200-task window, and nothing else. */
  lemma LoadRequestUrl(token: Value, projectId: string, k: string)
    requires projectId != ""
    ensures var params := SearchParams(LoadRequest(token, projectId).query);
            Lookup(params, k) ==
              if k == "project_id" then Some(projectId)
              else if k == "limit" then Some(IntToString(LOAD_LIMIT))
              else if k == "offset" then Some(IntToString(0))
              else None
  {
    var filters := [("project_id", Str(projectId))];
    assert filters[1..] == [];
    assert UniqueKeys(filters);
    assert Lookup(filters, k) == if k == "project_id" then Some(Str(projectId)) else None;
    assert !Dropped(Str(projectId));
    ListTasksUrl(token, Some(filters), LOAD_LIMIT, 0, k);
  }

  /** The quick-add payload, keys in the order the object literal gives them. */
  function CreatePayload(projectId: string, title: string): Value
  {
    Obj([("project_id", Str(projectId)), ("title", Str(title)), ("status", Str("open")),
         ("priority", Str("medium")), ("assignee_user_ids", Arr([]))])
  }

  /** A new task is created open, medium priority and unassigned, in the given project with the given title. */
  lemma CreatePayloadFields(projectId: string, title: string)
    ensures var r := CreatePayload(projectId, title);
            && r.Obj? && UniqueKeys(r.fields)
            && Keys(r.fields) == {"project_id", "title", "status", "priority", "assignee_user_ids"}
            && Get(r, "project_id") == Str(projectId) && Get(r, "title") == Str(title)
            && Get(r, "status") == Str("open") && Get(r, "priority") == Str("medium")
            && Get(r, "assignee_user_ids") == Arr([])
  {
    var f := CreatePayload(projectId, title).fields;
    var t1 := f[1..];
    var t2 := t1[1..];
    var t3 := t2[1..];
    var t4 := t3[1..];
    assert t4[1..] == [];
    assert Keys(t4) == {"assignee_user_ids"} && UniqueKeys(t4);
    assert Keys(t3) == {"priority", "assignee_user_ids"} && UniqueKeys(t3);
    assert Keys(t2) == {"status", "priority", "assignee_user_ids"} && UniqueKeys(t2);
    assert Keys(t1) == {"title", "status", "priority", "assignee_user_ids"} && UniqueKeys(t1);
    assert Lookup(f, "assignee_user_ids") == Lookup(t1, "assignee_user_ids") == Lookup(t2, "assignee_user_ids")
           == Lookup(t3, "assignee_user_ids") == Lookup(t4, "assignee_user_ids");
    assert Lookup(f, "priority") == Lookup(t1, "priority") == Lookup(t2, "priority") == Lookup(t3, "priority");
    assert Lookup(f, "status") == Lookup(t1, "status") == Lookup(t2, "status");
    assert Lookup(f, "title") == Lookup(t1, "title");
  }

  /** The board page's state. `projectId` and `newTitle` are the two inputs, which callers set. */
  class Board {
    const token: Value
    var projectId: string
    var loading: bool
    var err: Option<string>
    var tasks: seq<Task>
    var newTitle: string

    constructor (token: Value)
      ensures this.token == token
      ensures projectId == "" && !loading && err == None && tasks == [] && newTitle == ""
    {
      this.token := token;
      projectId := "";
      loading := false;
      err := None;
      tasks := [];
      newTitle := "";
    }

    /** `load`, given what `listTasks` resolves to. */
    method Load(res: Outcome<Page<Task>>) returns (issued: Option<Request>)
      modifies this
      ensures projectId == old(projectId) && newTitle == old(newTitle)
      ensures old(projectId) == "" ==>
                issued == None && tasks == [] && loading == old(loading) && err == old(err)
      ensures old(projectId) != "" ==> issued == Some(LoadRequest(token, projectId)) && !loading
      ensures old(projectId) != "" && res.Ok? ==> tasks == res.value.items && err == None
      ensures old(projectId) != "" && res.Fail? ==>
                tasks == old(tasks) && err == Some(ErrorText(res.message, "Failed to load tasks"))
    {
      if projectId == "" {
        tasks := [];
        return None;
      }
      loading := true;
      err := None;
      issued := Some(LoadRequest(token, projectId));
      match res {
        case Ok(page) => tasks := page.items;
        case Fail(message) => err := Some(ErrorText(message, "Failed to load tasks"));
      }
      loading := false;
    }

    /** `onCreateTask`, given what `createTask` resolves to. */
    method OnCreateTask(res: Outcome<Task>) returns (issued: Option<Request>)
      modifies this
      ensures projectId == old(projectId)
      ensures old(projectId) == "" || Trim(old(newTitle)) == "" ==>
                issued == None && tasks == old(tasks) && newTitle == old(newTitle)
                && loading == old(loading) && err == old(err)
      ensures old(projectId) != "" && Trim(old(newTitle)) != "" ==>
                issued == Some(CreateTask(token, CreatePayload(projectId, Trim(old(newTitle))))) && !loading
      ensures old(projectId) != "" && Trim(old(newTitle)) != "" && res.Ok? ==>
                tasks == [res.value] + old(tasks) && newTitle == "" && err == None
      ensures old(projectId) != "" && Trim(old(newTitle)) != "" && res.Fail? ==>
                tasks == old(tasks) && newTitle == old(newTitle)
                && err == Some(ErrorText(res.message, "Failed to create task"))
    {
      var title := Trim(newTitle);
      if projectId == "" || title == "" {
        return None;
      }
      var request := CreateTask(token, CreatePayload(projectId, title));
      loading := true;
      err := None;
      issued := Some(request);
      match res {
        case Ok(created) =>
          tasks := [created] + tasks;
          newTitle := "";
        case Fail(message) =>
          err := Some(ErrorText(message, "Failed to create task"));
      }
      loading := false;
    }

    /** The synchronous half of `onDragEnd`: the guards, the snapshot and the optimistic move. */
    method BeginDrag(drop: DropResult) returns (pending: Option<PendingMove>)
      modifies this
      ensures projectId == old(projectId) && newTitle == old(newTitle)
      ensures loading == old(loading) && err == old(err)
      ensures DropIgnored(drop, old(tasks)) ==> pending == None && tasks == old(tasks)
      ensures !DropIgnored(drop, old(tasks)) ==>
                var id := drop.draggableId;
                var toCol := drop.destination.value.droppableId;
                && pending == Some(PendingMove(id, FindTask(old(tasks), id).value, MoveRequest(token, id, toCol)))
                && tasks == MoveStatus(old(tasks), id, toCol)
    {
      if drop.destination.None? {
        return None;
      }
      var fromCol := drop.source.droppableId;
      var toCol := drop.destination.value.droppableId;
      if fromCol == toCol && drop.destination.value.index == drop.source.index {
        return None;
      }
      var moved := FindTask(tasks, drop.draggableId);
      if moved.None? {
        return None;
      }
      tasks := MoveStatus(tasks, drop.draggableId, toCol);
      pending := Some(PendingMove(drop.draggableId, moved.value, MoveRequest(token, drop.draggableId, toCol)));
    }

    /** The half of `onDragEnd` after `updateTask` settles, applied to whatever the list is by then. */
    method SettleDrag(pending: PendingMove, res: Outcome<Value>)
      modifies this
      ensures projectId == old(projectId) && newTitle == old(newTitle) && loading == old(loading)
      ensures res.Ok? ==> tasks == old(tasks) && err == old(err)
      ensures res.Fail? ==>
                tasks == RestoreTask(old(tasks), pending.id, pending.moved)
                && err == Some(ErrorText(res.message, "Failed to move task"))
    {
      if res.Fail? {
        tasks := RestoreTask(tasks, pending.id, pending.moved);
        err := Some(ErrorText(res.message, "Failed to move task"));
      }
    }

    /**
     * `onDragEnd` with nothing else happening while the update is in flight:
     * an accepted move keeps the new column, a refused one restores the
     * snapshot and shows the error, which with unique ids puts the list back
     * exactly as it was.
     */
    method OnDragEnd(drop: DropResult, res: Outcome<Value>) returns (issued: Option<Request>)
      modifies this
      ensures projectId == old(projectId) && newTitle == old(newTitle) && loading == old(loading)
      ensures DropIgnored(drop, old(tasks)) ==> issued == None && tasks == old(tasks) && err == old(err)
      ensures !DropIgnored(drop, old(tasks)) ==>
                issued == Some(MoveRequest(token, drop.draggableId, drop.destination.value.droppableId))
      ensures !DropIgnored(drop, old(tasks)) && res.Ok? ==>
                tasks == MoveStatus(old(tasks), drop.draggableId, drop.destination.value.droppableId)
                && err == old(err)
      ensures !DropIgnored(drop, old(tasks)) && res.Fail? ==>
                var id := drop.draggableId;
                && tasks == RestoreTask(MoveStatus(old(tasks), id, drop.destination.value.droppableId), id, FindTask(old(tasks), id).value)
                && err == Some(ErrorText(res.message, "Failed to move task"))
      ensures !DropIgnored(drop, old(tasks)) && res.Fail? && UniqueIds(old(tasks)) ==> tasks == old(tasks)
    {
      var pending := BeginDrag(drop);
      if pending.None? {
        return None;
      }
      issued := Some(pending.value.request);
      if res.Fail? && UniqueIds(old(tasks)) {
        RollbackRestoresSnapshot(old(tasks), drop.draggableId, drop.destination.value.droppableId);
      }
      SettleDrag(pending.value, res);
    }
  }
}
