/** The POST, PATCH and DELETE handlers of the tasks API over an abstract store: the
    task table as a map from id to task, the activity log as a sequence, and
    the workspace and board membership relations the handlers consult. Each
    handler checks the session first (401), then its required fields (400),
    then access (404), and only then changes the store and logs one activity. */
module TaskRoutes {
  import opened Common
  import opened Tasks

  const DEFAULT_PRIORITY := "MEDIUM"
  /** The status a newly created row carries: assumed to be the schema's
      default, since the handler sends none and the schema is not part of
      this model. */
  const INITIAL_STATUS := TODO

  const UNAUTHORIZED := "Unauthorized"
  const MISSING_FIELDS := "Missing required fields"
  const WORKSPACE_DENIED := "Workspace not found or access denied"
  const BOARD_DENIED := "Board not found or access denied"
  const ID_REQUIRED := "Task ID is required"
  const TASK_DENIED := "Task not found or access denied"
  const DELETED := "Task deleted successfully"

  /** A stored task with the columns these handlers write. It is the same
      table as `Tasks.TaskRow`, which holds the columns the reading routes
      select (`id`, `createdAt`); here the id is the store's key and
      `createdAt` is never read or written. */
  datatype Task = Task(
    title: string,
    description: Option<string>,
    priority: string,
    dueDate: Option<string>,
    workspaceId: string,
    boardId: Option<string>,
    userId: string,
    status: string,
    completedAt: Option<int>)

  datatype ActivityType = CreateTask | UpdateTask | CompleteTask | DeleteTask

  datatype Activity = Activity(userId: string, kind: ActivityType, description: string)

  /** The JSON a handler answers with: a task row, a message, or an error with its HTTP status. */
  datatype Response =
    | TaskJson(id: string, task: Task)
    | MessageJson(message: string)
    | ErrorJson(status: nat, error: string)

  /** A string interpolated into a template literal, when the value may be
      absent: JavaScript prints `undefined` for a missing JSON field and `null`
      for a missing query parameter. */
  function Interpolate(o: Option<string>, absent: string): string
  {
    if o.Some? then o.value else absent
  }

  /** The row a successful PATCH writes. A status absent from the request
      leaves the stored status as it is; `completedAt` is set to `now` when the
      requested status is COMPLETED and cleared otherwise. */
  function PatchedTask(t: Task, status: Option<string>, now: int): Task
  {
    t.(status := if status.Some? then status.value else t.status,
       completedAt := if status == Some(COMPLETED) then Some(now) else None)
  }

  /** A row has a completion time exactly when it is completed. */
  predicate CompletionConsistent(t: Task)
  {
    t.completedAt.Some? <==> t.status == COMPLETED
  }

  /** A PATCH that carries a status always leaves the row consistent. */
  lemma PatchWithStatusIsConsistent(t: Task, status: string, now: int)
    ensures CompletionConsistent(PatchedTask(t, Some(status), now))
    ensures PatchedTask(t, Some(status), now).status == status
    ensures PatchedTask(t, Some(status), now).completedAt == if status == COMPLETED then Some(now) else None
  {
  }

  /** As written, a PATCH without a status on a completed row keeps the status
      COMPLETED but clears `completedAt`. */
  lemma PatchWithoutStatusClearsCompletion(now: int)
    ensures var t := Task("Write report", None, DEFAULT_PRIORITY, None, "w1", None, "u1", COMPLETED, Some(now - 1));
      && CompletionConsistent(t)
      && PatchedTask(t, None, now).status == COMPLETED
      && PatchedTask(t, None, now).completedAt == None
      && !CompletionConsistent(PatchedTask(t, None, now))
  {
  }

  /** The evidently intended PATCH: without a status, the row keeps both its
      status and its completion time. */
  function PatchedTaskKeepingCompletion(t: Task, status: Option<string>, now: int): Task
  {
    if status.None? then t else PatchedTask(t, status, now)
  }

  /** The corrected PATCH agrees with the written one whenever a status is
      sent, and never leaves a consistent row inconsistent. */
  lemma PatchKeepingCompletionIsConsistent(t: Task, status: Option<string>, now: int)
    ensures status.Some? ==> PatchedTaskKeepingCompletion(t, status, now) == PatchedTask(t, status, now)
    ensures CompletionConsistent(t) ==> CompletionConsistent(PatchedTaskKeepingCompletion(t, status, now))
  {
    if status.Some? {
      PatchWithStatusIsConsistent(t, status.value, now);
    }
  }

  class TaskStore {
    var tasks: map<string, Task>
    var activities: seq<Activity>
    /** Workspace id to the ids of its users, and board id to the ids of its users. */
    var workspaceUsers: map<string, set<string>>
    var boardUsers: map<string, set<string>>

    constructor (workspaceUsers: map<string, set<string>>, boardUsers: map<string, set<string>>)
      ensures this.tasks == map[] && this.activities == []
      ensures this.workspaceUsers == workspaceUsers && this.boardUsers == boardUsers
    {
      this.tasks := map[];
      this.activities := [];
      this.workspaceUsers := workspaceUsers;
      this.boardUsers := boardUsers;
    }

    predicate InWorkspace(workspaceId: string, userId: string)
      reads this
    {
      workspaceId in workspaceUsers && userId in workspaceUsers[workspaceId]
    }

    predicate OnBoard(boardId: string, userId: string)
      reads this
    {
      boardId in boardUsers && userId in boardUsers[boardId]
    }

    predicate Owns(id: string, userId: string)
      reads this
    {
      id in tasks && tasks[id].userId == userId
    }

    ghost predicate AllConsistent()
      reads this
    {
      forall id :: id in tasks ==> CompletionConsistent(tasks[id])
    }

    /** POST: create a task owned by the session user. `newId` is the id the
        database assigns to the new row. */
    method Post(sessionUserId: Option<string>, title: Option<string>, description: Option<string>,
                workspaceId: Option<string>, boardId: Option<string>, priority: Option<string>,
                dueDate: Option<string>, newId: string)
      returns (r: Response)
      requires newId !in tasks
      modifies this`tasks, this`activities
      ensures !Truthy(sessionUserId) ==> r == ErrorJson(401, UNAUTHORIZED)
      ensures Truthy(sessionUserId) && !(Truthy(title) && Truthy(workspaceId)) ==> r == ErrorJson(400, MISSING_FIELDS)
      ensures Truthy(sessionUserId) && Truthy(title) && Truthy(workspaceId)
              && !InWorkspace(workspaceId.value, sessionUserId.value)
              ==> r == ErrorJson(404, WORKSPACE_DENIED)
      ensures Truthy(sessionUserId) && Truthy(title) && Truthy(workspaceId)
              && InWorkspace(workspaceId.value, sessionUserId.value)
              && Truthy(boardId) && !OnBoard(boardId.value, sessionUserId.value)
              ==> r == ErrorJson(404, BOARD_DENIED)
      ensures r.ErrorJson? ==> tasks == old(tasks) && activities == old(activities)
      ensures !r.ErrorJson? <==>
                && Truthy(sessionUserId) && Truthy(title) && Truthy(workspaceId)
                && InWorkspace(workspaceId.value, sessionUserId.value)
                && (Truthy(boardId) ==> OnBoard(boardId.value, sessionUserId.value))
      ensures !r.ErrorJson? ==>
                && r == TaskJson(newId, Task(title.value, description,
                                              if priority.Some? then priority.value else DEFAULT_PRIORITY,
                                              dueDate, workspaceId.value, boardId, sessionUserId.value,
                                              INITIAL_STATUS, None))
                && tasks == old(tasks)[newId := r.task]
                && activities == old(activities) + [Activity(sessionUserId.value, CreateTask,
                     "Created task: " + title.value + (if Truthy(boardId) then " in board" else ""))]
      ensures old(AllConsistent()) ==> AllConsistent()
    {
      if !Truthy(sessionUserId) {
        return ErrorJson(401, UNAUTHORIZED);
      }
      var userId := sessionUserId.value;
      if !Truthy(title) || !Truthy(workspaceId) {
        return ErrorJson(400, MISSING_FIELDS);
      }
      if !InWorkspace(workspaceId.value, userId) {
        return ErrorJson(404, WORKSPACE_DENIED);
      }
      if Truthy(boardId) && !OnBoard(boardId.value, userId) {
        return ErrorJson(404, BOARD_DENIED);
      }
      var task := Task(title.value, description, if priority.Some? then priority.value else DEFAULT_PRIORITY,
                       dueDate, workspaceId.value, boardId, userId, INITIAL_STATUS, None);
      tasks := tasks[newId := task];
      activities := activities + [Activity(userId, CreateTask,
                      "Created task: " + title.value + (if Truthy(boardId) then " in board" else ""))];
      r := TaskJson(newId, task);
    }

    /** PATCH: change the status of a task the session user owns. `now` is the
        instant of the request. */
    method Patch(sessionUserId: Option<string>, id: Option<string>, status: Option<string>,
                 title: Option<string>, now: int)
      returns (r: Response)
      modifies this`tasks, this`activities
      ensures !Truthy(sessionUserId) ==> r == ErrorJson(401, UNAUTHORIZED)
      ensures Truthy(sessionUserId) && !Truthy(id) ==> r == ErrorJson(400, ID_REQUIRED)
      ensures Truthy(sessionUserId) && Truthy(id) && !old(Owns(id.value, sessionUserId.value))
              ==> r == ErrorJson(404, TASK_DENIED)
      ensures r.ErrorJson? ==> tasks == old(tasks) && activities == old(activities)
      ensures !r.ErrorJson? <==> Truthy(sessionUserId) && Truthy(id) && old(Owns(id.value, sessionUserId.value))
      ensures !r.ErrorJson? ==>
                && r == TaskJson(id.value, PatchedTask(old(tasks)[id.value], status, now))
                && tasks == old(tasks)[id.value := r.task]
                && (r.task.completedAt.Some? <==> status == Some(COMPLETED))
                && activities == old(activities) + [
                     if status == Some(COMPLETED)
                     then Activity(sessionUserId.value, CompleteTask, "Completed task: " + Interpolate(title, "undefined"))
                     else Activity(sessionUserId.value, UpdateTask, "Updated task: " + Interpolate(title, "undefined"))]
      ensures old(AllConsistent()) && status.Some? ==> AllConsistent()
    {
      if !Truthy(sessionUserId) {
        return ErrorJson(401, UNAUTHORIZED);
      }
      var userId := sessionUserId.value;
      if !Truthy(id) {
        return ErrorJson(400, ID_REQUIRED);
      }
      if !Owns(id.value, userId) {
        return ErrorJson(404, TASK_DENIED);
      }
      var updated := PatchedTask(tasks[id.value], status, now);
      tasks := tasks[id.value := updated];
      var entry := if status == Some(COMPLETED)
                   then Activity(userId, CompleteTask, "Completed task: " + Interpolate(title, "undefined"))
                   else Activity(userId, UpdateTask, "Updated task: " + Interpolate(title, "undefined"));
      activities := activities + [entry];
      if status.Some? {
        PatchWithStatusIsConsistent(old(tasks)[id.value], status.value, now);
      }
      r := TaskJson(id.value, updated);
    }

    /** PATCH as evidently intended: the same checks and log entry, but a
        request without a status leaves the row as it is, so every row stays
        consistent. */
    method PatchKeepingCompletion(sessionUserId: Option<string>, id: Option<string>, status: Option<string>,
                                  title: Option<string>, now: int)
      returns (r: Response)
      modifies this`tasks, this`activities
      ensures !Truthy(sessionUserId) ==> r == ErrorJson(401, UNAUTHORIZED)
      ensures Truthy(sessionUserId) && !Truthy(id) ==> r == ErrorJson(400, ID_REQUIRED)
      ensures Truthy(sessionUserId) && Truthy(id) && !old(Owns(id.value, sessionUserId.value))
              ==> r == ErrorJson(404, TASK_DENIED)
      ensures r.ErrorJson? ==> tasks == old(tasks) && activities == old(activities)
      ensures !r.ErrorJson? <==> Truthy(sessionUserId) && Truthy(id) && old(Owns(id.value, sessionUserId.value))
      ensures !r.ErrorJson? ==>
                && r == TaskJson(id.value, PatchedTaskKeepingCompletion(old(tasks)[id.value], status, now))
                && tasks == old(tasks)[id.value := r.task]
                && activities == old(activities) + [
                     if status == Some(COMPLETED)
                     then Activity(sessionUserId.value, CompleteTask, "Completed task: " + Interpolate(title, "undefined"))
                     else Activity(sessionUserId.value, UpdateTask, "Updated task: " + Interpolate(title, "undefined"))]
      ensures old(AllConsistent()) ==> AllConsistent()
    {
      if !Truthy(sessionUserId) {
        return ErrorJson(401, UNAUTHORIZED);
      }
      var userId := sessionUserId.value;
      if !Truthy(id) {
        return ErrorJson(400, ID_REQUIRED);
      }
      if !Owns(id.value, userId) {
        return ErrorJson(404, TASK_DENIED);
      }
      var updated := PatchedTaskKeepingCompletion(tasks[id.value], status, now);
      PatchKeepingCompletionIsConsistent(tasks[id.value], status, now);
      tasks := tasks[id.value := updated];
      var entry := if status == Some(COMPLETED)
                   then Activity(userId, CompleteTask, "Completed task: " + Interpolate(title, "undefined"))
                   else Activity(userId, UpdateTask, "Updated task: " + Interpolate(title, "undefined"));
      activities := activities + [entry];
      r := TaskJson(id.value, updated);
    }

    /** DELETE: remove a task the session user owns; `id` and `title` are
        query parameters. */
    method Delete(sessionUserId: Option<string>, id: Option<string>, title: Option<string>)
      returns (r: Response)
      modifies this`tasks, this`activities
      ensures !Truthy(sessionUserId) ==> r == ErrorJson(401, UNAUTHORIZED)
      ensures Truthy(sessionUserId) && !Truthy(id) ==> r == ErrorJson(400, ID_REQUIRED)
      ensures Truthy(sessionUserId) && Truthy(id) && !old(Owns(id.value, sessionUserId.value))
              ==> r == ErrorJson(404, TASK_DENIED)
      ensures r.ErrorJson? ==> tasks == old(tasks) && activities == old(activities)
      ensures !r.ErrorJson? <==> Truthy(sessionUserId) && Truthy(id) && old(Owns(id.value, sessionUserId.value))
      ensures !r.ErrorJson? ==>
                && r == MessageJson(DELETED)
                && tasks == old(tasks) - {id.value}
                && activities == old(activities) + [Activity(sessionUserId.value, DeleteTask,
                     "Deleted task: " + Interpolate(title, "null"))]
      ensures forall k :: k in old(tasks) && (r.ErrorJson? || k != id.value) ==> k in tasks && tasks[k] == old(tasks)[k]
      ensures old(AllConsistent()) ==> AllConsistent()
    {
      if !Truthy(sessionUserId) {
        return ErrorJson(401, UNAUTHORIZED);
      }
      var userId := sessionUserId.value;
      if !Truthy(id) {
        return ErrorJson(400, ID_REQUIRED);
      }
      if !Owns(id.value, userId) {
        return ErrorJson(404, TASK_DENIED);
      }
      tasks := tasks - {id.value};
      activities := activities + [Activity(userId, DeleteTask, "Deleted task: " + Interpolate(title, "null"))];
      r := MessageJson(DELETED);
    }
  }

  /** A client of the store: a completed task patched without a status stays
      COMPLETED with no completion time. */
  method PatchWithoutStatusScenario()
  {
    var store := new TaskStore(map["w1" := {"u1"}], map[]);
    var created := store.Post(Some("u1"), Some("Write report"), None, Some("w1"), None, None, None, "t1");
    assert created == TaskJson("t1", Task("Write report", None, DEFAULT_PRIORITY, None, "w1", None, "u1", INITIAL_STATUS, None));
    var done := store.Patch(Some("u1"), Some("t1"), Some(COMPLETED), Some("Write report"), 100);
    assert store.tasks["t1"].status == COMPLETED && store.tasks["t1"].completedAt == Some(100);
    var renamed := store.Patch(Some("u1"), Some("t1"), None, Some("Write report"), 200);
    assert store.tasks["t1"].status == COMPLETED && store.tasks["t1"].completedAt == None;
    assert !store.AllConsistent();
    var anonymous := store.Delete(None, Some("t1"), None);
    assert anonymous == ErrorJson(401, UNAUTHORIZED) && "t1" in store.tasks;
  }
}
