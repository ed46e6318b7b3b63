/** The task resource service: the query parameters each listing call sends, and the verb,
    path and body of every call. */
module TaskService {
  import opened Wrappers
  import opened Text
  import opened Types
  import opened Http

  /** Every key the `getTasks` parameter object can hold. */
  const TaskParamKeys: set<string> := {"page", "size", "sort", "status", "type", "assignedTo", "priority",
                                       "search", "caseId", "dueDateStart", "dueDateEnd"}

  /** The value `getTasks` sends under `key`, if any. */
  function TaskParam(key: string, f: TaskFilters, sort: Option<SortConfig>, page: int, size: int): Option<ParamValue> {
    match key
    case "page" => Some(PNum(page - 1))
    case "size" => Some(PNum(size))
    case "sort" => SortParam(sort)
    case "status" => JoinedList(f.status)
    case "type" => JoinedList(f.taskType)
    case "assignedTo" => JoinedList(f.assignedTo)
    case "priority" => JoinedList(f.priority)
    case "search" => Truthy(f.search)
    case "caseId" => Truthy(f.caseId)
    case "dueDateStart" => if f.dueDate.Some? then Some(PStr(f.dueDate.value.start)) else None
    case "dueDateEnd" => if f.dueDate.Some? then Some(PStr(f.dueDate.value.end)) else None
    case _ => None
  }

  const NoTaskFilters := TaskFilters(None, None, None, None, None, None, None)

  /** The `getTasks` parameter object. */
  function GetTasksParams(filters: Option<TaskFilters>, sort: Option<SortConfig>, page: int, size: int): (p: Params)
    ensures p.Keys <= TaskParamKeys
    ensures "page" in p && p["page"] == PNum(page - 1)
    ensures "size" in p && p["size"] == PNum(size)
  {
    var f := filters.GetOr(NoTaskFilters);
    map k | k in TaskParamKeys && TaskParam(k, f, sort, page, size).Some? :: TaskParam(k, f, sort, page, size).value
  }

  /** Which keys `getTasks` sends: array filters comma-joined whenever present, `caseId` and
      `search` only when non-empty, and the due-date range as two keys. */
  lemma GetTasksParamsSpec(filters: Option<TaskFilters>, sort: Option<SortConfig>, page: int, size: int)
    ensures var p := GetTasksParams(filters, sort, page, size);
      var f := filters.GetOr(NoTaskFilters);
      && ("sort" in p <==> sort.Some?)
      && (sort.Some? ==> p["sort"] == PStr(sort.value.field + "," + DirectionName(sort.value.direction)))
      && ("status" in p <==> f.status.Some?)
      && ("type" in p <==> f.taskType.Some?)
      && ("assignedTo" in p <==> f.assignedTo.Some?)
      && ("priority" in p <==> f.priority.Some?)
      && ("search" in p <==> f.search.Some? && f.search.value != "")
      && ("caseId" in p <==> f.caseId.Some? && f.caseId.value != "")
      && ("dueDateStart" in p <==> f.dueDate.Some?) && ("dueDateEnd" in p <==> f.dueDate.Some?)
      && (f.status.Some? ==> p["status"] == PStr(Join(f.status.value, ",")))
      && (f.taskType.Some? ==> p["type"] == PStr(Join(f.taskType.value, ",")))
      && (f.assignedTo.Some? ==> p["assignedTo"] == PStr(Join(f.assignedTo.value, ",")))
      && (f.priority.Some? ==> p["priority"] == PStr(Join(f.priority.value, ",")))
      && ("search" in p ==> p["search"] == PStr(f.search.value))
      && ("caseId" in p ==> p["caseId"] == PStr(f.caseId.value))
      && (f.dueDate.Some? ==> p["dueDateStart"] == PStr(f.dueDate.value.start) &&
                              p["dueDateEnd"] == PStr(f.dueDate.value.end))
  {
  }

  /** A non-empty array filter whose items have no comma splits back into the same items. */
  lemma AssignedToRoundTrip(f: TaskFilters, sort: Option<SortConfig>, page: int, size: int)
    requires f.assignedTo.Some? && |f.assignedTo.value| >= 1
    requires forall i :: 0 <= i < |f.assignedTo.value| ==> ',' !in f.assignedTo.value[i]
    ensures var p := GetTasksParams(Some(f), sort, page, size);
      "assignedTo" in p && p["assignedTo"].PStr? && Split(p["assignedTo"].text, ',') == f.assignedTo.value
  {
    SplitJoin(f.assignedTo.value, ',');
  }

  /** `getAvailableTasks` and `getOverdueTasks`: the page and one fixed flag, nothing else. */
  function FlaggedPageParams(flag: string, page: int, size: int): (p: Params)
    requires flag != "page" && flag != "size"
    ensures p.Keys == {"page", "size", flag}
    ensures p["page"] == PNum(page - 1) && p["size"] == PNum(size) && p[flag] == PBool(true)
  {
    map["page" := PNum(page - 1), "size" := PNum(size), flag := PBool(true)]
  }

  /** `getUserWorkload`: `userId ? { userId } : {}`, so an empty id sends nothing. */
  function WorkloadParams(userId: Option<string>): (p: Params)
    ensures p.Keys == if userId.Some? && userId.value != "" then {"userId"} else {}
    ensures "userId" in p ==> p["userId"] == PStr(userId.value)
  {
    match Truthy(userId)
    case Some(v) => map["userId" := v]
    case None => map[]
  }

  /** `getTaskPerformance`: `userId` only when non-empty, the date keys only with a range. */
  function PerformanceParams(userId: Option<string>, dateRange: Option<DateRange>): (p: Params)
    ensures "userId" in p <==> userId.Some? && userId.value != ""
    ensures "userId" in p ==> p["userId"] == PStr(userId.value)
    ensures ("startDate" in p <==> dateRange.Some?) && ("endDate" in p <==> dateRange.Some?)
    ensures dateRange.Some? ==> p["startDate"] == PStr(dateRange.value.start) && p["endDate"] == PStr(dateRange.value.end)
    ensures p.Keys <= {"userId", "startDate", "endDate"}
    ensures p == map[] <==> (userId.None? || userId.value == "") && dateRange.None?
  {
    var p := WorkloadParams(userId) + DateRangeParams(dateRange);
    assert "userId" in p ==> p != map[];
    assert "startDate" in p ==> p != map[];
    p
  }

  datatype Lifecycle = Claim | Release | Start | Pause | Resume | Cancel

  function ActionName(a: Lifecycle): (s: string)
    ensures '/' !in s && |s| >= 4
  {
    match a
    case Claim => "claim"
    case Release => "release"
    case Start => "start"
    case Pause => "pause"
    case Resume => "resume"
    case Cancel => "cancel"
  }

  const Base := "/api/tasks"

  /** A path under the service's base URL. */
  function Under(tail: string): (p: string)
    ensures StartsWith(p, Base) && p[|Base|..] == tail
  {
    Base + tail
  }

  /** `/api/tasks/{id}/{action}`. */
  function LifecyclePath(id: string, a: Lifecycle): string {
    Under("/" + id + "/" + ActionName(a))
  }

  lemma LifecyclePathSegments(id: string, a: Lifecycle)
    requires '/' !in id
    ensures Split(LifecyclePath(id, a), '/') == ["", "api", "tasks", id, ActionName(a)]
  {
    var parts := ["", "api", "tasks", id, ActionName(a)];
    var e := ActionName(a);
    JoinFive("", "api", "tasks", id, e, "/");
    assert "" + "/" + "api" + "/" + "tasks" == Base;
    assert Base + ("/" + id + "/" + e) == Base + "/" + id + "/" + e;
    assert Join(parts, "/") == LifecyclePath(id, a);
    assert forall i :: 0 <= i < |parts| ==> '/' !in parts[i];
    SplitJoin(parts, '/');
  }

  /** For ids without `/`, a lifecycle path names one task and one action. */
  lemma LifecyclePathInjective(id1: string, a1: Lifecycle, id2: string, a2: Lifecycle)
    requires '/' !in id1 && '/' !in id2
    ensures LifecyclePath(id1, a1) == LifecyclePath(id2, a2) <==> id1 == id2 && a1 == a2
  {
    LifecyclePathSegments(id1, a1);
    LifecyclePathSegments(id2, a2);
    if LifecyclePath(id1, a1) == LifecyclePath(id2, a2) {
      var parts1: seq<string> := ["", "api", "tasks", id1, ActionName(a1)];
      var parts2: seq<string> := ["", "api", "tasks", id2, ActionName(a2)];
      assert parts1 == parts2;
      assert parts1[3] == parts2[3] && parts1[4] == parts2[4];
    }
  }

  /** Every call of the service, with its defaults applied. */
  datatype TaskCall =
    | GetTasks(filters: Option<TaskFilters>, sort: Option<SortConfig>, page: int, size: int)
    | GetTaskById(id: string)
    | CreateTask(taskName: string, assignee: string, status: string, caseId: string)
    | UpdateTask(id: string, form: Params)
    | DeleteTask(id: string)
    | ClaimTask(id: string)
    | ReleaseTask(id: string)
    | AssignTask(taskId: string, assignee: string, comment: Option<string>)
    | CompleteTask(taskId: string, variables: Params)
    | StartTask(id: string)
    | PauseTask(id: string, pauseReason: Option<string>)
    | ResumeTask(id: string)
    | CancelTask(id: string, reason: string)
    | GetMyTasks(assignee: string)
    | GetAvailableTasks(page: int, size: int)
    | GetGroupTasks(groupId: string)
    | GetTasksByCase(caseId: string)
    | GetOverdueTasks(page: int, size: int)
    | GetTaskComments(taskId: string)
    | AddTaskComment(taskId: string, content: string, isInternal: bool, mentionedUsers: seq<string>)
    | UpdateTaskComment(taskId: string, commentId: string, content: string)
    | DeleteTaskComment(taskId: string, commentId: string)
    | UpdateTaskVariables(id: string, variables: Params)
    | GetTaskHistory(taskId: string)
    | BulkAssign(taskIds: seq<string>, assigneeId: string, comments: Option<string>)
    | BulkComplete(taskIds: seq<string>, completion: Params)
    | BulkCancel(taskIds: seq<string>, reason: string)
    | SearchTasks(query: string, filters: Option<TaskFilters>, page: int, size: int)
    | GetTaskStatistics(dateRange: Option<DateRange>)
    | GetUserWorkload(userId: Option<string>)
    | GetTaskPerformance(userId: Option<string>, dateRange: Option<DateRange>)

  const SearchParamKeys: set<string> :=
    {"q", "page", "size", "status", "type", "assignedTo", "priority", "dueDate", "caseId", "search"}

  /** The value `searchTasks` sends under `key`: the filters spread as they are. */
  function SearchParam(key: string, query: string, f: TaskFilters, page: int, size: int): Option<ParamValue> {
    match key
    case "q" => Some(PStr(query))
    case "page" => Some(PNum(page - 1))
    case "size" => Some(PNum(size))
    case "status" => OptList(f.status)
    case "type" => OptList(f.taskType)
    case "assignedTo" => OptList(f.assignedTo)
    case "priority" => OptList(f.priority)
    case "dueDate" => if f.dueDate.Some? then Some(PDateRange(f.dueDate.value)) else None
    case "caseId" => OptStr(f.caseId)
    case "search" => OptStr(f.search)
    case _ => None
  }

  function SearchTasksParams(query: string, filters: Option<TaskFilters>, page: int, size: int): (p: Params)
    ensures "q" in p && p["q"] == PStr(query)
    ensures "page" in p && p["page"] == PNum(page - 1) && "size" in p && p["size"] == PNum(size)
    ensures p.Keys <= SearchParamKeys
  {
    var f := filters.GetOr(NoTaskFilters);
    map k | k in SearchParamKeys && SearchParam(k, query, f, page, size).Some? :: SearchParam(k, query, f, page, size).value
  }

  /** The transport call a service method makes. */
  function ToRequest(c: TaskCall): (r: Request)
    ensures StartsWith(r.path, Base)
  {
    match c
    case GetTasks(f, s, p, z) => Request(Get, Under(""), GetTasksParams(f, s, p, z))
    case GetTaskById(id) => Request(Get, Under("/" + id), map[])
    case CreateTask(n, a, st, cid) =>
      Request(Post, Under("/create"),
        map["taskName" := PStr(n), "assignee" := PStr(a), "status" := PStr(st), "caseId" := PStr(cid)])
    case UpdateTask(id, form) => Request(Put, Under("/" + id), form)
    case DeleteTask(id) => Request(Delete, Under("/" + id), map[])
    case ClaimTask(id) => Request(Post, LifecyclePath(id, Claim), map[])
    case ReleaseTask(id) => Request(Post, LifecyclePath(id, Release), map[])
    case AssignTask(t, a, cm) =>
      Request(Post, Under("/assign"), With(map["taskId" := PStr(t), "assignee" := PStr(a)], "comment", OptStr(cm)))
    case CompleteTask(t, vars) =>
      Request(Post, Under("/complete"), map["taskId" := PStr(t), "variables" := PObject(vars)])
    case StartTask(id) => Request(Post, LifecyclePath(id, Start), map[])
    case PauseTask(id, reason) => Request(Post, LifecyclePath(id, Pause), With(map[], "reason", OptStr(reason)))
    case ResumeTask(id) => Request(Post, LifecyclePath(id, Resume), map[])
    case CancelTask(id, reason) => Request(Post, LifecyclePath(id, Cancel), map["reason" := PStr(reason)])
    case GetMyTasks(a) => Request(Get, Under("/my/" + a), map[])
    case GetAvailableTasks(p, z) => Request(Get, Under(""), FlaggedPageParams("available", p, z))
    case GetGroupTasks(g) => Request(Get, Under("/group/" + g), map[])
    case GetTasksByCase(cid) => Request(Get, Under("/by-case/" + cid), map[])
    case GetOverdueTasks(p, z) => Request(Get, Under(""), FlaggedPageParams("overdue", p, z))
    case GetTaskComments(t) => Request(Get, Under("/" + t + "/comments"), map[])
    case AddTaskComment(t, content, internal, mentioned) =>
      Request(Post, Under("/" + t + "/comments"),
        map["content" := PStr(content), "isInternal" := PBool(internal), "mentionedUsers" := PList(mentioned)])
    case UpdateTaskComment(t, cid, content) =>
      Request(Put, Under("/" + t + "/comments/" + cid), map["content" := PStr(content)])
    case DeleteTaskComment(t, cid) => Request(Delete, Under("/" + t + "/comments/" + cid), map[])
    case UpdateTaskVariables(id, vars) => Request(Patch, Under("/" + id + "/variables"), map["variables" := PObject(vars)])
    case GetTaskHistory(t) => Request(Get, Under("/" + t + "/history"), map[])
    case BulkAssign(ids, a, cm) =>
      Request(Post, Under("/bulk/assign"), With(map["taskIds" := PList(ids), "assigneeId" := PStr(a)], "comments", OptStr(cm)))
    case BulkComplete(ids, completion) => Request(Post, Under("/bulk/complete"), map["taskIds" := PList(ids)] + completion)
    case BulkCancel(ids, reason) => Request(Post, Under("/bulk/cancel"), map["taskIds" := PList(ids), "reason" := PStr(reason)])
    case SearchTasks(q, f, p, z) => Request(Get, Under("/search"), SearchTasksParams(q, f, p, z))
    case GetTaskStatistics(r) => Request(Get, Under("/statistics"), DateRangeParams(r))
    case GetUserWorkload(u) => Request(Get, Under("/workload"), WorkloadParams(u))
    case GetTaskPerformance(u, r) => Request(Get, Under("/performance"), PerformanceParams(u, r))
  }

  /** Claim, release, start, pause, resume and cancel each POST to their own lifecycle path;
      only pause and cancel send a body, the reason. */
  lemma LifecycleRequests(c: TaskCall)
    ensures c.ClaimTask? ==> ToRequest(c) == Request(Post, LifecyclePath(c.id, Claim), map[])
    ensures c.ReleaseTask? ==> ToRequest(c) == Request(Post, LifecyclePath(c.id, Release), map[])
    ensures c.StartTask? ==> ToRequest(c) == Request(Post, LifecyclePath(c.id, Start), map[])
    ensures c.PauseTask? && c.pauseReason.None? ==> ToRequest(c) == Request(Post, LifecyclePath(c.id, Pause), map[])
    ensures c.PauseTask? && c.pauseReason.Some? ==>
      ToRequest(c) == Request(Post, LifecyclePath(c.id, Pause), map["reason" := PStr(c.pauseReason.value)])
    ensures c.ResumeTask? ==> ToRequest(c) == Request(Post, LifecyclePath(c.id, Resume), map[])
    ensures c.CancelTask? ==> ToRequest(c) == Request(Post, LifecyclePath(c.id, Cancel), map["reason" := PStr(c.reason)])
  {
  }

  /** The calls on one task go to `/api/tasks/{id}`: read with GET, replaced with PUT, removed
      with DELETE. */
  lemma TaskRequests(c: TaskCall)
    ensures c.GetTaskById? ==> ToRequest(c) == Request(Get, "/api/tasks/" + c.id, map[])
    ensures c.UpdateTask? ==> ToRequest(c) == Request(Put, "/api/tasks/" + c.id, c.form)
    ensures c.DeleteTask? ==> ToRequest(c) == Request(Delete, "/api/tasks/" + c.id, map[])
  {
  }

  /** Assigning and completing name the task in the body and POST to fixed paths; an absent
      comment is left out. */
  lemma AssignAndCompleteRequests(c: TaskCall)
    ensures c.AssignTask? ==> var r := ToRequest(c);
      r.verb == Post && r.path == "/api/tasks/assign" &&
      r.params.Keys == {"taskId", "assignee"} + (if c.comment.Some? then {"comment"} else {}) &&
      r.params["taskId"] == PStr(c.taskId) && r.params["assignee"] == PStr(c.assignee) &&
      (c.comment.Some? ==> r.params["comment"] == PStr(c.comment.value))
    ensures c.CompleteTask? ==>
      ToRequest(c) == Request(Post, "/api/tasks/complete", map["taskId" := PStr(c.taskId), "variables" := PObject(c.variables)])
  {
  }

  /** The comments of a task are read with GET and added with POST on one sub-path. */
  lemma TaskCommentsRequests(c: TaskCall)
    ensures c.GetTaskComments? ==> ToRequest(c) == Request(Get, "/api/tasks/" + c.taskId + "/comments", map[])
    ensures c.AddTaskComment? ==> var r := ToRequest(c);
      r.verb == Post && r.path == "/api/tasks/" + c.taskId + "/comments" &&
      r.params == map["content" := PStr(c.content), "isInternal" := PBool(c.isInternal),
                      "mentionedUsers" := PList(c.mentionedUsers)]
  {
    match c
    case GetTaskComments(t) => assert Base + ("/" + t + "/comments") == "/api/tasks/" + t + "/comments";
    case AddTaskComment(t, _, _, _) => assert Base + ("/" + t + "/comments") == "/api/tasks/" + t + "/comments";
    case _ =>
  }

  /** A single task comment is addressed by the task and the comment id. */
  lemma TaskCommentRequests(c: TaskCall)
    ensures c.UpdateTaskComment? ==>
      ToRequest(c) == Request(Put, "/api/tasks/" + c.taskId + "/comments/" + c.commentId, map["content" := PStr(c.content)])
    ensures c.DeleteTaskComment? ==>
      ToRequest(c) == Request(Delete, "/api/tasks/" + c.taskId + "/comments/" + c.commentId, map[])
  {
    match c
    case UpdateTaskComment(t, cid, _) =>
      assert Base + ("/" + t + "/comments/" + cid) == "/api/tasks/" + t + "/comments/" + cid;
    case DeleteTaskComment(t, cid) =>
      assert Base + ("/" + t + "/comments/" + cid) == "/api/tasks/" + t + "/comments/" + cid;
    case _ =>
  }

  /** The history of a task and the tasks of a case are read with GET, each with no parameters. */
  lemma HistoryAndByCaseRequests(c: TaskCall)
    ensures c.GetTaskHistory? ==> ToRequest(c) == Request(Get, "/api/tasks/" + c.taskId + "/history", map[])
    ensures c.GetTasksByCase? ==> ToRequest(c) == Request(Get, "/api/tasks/by-case/" + c.caseId, map[])
  {
    match c
    case GetTaskHistory(t) => assert Base + ("/" + t + "/history") == "/api/tasks/" + t + "/history";
    case GetTasksByCase(cid) => assert Base + ("/by-case/" + cid) == "/api/tasks/by-case/" + cid;
    case _ =>
  }

  /** The tasks of an assignee and of a group are read with GET from a path that ends in the
      name, with no page or size. */
  lemma MyAndGroupRequests(c: TaskCall)
    ensures c.GetMyTasks? ==> ToRequest(c) == Request(Get, "/api/tasks/my/" + c.assignee, map[])
    ensures c.GetGroupTasks? ==> ToRequest(c) == Request(Get, "/api/tasks/group/" + c.groupId, map[])
  {
    match c
    case GetMyTasks(a) => assert Base + ("/my/" + a) == "/api/tasks/my/" + a;
    case GetGroupTasks(g) => assert Base + ("/group/" + g) == "/api/tasks/group/" + g;
    case _ =>
  }

  /** Every paginated call sends the 1-based page as `page - 1`. */
  lemma ZeroBasedPage(c: TaskCall)
    requires c.GetTasks? || c.GetAvailableTasks? || c.GetOverdueTasks? || c.SearchTasks?
    ensures "page" in ToRequest(c).params && ToRequest(c).params["page"] == PNum(c.page - 1)
  {
  }

  /** The available and overdue listings send exactly the page and their flag. */
  lemma FlaggedListings(page: int, size: int)
    ensures ToRequest(GetAvailableTasks(page, size)).params ==
      map["page" := PNum(page - 1), "size" := PNum(size), "available" := PBool(true)]
    ensures ToRequest(GetOverdueTasks(page, size)).params ==
      map["page" := PNum(page - 1), "size" := PNum(size), "overdue" := PBool(true)]
  {
  }

  /** The optional-argument calls send `{}` when their argument is absent. */
  lemma AbsentArgumentsSendNothing()
    ensures ToRequest(GetTaskStatistics(None)).params == map[]
    ensures ToRequest(GetUserWorkload(None)).params == map[]
    ensures ToRequest(GetUserWorkload(Some(""))).params == map[]
    ensures ToRequest(GetTaskPerformance(None, None)).params == map[]
  {
    NoStatisticsRange();
    NoWorkloadUser(None);
    NoWorkloadUser(Some(""));
    NoPerformanceArguments();
  }

  lemma NoStatisticsRange()
    ensures ToRequest(GetTaskStatistics(None)).params == map[]
  {
    assert DateRangeParams(None).Keys == {};
  }

  lemma NoWorkloadUser(u: Option<string>)
    requires u.None? || u.value == ""
    ensures ToRequest(GetUserWorkload(u)).params == map[]
  {
    assert WorkloadParams(u).Keys == {};
  }

  lemma NoPerformanceArguments()
    ensures ToRequest(GetTaskPerformance(None, None)).params == map[]
  {
  }

  /** In a bulk completion the completion data is spread after `taskIds`, so it wins a clash. */
  lemma BulkCompleteSpreadOrder(ids: seq<string>, completion: Params)
    ensures var body := ToRequest(BulkComplete(ids, completion)).params;
      body.Keys == completion.Keys + {"taskIds"} &&
      (forall k :: k in completion ==> body[k] == completion[k]) &&
      ("taskIds" !in completion ==> body["taskIds"] == PList(ids))
  {
  }
}
