/** The alert-detection service: its calls, the quick status update's comment table, and the
    workload and dashboard aggregations over already-fetched responses. */
module AlertService {
  import opened Wrappers
  import opened Text
  import opened Http

  /** Every call of the service that goes straight to the transport. */
  datatype AlertCall =
    | CreateCase(form: Params)
    | GetAllCases
    | GetCaseById(caseId: string)
    | UpdateCaseStatus(caseId: string, status: string, comment: Option<string>)
    | GetCasesByStatus(status: string)
    | GetMyTasks(assignee: string)
    | GetGroupTasks(groupId: string)
    | GetTaskById(taskId: string)
    | GetTasksByCase(caseId: string)
    | AssignTask(taskId: string, assignee: string, comment: Option<string>)
    | CompleteTask(taskId: string, variables: Params)
    | CreateTask(taskName: string, assignee: string, taskStatus: string, taskCaseId: string)

  /** A path under `/api/`. */
  function Api(tail: string): (p: string)
    ensures StartsWith(p, "/api/") && p[5..] == tail
  {
    "/api/" + tail
  }

  /** `/api/cases/{caseId}/status`. */
  function CaseStatusPath(caseId: string): string {
    Api("cases/" + caseId + "/status")
  }

  /** The transport call each method makes. */
  function ToRequest(c: AlertCall): (r: Request)
    ensures StartsWith(r.path, "/api/")
    ensures c.UpdateCaseStatus? ==>
      (r.verb == Put && r.path == CaseStatusPath(c.caseId) &&
       r.params.Keys == {"status"} + (if c.comment.Some? then {"comment"} else {}) &&
       r.params["status"] == PStr(c.status))
  {
    match c
    case CreateCase(form) => Request(Post, Api("cases/create"), form)
    case GetAllCases => Request(Get, Api("cases"), map[])
    case GetCaseById(id) => Request(Get, Api("cases/" + id), map[])
    case UpdateCaseStatus(id, st, cm) => Request(Put, CaseStatusPath(id), With(map["status" := PStr(st)], "comment", OptStr(cm)))
    case GetCasesByStatus(st) => Request(Get, Api("cases/by-status/" + st), map[])
    case GetMyTasks(a) => Request(Get, Api("tasks/my/" + a), map[])
    case GetGroupTasks(g) => Request(Get, Api("tasks/group/" + g), map[])
    case GetTaskById(t) => Request(Get, Api("tasks/" + t), map[])
    case GetTasksByCase(cid) => Request(Get, Api("tasks/by-case/" + cid), map[])
    case AssignTask(t, a, cm) => Request(Post, Api("tasks/assign"), With(map["taskId" := PStr(t), "assignee" := PStr(a)], "comment", OptStr(cm)))
    case CompleteTask(t, vars) => Request(Post, Api("tasks/complete"), map["taskId" := PStr(t), "variables" := PObject(vars)])
    case CreateTask(n, a, st, cid) =>
      Request(Post, Api("tasks/create"), map["taskName" := PStr(n), "assignee" := PStr(a), "status" := PStr(st), "caseId" := PStr(cid)])
  }

  // ---- quickStatusUpdate ----

  /** The predefined comments of the quick status update. */
  const StatusComments: map<string, string> := map[
    "READY_FOR_ASSIGNMENT" := "Case is ready for assignment",
    "UNDER_INVESTIGATION" := "Investigation started",
    "PENDING_APPROVAL" := "Case submitted for approval",
    "CLOSED" := "Case investigation completed",
    "REJECTED" := "Case rejected after review"]

  /** The table entry for the status, or `"Status updated to " + status`. */
  function QuickStatusComment(status: string): (c: string)
    ensures c != ""
    ensures status in StatusComments ==> c == StatusComments[status]
    ensures status !in StatusComments ==> c == "Status updated to " + status
  {
    if status in StatusComments then StatusComments[status] else "Status updated to " + status
  }

  /** The statuses with a predefined comment are exactly the five listed; DRAFT falls back. */
  lemma QuickStatusCommentExamples()
    ensures StatusComments.Keys == {"READY_FOR_ASSIGNMENT", "UNDER_INVESTIGATION", "PENDING_APPROVAL", "CLOSED", "REJECTED"}
    ensures QuickStatusComment("DRAFT") == "Status updated to DRAFT"
    ensures QuickStatusComment("UNDER_INVESTIGATION") == "Investigation started"
  {
  }

  /** `quickStatusUpdate`: a status update carrying the chosen comment and the requested
      status unchanged. */
  function QuickStatusUpdate(caseId: string, status: string): (r: Request)
    ensures r == ToRequest(UpdateCaseStatus(caseId, status, Some(QuickStatusComment(status))))
    ensures r.params["status"] == PStr(status) && r.params["comment"] == PStr(QuickStatusComment(status))
  {
    ToRequest(UpdateCaseStatus(caseId, status, Some(QuickStatusComment(status))))
  }

  // ---- getUserWorkload ----

  /** The part of a task the workload summary reads. */
  datatype TaskRecord = TaskRecord(id: string, status: string)

  /** The statuses of the tasks, in order. */
  function Statuses(tasks: seq<TaskRecord>): (r: seq<string>)
    ensures |r| == |tasks| && forall i :: 0 <= i < |tasks| ==> r[i] == tasks[i].status
  {
    seq(|tasks|, i requires 0 <= i < |tasks| => tasks[i].status)
  }

  /** `tasks.filter(task => task.status === status).length`: how many times `status` occurs
      among the tasks' statuses. */
  function CountStatus(tasks: seq<TaskRecord>, status: string): (n: nat)
    ensures n <= |tasks|
    ensures n == multiset(Statuses(tasks))[status]
  {
    if tasks == [] then 0
    else
      assert Statuses(tasks) == [tasks[0].status] + Statuses(tasks[1..]);
      (if tasks[0].status == status then 1 else 0) + CountStatus(tasks[1..], status)
  }

  predicate Counted(t: TaskRecord) {
    t.status == "PENDING" || t.status == "IN_PROGRESS" || t.status == "COMPLETED"
  }

  /** The number of tasks in none of the three counted statuses. */
  function CountOther(tasks: seq<TaskRecord>): nat {
    if tasks == [] then 0
    else (if Counted(tasks[0]) then 0 else 1) + CountOther(tasks[1..])
  }

  /** Every task is counted once: in one of the three statuses or among the others. */
  lemma {:induction false} CountsPartition(tasks: seq<TaskRecord>)
    ensures CountStatus(tasks, "PENDING") + CountStatus(tasks, "IN_PROGRESS") + CountStatus(tasks, "COMPLETED") +
            CountOther(tasks) == |tasks|
    ensures CountOther(tasks) == 0 <==> forall i :: 0 <= i < |tasks| ==> Counted(tasks[i])
    decreases |tasks|
  {
    if tasks != [] {
      CountsPartition(tasks[1..]);
      assert forall i :: 1 <= i < |tasks| ==> tasks[i] == tasks[1..][i - 1];
    }
  }

  datatype Workload = Workload(myTasks: seq<TaskRecord>, taskCount: nat, pendingTasks: nat,
                               inProgressTasks: nat, completedTasks: nat)

  /** `getUserWorkload`, given the awaited `getMyTasks` response (`data` may be missing); a
      rejection is rethrown. */
  function UserWorkload(response: Result<Option<seq<TaskRecord>>, string>): (r: Result<Workload, string>)
    ensures response.Failure? <==> r.Failure?
    ensures response.Failure? ==> r.error == response.error
    ensures r.Success? ==> r.value.myTasks == response.value.GetOr([]) && r.value.taskCount == |r.value.myTasks|
    ensures r.Success? ==> r.value.pendingTasks == multiset(Statuses(r.value.myTasks))["PENDING"] &&
                           r.value.inProgressTasks == multiset(Statuses(r.value.myTasks))["IN_PROGRESS"] &&
                           r.value.completedTasks == multiset(Statuses(r.value.myTasks))["COMPLETED"]
    ensures r.Success? ==> r.value.pendingTasks + r.value.inProgressTasks + r.value.completedTasks <= r.value.taskCount
    ensures r.Success? ==> (r.value.pendingTasks + r.value.inProgressTasks + r.value.completedTasks == r.value.taskCount <==>
      forall i :: 0 <= i < |r.value.myTasks| ==> Counted(r.value.myTasks[i]))
  {
    match response
    case Failure(e) => Failure(e)
    case Success(data) =>
      var tasks := data.GetOr([]);
      CountsPartition(tasks);
      Success(Workload(tasks, |tasks|, CountStatus(tasks, "PENDING"), CountStatus(tasks, "IN_PROGRESS"),
                       CountStatus(tasks, "COMPLETED")))
  }

  /** A cancelled task is in the list but in none of the three counts. */
  lemma CancelledNotCounted()
    ensures var w := UserWorkload(Success(Some([TaskRecord("t1", "CANCELLED")])));
      w.Success? && w.value.taskCount == 1 &&
      w.value.pendingTasks + w.value.inProgressTasks + w.value.completedTasks == 0
  {
  }

  // ---- getDashboardSummary ----

  /** The statuses the summary asks for, after the unfiltered list. */
  const SummaryStatuses: seq<string> := ["DRAFT", "UNDER_INVESTIGATION", "PENDING_APPROVAL", "CLOSED", "REJECTED"]

  datatype Summary = Summary(totalCases: nat, draftCases: nat, underInvestigationCases: nat,
                             pendingApprovalCases: nat, closedCases: nat, rejectedCases: nat)

  /** `response.data?.length || 0`. */
  function DataLength<T>(data: Option<seq<T>>): (n: nat)
    ensures data.Some? ==> n == |data.value|
    ensures data.None? ==> n == 0
  {
    match data
    case Some(items) => |items|
    case None => 0
  }

  /** The first rejection among the responses, in argument order. */
  function FirstFailure<T>(responses: seq<Result<Option<seq<T>>, string>>): (e: Option<string>)
    ensures e.None? <==> forall i :: 0 <= i < |responses| ==> responses[i].Success?
    ensures e.Some? ==> exists i :: 0 <= i < |responses| && responses[i] == Failure(e.value)
  {
    if responses == [] then None
    else if responses[0].Failure? then Some(responses[0].error)
    else
      assert forall i :: 1 <= i < |responses| ==> responses[i] == responses[1..][i - 1];
      var e := FirstFailure(responses[1..]);
      if e.Some? then
        var i :| 0 <= i < |responses[1..]| && responses[1..][i] == Failure(e.value);
        assert responses[i + 1] == Failure(e.value);
        e
      else e
  }

  /** `getDashboardSummary`, given the awaited responses of `getAllCases` and of
      `getCasesByStatus` for each of `SummaryStatuses`: each count is that list's length, or 0
      without `data`; any rejection is rethrown. */
  function DashboardSummary<T>(responses: seq<Result<Option<seq<T>>, string>>): (r: Result<Summary, string>)
    requires |responses| == 1 + |SummaryStatuses|
    ensures r.Failure? <==> exists i :: 0 <= i < 6 && responses[i].Failure?
    ensures r.Failure? ==> exists i :: 0 <= i < 6 && responses[i] == Failure(r.error)
    ensures r.Success? ==> [r.value.totalCases, r.value.draftCases, r.value.underInvestigationCases,
                            r.value.pendingApprovalCases, r.value.closedCases, r.value.rejectedCases] ==
                           seq(6, i requires 0 <= i < 6 => DataLength(responses[i].value))
  {
    match FirstFailure(responses)
    case Some(e) => Failure(e)
    case None =>
      Success(Summary(DataLength(responses[0].value), DataLength(responses[1].value), DataLength(responses[2].value),
                      DataLength(responses[3].value), DataLength(responses[4].value), DataLength(responses[5].value)))
  }

  /** READY_FOR_ASSIGNMENT is never requested, so no summary count covers it. */
  lemma ReadyNeverCounted()
    ensures "READY_FOR_ASSIGNMENT" !in SummaryStatuses
  {
  }
}
