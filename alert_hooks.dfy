/** The alert-detection hooks: the `alertKeys` builders, the query hooks' keys and stale
    times, the invalidations of each mutation hook, and the status-count aggregation. */
module AlertHooks {
  import opened Wrappers
  import opened QueryCache

  const Second: nat := 1000
  const Minute: nat := 60 * Second

  // ---- alertKeys ----

  function All(): Key { [S("alert-detection")] }

  function Cases(): (k: Key)
    ensures IsPrefix(All(), k) && |k| == 2
  {
    All() + [S("cases")]
  }

  function Case(id: string): (k: Key)
    ensures IsPrefix(Cases(), k) && |k| == 3 && k[2] == S(id)
  {
    Cases() + [S(id)]
  }

  function CasesByStatus(status: string): (k: Key)
    ensures IsPrefix(Cases(), k) && |k| == 4 && k[2] == S("by-status") && k[3] == S(status)
  {
    Cases() + [S("by-status"), S(status)]
  }

  function Tasks(): (k: Key)
    ensures IsPrefix(All(), k) && |k| == 2
  {
    All() + [S("tasks")]
  }

  function Task(id: string): (k: Key)
    ensures IsPrefix(Tasks(), k) && |k| == 3 && k[2] == S(id)
  {
    Tasks() + [S(id)]
  }

  function MyTasks(assignee: string): (k: Key)
    ensures IsPrefix(Tasks(), k) && |k| == 4 && k[2] == S("my") && k[3] == S(assignee)
  {
    Tasks() + [S("my"), S(assignee)]
  }

  function GroupTasks(groupId: string): (k: Key)
    ensures IsPrefix(Tasks(), k) && |k| == 4 && k[2] == S("group") && k[3] == S(groupId)
  {
    Tasks() + [S("group"), S(groupId)]
  }

  function TasksByCase(caseId: string): (k: Key)
    ensures IsPrefix(Tasks(), k) && |k| == 4 && k[2] == S("by-case") && k[3] == S(caseId)
  {
    Tasks() + [S("by-case"), S(caseId)]
  }

  function Dashboard(): (k: Key)
    ensures IsPrefix(All(), k) && |k| == 2
  {
    All() + [S("dashboard")]
  }

  function UserWorkload(assignee: string): (k: Key)
    ensures IsPrefix(Dashboard(), k) && |k| == 4 && k[3] == S(assignee)
  {
    Dashboard() + [S("workload"), S(assignee)]
  }

  /** A case id and the status-list keys share the `cases()` level: `case(id)` prefixes
      `casesByStatus(s)` exactly when the id is the literal `"by-status"`, and a status list
      key never prefixes a case key. */
  lemma CaseVersusByStatus(id: string, status: string)
    ensures IsPrefix(Case(id), CasesByStatus(status)) <==> id == "by-status"
    ensures !IsPrefix(CasesByStatus(status), Case(id))
  {
    if IsPrefix(Case(id), CasesByStatus(status)) {
      assert Case(id)[2] == CasesByStatus(status)[2];
    }
    if id == "by-status" {
      assert CasesByStatus(status)[..3] == Case(id);
    }
  }

  // ---- query hooks ----

  datatype AlertQuery =
    | UseAllCases
    | UseCaseById(caseId: string)
    | UseCasesByStatus(status: string)
    | UseMyTasks(assignee: string)
    | UseGroupTasks(groupId: string)
    | UseTaskById(taskId: string)
    | UseTasksByCase(caseId: string)
    | UseDashboardSummary
    | UseUserWorkload(assignee: string)

  function QueryKey(q: AlertQuery): (k: Key)
    ensures IsPrefix(All(), k)
  {
    match q
    case UseAllCases => Cases()
    case UseCaseById(c) => Case(c)
    case UseCasesByStatus(s) => CasesByStatus(s)
    case UseMyTasks(a) => MyTasks(a)
    case UseGroupTasks(g) => GroupTasks(g)
    case UseTaskById(t) => Task(t)
    case UseTasksByCase(c) => TasksByCase(c)
    case UseDashboardSummary => Dashboard()
    case UseUserWorkload(a) => UserWorkload(a)
  }

  /** `staleTime` in milliseconds. */
  function StaleTime(q: AlertQuery): (t: nat)
    ensures 2 * Minute <= t <= 5 * Minute
  {
    match q
    case UseAllCases => 5 * Minute
    case UseCaseById(_) => 2 * Minute
    case UseCasesByStatus(_) => 3 * Minute
    case UseMyTasks(_) => 2 * Minute
    case UseGroupTasks(_) => 3 * Minute
    case UseTaskById(_) => 2 * Minute
    case UseTasksByCase(_) => 2 * Minute
    case UseDashboardSummary => 5 * Minute
    case UseUserWorkload(_) => 3 * Minute
  }

  /** `enabled`: every hook with an argument requires it to be non-empty. */
  predicate Enabled(q: AlertQuery) {
    match q
    case UseAllCases => true
    case UseCaseById(c) => c != ""
    case UseCasesByStatus(s) => s != ""
    case UseMyTasks(a) => a != ""
    case UseGroupTasks(g) => g != ""
    case UseTaskById(t) => t != ""
    case UseTasksByCase(c) => c != ""
    case UseDashboardSummary => true
    case UseUserWorkload(a) => a != ""
  }

  /** A hook given an empty argument never fetches. */
  lemma EmptyArgumentNeverFetches(q: AlertQuery, entries: map<Key, Entry>, now: int)
    requires QueryKey(q)[|QueryKey(q)| - 1] == S("")
    ensures !Observe(entries, QueryKey(q), StaleTime(q), now, Enabled(q)).fetches
  {
  }

  // ---- mutation hooks ----

  datatype AlertMutation =
    | CreateCase
    | UpdateCaseStatus(caseId: string, status: string)
    | QuickStatusUpdate(caseId: string, status: string)
    | AssignTask(taskId: string, assignee: string)
    | CompleteTask(taskId: string)
    | CreateTask(caseId: string, assignee: string)

  /** The `invalidateQueries` keys of the `onSuccess` handler, in call order. */
  function Invalidations(m: AlertMutation): (ps: seq<Key>)
    ensures 2 <= |ps| <= 4
    ensures forall i :: 0 <= i < |ps| ==> IsPrefix(All(), ps[i])
  {
    match m
    case CreateCase => [Cases(), Dashboard()]
    case UpdateCaseStatus(c, s) => [Case(c), Cases(), CasesByStatus(s), Dashboard()]
    case QuickStatusUpdate(c, s) => [Case(c), Cases(), CasesByStatus(s)]
    case AssignTask(t, a) => [Task(t), MyTasks(a), Tasks()]
    case CompleteTask(t) => [Task(t), Tasks(), Dashboard()]
    case CreateTask(c, a) => [Tasks(), TasksByCase(c), MyTasks(a)]
  }

  method Mutate(client: QueryClient, m: AlertMutation, succeeded: bool)
    modifies client
    ensures client.entries == if succeeded then MarkStale(old(client.entries), Invalidations(m)) else old(client.entries)
  {
    client.Settle(Invalidations(m), succeeded);
  }

  /** Updating a case status reaches everything under `cases()` and `dashboard()`: every status
      list, including the one the case left, goes stale, and the `case(id)` and
      `casesByStatus(status)` calls add nothing. */
  lemma UpdateStatusReach(caseId: string, status: string, oldStatus: string, k: Key)
    ensures Matches(Invalidations(UpdateCaseStatus(caseId, status)), k) <==>
      IsPrefix(Cases(), k) || IsPrefix(Dashboard(), k)
    ensures Matches(Invalidations(UpdateCaseStatus(caseId, status)), CasesByStatus(oldStatus))
  {
    Matches4(Case(caseId), Cases(), CasesByStatus(status), Dashboard(), k);
    if IsPrefix(Case(caseId), k) {
      PrefixTransitive(Cases(), Case(caseId), k);
    }
    if IsPrefix(CasesByStatus(status), k) {
      PrefixTransitive(Cases(), CasesByStatus(status), k);
    }
    Matches4(Case(caseId), Cases(), CasesByStatus(status), Dashboard(), CasesByStatus(oldStatus));
  }

  /** The quick status update reaches only the `cases()` subtree: unlike the full status
      update it leaves the dashboard summary stale-free. */
  lemma QuickUpdateReach(caseId: string, status: string, k: Key)
    ensures Matches(Invalidations(QuickStatusUpdate(caseId, status)), k) <==> IsPrefix(Cases(), k)
    ensures !Matches(Invalidations(QuickStatusUpdate(caseId, status)), Dashboard())
    ensures Matches(Invalidations(UpdateCaseStatus(caseId, status)), Dashboard())
  {
    Matches3(Case(caseId), Cases(), CasesByStatus(status), k);
    if IsPrefix(Case(caseId), k) {
      PrefixTransitive(Cases(), Case(caseId), k);
    }
    if IsPrefix(CasesByStatus(status), k) {
      PrefixTransitive(Cases(), CasesByStatus(status), k);
    }
    Matches3(Case(caseId), Cases(), CasesByStatus(status), Dashboard());
    assert Dashboard()[1] == S("dashboard");
    UpdateStatusReach(caseId, status, status, Dashboard());
  }

  /** Assigning a task marks the previous assignee's list stale only through `tasks()`: neither
      `task(id)` (for an id other than `"my"`) nor `myTasks(newAssignee)` prefixes it. */
  lemma AssignTaskReach(taskId: string, assignee: string, previous: string, k: Key)
    ensures Matches(Invalidations(AssignTask(taskId, assignee)), k) <==> IsPrefix(Tasks(), k)
    ensures Matches(Invalidations(AssignTask(taskId, assignee)), MyTasks(previous))
    ensures previous != assignee && taskId != "my" ==>
      !IsPrefix(Task(taskId), MyTasks(previous)) && !IsPrefix(MyTasks(assignee), MyTasks(previous))
  {
    Matches3(Task(taskId), MyTasks(assignee), Tasks(), k);
    if IsPrefix(Task(taskId), k) {
      PrefixTransitive(Tasks(), Task(taskId), k);
    }
    if IsPrefix(MyTasks(assignee), k) {
      PrefixTransitive(Tasks(), MyTasks(assignee), k);
    }
    Matches3(Task(taskId), MyTasks(assignee), Tasks(), MyTasks(previous));
    if IsPrefix(Task(taskId), MyTasks(previous)) {
      assert Task(taskId)[2] == MyTasks(previous)[2];
    }
    if IsPrefix(MyTasks(assignee), MyTasks(previous)) {
      assert MyTasks(assignee)[3] == MyTasks(previous)[3];
    }
  }

  // ---- useCaseStatusCounts ----

  /** The status lists the dashboard cards count, in the order of the `||` chains. */
  const CountedStatuses: seq<string> :=
    ["DRAFT", "READY_FOR_ASSIGNMENT", "UNDER_INVESTIGATION", "PENDING_APPROVAL", "CLOSED", "REJECTED"]

  /** A response whose `data` field may be missing. */
  datatype ListResponse<T> = ListResponse(data: Option<seq<T>>)

  /** What one `useQuery` result exposes to the aggregation. */
  datatype QueryResult<T> = QueryResult(data: Option<ListResponse<T>>, isLoading: bool, error: Option<string>)

  /** `q.data?.data?.length || 0`. */
  function Count<T>(q: QueryResult<T>): (n: nat)
    ensures q.data.Some? && q.data.value.data.Some? ==> n == |q.data.value.data.value|
    ensures q.data.None? || q.data.value.data.None? ==> n == 0
  {
    match q.data
    case Some(ListResponse(Some(items))) => |items|
    case _ => 0
  }

  function AnyLoading<T>(qs: seq<QueryResult<T>>): (b: bool)
    ensures b <==> exists i :: 0 <= i < |qs| && qs[i].isLoading
  {
    if qs == [] then false
    else if qs[0].isLoading then true
    else
      assert forall i :: 1 <= i < |qs| ==> qs[i] == qs[1..][i - 1];
      AnyLoading(qs[1..])
  }

  /** The first non-null error of an `||` chain. */
  function FirstError<T>(qs: seq<QueryResult<T>>): (e: Option<string>)
    ensures e.None? <==> forall i :: 0 <= i < |qs| ==> qs[i].error.None?
    ensures e.Some? ==>
      exists i :: 0 <= i < |qs| && qs[i].error == e && forall j :: 0 <= j < i ==> qs[j].error.None?
  {
    if qs == [] then None
    else if qs[0].error.Some? then qs[0].error
    else
      var e := FirstError(qs[1..]);
      assert forall i :: 1 <= i < |qs| ==> qs[i] == qs[1..][i - 1];
      if e.Some? then
        var i :| 0 <= i < |qs[1..]| && qs[1..][i].error == e && forall j :: 0 <= j < i ==> qs[1..][j].error.None?;
        assert qs[i + 1].error == e && forall j :: 0 <= j < i + 1 ==> qs[j].error.None?;
        e
      else e
  }

  datatype StatusCounts = StatusCounts(
    draft: nat, ready: nat, investigation: nat, pending: nat, closed: nat, rejected: nat,
    isLoading: bool, error: Option<string>)

  /** `useCaseStatusCounts`, given the six `useCasesByStatus` results in the order of
      `CountedStatuses`. */
  function CaseStatusCounts<T>(qs: seq<QueryResult<T>>): (r: StatusCounts)
    requires |qs| == |CountedStatuses|
    ensures [r.draft, r.ready, r.investigation, r.pending, r.closed, r.rejected] ==
      seq(6, i requires 0 <= i < 6 => Count(qs[i]))
    ensures r.isLoading <==> exists i :: 0 <= i < 6 && qs[i].isLoading
    ensures r.error.None? <==> forall i :: 0 <= i < 6 ==> qs[i].error.None?
    ensures r.error.Some? ==>
      exists i :: 0 <= i < 6 && qs[i].error == r.error && forall j :: 0 <= j < i ==> qs[j].error.None?
  {
    StatusCounts(Count(qs[0]), Count(qs[1]), Count(qs[2]), Count(qs[3]), Count(qs[4]), Count(qs[5]),
      AnyLoading(qs), FirstError(qs))
  }

  /** Any status update, quick or full, makes all six counted lists stale. */
  lemma StatusUpdateStalesAllCounts(caseId: string, status: string, i: nat)
    requires i < |CountedStatuses|
    ensures Matches(Invalidations(UpdateCaseStatus(caseId, status)), QueryKey(UseCasesByStatus(CountedStatuses[i])))
    ensures Matches(Invalidations(QuickStatusUpdate(caseId, status)), QueryKey(UseCasesByStatus(CountedStatuses[i])))
  {
    UpdateStatusReach(caseId, status, CountedStatuses[i], CasesByStatus(CountedStatuses[i]));
    QuickUpdateReach(caseId, status, CasesByStatus(CountedStatuses[i]));
  }
}
