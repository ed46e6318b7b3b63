/** The task query hooks: the `taskKeys` builders, the key, stale time and
    `enabled` flag of each query hook, and the invalidations of each mutation hook. */
module TaskHooks {
  import opened Wrappers
  import opened Types
  import opened QueryCache

  const Second: nat := 1000
  const Minute: nat := 60 * Second

  // ---- taskKeys ----

  function All(): Key { [S("tasks")] }

  function Lists(): (k: Key)
    ensures IsPrefix(All(), k) && |k| == 2
  {
    All() + [S("list")]
  }

  /** The list key records `filters`, `sort` and `page`, and nothing else. */
  function List(filters: Option<TaskFilters>, sort: Option<SortConfig>, page: Option<int>): (k: Key)
    ensures IsPrefix(Lists(), k) && |k| == |Lists()| + 1
    ensures k[|k| - 1] == TaskListArgs(filters, sort, page)
  {
    Lists() + [TaskListArgs(filters, sort, page)]
  }

  function Details(): (k: Key)
    ensures IsPrefix(All(), k) && |k| == 2
  {
    All() + [S("detail")]
  }

  function Detail(id: string): (k: Key)
    ensures IsPrefix(Details(), k) && |k| == 3 && k[2] == S(id)
  {
    Details() + [S(id)]
  }

  function MyTasks(): (k: Key)
    ensures IsPrefix(All(), k) && |k| == 2
  {
    All() + [S("my")]
  }

  function Available(): (k: Key)
    ensures IsPrefix(All(), k) && |k| == 2
  {
    All() + [S("available")]
  }

  function Group(groupName: string): (k: Key)
    ensures IsPrefix(All(), k) && |k| == 3 && k[2] == S(groupName)
  {
    All() + [S("group"), S(groupName)]
  }

  function ByCase(caseId: string): (k: Key)
    ensures IsPrefix(All(), k) && |k| == 3 && k[2] == S(caseId)
  {
    All() + [S("case"), S(caseId)]
  }

  function Overdue(): (k: Key)
    ensures IsPrefix(All(), k) && |k| == 2
  {
    All() + [S("overdue")]
  }

  function Comments(taskId: string): (k: Key)
    ensures IsPrefix(Detail(taskId), k) && |k| == 4
  {
    Detail(taskId) + [S("comments")]
  }

  function History(taskId: string): (k: Key)
    ensures IsPrefix(Detail(taskId), k) && |k| == 4
  {
    Detail(taskId) + [S("history")]
  }

  function Statistics(): (k: Key)
    ensures IsPrefix(All(), k) && |k| == 2
  {
    All() + [S("statistics")]
  }

  /** An optional id in a key; `undefined` is hashed as `null`. */
  function OptSeg(id: Option<string>): Seg {
    match id
    case Some(u) => S(u)
    case None => Absent
  }

  function DateRangeSeg(dateRange: Option<DateRange>): Seg {
    match dateRange
    case Some(r) => Range(r)
    case None => Absent
  }

  function Workload(userId: Option<string>): (k: Key)
    ensures IsPrefix(All(), k) && |k| == 3 && k[2] == OptSeg(userId)
  {
    All() + [S("workload"), OptSeg(userId)]
  }

  function Performance(userId: Option<string>): (k: Key)
    ensures IsPrefix(All(), k) && |k| == 3 && k[2] == OptSeg(userId)
  {
    All() + [S("performance"), OptSeg(userId)]
  }

  // ---- query hooks ----

  /** One call of a query hook, with its arguments after defaults are applied. */
  datatype TaskQuery =
    | UseTasks(filters: Option<TaskFilters>, sort: Option<SortConfig>, page: int, size: int)
    | UseTask(id: string)
    | UseMyTasks(page: int, size: int, status: Option<seq<string>>)
    | UseAvailableTasks(page: int, size: int)
    | UseGroupTasks(groupName: string, page: int, size: int)
    | UseTasksByCase(caseId: string, page: int, size: int)
    | UseOverdueTasks(page: int, size: int)
    | UseTaskComments(taskId: string)
    | UseTaskHistory(taskId: string)
    | UseTaskStatistics(dateRange: Option<DateRange>)
    | UseUserWorkload(userId: Option<string>)
    | UseTaskPerformance(userId: Option<string>, dateRange: Option<DateRange>)

  function QueryKey(q: TaskQuery): (k: Key)
    ensures IsPrefix(All(), k)
  {
    match q
    case UseTasks(f, s, p, _) => List(f, s, Some(p))
    case UseTask(id) => Detail(id)
    case UseMyTasks(p, z, st) => MyTasks() + [PageArgs(p, z, st)]
    case UseAvailableTasks(p, z) => Available() + [PageArgs(p, z, None)]
    case UseGroupTasks(g, p, z) => Group(g) + [PageArgs(p, z, None)]
    case UseTasksByCase(c, p, z) => ByCase(c) + [PageArgs(p, z, None)]
    case UseOverdueTasks(p, z) => Overdue() + [PageArgs(p, z, None)]
    case UseTaskComments(t) => Comments(t)
    case UseTaskHistory(t) => History(t)
    case UseTaskStatistics(r) => Statistics() + [DateRangeSeg(r)]
    case UseUserWorkload(u) => Workload(u)
    case UseTaskPerformance(u, r) => Performance(u) + [DateRangeSeg(r)]
  }

  /** `staleTime` in milliseconds. */
  function StaleTime(q: TaskQuery): (t: nat)
    ensures 30 * Second <= t <= 10 * Minute
  {
    match q
    case UseTasks(_, _, _, _) => 2 * Minute
    case UseTask(_) => 1 * Minute
    case UseMyTasks(_, _, _) => 1 * Minute
    case UseAvailableTasks(_, _) => 30 * Second
    case UseGroupTasks(_, _, _) => 1 * Minute
    case UseTasksByCase(_, _, _) => 2 * Minute
    case UseOverdueTasks(_, _) => 1 * Minute
    case UseTaskComments(_) => 30 * Second
    case UseTaskHistory(_) => 5 * Minute
    case UseTaskStatistics(_) => 10 * Minute
    case UseUserWorkload(_) => 5 * Minute
    case UseTaskPerformance(_, _) => 10 * Minute
  }

  /** `enabled`: `!!id` on the id-keyed hooks, otherwise the default `true`. */
  predicate Enabled(q: TaskQuery) {
    match q
    case UseTask(id) => id != ""
    case UseGroupTasks(g, _, _) => g != ""
    case UseTasksByCase(c, _, _) => c != ""
    case UseTaskComments(t) => t != ""
    case UseTaskHistory(t) => t != ""
    case _ => true
  }

  /** The id an id-keyed hook is called with. */
  function KeyId(q: TaskQuery): Option<string> {
    match q
    case UseTask(id) => Some(id)
    case UseGroupTasks(g, _, _) => Some(g)
    case UseTasksByCase(c, _, _) => Some(c)
    case UseTaskComments(t) => Some(t)
    case UseTaskHistory(t) => Some(t)
    case _ => None
  }

  /** A hook given the empty id never fetches; every other hook fetches when it has no cached value. */
  lemma EnabledUnlessEmptyId(q: TaskQuery, entries: map<Key, Entry>, now: int)
    ensures KeyId(q) == Some("") ==> !Observe(entries, QueryKey(q), StaleTime(q), now, Enabled(q)).fetches
    ensures KeyId(q) != Some("") && QueryKey(q) !in entries ==>
      Observe(entries, QueryKey(q), StaleTime(q), now, Enabled(q)).fetches
  {
  }

  /** Each query's entry stays fresh for exactly its stale time after a fetch: list 2 min,
      detail 1 min, my tasks 1 min, available 30 s, group 1 min, by case 2 min, overdue 1 min,
      comments 30 s, history 5 min, statistics 10 min, workload 5 min, performance 10 min. */
  lemma StaleWindows(q: TaskQuery, fetchedAt: int, data: string)
    ensures var window := match q
      case UseTasks(_, _, _, _) => 2 * Minute
      case UseTask(_) => 1 * Minute
      case UseMyTasks(_, _, _) => 1 * Minute
      case UseAvailableTasks(_, _) => 30 * Second
      case UseGroupTasks(_, _, _) => 1 * Minute
      case UseTasksByCase(_, _, _) => 2 * Minute
      case UseOverdueTasks(_, _) => 1 * Minute
      case UseTaskComments(_) => 30 * Second
      case UseTaskHistory(_) => 5 * Minute
      case UseTaskStatistics(_) => 10 * Minute
      case UseUserWorkload(_) => 5 * Minute
      case UseTaskPerformance(_, _) => 10 * Minute;
      IsFresh(Entry(data, fetchedAt, false), StaleTime(q), fetchedAt + window - 1) &&
      !IsFresh(Entry(data, fetchedAt, false), StaleTime(q), fetchedAt + window)
  {
  }

  /** Two `useTasks` calls share an entry exactly when `filters`, `sort` and `page` agree;
      `size` plays no part. */
  lemma ListKeyOmitsSize(f1: Option<TaskFilters>, s1: Option<SortConfig>, p1: int, z1: int,
                         f2: Option<TaskFilters>, s2: Option<SortConfig>, p2: int, z2: int)
    ensures QueryKey(UseTasks(f1, s1, p1, z1)) == QueryKey(UseTasks(f2, s2, p2, z2)) <==>
      f1 == f2 && s1 == s2 && p1 == p2
  {
    if QueryKey(UseTasks(f1, s1, p1, z1)) == QueryKey(UseTasks(f2, s2, p2, z2)) {
      assert QueryKey(UseTasks(f1, s1, p1, z1))[2] == QueryKey(UseTasks(f2, s2, p2, z2))[2];
    }
  }

  /** The my-tasks, available, group, by-case and overdue keys record both `page` and `size`:
      two calls of one of these hooks that differ in either have different entries. */
  lemma PagedKeysRecordSize(q1: TaskQuery, q2: TaskQuery)
    requires (q1.UseMyTasks? && q2.UseMyTasks?) || (q1.UseAvailableTasks? && q2.UseAvailableTasks?) ||
             (q1.UseGroupTasks? && q2.UseGroupTasks?) || (q1.UseTasksByCase? && q2.UseTasksByCase?) ||
             (q1.UseOverdueTasks? && q2.UseOverdueTasks?)
    ensures QueryKey(q1) == QueryKey(q2) ==> q1.page == q2.page && q1.size == q2.size
  {
    if QueryKey(q1) == QueryKey(q2) {
      var k := QueryKey(q1);
      assert k[|k| - 1] == QueryKey(q2)[|k| - 1];
    }
  }

  // ---- mutation hooks ----

  /** One mutation hook, with the variables its `onSuccess` reads. */
  datatype TaskMutation =
    | CreateTask(caseId: string)
    | UpdateTask(id: string)
    | DeleteTask
    | ClaimTask(id: string)
    | ReleaseTask(id: string)
    | AssignTask(id: string)
    | CompleteTask(id: string)
    | StartTask(id: string)
    | PauseTask(id: string)
    | ResumeTask(id: string)
    | CancelTask(id: string)
    | AddTaskComment(taskId: string)
    | UpdateTaskComment(taskId: string)
    | DeleteTaskComment(taskId: string)
    | UpdateTaskVariables(id: string)
    | BulkAssignTasks
    | BulkCompleteTasks
    | BulkCancelTasks

  /** The `invalidateQueries` keys of the `onSuccess` handler, in call order. */
  function Invalidations(m: TaskMutation): (ps: seq<Key>)
    ensures 1 <= |ps| <= 5
    ensures forall i :: 0 <= i < |ps| ==> IsPrefix(All(), ps[i])
  {
    match m
    case CreateTask(c) => [Lists(), ByCase(c), Statistics()]
    case UpdateTask(id) => [Detail(id), Lists()]
    case DeleteTask => [Lists(), Statistics()]
    case ClaimTask(id) => [Detail(id), Lists(), Available(), MyTasks()]
    case ReleaseTask(id) => [Detail(id), Lists(), Available(), MyTasks()]
    case AssignTask(id) => [Detail(id), Lists()]
    case CompleteTask(id) => [Detail(id), Lists(), MyTasks(), Statistics(), History(id)]
    case StartTask(id) => [Detail(id), Lists(), MyTasks()]
    case PauseTask(id) => [Detail(id), Lists(), MyTasks()]
    case ResumeTask(id) => [Detail(id), Lists(), MyTasks()]
    case CancelTask(id) => [Detail(id), Lists(), MyTasks(), Statistics()]
    case AddTaskComment(t) => [Comments(t)]
    case UpdateTaskComment(t) => [Comments(t)]
    case DeleteTaskComment(t) => [Comments(t)]
    case UpdateTaskVariables(id) => [Detail(id)]
    case BulkAssignTasks => [Lists()]
    case BulkCompleteTasks => [Lists(), Statistics()]
    case BulkCancelTasks => [Lists(), Statistics()]
  }

  /** A settled mutation: on success the cache is invalidated under its keys, on failure
      nothing changes. */
  method Mutate(client: QueryClient, m: TaskMutation, succeeded: bool)
    modifies client
    ensures client.entries == if succeeded then MarkStale(old(client.entries), Invalidations(m)) else old(client.entries)
  {
    client.Settle(Invalidations(m), succeeded);
  }

  /** Completing a task reaches its detail subtree, the lists, my tasks and the statistics; the
      explicit `history(id)` call is subsumed by `detail(id)`. */
  lemma CompleteReach(id: string, k: Key)
    ensures Matches(Invalidations(CompleteTask(id)), k) <==>
      IsPrefix(Detail(id), k) || IsPrefix(Lists(), k) || IsPrefix(MyTasks(), k) || IsPrefix(Statistics(), k)
    ensures var ps := Invalidations(CompleteTask(id));
      Matches(ps, k) <==> Matches(ps[..4] + ps[5..], k)
  {
    Matches5(Detail(id), Lists(), MyTasks(), Statistics(), History(id), k);
    if IsPrefix(History(id), k) {
      PrefixTransitive(Detail(id), History(id), k);
    }
    SubsumedPrefix(Invalidations(CompleteTask(id)), 4, 0, k);
  }

  /** Completing a task leaves the available, overdue, by-case, workload and performance
      entries alone. */
  lemma CompleteSpares(id: string, k: Key, caseId: string, userId: Option<string>)
    requires IsPrefix(Available(), k) || IsPrefix(Overdue(), k) || IsPrefix(ByCase(caseId), k) ||
             IsPrefix(Workload(userId), k) || IsPrefix(Performance(userId), k)
    ensures !Matches(Invalidations(CompleteTask(id)), k)
  {
    CompleteReach(id, k);
    var second := k[1];
    assert second == S("available") || second == S("overdue") || second == S("case") ||
           second == S("workload") || second == S("performance");
    SecondSegment(Detail(id), k);
    SecondSegment(Lists(), k);
    SecondSegment(MyTasks(), k);
    SecondSegment(Statistics(), k);
  }

  /** Claim and release reach the same entries. */
  lemma ClaimReleaseReach(id: string, k: Key)
    ensures Matches(Invalidations(ClaimTask(id)), k) <==>
      IsPrefix(Detail(id), k) || IsPrefix(Lists(), k) || IsPrefix(Available(), k) || IsPrefix(MyTasks(), k)
    ensures Matches(Invalidations(ReleaseTask(id)), k) <==> Matches(Invalidations(ClaimTask(id)), k)
  {
    Matches4(Detail(id), Lists(), Available(), MyTasks(), k);
  }

  /** Creating a task reaches the lists, that case's task lists and the statistics, and no entry
      under my tasks or available tasks. */
  lemma CreateReach(caseId: string, k: Key)
    ensures Matches(Invalidations(CreateTask(caseId)), k) <==>
      IsPrefix(Lists(), k) || IsPrefix(ByCase(caseId), k) || IsPrefix(Statistics(), k)
    ensures IsPrefix(MyTasks(), k) || IsPrefix(Available(), k) ==> !Matches(Invalidations(CreateTask(caseId)), k)
  {
    Matches3(Lists(), ByCase(caseId), Statistics(), k);
    if IsPrefix(MyTasks(), k) || IsPrefix(Available(), k) {
      assert k[1] == S("my") || k[1] == S("available");
    }
  }

  /** Start, pause and resume reach the detail subtree, the lists and my tasks; cancel also
      reaches the statistics. */
  lemma LifecycleReach(m: TaskMutation, k: Key)
    requires m.StartTask? || m.PauseTask? || m.ResumeTask? || m.CancelTask?
    ensures Matches(Invalidations(m), k) <==>
      IsPrefix(Detail(m.id), k) || IsPrefix(Lists(), k) || IsPrefix(MyTasks(), k) ||
      (m.CancelTask? && IsPrefix(Statistics(), k))
  {
    Matches3(Detail(m.id), Lists(), MyTasks(), k);
    Matches4(Detail(m.id), Lists(), MyTasks(), Statistics(), k);
  }

  /** Comment mutations reach only that task's comments; updating variables reaches only that
      task's detail subtree. */
  lemma NarrowReach(m: TaskMutation, k: Key)
    requires m.AddTaskComment? || m.UpdateTaskComment? || m.DeleteTaskComment? || m.UpdateTaskVariables?
    ensures m.UpdateTaskVariables? ==> (Matches(Invalidations(m), k) <==> IsPrefix(Detail(m.id), k))
    ensures !m.UpdateTaskVariables? ==> (Matches(Invalidations(m), k) <==> IsPrefix(Comments(m.taskId), k))
  {
    if m.UpdateTaskVariables? {
      Matches1(Detail(m.id), k);
    } else {
      Matches1(Comments(m.taskId), k);
    }
  }
}
