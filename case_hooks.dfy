/** The case query hooks: the `caseKeys` builders, the key, stale time and
    `enabled` flag of each query hook, and the invalidations of each mutation hook. */
module CaseHooks {
  import opened Wrappers
  import opened Types
  import opened QueryCache

  const Second: nat := 1000
  const Minute: nat := 60 * Second

  // ---- caseKeys ----

  function All(): Key { [S("cases")] }

  function Lists(): (k: Key)
    ensures IsPrefix(All(), k) && |k| == 2
  {
    All() + [S("list")]
  }

  /** The list key records `filters`, `sort` and `page`, and nothing else. */
  function List(filters: Option<CaseFilters>, sort: Option<SortConfig>, page: Option<int>): (k: Key)
    ensures IsPrefix(Lists(), k) && |k| == |Lists()| + 1
    ensures k[|k| - 1] == CaseListArgs(filters, sort, page)
  {
    Lists() + [CaseListArgs(filters, sort, page)]
  }

  function Details(): (k: Key)
    ensures IsPrefix(All(), k) && |k| == 2
  {
    All() + [S("detail")]
  }

  function Detail(id: string): (k: Key)
    ensures IsPrefix(Details(), k) && |k| == 3 && k[2] == S(id)
  {
    Details() + [S(id)]
  }

  function MyCases(): (k: Key)
    ensures IsPrefix(All(), k) && |k| == 2
  {
    All() + [S("my")]
  }

  function Approval(): (k: Key)
    ensures IsPrefix(All(), k) && |k| == 2
  {
    All() + [S("approval")]
  }

  function Comments(caseId: string): (k: Key)
    ensures IsPrefix(Detail(caseId), k) && |k| == 4
  {
    Detail(caseId) + [S("comments")]
  }

  function Audit(caseId: string): (k: Key)
    ensures IsPrefix(Detail(caseId), k) && |k| == 4
  {
    Detail(caseId) + [S("audit")]
  }

  function Related(caseId: string): (k: Key)
    ensures IsPrefix(Detail(caseId), k) && |k| == 4
  {
    Detail(caseId) + [S("related")]
  }

  function Statistics(): (k: Key)
    ensures IsPrefix(All(), k) && |k| == 2
  {
    All() + [S("statistics")]
  }

  /** The detail key of one case prefixes only that case's keys. */
  lemma DetailPrefixIff(id: string, other: string)
    ensures IsPrefix(Detail(id), Comments(other)) <==> id == other
    ensures IsPrefix(Detail(id), Audit(other)) <==> id == other
    ensures IsPrefix(Detail(id), Related(other)) <==> id == other
  {
    assert Comments(other)[2] == S(other);
    assert Audit(other)[2] == S(other);
    assert Related(other)[2] == S(other);
  }

  // ---- query hooks ----

  /** One call of a query hook, with its arguments after defaults are applied. */
  datatype CaseQuery =
    | UseCases(filters: Option<CaseFilters>, sort: Option<SortConfig>, page: int, size: int)
    | UseCase(id: string)
    | UseMyCases(page: int, size: int, status: Option<seq<string>>)
    | UseCasesForApproval(page: int, size: int)
    | UseCaseComments(caseId: string)
    | UseCaseAuditTrail(caseId: string)
    | UseRelatedCases(caseId: string)
    | UseCaseStatistics(dateRange: Option<DateRange>)

  function DateRangeSeg(dateRange: Option<DateRange>): Seg {
    match dateRange
    case Some(r) => Range(r)
    case None => Absent
  }

  function QueryKey(q: CaseQuery): (k: Key)
    ensures IsPrefix(All(), k)
  {
    match q
    case UseCases(f, s, p, _) => List(f, s, Some(p))
    case UseCase(id) => Detail(id)
    case UseMyCases(p, z, st) => MyCases() + [PageArgs(p, z, st)]
    case UseCasesForApproval(p, z) => Approval() + [PageArgs(p, z, None)]
    case UseCaseComments(c) => Comments(c)
    case UseCaseAuditTrail(c) => Audit(c)
    case UseRelatedCases(c) => Related(c)
    case UseCaseStatistics(r) => Statistics() + [DateRangeSeg(r)]
  }

  /** `staleTime` in milliseconds. */
  function StaleTime(q: CaseQuery): (t: nat)
    ensures 30 * Second <= t <= 10 * Minute
  {
    match q
    case UseCases(_, _, _, _) => 5 * Minute
    case UseCase(_) => 2 * Minute
    case UseMyCases(_, _, _) => 2 * Minute
    case UseCasesForApproval(_, _) => 1 * Minute
    case UseCaseComments(_) => 30 * Second
    case UseCaseAuditTrail(_) => 2 * Minute
    case UseRelatedCases(_) => 5 * Minute
    case UseCaseStatistics(_) => 10 * Minute
  }

  /** `enabled`: `!!id` on the id-keyed hooks, otherwise the default `true`. */
  predicate Enabled(q: CaseQuery) {
    match q
    case UseCase(id) => id != ""
    case UseCaseComments(c) => c != ""
    case UseCaseAuditTrail(c) => c != ""
    case UseRelatedCases(c) => c != ""
    case _ => true
  }

  /** The id an id-keyed hook is called with. */
  function KeyId(q: CaseQuery): Option<string> {
    match q
    case UseCase(id) => Some(id)
    case UseCaseComments(c) => Some(c)
    case UseCaseAuditTrail(c) => Some(c)
    case UseRelatedCases(c) => Some(c)
    case _ => None
  }

  /** A hook given the empty id never fetches; every other hook fetches when it has no cached value. */
  lemma EnabledUnlessEmptyId(q: CaseQuery, entries: map<Key, Entry>, now: int)
    ensures KeyId(q) == Some("") ==> !Observe(entries, QueryKey(q), StaleTime(q), now, Enabled(q)).fetches
    ensures KeyId(q) != Some("") && QueryKey(q) !in entries ==>
      Observe(entries, QueryKey(q), StaleTime(q), now, Enabled(q)).fetches
  {
  }

  /** Each query's entry stays fresh for exactly its stale time after a fetch:
      list 5 min, detail 2 min, my cases 2 min, approval 1 min, comments 30 s,
      audit 2 min, related 5 min, statistics 10 min. */
  lemma StaleWindows(q: CaseQuery, fetchedAt: int, data: string)
    ensures var window := match q
      case UseCases(_, _, _, _) => 5 * Minute
      case UseCase(_) => 2 * Minute
      case UseMyCases(_, _, _) => 2 * Minute
      case UseCasesForApproval(_, _) => 1 * Minute
      case UseCaseComments(_) => 30 * Second
      case UseCaseAuditTrail(_) => 2 * Minute
      case UseRelatedCases(_) => 5 * Minute
      case UseCaseStatistics(_) => 10 * Minute;
      IsFresh(Entry(data, fetchedAt, false), StaleTime(q), fetchedAt + window - 1) &&
      !IsFresh(Entry(data, fetchedAt, false), StaleTime(q), fetchedAt + window)
  {
  }

  /** A case list shown again four minutes after its fetch is served from the cache without a
      request; six minutes after, the cached value is still shown and one refetch starts. */
  lemma ListRemountScenario(f: Option<CaseFilters>, s: Option<SortConfig>, page: int, size: int,
                            entries: map<Key, Entry>, data: string, t: int)
    ensures var q := UseCases(f, s, page, size);
      var cached := entries[QueryKey(q) := Entry(data, t, false)];
      Observe(cached, QueryKey(q), StaleTime(q), t + 4 * Minute, Enabled(q)) == Observation(Some(data), false) &&
      Observe(cached, QueryKey(q), StaleTime(q), t + 6 * Minute, Enabled(q)) == Observation(Some(data), true)
  {
  }

  /** Two `useCases` calls share an entry exactly when `filters`, `sort` and `page` agree;
      `size` plays no part. */
  lemma ListKeyOmitsSize(f1: Option<CaseFilters>, s1: Option<SortConfig>, p1: int, z1: int,
                         f2: Option<CaseFilters>, s2: Option<SortConfig>, p2: int, z2: int)
    ensures QueryKey(UseCases(f1, s1, p1, z1)) == QueryKey(UseCases(f2, s2, p2, z2)) <==>
      f1 == f2 && s1 == s2 && p1 == p2
  {
    if QueryKey(UseCases(f1, s1, p1, z1)) == QueryKey(UseCases(f2, s2, p2, z2)) {
      assert QueryKey(UseCases(f1, s1, p1, z1))[2] == QueryKey(UseCases(f2, s2, p2, z2))[2];
    }
  }

  // ---- mutation hooks ----

  /** One mutation hook, with the variables its `onSuccess` reads. */
  datatype CaseMutation =
    | CreateCase
    | UpdateCase(id: string)
    | DeleteCase
    | ChangeStatus(id: string)
    | AssignCase(id: string)
    | AddComment(caseId: string)
    | UpdateComment(caseId: string)
    | DeleteComment(caseId: string)
    | ApproveCase(id: string)
    | RejectCase(id: string)
    | LinkCases(caseId: string)
    | UnlinkCases(caseId: string)
    | BulkUpdateStatus
    | BulkAssign
    | BulkDelete

  /** The `invalidateQueries` keys of the `onSuccess` handler, in call order. */
  function Invalidations(m: CaseMutation): (ps: seq<Key>)
    ensures 1 <= |ps| <= 4
    ensures forall i :: 0 <= i < |ps| ==> IsPrefix(All(), ps[i])
  {
    match m
    case CreateCase => [Lists(), Statistics()]
    case UpdateCase(id) => [Detail(id), Lists()]
    case DeleteCase => [Lists(), Statistics()]
    case ChangeStatus(id) => [Detail(id), Lists(), Audit(id)]
    case AssignCase(id) => [Detail(id), Lists(), Audit(id)]
    case AddComment(c) => [Comments(c)]
    case UpdateComment(c) => [Comments(c)]
    case DeleteComment(c) => [Comments(c)]
    case ApproveCase(id) => [Detail(id), Lists(), Approval(), Audit(id)]
    case RejectCase(id) => [Detail(id), Lists(), Approval(), Audit(id)]
    case LinkCases(c) => [Related(c), Detail(c)]
    case UnlinkCases(c) => [Related(c), Detail(c)]
    case BulkUpdateStatus => [Lists(), Statistics()]
    case BulkAssign => [Lists()]
    case BulkDelete => [Lists(), Statistics()]
  }

  /** A settled mutation: on success the cache is invalidated under its keys, on failure
      nothing changes. */
  method Mutate(client: QueryClient, m: CaseMutation, succeeded: bool)
    modifies client
    ensures client.entries == if succeeded then MarkStale(old(client.entries), Invalidations(m)) else old(client.entries)
  {
    client.Settle(Invalidations(m), succeeded);
  }

  /** Create and delete (single or bulk, and bulk status update) reach exactly the list and
      statistics keys. */
  lemma ListsAndStatisticsOnly(m: CaseMutation, k: Key)
    requires m == CreateCase || m == DeleteCase || m == BulkUpdateStatus || m == BulkDelete
    ensures Matches(Invalidations(m), k) <==> IsPrefix(Lists(), k) || IsPrefix(Statistics(), k)
  {
    Matches2(Lists(), Statistics(), k);
  }

  /** No my-cases, approval or detail entry changes when a case is created or deleted. */
  lemma CreateDeleteSpare(k: Key)
    requires IsPrefix(MyCases(), k) || IsPrefix(Approval(), k) || IsPrefix(Details(), k)
    ensures !Matches(Invalidations(CreateCase), k) && !Matches(Invalidations(DeleteCase), k)
  {
    Matches2(Lists(), Statistics(), k);
  }

  /** Changing the status reaches that case's detail subtree and the lists, and never the
      statistics, which the bulk status update does reach. */
  lemma ChangeStatusReach(id: string, dateRange: Option<DateRange>, k: Key)
    ensures Matches(Invalidations(ChangeStatus(id)), k) <==> IsPrefix(Detail(id), k) || IsPrefix(Lists(), k)
    ensures !Matches(Invalidations(ChangeStatus(id)), QueryKey(UseCaseStatistics(dateRange)))
    ensures Matches(Invalidations(BulkUpdateStatus), QueryKey(UseCaseStatistics(dateRange)))
  {
    Matches3(Detail(id), Lists(), Audit(id), k);
    if IsPrefix(Audit(id), k) {
      PrefixTransitive(Detail(id), Audit(id), k);
    }
    StatisticsReach(id, dateRange);
  }

  /** The statistics entry is outside everything a single status change reaches. */
  lemma StatisticsReach(id: string, dateRange: Option<DateRange>)
    ensures !Matches(Invalidations(ChangeStatus(id)), QueryKey(UseCaseStatistics(dateRange)))
    ensures Matches(Invalidations(BulkUpdateStatus), QueryKey(UseCaseStatistics(dateRange)))
  {
    var sk := QueryKey(UseCaseStatistics(dateRange));
    Matches3(Detail(id), Lists(), Audit(id), sk);
    assert sk[1] == S("statistics");
    SecondSegment(Detail(id), sk);
    SecondSegment(Lists(), sk);
    SecondSegment(Audit(id), sk);
    Matches2(Lists(), Statistics(), sk);
  }

  /** In every handler that invalidates both `detail(id)` and `audit(id)`, dropping the
      `audit(id)` call would invalidate the same entries. */
  lemma AuditSubsumed(m: CaseMutation, k: Key)
    requires m.ChangeStatus? || m.AssignCase? || m.ApproveCase? || m.RejectCase?
    ensures var ps := Invalidations(m);
      Matches(ps, k) <==> Matches(ps[..|ps| - 1] + ps[|ps|..], k)
  {
    var ps := Invalidations(m);
    assert ps[0] == Detail(m.id) && ps[|ps| - 1] == Audit(m.id);
    SubsumedPrefix(ps, |ps| - 1, 0, k);
  }

  /** Each comment mutation reaches only that case's comment entry. */
  lemma CommentMutationsReach(m: CaseMutation, k: Key)
    requires m.AddComment? || m.UpdateComment? || m.DeleteComment?
    ensures Matches(Invalidations(m), k) <==> IsPrefix(Comments(m.caseId), k)
  {
    Matches1(Comments(m.caseId), k);
  }
}
