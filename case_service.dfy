/** The case resource service: the query parameters each listing call sends, and the verb,
    path and body of every call. */
module CaseService {
  import opened Wrappers
  import opened Text
  import opened Types
  import opened Http
  import CaseHooks
  import QueryCache

  /** Every key the `getCases` parameter object can hold. */
  const CaseParamKeys: set<string> := {"page", "size", "sort", "status", "type", "assignedTo", "priority",
                                       "search", "riskScoreMin", "riskScoreMax", "startDate", "endDate", "tags"}

  /** The value `getCases` sends under `key`, if any. */
  function CaseParam(key: string, f: CaseFilters, sort: Option<SortConfig>, page: int, size: int): Option<ParamValue> {
    match key
    case "page" => Some(PNum(page - 1))
    case "size" => Some(PNum(size))
    case "sort" => SortParam(sort)
    case "status" => JoinedList(f.status)
    case "type" => JoinedList(f.caseType)
    case "assignedTo" => JoinedList(f.assignedTo)
    case "priority" => JoinedList(f.priority)
    case "search" => Truthy(f.search)
    case "riskScoreMin" => if f.riskScore.Some? then Some(PNum(f.riskScore.value.min)) else None
    case "riskScoreMax" => if f.riskScore.Some? then Some(PNum(f.riskScore.value.max)) else None
    case "startDate" => if f.dateRange.Some? then Some(PStr(f.dateRange.value.start)) else None
    case "endDate" => if f.dateRange.Some? then Some(PStr(f.dateRange.value.end)) else None
    case "tags" => JoinedList(f.tags)
    case _ => None
  }

  /** The `getCases` parameter object: `page` and `size` followed by one conditional spread per
      key. `filters?.x` on absent filters is `undefined`, the same as an absent field. */
  function GetCasesParams(filters: Option<CaseFilters>, sort: Option<SortConfig>, page: int, size: int): (p: Params)
    ensures p.Keys <= CaseParamKeys
    ensures "page" in p && p["page"] == PNum(page - 1)
    ensures "size" in p && p["size"] == PNum(size)
  {
    var f := filters.GetOr(NoCaseFilters);
    map k | k in CaseParamKeys && CaseParam(k, f, sort, page, size).Some? :: CaseParam(k, f, sort, page, size).value
  }

  /** Which keys `getCases` sends and with what value: a sort as `"field,direction"` only when
      given, each array filter comma-joined whenever present (an empty array included),
      `search` only when non-empty, and the range and date objects as two keys each. */
  lemma GetCasesParamsSpec(filters: Option<CaseFilters>, sort: Option<SortConfig>, page: int, size: int)
    ensures var p := GetCasesParams(filters, sort, page, size);
      var f := filters.GetOr(NoCaseFilters);
      && ("sort" in p <==> sort.Some?)
      && (sort.Some? ==> p["sort"] == PStr(sort.value.field + "," + DirectionName(sort.value.direction)))
      && ("status" in p <==> f.status.Some?)
      && ("type" in p <==> f.caseType.Some?)
      && ("assignedTo" in p <==> f.assignedTo.Some?)
      && ("priority" in p <==> f.priority.Some?)
      && ("tags" in p <==> f.tags.Some?)
      && ("search" in p <==> f.search.Some? && f.search.value != "")
      && ("riskScoreMin" in p <==> f.riskScore.Some?) && ("riskScoreMax" in p <==> f.riskScore.Some?)
      && ("startDate" in p <==> f.dateRange.Some?) && ("endDate" in p <==> f.dateRange.Some?)
      && (f.status.Some? ==> p["status"] == PStr(Join(f.status.value, ",")))
      && (f.caseType.Some? ==> p["type"] == PStr(Join(f.caseType.value, ",")))
      && (f.assignedTo.Some? ==> p["assignedTo"] == PStr(Join(f.assignedTo.value, ",")))
      && (f.priority.Some? ==> p["priority"] == PStr(Join(f.priority.value, ",")))
      && (f.tags.Some? ==> p["tags"] == PStr(Join(f.tags.value, ",")))
      && ("search" in p ==> p["search"] == PStr(f.search.value))
      && (f.riskScore.Some? ==> p["riskScoreMin"] == PNum(f.riskScore.value.min) &&
                                p["riskScoreMax"] == PNum(f.riskScore.value.max))
      && (f.dateRange.Some? ==> p["startDate"] == PStr(f.dateRange.value.start) &&
                                p["endDate"] == PStr(f.dateRange.value.end))
  {
    ListParams(filters, sort, page, size);
    OtherParams(filters, sort, page, size);
  }

  lemma ListParams(filters: Option<CaseFilters>, sort: Option<SortConfig>, page: int, size: int)
    ensures var p := GetCasesParams(filters, sort, page, size);
      var f := filters.GetOr(NoCaseFilters);
      && ("status" in p <==> f.status.Some?)
      && ("type" in p <==> f.caseType.Some?)
      && ("assignedTo" in p <==> f.assignedTo.Some?)
      && ("priority" in p <==> f.priority.Some?)
      && ("tags" in p <==> f.tags.Some?)
      && (f.status.Some? ==> p["status"] == PStr(Join(f.status.value, ",")))
      && (f.caseType.Some? ==> p["type"] == PStr(Join(f.caseType.value, ",")))
      && (f.assignedTo.Some? ==> p["assignedTo"] == PStr(Join(f.assignedTo.value, ",")))
      && (f.priority.Some? ==> p["priority"] == PStr(Join(f.priority.value, ",")))
      && (f.tags.Some? ==> p["tags"] == PStr(Join(f.tags.value, ",")))
  {
  }

  lemma OtherParams(filters: Option<CaseFilters>, sort: Option<SortConfig>, page: int, size: int)
    ensures var p := GetCasesParams(filters, sort, page, size);
      var f := filters.GetOr(NoCaseFilters);
      && ("sort" in p <==> sort.Some?)
      && (sort.Some? ==> p["sort"] == PStr(sort.value.field + "," + DirectionName(sort.value.direction)))
      && ("search" in p <==> f.search.Some? && f.search.value != "")
      && ("riskScoreMin" in p <==> f.riskScore.Some?) && ("riskScoreMax" in p <==> f.riskScore.Some?)
      && ("startDate" in p <==> f.dateRange.Some?) && ("endDate" in p <==> f.dateRange.Some?)
      && ("search" in p ==> p["search"] == PStr(f.search.value))
      && (f.riskScore.Some? ==> p["riskScoreMin"] == PNum(f.riskScore.value.min) &&
                                p["riskScoreMax"] == PNum(f.riskScore.value.max))
      && (f.dateRange.Some? ==> p["startDate"] == PStr(f.dateRange.value.start) &&
                                p["endDate"] == PStr(f.dateRange.value.end))
  {
  }

  /** The sort parameter splits back into its field and direction when the field has no comma. */
  lemma SortParamRoundTrip(filters: Option<CaseFilters>, sort: SortConfig, page: int, size: int)
    requires ',' !in sort.field
    ensures var p := GetCasesParams(filters, Some(sort), page, size);
      p["sort"].PStr? && Split(p["sort"].text, ',') == [sort.field, DirectionName(sort.direction)]
  {
    var parts := [sort.field, DirectionName(sort.direction)];
    assert Join(parts, [',']) == sort.field + "," + DirectionName(sort.direction);
    SplitJoin(parts, ',');
  }

  /** A non-empty array filter whose items have no comma splits back into the same items. */
  lemma StatusParamRoundTrip(f: CaseFilters, sort: Option<SortConfig>, page: int, size: int)
    requires f.status.Some? && |f.status.value| >= 1
    requires forall i :: 0 <= i < |f.status.value| ==> ',' !in f.status.value[i]
    ensures var p := GetCasesParams(Some(f), sort, page, size);
      "status" in p && p["status"].PStr? && Split(p["status"].text, ',') == f.status.value
  {
    SplitJoin(f.status.value, ',');
  }

  /** An empty array filter is sent as an empty string, while an empty search is left out;
      the arrays `[]` and `[""]` are sent identically. */
  lemma EmptyValues(sort: Option<SortConfig>, page: int, size: int)
    ensures var p := GetCasesParams(Some(NoCaseFilters.(status := Some([]), search := Some(""))), sort, page, size);
      "status" in p && p["status"] == PStr("") && "search" !in p
    ensures GetCasesParams(Some(NoCaseFilters.(status := Some([]))), sort, page, size) ==
            GetCasesParams(Some(NoCaseFilters.(status := Some([""]))), sort, page, size)
  {
    var f1, f2 := NoCaseFilters.(status := Some([])), NoCaseFilters.(status := Some([""]));
    assert Join([], ",") == "" == Join([""], ",");
    SameStatusSameParams(f1, f2, sort, page, size);
  }

  /** Filters that differ only in how their status list is written produce the same parameters
      when the two lists join to the same text. */
  lemma SameStatusSameParams(f1: CaseFilters, f2: CaseFilters, sort: Option<SortConfig>, page: int, size: int)
    requires f1.(status := f2.status) == f2
    requires JoinedList(f1.status) == JoinedList(f2.status)
    ensures GetCasesParams(Some(f1), sort, page, size) == GetCasesParams(Some(f2), sort, page, size)
  {
    forall k ensures CaseParam(k, f1, sort, page, size) == CaseParam(k, f2, sort, page, size) {
    }
  }

  /** The cache key and the request disagree on what an empty search is: `{}` and
      `{ search: '' }` are two cache entries that send the same request, and so are absent
      filters and `{}`. */
  lemma KeyParamMismatch(sort: Option<SortConfig>, page: int, size: int)
    ensures var withSearch := NoCaseFilters.(search := Some(""));
      CaseHooks.QueryKey(CaseHooks.UseCases(Some(NoCaseFilters), sort, page, size)) !=
        CaseHooks.QueryKey(CaseHooks.UseCases(Some(withSearch), sort, page, size)) &&
      GetCasesParams(Some(NoCaseFilters), sort, page, size) == GetCasesParams(Some(withSearch), sort, page, size)
    ensures CaseHooks.QueryKey(CaseHooks.UseCases(None, sort, page, size)) !=
              CaseHooks.QueryKey(CaseHooks.UseCases(Some(NoCaseFilters), sort, page, size)) &&
            GetCasesParams(None, sort, page, size) == GetCasesParams(Some(NoCaseFilters), sort, page, size)
  {
    var withSearch := NoCaseFilters.(search := Some(""));
    var k1 := CaseHooks.QueryKey(CaseHooks.UseCases(Some(NoCaseFilters), sort, page, size));
    var k2 := CaseHooks.QueryKey(CaseHooks.UseCases(Some(withSearch), sort, page, size));
    assert k1[2] != k2[2];
    var k0 := CaseHooks.QueryKey(CaseHooks.UseCases(None, sort, page, size));
    assert k0[2] != k1[2];
  }

  /** `getMyCases`: always `assignedToMe`, `status` only when given. */
  function GetMyCasesParams(page: int, size: int, status: Option<seq<string>>): (p: Params)
    ensures p.Keys == {"page", "size", "assignedToMe"} + (if status.Some? then {"status"} else {})
    ensures p["page"] == PNum(page - 1) && p["size"] == PNum(size) && p["assignedToMe"] == PBool(true)
    ensures status.Some? ==> p["status"] == PStr(Join(status.value, ","))
  {
    With(map["page" := PNum(page - 1), "size" := PNum(size), "assignedToMe" := PBool(true)],
         "status", JoinedList(status))
  }

  /** `getCasesForApproval`: a fixed status and the approval flag. */
  function GetCasesForApprovalParams(page: int, size: int): (p: Params)
    ensures p.Keys == {"page", "size", "status", "requiresApproval"}
    ensures p["page"] == PNum(page - 1) && p["size"] == PNum(size) && p["status"] == PStr("PENDING_APPROVAL") &&
            p["requiresApproval"] == PBool(true)
  {
    map["page" := PNum(page - 1), "size" := PNum(size), "status" := PStr("PENDING_APPROVAL"),
        "requiresApproval" := PBool(true)]
  }

  const SearchParamKeys: set<string> :=
    {"q", "page", "size", "status", "type", "assignedTo", "priority", "riskScore", "dateRange", "tags", "search"}

  /** The value `searchCases` sends under `key`, if any. */
  function SearchParam(key: string, query: string, f: CaseFilters, page: int, size: int): Option<ParamValue> {
    match key
    case "q" => Some(PStr(query))
    case "page" => Some(PNum(page - 1))
    case "size" => Some(PNum(size))
    case "status" => OptList(f.status)
    case "type" => OptList(f.caseType)
    case "assignedTo" => OptList(f.assignedTo)
    case "priority" => OptList(f.priority)
    case "riskScore" => if f.riskScore.Some? then Some(PNumRange(f.riskScore.value)) else None
    case "dateRange" => if f.dateRange.Some? then Some(PDateRange(f.dateRange.value)) else None
    case "tags" => OptList(f.tags)
    case "search" => OptStr(f.search)
    case _ => None
  }

  /** `searchCases`: `q`, the page and the filters spread as they are. */
  function SearchCasesParams(query: string, filters: Option<CaseFilters>, page: int, size: int): (p: Params)
    ensures "q" in p && p["q"] == PStr(query)
    ensures "page" in p && p["page"] == PNum(page - 1) && "size" in p && p["size"] == PNum(size)
    ensures p.Keys <= SearchParamKeys
  {
    var f := filters.GetOr(NoCaseFilters);
    map k | k in SearchParamKeys && SearchParam(k, query, f, page, size).Some? :: SearchParam(k, query, f, page, size).value
  }

  /** The search filters are sent unencoded: arrays stay arrays, the range and date objects stay
      objects, and an empty search is still sent. */
  lemma SearchCasesParamsSpec(query: string, filters: Option<CaseFilters>, page: int, size: int)
    ensures var p := SearchCasesParams(query, filters, page, size);
      var f := filters.GetOr(NoCaseFilters);
      && ("status" in p <==> f.status.Some?) && (f.status.Some? ==> p["status"] == PList(f.status.value))
      && ("type" in p <==> f.caseType.Some?) && (f.caseType.Some? ==> p["type"] == PList(f.caseType.value))
      && ("assignedTo" in p <==> f.assignedTo.Some?) && (f.assignedTo.Some? ==> p["assignedTo"] == PList(f.assignedTo.value))
      && ("priority" in p <==> f.priority.Some?) && (f.priority.Some? ==> p["priority"] == PList(f.priority.value))
      && ("tags" in p <==> f.tags.Some?) && (f.tags.Some? ==> p["tags"] == PList(f.tags.value))
      && ("riskScore" in p <==> f.riskScore.Some?) && (f.riskScore.Some? ==> p["riskScore"] == PNumRange(f.riskScore.value))
      && ("dateRange" in p <==> f.dateRange.Some?) && (f.dateRange.Some? ==> p["dateRange"] == PDateRange(f.dateRange.value))
      && ("search" in p <==> f.search.Some?) && (f.search.Some? ==> p["search"] == PStr(f.search.value))
  {
  }

  /** The same filters are encoded differently by `getCases` and `searchCases`: a status array
      is a comma-joined string in one and an array in the other. */
  lemma SearchDoesNotJoin(statuses: seq<string>, query: string, page: int, size: int)
    ensures var f := Some(NoCaseFilters.(status := Some(statuses)));
      GetCasesParams(f, None, page, size)["status"] != SearchCasesParams(query, f, page, size)["status"]
  {
  }

  /** Every call of the service, with its defaults applied. */
  datatype CaseCall =
    | GetCases(filters: Option<CaseFilters>, sort: Option<SortConfig>, page: int, size: int)
    | GetCaseById(id: string)
    | CreateCase(form: Params)
    | UpdateCase(id: string, form: Params)
    | DeleteCase(id: string)
    | ChangeStatus(id: string, status: string, comment: Option<string>)
    | AssignCase(id: string, assigneeId: string, comments: Option<string>)
    | GetCasesByStatus(status: string)
    | GetCaseComments(caseId: string)
    | AddComment(caseId: string, content: string, isInternal: bool, mentionedUsers: seq<string>)
    | UpdateComment(caseId: string, commentId: string, content: string)
    | DeleteComment(caseId: string, commentId: string)
    | GetCaseAuditTrail(caseId: string)
    | GetMyCases(page: int, size: int, statuses: Option<seq<string>>)
    | GetCasesForApproval(page: int, size: int)
    | ApproveCase(id: string, comments: Option<string>)
    | RejectCase(id: string, reason: string)
    | GetRelatedCases(caseId: string)
    | LinkCases(caseId: string, relatedCaseIds: seq<string>)
    | UnlinkCases(caseId: string, relatedCaseIds: seq<string>)
    | BulkUpdateStatus(caseIds: seq<string>, status: string, comments: Option<string>)
    | BulkAssign(caseIds: seq<string>, assigneeId: string, comments: Option<string>)
    | BulkDelete(caseIds: seq<string>)
    | SearchCases(query: string, filters: Option<CaseFilters>, page: int, size: int)
    | GetCaseStatistics(dateRange: Option<DateRange>)

  const Base := "/api/cases"

  /** A path under the service's base URL. */
  function Under(tail: string): (p: string)
    ensures StartsWith(p, Base) && p[|Base|..] == tail
  {
    Base + tail
  }

  /** `/api/cases/{id}/{sub}`. */
  function SubPath(id: string, sub: string): string {
    Under("/" + id + "/" + sub)
  }

  /** The sub-resource path as one piece of text. */
  lemma SubPathText(id: string, sub: string)
    ensures SubPath(id, sub) == "/api/cases/" + id + "/" + sub
  {
    assert Base + ("/" + id + "/" + sub) == "/api/cases/" + id + "/" + sub;
  }

  /** The transport call a service method makes. */
  function ToRequest(c: CaseCall): (r: Request)
    ensures StartsWith(r.path, Base)
  {
    match c
    case GetCases(f, s, p, z) => Request(Get, Under(""), GetCasesParams(f, s, p, z))
    case GetCaseById(id) => Request(Get, Under("/" + id), map[])
    case CreateCase(form) => Request(Post, Under("/create"), form)
    case UpdateCase(id, form) => Request(Put, Under("/" + id), form)
    case DeleteCase(id) => Request(Delete, Under("/" + id), map[])
    case ChangeStatus(id, st, cm) => Request(Put, SubPath(id, "status"), With(map["status" := PStr(st)], "comment", OptStr(cm)))
    case AssignCase(id, a, cm) => Request(Patch, SubPath(id, "assign"), With(map["assigneeId" := PStr(a)], "comments", OptStr(cm)))
    case GetCasesByStatus(st) => Request(Get, Under("/by-status/" + st), map[])
    case GetCaseComments(c) => Request(Get, SubPath(c, "comments"), map[])
    case AddComment(c, content, internal, mentioned) =>
      Request(Post, SubPath(c, "comments"),
        map["content" := PStr(content), "isInternal" := PBool(internal), "mentionedUsers" := PList(mentioned)])
    case UpdateComment(c, cid, content) => Request(Put, Under("/" + c + "/comments/" + cid), map["content" := PStr(content)])
    case DeleteComment(c, cid) => Request(Delete, Under("/" + c + "/comments/" + cid), map[])
    case GetCaseAuditTrail(c) => Request(Get, SubPath(c, "audit"), map[])
    case GetMyCases(p, z, st) => Request(Get, Under(""), GetMyCasesParams(p, z, st))
    case GetCasesForApproval(p, z) => Request(Get, Under(""), GetCasesForApprovalParams(p, z))
    case ApproveCase(id, cm) => Request(Post, SubPath(id, "approve"), With(map[], "comments", OptStr(cm)))
    case RejectCase(id, reason) => Request(Post, SubPath(id, "reject"), map["reason" := PStr(reason)])
    case GetRelatedCases(c) => Request(Get, SubPath(c, "related"), map[])
    case LinkCases(c, ids) => Request(Post, SubPath(c, "link"), map["relatedCaseIds" := PList(ids)])
    case UnlinkCases(c, ids) => Request(Post, SubPath(c, "unlink"), map["relatedCaseIds" := PList(ids)])
    case BulkUpdateStatus(ids, st, cm) =>
      Request(Post, Under("/bulk/status"), With(map["caseIds" := PList(ids), "status" := PStr(st)], "comments", OptStr(cm)))
    case BulkAssign(ids, a, cm) =>
      Request(Post, Under("/bulk/assign"), With(map["caseIds" := PList(ids), "assigneeId" := PStr(a)], "comments", OptStr(cm)))
    case BulkDelete(ids) => Request(Post, Under("/bulk/delete"), map["caseIds" := PList(ids)])
    case SearchCases(q, f, p, z) => Request(Get, Under("/search"), SearchCasesParams(q, f, p, z))
    case GetCaseStatistics(r) => Request(Get, Under("/statistics"), DateRangeParams(r))
  }

  /** The ten calls that only read. */
  predicate IsRead(c: CaseCall) {
    c.GetCases? || c.GetCaseById? || c.GetCasesByStatus? || c.GetCaseComments? ||
    c.GetCaseAuditTrail? || c.GetMyCases? || c.GetCasesForApproval? || c.GetRelatedCases? ||
    c.SearchCases? || c.GetCaseStatistics?
  }

  /** A call is a GET exactly when it only reads; every other call changes server state. */
  lemma GetIffRead(c: CaseCall)
    ensures ToRequest(c).verb == Get <==> IsRead(c)
  {
  }

  /** The calls on one case go to `/api/cases/{id}`: read with GET, replaced with PUT, removed
      with DELETE. */
  lemma CaseRequests(c: CaseCall)
    ensures c.GetCaseById? ==> ToRequest(c) == Request(Get, "/api/cases/" + c.id, map[])
    ensures c.UpdateCase? ==> ToRequest(c) == Request(Put, "/api/cases/" + c.id, c.form)
    ensures c.DeleteCase? ==> ToRequest(c) == Request(Delete, "/api/cases/" + c.id, map[])
  {
  }

  /** Changing the status is a PUT and assigning a PATCH to a sub-path of the case; an absent
      comment is left out of the body. */
  lemma StatusAndAssignRequests(c: CaseCall)
    ensures c.ChangeStatus? ==> var r := ToRequest(c);
      r.verb == Put && r.path == "/api/cases/" + c.id + "/status" &&
      r.params.Keys == {"status"} + (if c.comment.Some? then {"comment"} else {}) &&
      r.params["status"] == PStr(c.status) && (c.comment.Some? ==> r.params["comment"] == PStr(c.comment.value))
    ensures c.AssignCase? ==> var r := ToRequest(c);
      r.verb == Patch && r.path == "/api/cases/" + c.id + "/assign" &&
      r.params.Keys == {"assigneeId"} + (if c.comments.Some? then {"comments"} else {}) &&
      r.params["assigneeId"] == PStr(c.assigneeId) && (c.comments.Some? ==> r.params["comments"] == PStr(c.comments.value))
  {
    match c
    case ChangeStatus(id, _, _) => SubPathText(id, "status");
    case AssignCase(id, _, _) => SubPathText(id, "assign");
    case _ =>
  }

  /** The comments of a case are read with GET and added with POST on one sub-path. */
  lemma CommentsRequests(c: CaseCall)
    ensures c.GetCaseComments? ==> ToRequest(c) == Request(Get, "/api/cases/" + c.caseId + "/comments", map[])
    ensures c.AddComment? ==> var r := ToRequest(c);
      r.verb == Post && r.path == "/api/cases/" + c.caseId + "/comments" &&
      r.params == map["content" := PStr(c.content), "isInternal" := PBool(c.isInternal),
                      "mentionedUsers" := PList(c.mentionedUsers)]
  {
    match c
    case GetCaseComments(id) => SubPathText(id, "comments");
    case AddComment(id, _, _, _) => SubPathText(id, "comments");
    case _ =>
  }

  /** The audit trail and the related cases are read with GET from sub-paths of the case. */
  lemma AuditAndRelatedRequests(c: CaseCall)
    ensures c.GetCaseAuditTrail? ==> ToRequest(c) == Request(Get, "/api/cases/" + c.caseId + "/audit", map[])
    ensures c.GetRelatedCases? ==> ToRequest(c) == Request(Get, "/api/cases/" + c.caseId + "/related", map[])
  {
    match c
    case GetCaseAuditTrail(id) => SubPathText(id, "audit");
    case GetRelatedCases(id) => SubPathText(id, "related");
    case _ =>
  }

  /** A single comment is addressed by the case and the comment id. */
  lemma CommentRequests(c: CaseCall)
    ensures c.UpdateComment? ==>
      ToRequest(c) == Request(Put, "/api/cases/" + c.caseId + "/comments/" + c.commentId, map["content" := PStr(c.content)])
    ensures c.DeleteComment? ==>
      ToRequest(c) == Request(Delete, "/api/cases/" + c.caseId + "/comments/" + c.commentId, map[])
  {
  }

  /** Approval and rejection are POSTs to a sub-path of the case; an absent approval comment
      leaves the body empty. */
  lemma ApprovalRequests(c: CaseCall)
    ensures c.ApproveCase? ==> var r := ToRequest(c);
      r.verb == Post && r.path == "/api/cases/" + c.id + "/approve" &&
      r.params.Keys == (if c.comments.Some? then {"comments"} else {}) &&
      (c.comments.Some? ==> r.params["comments"] == PStr(c.comments.value))
    ensures c.RejectCase? ==>
      ToRequest(c) == Request(Post, "/api/cases/" + c.id + "/reject", map["reason" := PStr(c.reason)])
  {
    match c
    case ApproveCase(id, _) => SubPathText(id, "approve");
    case RejectCase(id, _) => SubPathText(id, "reject");
    case _ =>
  }

  /** Linking and unlinking POST the related ids to sub-paths of the case. */
  lemma LinkRequests(c: CaseCall)
    ensures c.LinkCases? ==>
      ToRequest(c) == Request(Post, "/api/cases/" + c.caseId + "/link", map["relatedCaseIds" := PList(c.relatedCaseIds)])
    ensures c.UnlinkCases? ==>
      ToRequest(c) == Request(Post, "/api/cases/" + c.caseId + "/unlink", map["relatedCaseIds" := PList(c.relatedCaseIds)])
  {
    match c
    case LinkCases(id, _) => SubPathText(id, "link");
    case UnlinkCases(id, _) => SubPathText(id, "unlink");
    case _ =>
  }

  /** Every paginated call sends the 1-based page as `page - 1`, so the default page 1 is 0. */
  lemma ZeroBasedPage(c: CaseCall)
    requires c.GetCases? || c.GetMyCases? || c.GetCasesForApproval? || c.SearchCases?
    ensures "page" in ToRequest(c).params && ToRequest(c).params["page"] == PNum(c.page - 1)
    ensures c.page == 1 ==> ToRequest(c).params["page"] == PNum(0)
  {
  }

  /** A sub-resource path splits on `/` into its segments. */
  lemma SubPathSegments(id: string, sub: string)
    requires '/' !in id && '/' !in sub
    ensures Split(SubPath(id, sub), '/') == ["", "api", "cases", id, sub]
  {
    var parts := ["", "api", "cases", id, sub];
    JoinFive("", "api", "cases", id, sub, "/");
    assert Join(parts, "/") == SubPath(id, sub);
    assert forall i :: 0 <= i < |parts| ==> '/' !in parts[i];
    SplitJoin(parts, '/');
  }

  /** For ids without `/`, a sub-resource path names one case and one sub-resource. */
  lemma SubPathInjective(id1: string, sub1: string, id2: string, sub2: string)
    requires '/' !in id1 && '/' !in id2 && '/' !in sub1 && '/' !in sub2
    ensures SubPath(id1, sub1) == SubPath(id2, sub2) <==> id1 == id2 && sub1 == sub2
  {
    SubPathSegments(id1, sub1);
    SubPathSegments(id2, sub2);
    if SubPath(id1, sub1) == SubPath(id2, sub2) {
      var parts1: seq<string> := ["", "api", "cases", id1, sub1];
      var parts2: seq<string> := ["", "api", "cases", id2, sub2];
      assert parts1 == parts2;
      assert parts1[3] == parts2[3] && parts1[4] == parts2[4];
    }
  }
}
