/** The case list page: its search, filter and page state, the order in which it renders
    loading, error and data, and its pagination bar. */
module CaseList {
  import opened Wrappers
  import opened Types
  import CaseHooks
  import CaseService

  const PageSize := 20

  /** `Partial<CaseFilters>`: `None` leaves a field out of the patch, `Some(v)` sets it to
      `v`, which may itself be `undefined`. */
  datatype FilterPatch = FilterPatch(
    status: Option<Option<seq<string>>>,
    caseType: Option<Option<seq<string>>>,
    assignedTo: Option<Option<seq<string>>>,
    priority: Option<Option<seq<string>>>,
    riskScore: Option<Option<NumRange>>,
    dateRange: Option<Option<DateRange>>,
    tags: Option<Option<seq<string>>>,
    search: Option<Option<string>>)

  function Override<T>(patch: Option<Option<T>>, current: Option<T>): Option<T> {
    if patch.Some? then patch.value else current
  }

  /** `{ ...prev, ...patch }`. */
  function ApplyPatch(prev: CaseFilters, patch: FilterPatch): (f: CaseFilters)
    ensures patch.status.None? ==> f.status == prev.status
    ensures patch.status.Some? ==> f.status == patch.status.value
    ensures patch.caseType.None? ==> f.caseType == prev.caseType
    ensures patch.caseType.Some? ==> f.caseType == patch.caseType.value
    ensures patch.assignedTo.None? ==> f.assignedTo == prev.assignedTo
    ensures patch.assignedTo.Some? ==> f.assignedTo == patch.assignedTo.value
    ensures patch.priority.None? ==> f.priority == prev.priority
    ensures patch.priority.Some? ==> f.priority == patch.priority.value
    ensures patch.riskScore.None? ==> f.riskScore == prev.riskScore
    ensures patch.riskScore.Some? ==> f.riskScore == patch.riskScore.value
    ensures patch.dateRange.None? ==> f.dateRange == prev.dateRange
    ensures patch.dateRange.Some? ==> f.dateRange == patch.dateRange.value
    ensures patch.tags.None? ==> f.tags == prev.tags
    ensures patch.tags.Some? ==> f.tags == patch.tags.value
    ensures patch.search.None? ==> f.search == prev.search
    ensures patch.search.Some? ==> f.search == patch.search.value
  {
    CaseFilters(
      Override(patch.status, prev.status),
      Override(patch.caseType, prev.caseType),
      Override(patch.assignedTo, prev.assignedTo),
      Override(patch.priority, prev.priority),
      Override(patch.riskScore, prev.riskScore),
      Override(patch.dateRange, prev.dateRange),
      Override(patch.tags, prev.tags),
      Override(patch.search, prev.search))
  }

  const EmptyPatch := FilterPatch(None, None, None, None, None, None, None, None)

  /** The patch a filter select sends: the chosen value as a one-element list, or
      `undefined` for the "All" option (the empty value). */
  function SelectValue(value: string): Option<seq<string>> {
    if value != "" then Some([value]) else None
  }

  function StatusSelect(value: string): FilterPatch { EmptyPatch.(status := Some(SelectValue(value))) }
  function TypeSelect(value: string): FilterPatch { EmptyPatch.(caseType := Some(SelectValue(value))) }
  function PrioritySelect(value: string): FilterPatch { EmptyPatch.(priority := Some(SelectValue(value))) }

  /** The empty patch changes nothing, and a later patch wins over an earlier one on the
      fields both set. */
  lemma PatchLaws(f: CaseFilters, p: FilterPatch, q: FilterPatch)
    ensures ApplyPatch(f, EmptyPatch) == f
    ensures q.status.Some? ==> ApplyPatch(ApplyPatch(f, p), q).status == q.status.value
    ensures p.status.Some? && q.status.None? ==> ApplyPatch(ApplyPatch(f, p), q).status == p.status.value
  {
  }

  /** Choosing "All" in a select removes that filter; choosing a value filters on it alone. */
  lemma SelectSemantics(f: CaseFilters, value: string)
    ensures ApplyPatch(f, StatusSelect(value)).status == if value == "" then None else Some([value])
    ensures ApplyPatch(f, StatusSelect(value)).(status := f.status) == f
    ensures ApplyPatch(f, PrioritySelect("")).priority == None
  {
  }

  /** What the page shows: loading wins over an error, an error over the data. */
  datatype View = Loading | Failed(details: string) | NoCases | Cards(cases: seq<string>)

  /** `data?.data || []` and what follows: the case ids of the loaded page. */
  function Render(isLoading: bool, error: Option<string>, data: Option<Option<seq<string>>>): (v: View)
    ensures isLoading <==> v == Loading
    ensures !isLoading && error.Some? <==> v.Failed?
    ensures v.Failed? ==> v.details == error.value
    ensures v.Cards? ==> v.cases != [] && data == Some(Some(v.cases))
    ensures v == NoCases <==> !isLoading && error.None? && (data.None? || data.value.None? || data.value.value == [])
  {
    if isLoading then Loading
    else if error.Some? then Failed(error.value)
    else
      var cases := if data.Some? && data.value.Some? then data.value.value else [];
      if |cases| == 0 then NoCases else Cards(cases)
  }

  /** The "Showing a to b of total" range, present only when there is more than one page. */
  function ShownRange(page: int, pagination: Option<Pagination>): (r: Option<(int, int)>)
    ensures r.Some? <==> pagination.Some? && pagination.value.totalPages > 1
  {
    if pagination.Some? && pagination.value.totalPages > 1 then
      var last := if page * PageSize < pagination.value.total then page * PageSize else pagination.value.total;
      Some(((page - 1) * PageSize + 1, last))
    else None
  }

  /** With the page inside a consistent page count, the range is a non-empty stretch of at
      most one page of the results. */
  lemma ShownRangeBounds(page: int, p: Pagination)
    requires p.totalPages > 1 && p.totalPages == (p.total + PageSize - 1) / PageSize
    requires 1 <= page <= p.totalPages
    ensures var r := ShownRange(page, Some(p)).value;
      1 <= r.0 <= r.1 <= p.total && r.1 - r.0 < PageSize && r.0 == (page - 1) * PageSize + 1
  {
    assert (page - 1) * PageSize < p.total;
  }

  /** The page after a Previous click; the button is disabled on page 1. */
  function PreviousPage(page: int): int {
    if page == 1 then page else page - 1
  }

  /** The page after a Next click; the button is disabled from the last page on. */
  function NextPage(page: int, totalPages: int): int {
    if page >= totalPages then page else page + 1
  }

  /** Both buttons keep a page inside `[1, totalPages]` there, each moves by at most one,
      and each is a no-op exactly when disabled. */
  lemma PagingStaysInRange(page: int, totalPages: int)
    requires 1 <= page <= totalPages
    ensures 1 <= PreviousPage(page) <= totalPages && 1 <= NextPage(page, totalPages) <= totalPages
    ensures PreviousPage(page) == page <==> page == 1
    ensures NextPage(page, totalPages) == page <==> page == totalPages
    ensures page - 1 <= PreviousPage(page) && NextPage(page, totalPages) <= page + 1
  {
  }

  /** Typing into the search box and then clearing it leaves `search: ''` in the filters:
      the request is the same as with no search, but the cache key is a different one. */
  lemma ClearedSearchSameRequestNewKey(f: CaseFilters, page: int)
    ensures CaseService.GetCasesParams(Some(f.(search := Some(""))), None, page, PageSize) ==
            CaseService.GetCasesParams(Some(f.(search := None)), None, page, PageSize)
    ensures CaseHooks.List(Some(f.(search := Some(""))), None, Some(page)) !=
            CaseHooks.List(Some(f.(search := None)), None, Some(page))
  {
    var a := CaseService.GetCasesParams(Some(f.(search := Some(""))), None, page, PageSize);
    var b := CaseService.GetCasesParams(Some(f.(search := None)), None, page, PageSize);
    forall k | k in CaseService.CaseParamKeys
      ensures CaseService.CaseParam(k, f.(search := Some("")), None, page, PageSize) ==
              CaseService.CaseParam(k, f.(search := None), None, page, PageSize)
    {
    }
    assert a == b;
    var ka := CaseHooks.List(Some(f.(search := Some(""))), None, Some(page));
    var kb := CaseHooks.List(Some(f.(search := None)), None, Some(page));
    assert ka[|ka| - 1] != kb[|kb| - 1];
  }

  /** The page's state fields. */
  class CaseListPage {
    var page: int
    var filters: CaseFilters
    var searchQuery: string
    var showFilters: bool

    constructor ()
      ensures page == 1 && filters == NoCaseFilters && searchQuery == "" && !showFilters
    {
      page := 1;
      filters := NoCaseFilters;
      searchQuery := "";
      showFilters := false;
    }

    method HandleSearch(query: string)
      modifies this
      ensures searchQuery == query && filters == old(filters).(search := Some(query)) && page == 1
      ensures showFilters == old(showFilters)
    {
      searchQuery := query;
      filters := filters.(search := Some(query));
      page := 1;
    }

    method HandleFilterChange(patch: FilterPatch)
      modifies this
      ensures filters == ApplyPatch(old(filters), patch) && page == 1
      ensures searchQuery == old(searchQuery) && showFilters == old(showFilters)
    {
      filters := ApplyPatch(filters, patch);
      page := 1;
    }

    method ClearFilters()
      modifies this
      ensures filters == NoCaseFilters && searchQuery == "" && page == 1
      ensures showFilters == old(showFilters)
    {
      filters := NoCaseFilters;
      searchQuery := "";
      page := 1;
    }

    method ToggleFilters()
      modifies this
      ensures showFilters == !old(showFilters)
      ensures page == old(page) && filters == old(filters) && searchQuery == old(searchQuery)
    {
      showFilters := !showFilters;
    }

    method Previous()
      modifies this
      ensures page == PreviousPage(old(page))
      ensures filters == old(filters) && searchQuery == old(searchQuery) && showFilters == old(showFilters)
    {
      if page != 1 {
        page := page - 1;
      }
    }

    method Next(totalPages: int)
      modifies this
      ensures page == NextPage(old(page), totalPages)
      ensures filters == old(filters) && searchQuery == old(searchQuery) && showFilters == old(showFilters)
    {
      if page < totalPages {
        page := page + 1;
      }
    }
  }
}
