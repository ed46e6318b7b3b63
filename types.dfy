/** The request records of the front end's shared type definitions
    (filters, sorting, pagination). */
module Types {
  import opened Wrappers

  datatype Direction = Asc | Desc

  function DirectionName(d: Direction): string {
    match d
    case Asc => "asc"
    case Desc => "desc"
  }

  datatype SortConfig = SortConfig(field: string, direction: Direction)

  datatype DateRange = DateRange(start: string, end: string)

  datatype NumRange = NumRange(min: int, max: int)

  /** `CaseFilters`; every field is optional. `caseType` is the field called `type`. */
  datatype CaseFilters = CaseFilters(
    status: Option<seq<string>>,
    caseType: Option<seq<string>>,
    assignedTo: Option<seq<string>>,
    priority: Option<seq<string>>,
    riskScore: Option<NumRange>,
    dateRange: Option<DateRange>,
    tags: Option<seq<string>>,
    search: Option<string>)

  /** The empty filter object `{}`. */
  const NoCaseFilters := CaseFilters(None, None, None, None, None, None, None, None)

  /** `TaskFilters`; every field is optional. `taskType` is the field called `type`. */
  datatype TaskFilters = TaskFilters(
    status: Option<seq<string>>,
    taskType: Option<seq<string>>,
    assignedTo: Option<seq<string>>,
    priority: Option<seq<string>>,
    dueDate: Option<DateRange>,
    caseId: Option<string>,
    search: Option<string>)

  /** The pagination block of a paginated response. */
  datatype Pagination = Pagination(page: int, size: int, total: int, totalPages: int)
}
