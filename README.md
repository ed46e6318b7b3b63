# Case-management front end — verified model

This project models the deterministic core of a React case-management front
end. Analysts use it to work anti-money-laundering, fraud and sanctions cases
and the workflow tasks attached to them. The real workflow runs on a backend
that is not part of this model. What the front end decides for itself is
modelled here:

- **Cache keys and invalidation.** The front end builds query-cache keys for
  cases, tasks and the alert-detection views, and gives each query a
  staleness window.
- **Mutation fan-out.** After a successful mutation, the front end marks a
  fixed set of cache prefixes stale.
- **Request encoding.** It turns filter, sort and page records into request
  parameters and URL paths.
- **Aggregation.** It counts the responses of the dashboard, workload and
  status-count views.
- **Domain helpers.** These cover risk levels, the status progression, case
  numbers, form validation, text helpers and a multi-key sort.
- **Errors and session.** It classifies HTTP errors and keeps the session in
  local storage.
- **Component state.** The case list, the create-case form, the sidebar and
  the header each hold a little state, and a few formatters turn values into
  display text.

Modules follow the source files:

| module | source file |
|---|---|
| `QueryCache` | the query library's key and prefix semantics, as a `QueryClient` class over a `map<Key, Entry>` |
| `CaseHooks` | `useCases.ts` |
| `TaskHooks` | `useTasks.ts` |
| `AlertHooks` | `useAlertDetection.ts` |
| `CaseService` | `caseService.ts` |
| `TaskService` | `taskService.ts` |
| `AlertService` | `alertDetectionService.ts` |
| `Helpers` | `helpers.ts` |
| `Constants` | `constants.ts` |
| `Api` | `api.ts` |
| `CreateCase`, `CaseList`, `Sidebar`, `CaseCard`, `StatusBadge`, `RecentActivity`, `Header` | the components of the same names |

Shared modules:

- `Wrappers`: Option and Result.
- `Types`: the filter, sort and pagination records.
- `Text`: ASCII string helpers.
- `Http`: the parameter-map encoding of the conditional object spreads.

State that the source changes in place is modelled as a class with fields:

- `QueryCache.QueryClient`: the shared cache.
- `Api.SessionStore`: local storage.
- `CreateCase.CreateCasePage`, `CaseList.CaseListPage`,
  `Sidebar.SidebarState`, `Header.HeaderState`: component state.

Mutations are methods that call `QueryClient.InvalidateAll` on success and
change nothing on failure. `validateCaseData` is a method of five straight-line
checks, each appending its message to `errors` when it fails. `multiSort` is a
method that copies the rows into an array and sorts it in place by insertion,
with the comparator's loop over the sort keys as a method of its own.

The model follows the code where the code and the design disagree:

- `useChangeStatus` invalidates `detail(id)`, `lists` and `audit(id)` only. It
  does not invalidate statistics or the alert-detection status lists.
- `CASE_STATUS` does not contain the status names the backend uses.
- `CaseCard` uses risk cut points 30/60/80, while `getRiskLevel` uses
  60/80/90.
- The create-case form has no title, type or assignee field, and validation
  requires all three. Every submit is therefore rejected.

`src/utils/constants.ts` has no `TYPOLOGIES` table, although other files
import one. Typologies are not part of this model.

## Model

| member | source | states |
|---|---|---|
| QueryCache.PrefixTransitive | src/hooks/useCases.ts:11-24 | the key-prefix relation is transitive, so a builder spread from another builder is prefixed by everything that one is |
| QueryCache.MarkStaleEffect | src/hooks/useCases.ts:113-116 | invalidation keeps every entry's data and fetch time, sets the invalidated flag exactly on keys some prefix matches, and leaves every other entry unchanged |
| QueryCache.MarkStaleSameSet | src/hooks/useCases.ts:152-154 | the effect of a list of invalidations depends only on the set of prefixes, not on their order or repetition |
| QueryCache.SubsumedPrefix | src/hooks/useCases.ts:152-154 | dropping a prefix that another listed prefix already covers changes no match |
| QueryCache.MarkStaleSnoc | src/hooks/useCases.ts:113-116 | one more `invalidateQueries` call after a list of them equals invalidating the longer list at once |
| QueryCache.QueryClient.InvalidateQueries | src/hooks/useCases.ts:114 | one `invalidateQueries({queryKey})` call: the new cache is the old one with the entries under that prefix marked stale |
| QueryCache.QueryClient.InvalidateAll | src/hooks/useCases.ts:113-116 | a sequence of `invalidateQueries` calls, done one by one in a loop, leaves the cache marked stale under every listed prefix and otherwise unchanged |
| QueryCache.QueryClient.Settle | src/hooks/useCases.ts:108-118 | `onSuccess` runs the invalidation list when the mutation succeeds and nothing changes when it fails |
| QueryCache.QueryClient.Resolve | src/hooks/useCases.ts:27-38 | a finished fetch stores its data under its key as fresh and changes no other entry |
| QueryCache.Observe | src/hooks/useCases.ts:27-38 | a query sees cached data iff its key has an entry, and it fetches iff it is enabled and its entry is missing, invalidated or older than its staleTime |
| CaseHooks.List | src/hooks/useCases.ts:14-15 | the list key extends `lists()` by one segment holding filters, sort and page |
| CaseHooks.Detail | src/hooks/useCases.ts:17 | `detail(id)` extends `details()` by the id |
| CaseHooks.QueryKey | src/hooks/useCases.ts:34-101 | every case query key, built from `caseKeys`, lies under `['cases']`, so invalidating `all` reaches every case query |
| CaseHooks.DetailPrefixIff | src/hooks/useCases.ts:20-22 | `detail(id)` prefixes `comments`, `audit` and `related` of a case iff it is the same case |
| CaseHooks.StaleTime | src/hooks/useCases.ts:36-103 | every case query's staleTime lies between 30 seconds and 10 minutes |
| CaseHooks.StaleWindows | src/hooks/useCases.ts:36-103 | an entry is fresh for exactly 5 min (list), 2 min (detail, my, audit), 1 min (approval), 30 s (comments), 5 min (related) and 10 min (statistics) after its fetch |
| CaseHooks.EnabledUnlessEmptyId | src/hooks/useCases.ts:45-93 | `Enabled` (`enabled: !!id`): an id-keyed query with an empty id never fetches, and any other query with no cached entry fetches |
| CaseHooks.ListRemountScenario | src/hooks/useCases.ts:34-36 | a cached list is served without refetch 4 minutes after its fetch and refetched at 6 minutes |
| CaseHooks.ListKeyOmitsSize | src/hooks/useCases.ts:27-35 | two `useCases` calls share a key iff their filters, sort and page agree, whatever their sizes |
| CaseHooks.Invalidations | src/hooks/useCases.ts:108-330 | every mutation invalidates one to four prefixes, all under `['cases']` |
| CaseHooks.Mutate | src/hooks/useCases.ts:108-330 | running a case mutation's `onSuccess` marks stale exactly its invalidation list, and a failure changes nothing |
| CaseHooks.ListsAndStatisticsOnly | src/hooks/useCases.ts:113-116 | create, delete, bulk status and bulk delete reach a key iff it lies under `lists()` or `statistics()` |
| CaseHooks.CreateDeleteSpare | src/hooks/useCases.ts:138-141 | create and delete touch no `my`, `approval` or `detail` entry |
| CaseHooks.ChangeStatusReach | src/hooks/useCases.ts:151-155 | change-status reaches exactly the case's detail subtree and the lists, never the statistics key, which bulk status update does reach |
| CaseHooks.StatisticsReach | src/hooks/useCases.ts:151-296 | the statistics key is reached by none of change-status's three invalidations, but is reached by bulk status update's `statistics()` call |
| CaseHooks.AuditSubsumed | src/hooks/useCases.ts:152-154 | for change-status, assign, approve and reject, dropping the trailing `audit(id)` call changes which keys are invalidated not at all |
| CaseHooks.CommentMutationsReach | src/hooks/useCases.ts:188 | the three comment mutations reach exactly `comments(caseId)` and its extensions |
| TaskHooks.List | src/hooks/useTasks.ts:14-15 | the task list key extends `lists()` by one segment holding filters, sort and page |
| TaskHooks.QueryKey | src/hooks/useTasks.ts:38-145 | every task query key, built from `taskKeys`, lies under `['tasks']` |
| TaskHooks.StaleTime | src/hooks/useTasks.ts:40-147 | every task query's staleTime lies between 30 seconds and 10 minutes |
| TaskHooks.StaleWindows | src/hooks/useTasks.ts:40-147 | each task query stays fresh for exactly its window: list 2 min, detail 1 min, my 1 min, available 30 s, group 1 min, by-case 2 min, overdue 1 min, comments 30 s, history 5 min, statistics 10 min, workload 5 min, performance 10 min |
| TaskHooks.EnabledUnlessEmptyId | src/hooks/useTasks.ts:49-116 | `Enabled` (`enabled: !!id`): an id-keyed task query with an empty id never fetches; any other uncached query fetches |
| TaskHooks.ListKeyOmitsSize | src/hooks/useTasks.ts:31-41 | two `useTasks` calls share a key iff filters, sort and page agree |
| TaskHooks.PagedKeysRecordSize | src/hooks/useTasks.ts:55-100 | my-tasks, available, group, by-case and overdue keys record both page and size |
| TaskHooks.Invalidations | src/hooks/useTasks.ts:152-420 | every task mutation invalidates one to five prefixes, all under `['tasks']` |
| TaskHooks.Mutate | src/hooks/useTasks.ts:152-420 | a task mutation's `onSuccess` marks stale exactly its list on success and nothing on failure |
| TaskHooks.CompleteReach | src/hooks/useTasks.ts:237-243 | complete reaches exactly detail(id), lists, my and statistics, and the `history(id)` call is subsumed |
| TaskHooks.CompleteSpares | src/hooks/useTasks.ts:237-243 | complete leaves available, overdue, by-case, workload and performance entries alone |
| TaskHooks.ClaimReleaseReach | src/hooks/useTasks.ts:195-214 | claim reaches exactly detail(id), lists, available and my, and release reaches the same keys |
| TaskHooks.CreateReach | src/hooks/useTasks.ts:157-161 | create reaches exactly lists, byCase(caseId) and statistics, nothing under my or available |
| TaskHooks.LifecycleReach | src/hooks/useTasks.ts:253-297 | start, pause and resume reach detail(id), lists and my; cancel reaches statistics as well |
| TaskHooks.NarrowReach | src/hooks/useTasks.ts:318-361 | comment mutations reach only comments(taskId), and update-variables only detail(id) |
| AlertHooks.Case | src/hooks/useAlertDetection.ts:11 | `case(id)` extends `cases()` by the id |
| AlertHooks.CasesByStatus | src/hooks/useAlertDetection.ts:12 | the by-status key extends `cases()` by `'by-status'` and the status |
| AlertHooks.QueryKey | src/hooks/useAlertDetection.ts:33-241 | every alert query key, built from `alertKeys`, lies under `['alert-detection']` |
| AlertHooks.MyTasks | src/hooks/useAlertDetection.ts:17 | the assignee's task key extends `tasks()` by `'my'` and the assignee |
| AlertHooks.UserWorkload | src/hooks/useAlertDetection.ts:23 | the workload key extends `dashboard()` and ends in the assignee |
| AlertHooks.CaseVersusByStatus | src/hooks/useAlertDetection.ts:11-12 | `case(id)` prefixes a by-status key iff the id is `'by-status'`, and no by-status key prefixes a case key |
| AlertHooks.StaleTime | src/hooks/useAlertDetection.ts:31-245 | every alert query's staleTime lies between 2 and 5 minutes |
| AlertHooks.EmptyArgumentNeverFetches | src/hooks/useAlertDetection.ts:46-243 | `Enabled` (`enabled: !!arg`): a query whose last key segment is the empty string never fetches |
| AlertHooks.Invalidations | src/hooks/useAlertDetection.ts:72-217 | every alert mutation invalidates two to four prefixes, all under `['alert-detection']` |
| AlertHooks.Mutate | src/hooks/useAlertDetection.ts:72-217 | an alert mutation's `onSuccess` marks stale exactly its list on success and nothing on failure |
| AlertHooks.UpdateStatusReach | src/hooks/useAlertDetection.ts:89-95 | update-status reaches exactly the case subtree and the dashboard, including the old status's by-status list |
| AlertHooks.QuickUpdateReach | src/hooks/useAlertDetection.ts:107-111 | quick update reaches exactly the case subtree and not the dashboard, unlike update-status |
| AlertHooks.AssignTaskReach | src/hooks/useAlertDetection.ts:176-180 | assign-task reaches exactly the tasks subtree; the previous assignee's list is reached only through `tasks()` |
| AlertHooks.StatusUpdateStalesAllCounts | src/hooks/useAlertDetection.ts:89-111 | both status updates mark stale all six by-status queries behind the status counts |
| AlertHooks.Count | src/hooks/useAlertDetection.ts:262-267 | a count is the length of `data.data`, or 0 when either level is absent |
| AlertHooks.AnyLoading | src/hooks/useAlertDetection.ts:268 | loading iff some query is loading |
| AlertHooks.FirstError | src/hooks/useAlertDetection.ts:269-273 | the error is absent iff no query has one, otherwise it is the error of the first query that has one |
| AlertHooks.CaseStatusCounts | src/hooks/useAlertDetection.ts:253-273 | the six counts are the six query counts in order, loading iff any loads, error the first in draft, ready, investigation, pending, closed, rejected order |
| Http.DateRangeParams | src/services/caseService.ts:208 | a date range gives exactly `startDate`/`endDate`, and no range gives no params |
| CaseService.GetCasesParams | src/services/caseService.ts:22-40 | keys come from the fixed set, and page is sent as `page - 1` with size as given |
| CaseService.GetCasesParamsSpec | src/services/caseService.ts:22-40 | `CaseParam`, key by key: each key is present iff its filter is, arrays are comma-joined, sort is `field,direction`, search only when non-empty, risk and date ranges split into min/max and start/end |
| CaseService.SortParamRoundTrip | src/services/caseService.ts:25 | splitting the sort param on the comma gives back the field and direction |
| CaseService.StatusParamRoundTrip | src/services/caseService.ts:26 | splitting the status param on commas gives back the status list |
| CaseService.EmptyValues | src/services/caseService.ts:26-30 | an empty status array still sends `status=''` while an empty search is omitted, so `[]` and `['']` encode alike |
| CaseService.KeyParamMismatch | src/services/caseService.ts:22-40 | no filters, empty filters and an empty search give distinct cache keys but the same request |
| CaseService.GetMyCasesParams | src/services/caseService.ts:121-126 | sends page-1, size and `assignedToMe=true`, and the joined status only when given |
| CaseService.GetCasesForApprovalParams | src/services/caseService.ts:136-141 | sends exactly page-1, size, `status=PENDING_APPROVAL` and `requiresApproval=true` |
| CaseService.SearchCasesParams | src/services/caseService.ts:196-201 | sends `q`, page-1 and size, with keys from a fixed set |
| CaseService.SearchCasesParamsSpec | src/services/caseService.ts:196-201 | every filter field is spread as given, arrays unjoined and ranges unsplit |
| CaseService.SearchDoesNotJoin | src/services/caseService.ts:26-200 | the same status filter is sent differently by getCases and searchCases |
| CaseService.ToRequest | src/services/caseService.ts:16-209 | every call targets `/api/cases…` |
| CaseService.CaseRequests | src/services/caseService.ts:46-61 | get, update and delete by id target `/api/cases/{id}` with GET, PUT (the form as body) and DELETE |
| CaseService.StatusAndAssignRequests | src/services/caseService.ts:64-70 | status change is a PUT to `/api/cases/{id}/status` with `status` and the comment only when given; assignment is a PATCH to `…/assign` with `assigneeId` and the comments only when given |
| CaseService.CommentsRequests | src/services/caseService.ts:78-94 | comments are read with GET and added with POST on `/api/cases/{caseId}/comments`, the body holding content, the internal flag and the mentioned users |
| CaseService.CommentRequests | src/services/caseService.ts:97-108 | a comment is updated with PUT `{content}` and deleted with DELETE on `/api/cases/{caseId}/comments/{commentId}` |
| CaseService.AuditAndRelatedRequests | src/services/caseService.ts:111-159 | the audit trail and the related cases are read with GET from `…/audit` and `…/related` with no parameters |
| CaseService.ApprovalRequests | src/services/caseService.ts:147-154 | approve POSTs to `…/approve` with the comments only when given; reject POSTs `{reason}` to `…/reject` |
| CaseService.LinkRequests | src/services/caseService.ts:162-169 | link and unlink POST `{relatedCaseIds}` to `…/link` and `…/unlink` |
| CaseService.GetIffRead | src/services/caseService.ts:16-209 | a call is a GET exactly when it is one of the ten read calls; every other call uses POST, PUT, PATCH or DELETE |
| CaseService.ZeroBasedPage | src/services/caseService.ts:23-198 | every paginated case call sends `page - 1`, so page 1 becomes 0 |
| CaseService.SubPathSegments | src/services/caseService.ts:46-170 | `SubPath`: a `/api/cases/{id}/{sub}` path splits back into its id and sub-resource |
| CaseService.SubPathInjective | src/services/caseService.ts:46-170 | distinct id or sub-resource give distinct paths |
| TaskService.GetTasksParams | src/services/taskService.ts:21-35 | keys come from the fixed set, and page is sent as `page - 1` with size as given |
| TaskService.GetTasksParamsSpec | src/services/taskService.ts:21-35 | arrays comma-joined, caseId and search only when non-empty, dueDate split into start/end, sort as `field,direction` |
| TaskService.AssignedToRoundTrip | src/services/taskService.ts:27 | splitting the assignedTo param on commas gives back the list |
| TaskService.FlaggedPageParams | src/services/taskService.ts:111-115 | a flagged listing sends exactly page-1, size and the flag set to true |
| TaskService.FlaggedListings | src/services/taskService.ts:107-140 | available sends exactly `{page, size, available:true}` and overdue exactly `{page, size, overdue:true}` |
| TaskService.WorkloadParams | src/services/taskService.ts:223 | `userId` is sent iff it is given and non-empty |
| TaskService.PerformanceParams | src/services/taskService.ts:228-237 | `userId` only when non-empty, dates only with a range, and `{}` iff neither |
| TaskService.AbsentArgumentsSendNothing | src/services/taskService.ts:216-237 | statistics, workload and performance send `{}` without their arguments, and workload treats an empty user id as absent |
| TaskService.ActionName | src/services/taskService.ts:65-100 | every lifecycle action name is a single path segment |
| TaskService.LifecyclePathSegments | src/services/taskService.ts:65-100 | `LifecyclePath`: a lifecycle path splits back into `/api/tasks`, the id and the action |
| TaskService.LifecyclePathInjective | src/services/taskService.ts:65-100 | distinct id or action give distinct lifecycle paths |
| TaskService.SearchTasksParams | src/services/taskService.ts:199-213 | sends `q`, page-1 and size, with keys from a fixed set |
| TaskService.ToRequest | src/services/taskService.ts:15-237 | every call targets `/api/tasks…` |
| TaskService.LifecycleRequests | src/services/taskService.ts:65-100 | claim, release, start, pause, resume and cancel POST to their own lifecycle path; claim, release, start and resume send no body, pause sends `{reason}` only when a reason is given, and cancel sends `{reason}` |
| TaskService.TaskRequests | src/services/taskService.ts:41-62 | get, update and delete by id target `/api/tasks/{id}` with GET, PUT (the form as body) and DELETE |
| TaskService.AssignAndCompleteRequests | src/services/taskService.ts:74-80 | assign POSTs to `/api/tasks/assign` with `taskId`, `assignee` and the comment only when given; complete POSTs exactly `{taskId, variables}` to `/api/tasks/complete` |
| TaskService.TaskCommentsRequests | src/services/taskService.ts:143-159 | task comments are read with GET and added with POST on `/api/tasks/{taskId}/comments` |
| TaskService.TaskCommentRequests | src/services/taskService.ts:162-173 | a task comment is updated with PUT `{content}` and deleted with DELETE on `/api/tasks/{taskId}/comments/{commentId}` |
| TaskService.HistoryAndByCaseRequests | src/services/taskService.ts:124-183 | history is a GET of `/api/tasks/{taskId}/history` and the tasks of a case a GET of `/api/tasks/by-case/{caseId}`, both without parameters |
| TaskService.MyAndGroupRequests | src/services/taskService.ts:102-122 | my tasks and group tasks are GETs of `/api/tasks/my/{assignee}` and `/api/tasks/group/{groupId}` with no page or size |
| TaskService.ZeroBasedPage | src/services/taskService.ts:22-207 | every paginated task call sends `page - 1` |
| TaskService.BulkCompleteSpreadOrder | src/services/taskService.ts:190-192 | the bulk-complete body holds the completion fields over `taskIds`, a completion field of that name winning |
| AlertService.ToRequest | src/services/alertDetectionService.ts:21-135 | every call targets `/api/…`; a status update PUTs `{status, comment}` to the case's status path, the comment only when given |
| AlertService.QuickStatusComment | src/services/alertDetectionService.ts:207-215 | the comment comes from the table for the five listed statuses and is `'Status updated to ' + status` otherwise |
| AlertService.QuickStatusCommentExamples | src/services/alertDetectionService.ts:207-215 | the table covers exactly five statuses, and DRAFT falls back to the default |
| AlertService.QuickStatusUpdate | src/services/alertDetectionService.ts:206-218 | the quick update is a status update with the requested status unchanged and the looked-up comment |
| AlertService.CountStatus | src/services/alertDetectionService.ts:193-195 | a status count is the number of occurrences of that status among the tasks' statuses, so never more than the number of tasks |
| AlertService.CountsPartition | src/services/alertDetectionService.ts:188-196 | pending, in-progress, completed and other counts add up to the task count, and other is 0 iff every task has one of the three statuses |
| AlertService.UserWorkload | src/services/alertDetectionService.ts:179-201 | a failed fetch is rethrown unchanged; otherwise taskCount is the list length, pending, in-progress and completed are the numbers of tasks with exactly that status, and the three add up to at most taskCount, equal iff every task is in one of them |
| AlertService.CancelledNotCounted | src/services/alertDetectionService.ts:188-196 | a single cancelled task gives taskCount 1 and all three counts 0 |
| AlertService.DataLength | src/services/alertDetectionService.ts:162-169 | a dashboard count is the list length, or 0 when `data` is absent |
| AlertService.FirstFailure | src/services/alertDetectionService.ts:170-173 | no failure iff every response succeeded, otherwise one of the responses' failures |
| AlertService.DashboardSummary | src/services/alertDetectionService.ts:137-174 | fails iff some response failed, with that response's error; otherwise each count is its response's list length |
| AlertService.ReadyNeverCounted | src/services/alertDetectionService.ts:153-169 | READY_FOR_ASSIGNMENT is not among the summary's statuses |
| Helpers.CaseNumberSequence | src/utils/helpers.ts:11-13 | `GenerateCaseNumber`: the case number is `CASE-year-` plus at least four digits whose value is the sequence, exactly four below 10000, never truncated above |
| Helpers.RiskLevel | src/utils/helpers.ts:38-43 | the level is one of the four priority levels |
| Helpers.RiskLevelBands | src/utils/helpers.ts:38-43 | CRITICAL iff score ≥ 90, HIGH iff 80..89, MEDIUM iff 60..79, LOW iff below 60 |
| Helpers.RiskLevelMonotone | src/utils/helpers.ts:38-43 | a higher score never gives a lower level |
| Helpers.RiskColorByLevel | src/utils/helpers.ts:46-55 | `RiskColor` (`getRiskColor`): two scores get the same colour iff they get the same level |
| Helpers.RequiresApprovalIffHighRisk | src/utils/helpers.ts:58-60 | `RequiresApproval`: approval is required iff the level is HIGH or CRITICAL |
| Helpers.NextStatus | src/utils/helpers.ts:63-72 | a next status exists only for a `CASE_STATUS` value and is one |
| Helpers.NextStatusAdvances | src/utils/helpers.ts:63-72 | the next status is one step further along the chain, never the input, and absent iff the input is COMPLETED or unknown |
| Helpers.ProgressionTerminates | src/utils/helpers.ts:63-72 | five steps from any status reach "no next status" |
| Helpers.DraftToCompleted | src/utils/helpers.ts:63-72 | four steps from DRAFT reach COMPLETED |
| Helpers.ValidationErrorsSpec | src/utils/helpers.ts:75-101 | each message appears iff its check fails, in the fixed order, at most five, no risk message without a score, empty iff every check passes |
| Helpers.SelectedMembers | src/utils/helpers.ts:75-101 | a message is pushed iff its check fails |
| Helpers.ValidateCaseData | src/utils/helpers.ts:75-102 | the five checks in sequence, each pushing its message into `errors` when it fails, yield the specified list, and `isValid` iff it is empty |
| Helpers.TruncateText | src/utils/helpers.ts:114-117 | text within the limit is unchanged, longer text keeps its first `max` characters followed by `...` |
| Helpers.TruncateIdempotent | src/utils/helpers.ts:114-117 | truncating twice with the same limit equals truncating once |
| Helpers.GetInitials | src/utils/helpers.ts:120-126 | at most two characters, none lowercase |
| Helpers.InitialsOfWords | src/utils/helpers.ts:120-126 | for space-separated words the initials are the uppercased first letters of the first one or two words |
| Helpers.LessTransitive | src/utils/helpers.ts:150-151 | `<` is transitive on the values the comparator orders: two numbers, or two strings in lexicographic order |
| Helpers.LessTotal | src/utils/helpers.ts:150-151 | two present values of the same kind are equal or one is below the other |
| Helpers.CompareAntisymmetric | src/utils/helpers.ts:145-154 | swapping the rows negates the comparator |
| Helpers.CompareTransitive | src/utils/helpers.ts:145-154 | the comparator is transitive on rows whose sort fields are all present and hold two numbers or two strings |
| Helpers.Compare | src/utils/helpers.ts:146-153 | the for-of loop returns, at the first key where one value is below the other, -1 or 1 by direction, and 0 when no key decides |
| Helpers.NeighboursSortedIsSorted | src/utils/helpers.ts:145-154 | on comparable rows, neighbours in order means every pair in order |
| Helpers.SortPermutes | src/utils/helpers.ts:145 | sorting the copy keeps exactly the input rows, each as often |
| Helpers.SortOrders | src/utils/helpers.ts:145-154 | after sorting, every neighbouring pair compares at most 0 |
| Helpers.SortStable | src/utils/helpers.ts:145-154 | on comparable rows, the rows that tie with any row keep their input order: the sort is stable |
| Helpers.SortNoKeys | src/utils/helpers.ts:146-153 | with an empty config every pair compares 0 and the result is the input |
| Helpers.SortSpec | src/utils/helpers.ts:141-155 | the sort of the rows is a permutation with neighbours in order; sorted and stable when all rows are comparable; the input itself with no keys |
| Helpers.MultiSort | src/utils/helpers.ts:141-155 | returns a sorted copy: a permutation of the input with neighbours in order, sorted and stable when every two rows are comparable, the input itself with no keys |
| Helpers.SortInPlace | src/utils/helpers.ts:145-154 | sorting the copied array in place leaves the insertion sort of its old contents |
| Helpers.InsertStep | src/utils/helpers.ts:145-154 | one pass moves row `i` down past the rows above it, so the first `i + 1` rows become it inserted into the sorted prefix, and the rest are unchanged |
| Constants.EnumerationsAreIdentity | src/utils/constants.ts:2-47 | every enumeration maps each key to the identical string |
| Constants.ThresholdsIncreasing | src/utils/constants.ts:50-55 | the thresholds cover the four levels and increase strictly, LOW < MEDIUM < HIGH < CRITICAL |
| Constants.StatusColorsCover | src/utils/constants.ts:58-64 | each `CASE_STATUS` value has its own distinct colour and nothing else has one |
| Constants.PriorityColorsCover | src/utils/constants.ts:67-72 | each priority level has its own distinct colour and nothing else has one |
| Constants.BackendStatusesMissing | src/utils/constants.ts:9-15 | READY_FOR_ASSIGNMENT, UNDER_INVESTIGATION, CLOSED and REJECTED are neither status values nor coloured |
| Api.HandleApiError | src/services/api.ts:185-209 | a response gives its status, its message or the default, its code or UNKNOWN_ERROR; a request without a response gives 0/NETWORK_ERROR; neither gives 0/UNKNOWN_ERROR with the error's message or the fallback |
| Api.ClassificationShape | src/services/api.ts:185-209 | message and code are never empty, status is 0 iff there is no response (or it is 0), and NETWORK_ERROR arises only from a lost response or a server saying so |
| Api.AuthHeaderIffAuthenticated | src/services/api.ts:17-20 | the `Bearer` header is attached iff the stored token is non-empty, and carries that token |
| Api.SetTokenThenGet | src/services/api.ts:152-158 | storing a token makes `getToken` return it, authenticates iff it is non-empty and leaves other keys alone |
| Api.LogoutEffect | src/services/api.ts:135-138 | after logout there is no token and no user, and every other key is unchanged |
| Api.UnauthorizedEffect | src/services/api.ts:34-38 | removing the token for a 401 unauthenticates but keeps the stored user |
| Api.SessionStore.SetToken | src/services/api.ts:156-158 | stores the token under `authToken` and changes nothing else |
| Api.SessionStore.GetToken | src/services/api.ts:152-154 | returns the stored token if any |
| Api.SessionStore.IsAuthenticated | src/services/api.ts:148-150 | true iff a non-empty token is stored |
| Api.SessionStore.SetCurrentUser | src/services/api.ts:165-167 | stores the user under `currentUser` and changes nothing else |
| Api.SessionStore.GetStoredUser | src/services/api.ts:160-163 | returns the stored user iff it is present and non-empty |
| Api.SessionStore.Logout | src/services/api.ts:135-138 | removes exactly `authToken` and `currentUser` |
| Api.SessionStore.AuthorizationHeader | src/services/api.ts:15-26 | the request interceptor's header is the one the storage determines |
| Api.SessionStore.OnResponseError | src/services/api.ts:29-51 | every error is rejected unchanged, and only a 401 removes the token |
| CreateCase.ApplyEdit | src/components/cases/CreateCase.tsx:33-35 | an edit replaces exactly the named form field |
| CreateCase.EditTouchesOneField | src/components/cases/CreateCase.tsx:33-35 | every other field keeps its value |
| CreateCase.EveryFormFails | src/components/cases/CreateCase.tsx:22-30 | whatever the form holds, validation reports the missing title, type and assignee |
| CreateCase.SubmitNeverCreates | src/components/cases/CreateCase.tsx:43-50 | no form passes validation, so the create mutation is unreachable |
| CreateCase.InitialFormFacts | src/components/cases/CreateCase.tsx:22-58 | the initial case type is not a `CASE_TYPES` value, the initial form is incomplete, and a risk score of 0 completes it |
| CreateCase.CreateCasePage.HandleInputChange | src/components/cases/CreateCase.tsx:33-38 | the named field is updated and the errors are cleared |
| CreateCase.CreateCasePage.HandleSubmit | src/components/cases/CreateCase.tsx:39-55 | failing validation sets the errors and submits nothing; passing submits the form |
| CreateCase.CreateCasePage.Gate | src/components/cases/CreateCase.tsx:43-50 | with validation errors the page shows exactly those errors and submits nothing; without, the form is submitted once and the errors are kept |
| CaseList.ApplyPatch | src/components/cases/CaseList.tsx:34-37 | each of the eight filter fields (status, type, assignee, priority, risk range, date range, tags, search) takes the patch value when the patch holds the field, even `undefined`, and otherwise keeps its previous value |
| CaseList.PatchLaws | src/components/cases/CaseList.tsx:34-37 | an empty patch changes nothing, and the later of two patches wins |
| CaseList.SelectSemantics | src/components/cases/CaseList.tsx:136-178 | a select sets its filter to the one-element list or, for `''`, clears it, and touches no other filter |
| CaseList.Render | src/components/cases/CaseList.tsx:45-64 | loading beats error, error beats data, and an empty or absent list shows the empty state |
| CaseList.ShownRange | src/components/cases/CaseList.tsx:233-237 | the pagination bar is shown iff there is more than one page |
| CaseList.ShownRangeBounds | src/components/cases/CaseList.tsx:233-237 | the shown range starts at `(page-1)*20+1`, ends within the total and spans at most 20 |
| CaseList.PagingStaysInRange | src/components/cases/CaseList.tsx:240-256 | `PreviousPage` and `NextPage`: Previous and Next keep the page within `[1, totalPages]`, move at most one step and stop only at the ends |
| CaseList.ClearedSearchSameRequestNewKey | src/components/cases/CaseList.tsx:28-32 | an empty search sends the same request as no search but uses a different cache key |
| CaseList.CaseListPage.HandleSearch | src/components/cases/CaseList.tsx:28-32 | sets the query and `filters.search`, keeps the other filters, resets page 1 |
| CaseList.CaseListPage.HandleFilterChange | src/components/cases/CaseList.tsx:34-37 | applies the patch and resets page 1 |
| CaseList.CaseListPage.ClearFilters | src/components/cases/CaseList.tsx:39-43 | clears filters and query and resets page 1 |
| CaseList.CaseListPage.ToggleFilters | src/components/cases/CaseList.tsx:111 | flips the filter panel and keeps page, filters and query |
| CaseList.CaseListPage.Previous | src/components/cases/CaseList.tsx:240-246 | the page becomes `PreviousPage` of the old one (see PagingStaysInRange), and the filters, query and panel are kept |
| CaseList.CaseListPage.Next | src/components/cases/CaseList.tsx:250-256 | the page becomes `NextPage` of the old one (see PagingStaysInRange), and the filters, query and panel are kept |
| Sidebar.Without | src/components/common/Sidebar.tsx:49-50 | removes every occurrence of the name and keeps the other names |
| Sidebar.ToggleSpec | src/components/common/Sidebar.tsx:47-53 | `Toggle`: a present name is removed, an absent one appended, the others kept in order |
| Sidebar.ToggleTwice | src/components/common/Sidebar.tsx:47-53 | toggling an absent name twice restores the list |
| Sidebar.FilterNavigation | src/components/common/Sidebar.tsx:55-60 | an item is kept iff its name or a child's name contains the query, ignoring ASCII case |
| Sidebar.FilterKeepsOrder | src/components/common/Sidebar.tsx:55-60 | filtering keeps the items' order |
| Sidebar.EmptyQueryKeepsAll | src/components/common/Sidebar.tsx:55-60 | an empty query keeps every item |
| Sidebar.QueryLinksNeverCurrent | src/components/common/Sidebar.tsx:62-67 | `IsCurrentPath`: an href with `?` never matches a pathname without one |
| Sidebar.CasesHighlightedOnSubPages | src/components/common/Sidebar.tsx:62-67 | `IsCurrentPath`: `/cases` matches its sub-pages while `/` matches only itself |
| Sidebar.SidebarState.ToggleExpanded | src/components/common/Sidebar.tsx:47-53 | the expanded list becomes its toggle by the name |
| Sidebar.SidebarState.SetSearchQuery | src/components/common/Sidebar.tsx:92 | the query becomes the typed text and the expanded list is kept |
| CaseCard.RiskBadgeColor | src/components/cases/CaseCard.tsx:28-33 | the badge colour is the priority colour of the badge level |
| CaseCard.BadgeLevel | src/components/cases/CaseCard.tsx:28-33 | the badge level is always one of the four priority levels that have a colour |
| CaseCard.BadgeDisagreesWithRiskLevel | src/components/cases/CaseCard.tsx:28-33 | between 30 and 89 the badge is one level above `getRiskLevel`, elsewhere they agree |
| CaseCard.TypeIcon | src/components/cases/CaseCard.tsx:35-46 | the default icon is used iff the type is not AML, FRAUD or SANCTIONS |
| CaseCard.ProgressWidth | src/components/cases/CaseCard.tsx:143-146 | the progress width lies between 10 and 100 percent |
| CaseCard.ProgressFollowsProgression | src/components/cases/CaseCard.tsx:143-146 | width grows strictly along the status chain, is 100 only for COMPLETED and 10 for DRAFT or anything unknown |
| CaseCard.ShownTags | src/components/cases/CaseCard.tsx:117 | the first three tags at most are shown |
| CaseCard.TagStripAccounts | src/components/cases/CaseCard.tsx:115-131 | `MoreLabel`: `+N more` appears iff there are more than three tags, with N the hidden count |
| StatusBadge.FormatStatus | src/components/cases/StatusBadge.tsx:12-14 | the output has the input's length and no underscore |
| StatusBadge.FormatStatusWords | src/components/cases/StatusBadge.tsx:12-14 | underscores become spaces, each word starts uppercase and continues lowercase |
| StatusBadge.FormatStatusIdempotent | src/components/cases/StatusBadge.tsx:12-14 | formatting a formatted status changes nothing |
| StatusBadge.PendingApprovalExample | src/components/cases/StatusBadge.tsx:12-14 | PENDING_APPROVAL shows as "Pending Approval" |
| StatusBadge.BadgeColorCoverage | src/components/cases/StatusBadge.tsx:19 | every `CASE_STATUS` value has a badge colour and the four backend-only names have none |
| StatusBadge.BadgeColor | src/components/cases/StatusBadge.tsx:19 | a status has a badge colour iff it is a key of `STATUS_COLORS` |
| RecentActivity.RelativeAge | src/components/dashboard/RecentActivity.tsx:86-101 | the five buckets are exclusive, cover every difference and carry the floored minutes, hours or days |
| RecentActivity.AgeMonotone | src/components/dashboard/RecentActivity.tsx:86-101 | an older timestamp never falls in a more recent bucket |
| RecentActivity.FutureIsJustNow | src/components/dashboard/RecentActivity.tsx:89-91 | `AgeLabel` of the bucket: a future timestamp shows "Just now" |
| RecentActivity.UnknownTypesLookUpdated | src/components/dashboard/RecentActivity.tsx:52-84 | `ActivityStyle`: unknown types share `case_updated`'s icon and background, the five known types all differ |
| Header.DisplayName | src/components/common/Header.tsx:31 | never empty; the name when non-empty, else the trimmed "first last" when non-empty, else the username when non-empty, else "User" |
| Header.DisplayNameFallback | src/components/common/Header.tsx:31 | the fallback `'User'` appears exactly when name, trimmed full name and username all fail or equal it |
| Header.DemoUserName | src/components/common/Header.tsx:23-31 | without a stored user the header shows "Demo User" |
| Header.ReplaceFirstUnderscore | src/components/common/Header.tsx:190 | only the first underscore becomes a space |
| Header.RoleLabelExamples | src/components/common/Header.tsx:23-32 | `RoleLabel`: the demo user shows as INVESTIGATOR, and a user without a role shows as USER |
| Header.RoleLabelFirstUnderscore | src/components/common/Header.tsx:190 | `RoleLabel`: only the first underscore of a role becomes a space and the rest is kept, so CASE_TEAM_LEAD shows as "CASE TEAM_LEAD" |
| Header.ProfileEmail | src/components/common/Header.tsx:202 | the e-mail line is never empty: a non-empty stored e-mail is shown as is, otherwise the line ends in `@alertsystem.com` and what precedes it is the username |
| Header.ProfileEmailExamples | src/components/common/Header.tsx:23-202 | the demo user shows "demo@alertsystem.com", an empty e-mail falls back to the username, and a missing username prints as `undefined@alertsystem.com` |
| Header.AvatarIsInitials | src/components/common/Header.tsx:182 | `AvatarInitials`: the avatar equals `getInitials` of the display name |
| Header.DemoUserAvatar | src/components/common/Header.tsx:182 | the demo user's avatar is "DU" |
| Header.UnreadCountSpec | src/components/common/Header.tsx:61 | the count is the total iff all are unread and 0 iff none is |
| Header.BadgeShowsTwo | src/components/common/Header.tsx:34-61 | the built-in notifications give an unread badge of 2 |
| Header.UnreadCount | src/components/common/Header.tsx:61 | the unread count never exceeds the number of notifications |
| Header.HeaderState.ToggleNotifications | src/components/common/Header.tsx:117 | flips only the notifications flag |
| Header.HeaderState.ToggleProfile | src/components/common/Header.tsx:178 | flips only the profile flag |
| Header.HeaderState.BackdropClick | src/components/common/Header.tsx:240-243 | closes both dropdowns |
| Header.HeaderState.CloseProfile | src/components/common/Header.tsx:209-217 | closes the profile dropdown and leaves the notifications dropdown as it was |
| Header.HeaderState.CloseNotifications | src/components/common/Header.tsx:166 | closes the notifications dropdown and leaves the profile dropdown as it was |
| Header.HeaderState.HandleLogout | src/components/common/Header.tsx:63-66 | logout removes exactly the token and the user from storage |

## Left out

- HTTP transport is not modelled: the axios instance, the verbs, upload and download, timeouts, `window.location` redirects and console logging. They are I/O. Requests are modelled as values (verb, path, params).
- The query library's request deduplication, retries, garbage collection, `refetchInterval` and out-of-order resolution are not modelled. They are library-managed and concurrent. The cache keeps only keys, freshness and invalidation.
- Time is an explicit `now` argument, and `RecentActivity` takes the millisecond difference as an integer. The clock is not modelled.
- The `Promise.all` fan-out of the dashboard summary is concurrent and not modelled. The summary is computed over the given responses.
- AlertService.DashboardSummary: the failure is "one of the failing responses", not a particular one. `Promise.all` rejects with whichever failure settles first, which depends on timing.
- Dashboard and stats-card percentages and `change` arithmetic are not modelled, because they are floating point.
- `formatDate`, the helpers' `getRelativeTime`, `formatCurrency`, `cn` and `debounce` are not modelled. They rely on date, locale, class-name and timer libraries.
- `exportCase`, `exportTasks` and the JSON round-trip of the stored current user are not modelled. They involve blob downloads and JSON parsing. The stored user is an opaque string.
- Case mapping, trimming and substring search are ASCII only. Unicode case folding is not modelled.
- Risk scores are integers. JavaScript numbers can be fractional, and the cut points compare the same way for integers.
- Helpers.MultiSort: a number compared with a string is treated as incomparable (neither is below the other). JavaScript converts the string to a number and compares numerically. A missing field (`undefined`) is incomparable with everything, as in JavaScript. Either case can break transitivity. Sortedness and stability are therefore promised only when every two rows hold all sort fields with values of the same kind.
- Helpers.MultiSort: when the rows are not all comparable, the comparator is inconsistent and the ECMAScript standard leaves the order implementation-defined. The model returns the insertion sort's order, which is a permutation with every neighbouring pair in order.
- Helpers.MultiSort: strings compare by character, while JavaScript compares UTF-16 code units. The two orders differ only for characters outside the Basic Multilingual Plane.
- Sidebar markup, routing, static pages (home, tasks, dashboard and cases pages, case details, the alert demo) and the error boundary are not modelled. They are layout and wiring.
- The `statusComments` table is a finite map. JavaScript prototype keys such as `constructor` are not modelled.
- `TYPOLOGIES` is not part of this model, because `src/utils/constants.ts` does not define it.
- `useGroupTasks` passes page and size to `getGroupTasks`, which ignores them. The model keeps them in the key only.
- `useTasksByCase` passes page and size to `getTasksByCase`, which ignores them. The model keeps them in the key only.
- `useMyTasks` calls `getMyTasks(page, size, status)`, but `getMyTasks` takes one argument, the assignee. The page number therefore becomes the path segment (`/api/tasks/my/1` for page 1), and size and status are dropped. The model keeps the hook's key, and models the service call as `GetMyTasks(assignee)` taking a string. It does not model the number-to-text conversion of the page at that call.
