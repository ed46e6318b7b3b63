/** The enumerations and lookup tables of the front end's constants file. */
module Constants {

  const CaseTypes: map<string, string> := map["AML" := "AML", "FRAUD" := "FRAUD", "SANCTIONS" := "SANCTIONS"]

  /** The front end's case statuses; the backend uses other names (see BackendStatusesMissing). */
  const CaseStatus: map<string, string> := map[
    "DRAFT" := "DRAFT", "READY" := "READY", "PENDING_APPROVAL" := "PENDING_APPROVAL",
    "IN_INVESTIGATION" := "IN_INVESTIGATION", "COMPLETED" := "COMPLETED"]

  const TaskStatus: map<string, string> := map[
    "PENDING" := "PENDING", "IN_PROGRESS" := "IN_PROGRESS", "COMPLETED" := "COMPLETED", "CANCELLED" := "CANCELLED"]

  const TaskTypes: map<string, string> := map[
    "APPROVAL" := "APPROVAL", "INVESTIGATION" := "INVESTIGATION", "REVIEW" := "REVIEW",
    "DOCUMENTATION" := "DOCUMENTATION"]

  const UserRoles: map<string, string> := map[
    "INVESTIGATOR" := "INVESTIGATOR", "SUPERVISOR" := "SUPERVISOR", "MANAGER" := "MANAGER", "ANALYST" := "ANALYST"]

  const PriorityLevels: map<string, string> := map[
    "LOW" := "LOW", "MEDIUM" := "MEDIUM", "HIGH" := "HIGH", "CRITICAL" := "CRITICAL"]

  const RiskLow := 30
  const RiskMedium := 60
  const RiskHigh := 80
  const RiskCritical := 90

  const RiskThresholds: map<string, int> := map[
    "LOW" := RiskLow, "MEDIUM" := RiskMedium, "HIGH" := RiskHigh, "CRITICAL" := RiskCritical]

  const StatusColors: map<string, string> := map[
    "DRAFT" := "bg-gray-100 text-gray-800",
    "READY" := "bg-blue-100 text-blue-800",
    "PENDING_APPROVAL" := "bg-yellow-100 text-yellow-800",
    "IN_INVESTIGATION" := "bg-orange-100 text-orange-800",
    "COMPLETED" := "bg-green-100 text-green-800"]

  const PriorityColors: map<string, string> := map[
    "LOW" := "bg-green-100 text-green-800",
    "MEDIUM" := "bg-yellow-100 text-yellow-800",
    "HIGH" := "bg-orange-100 text-orange-800",
    "CRITICAL" := "bg-red-100 text-red-800"]

  /** A table whose every key names itself, as each `as const` enumeration does. */
  predicate IsIdentity(m: map<string, string>) {
    forall k :: k in m ==> m[k] == k
  }

  lemma EnumerationsAreIdentity()
    ensures IsIdentity(CaseTypes) && IsIdentity(CaseStatus) && IsIdentity(TaskStatus)
    ensures IsIdentity(TaskTypes) && IsIdentity(UserRoles) && IsIdentity(PriorityLevels)
  {
    CaseTablesAreIdentity();
    TaskTablesAreIdentity();
    PeopleTablesAreIdentity();
  }

  lemma CaseTablesAreIdentity()
    ensures IsIdentity(CaseTypes) && IsIdentity(CaseStatus)
  {
    forall k | k in CaseTypes ensures CaseTypes[k] == k { }
    forall k | k in CaseStatus ensures CaseStatus[k] == k { }
  }

  lemma TaskTablesAreIdentity()
    ensures IsIdentity(TaskStatus) && IsIdentity(TaskTypes)
  {
    forall k | k in TaskStatus ensures TaskStatus[k] == k { }
    forall k | k in TaskTypes ensures TaskTypes[k] == k { }
  }

  lemma PeopleTablesAreIdentity()
    ensures IsIdentity(UserRoles) && IsIdentity(PriorityLevels)
  {
    forall k | k in UserRoles ensures UserRoles[k] == k { }
    forall k | k in PriorityLevels ensures PriorityLevels[k] == k { }
  }

  lemma ThresholdsIncreasing()
    ensures RiskThresholds.Keys == PriorityLevels.Keys
    ensures 0 < RiskThresholds["LOW"] < RiskThresholds["MEDIUM"] < RiskThresholds["HIGH"] < RiskThresholds["CRITICAL"] <= 100
  {
  }

  /** The status color table is total on the case statuses and gives each a distinct color. */
  lemma StatusColorsCover()
    ensures forall k :: k in CaseStatus ==> CaseStatus[k] in StatusColors
    ensures forall c :: c in StatusColors ==> c in CaseStatus && CaseStatus[c] == c
    ensures forall a, b :: a in StatusColors && b in StatusColors && a != b ==> StatusColors[a] != StatusColors[b]
  {
    forall k | k in CaseStatus ensures CaseStatus[k] in StatusColors { }
    forall c | c in StatusColors ensures c in CaseStatus && CaseStatus[c] == c { }
    forall a, b | a in StatusColors && b in StatusColors && a != b ensures StatusColors[a] != StatusColors[b] { }
  }

  /** The priority color table is total on the priority levels and gives each a distinct color. */
  lemma PriorityColorsCover()
    ensures forall k :: k in PriorityLevels ==> PriorityLevels[k] in PriorityColors
    ensures forall c :: c in PriorityColors ==> c in PriorityLevels && PriorityLevels[c] == c
    ensures forall a, b :: a in PriorityColors && b in PriorityColors && a != b ==> PriorityColors[a] != PriorityColors[b]
  {
    forall k | k in PriorityLevels ensures PriorityLevels[k] in PriorityColors { }
    forall c | c in PriorityColors ensures c in PriorityLevels && PriorityLevels[c] == c { }
    forall a, b | a in PriorityColors && b in PriorityColors && a != b ensures PriorityColors[a] != PriorityColors[b] { }
  }

  /** The backend's status names that the front end's table does not know. */
  lemma BackendStatusesMissing()
    ensures forall s :: s in ["READY_FOR_ASSIGNMENT", "UNDER_INVESTIGATION", "CLOSED", "REJECTED"] ==>
      (forall k :: k in CaseStatus ==> CaseStatus[k] != s) && s !in StatusColors
  {
  }
}
