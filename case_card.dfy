/** The case card: its risk badge, type icon, progress bar and tag strip. */
module CaseCard {
  import opened Wrappers
  import opened Text
  import opened Constants
  import opened Helpers

  /** The level whose color the risk badge shows: cut points 80, 60 and 30, and no score
      compares false everywhere and gets the lowest. */
  function BadgeLevel(score: Option<int>): (level: string)
    ensures level in PriorityColors
  {
    if score.Some? && score.value >= 80 then "CRITICAL"
    else if score.Some? && score.value >= 60 then "HIGH"
    else if score.Some? && score.value >= 30 then "MEDIUM"
    else "LOW"
  }

  /** `getRiskBadgeColor`. */
  function RiskBadgeColor(score: Option<int>): (color: string)
    ensures color == PriorityColors[BadgeLevel(score)]
  {
    if score.Some? && score.value >= 80 then "bg-red-100 text-red-800"
    else if score.Some? && score.value >= 60 then "bg-orange-100 text-orange-800"
    else if score.Some? && score.value >= 30 then "bg-yellow-100 text-yellow-800"
    else "bg-green-100 text-green-800"
  }

  /** The badge runs one level above `getRiskLevel` from 30 up to 90, and agrees with it
      below 30 and from 90 on. */
  lemma BadgeDisagreesWithRiskLevel(score: int)
    ensures 30 <= score < 90 ==> LevelRank(BadgeLevel(Some(score))) == LevelRank(RiskLevel(score)) + 1
    ensures score < 30 || score >= 90 ==> BadgeLevel(Some(score)) == RiskLevel(score)
  {
  }

  /** The card's type icons, by name. */
  datatype Icon = Bank | Siren | Scales | Clipboard

  /** `getTypeIcon`. */
  function TypeIcon(caseType: Option<string>): (icon: Icon)
    ensures icon == Clipboard <==> caseType !in {Some("AML"), Some("FRAUD"), Some("SANCTIONS")}
  {
    match caseType
    case Some("AML") => Bank
    case Some("FRAUD") => Siren
    case Some("SANCTIONS") => Scales
    case _ => Clipboard
  }

  /** The width of the progress bar, in percent. */
  function ProgressWidth(status: string): (w: nat)
    ensures 10 <= w <= 100
  {
    if status == "COMPLETED" then 100
    else if status == "IN_INVESTIGATION" then 75
    else if status == "PENDING_APPROVAL" then 50
    else if status == "READY" then 25
    else 10
  }

  /** The bar grows strictly along the status progression, is full only when completed, and
      stays at 10 for every status outside the progression's later steps. */
  lemma ProgressFollowsProgression(status: string)
    ensures NextStatus(status).Some? ==> ProgressWidth(status) < ProgressWidth(NextStatus(status).value)
    ensures ProgressWidth(status) == 100 <==> status == "COMPLETED"
    ensures status !in CaseStatus || status == "DRAFT" ==> ProgressWidth(status) == 10
  {
  }

  /** `tags.slice(0, 3)`, shown only when there are tags. */
  function ShownTags(tags: Option<seq<string>>): (r: seq<string>)
    ensures tags.None? ==> r == []
    ensures tags.Some? ==> |r| == if |tags.value| < 3 then |tags.value| else 3
    ensures tags.Some? ==> r == tags.value[..|r|]
  {
    if tags.Some? && |tags.value| > 0 then tags.value[..if |tags.value| < 3 then |tags.value| else 3] else []
  }

  /** The "+N more" label. */
  function MoreLabel(tags: Option<seq<string>>): Option<string> {
    if tags.Some? && |tags.value| > 3 then Some("+" + NatToString(|tags.value| - 3) + " more") else None
  }

  /** The shown tags and the count in the label add up to all the tags. */
  lemma TagStripAccounts(tags: seq<string>)
    ensures |ShownTags(Some(tags))| <= 3
    ensures MoreLabel(Some(tags)).Some? <==> |tags| > 3
    ensures |tags| > 3 ==> MoreLabel(Some(tags)).value == "+" + NatToString(|tags| - |ShownTags(Some(tags))|) + " more"
    ensures |tags| <= 3 ==> ShownTags(Some(tags)) == tags
  {
  }
}
