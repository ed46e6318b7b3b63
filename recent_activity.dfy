/** The recent-activity panel: how old an item is said to be, and its icon and background. */
module RecentActivity {
  import opened Text

  const MinuteMs := 60000

  /** What `getRelativeTime` shows for an item. */
  datatype Age = JustNow | MinutesAgo(minutes: int) | HoursAgo(hours: int) | DaysAgo(days: int) | OnDate

  /** `getRelativeTime`, from the milliseconds between the item's timestamp and now. Every
      division is `Math.floor` by a positive number, so a future timestamp gives a negative
      minute count. */
  function RelativeAge(diffMs: int): (a: Age)
    ensures a == JustNow <==> diffMs < MinuteMs
    ensures a.MinutesAgo? <==> MinuteMs <= diffMs < 60 * MinuteMs
    ensures a.HoursAgo? <==> 60 * MinuteMs <= diffMs < 24 * 60 * MinuteMs
    ensures a.DaysAgo? <==> 24 * 60 * MinuteMs <= diffMs < 7 * 24 * 60 * MinuteMs
    ensures a == OnDate <==> diffMs >= 7 * 24 * 60 * MinuteMs
    ensures a.MinutesAgo? ==> 1 <= a.minutes < 60 && a.minutes == diffMs / MinuteMs
    ensures a.HoursAgo? ==> 1 <= a.hours < 24 && a.hours == diffMs / (60 * MinuteMs)
    ensures a.DaysAgo? ==> 1 <= a.days < 7 && a.days == diffMs / (24 * 60 * MinuteMs)
  {
    var minutes := diffMs / MinuteMs;
    if minutes < 1 then JustNow
    else if minutes < 60 then MinutesAgo(minutes)
    else
      var hours := minutes / 60;
      if hours < 24 then HoursAgo(hours)
      else
        var days := hours / 24;
        if days < 7 then DaysAgo(days) else OnDate
  }

  /** The text shown; the formatted date is left to the date library. */
  function AgeLabel(a: Age, formattedDate: string): string {
    match a
    case JustNow => "Just now"
    case MinutesAgo(m) => IntToString(m) + " minutes ago"
    case HoursAgo(h) => IntToString(h) + " hours ago"
    case DaysAgo(d) => IntToString(d) + " days ago"
    case OnDate => formattedDate
  }

  /** An older item never shows a smaller age bucket than a newer one. */
  function BucketRank(a: Age): nat {
    match a
    case JustNow => 0
    case MinutesAgo(_) => 1
    case HoursAgo(_) => 2
    case DaysAgo(_) => 3
    case OnDate => 4
  }

  lemma AgeMonotone(d1: int, d2: int)
    requires d1 <= d2
    ensures BucketRank(RelativeAge(d1)) <= BucketRank(RelativeAge(d2))
  {
  }

  /** A timestamp in the future (a negative difference) shows "Just now". */
  lemma FutureIsJustNow(diffMs: int)
    requires diffMs < 0
    ensures AgeLabel(RelativeAge(diffMs), "") == "Just now"
  {
  }

  datatype IconShape = FolderOpen | CheckSquare | UserIcon | AlertTriangle | ClockIcon

  datatype Style = Style(icon: IconShape, iconColor: string, background: string)

  /** `getActivityIcon` and `getActivityBgColor` together. */
  function ActivityStyle(activityType: string): Style {
    match activityType
    case "case_created" => Style(FolderOpen, "text-blue-600", "bg-blue-50")
    case "task_completed" => Style(CheckSquare, "text-green-600", "bg-green-50")
    case "case_assigned" => Style(UserIcon, "text-purple-600", "bg-purple-50")
    case "status_changed" => Style(AlertTriangle, "text-orange-600", "bg-orange-50")
    case "case_updated" => Style(ClockIcon, "text-gray-600", "bg-gray-50")
    case _ => Style(ClockIcon, "text-gray-600", "bg-gray-50")
  }

  const KnownTypes := ["case_created", "task_completed", "case_assigned", "status_changed", "case_updated"]

  /** An unknown type looks like `case_updated`; each known type has its own style. The
      upper-case type names of the shared activity record are all unknown here. */
  lemma UnknownTypesLookUpdated(activityType: string)
    ensures activityType !in KnownTypes ==> ActivityStyle(activityType) == ActivityStyle("case_updated")
    ensures forall i, j :: 0 <= i < j < |KnownTypes| ==> ActivityStyle(KnownTypes[i]) != ActivityStyle(KnownTypes[j])
    ensures ActivityStyle("CASE_CREATED") == ActivityStyle("case_updated")
  {
  }
}
