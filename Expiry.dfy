/**
 * The expiry-status classification that the item listing attaches to each row,
 * and the priority bucket that the expiry-ordered listing query sorts by.
 */
module Expiry {
  import opened Wrappers

  /** How many days ahead an expiry date still counts as "soon". */
  const WarningDays: int := 7

  datatype Status = Expired | Warning | Normal | NoExpiry

  /** The classification of one expiry date: its status, CSS class and icon. */
  datatype Classification = Classification(status: Status, cssClass: string, icon: string)

  /** The `expiry_status` string the templates receive. */
  function StatusName(s: Status): (name: string)
    ensures s == Expired ==> name == "expired"
    ensures s == Warning ==> name == "warning"
    ensures s == Normal ==> name == "normal"
    ensures s == NoExpiry ==> name == "none"
  {
    match s
    case Expired => "expired"
    case Warning => "warning"
    case Normal => "normal"
    case NoExpiry => "none"
  }

  /** Each status has its own string, so the template can tell them apart. */
  lemma StatusNameDeterminesStatus(s: Status, t: Status)
    ensures StatusName(s) == StatusName(t) <==> s == t
  {
  }

  /**
   * The classification of an optional expiry date on day `today`: absent dates are
   * `none`, dates before today `expired`, dates up to a week ahead `warning`, later
   * dates `normal`; only `expired` and `warning` carry a class and an icon.
   */
  function Classify(expiry: Option<int>, today: int): (r: Classification)
    ensures r.status == NoExpiry <==> expiry.None?
    ensures r.status == Expired <==> expiry.Some? && expiry.value < today
    ensures r.status == Warning <==> expiry.Some? && today <= expiry.value <= today + WarningDays
    ensures r.status == Normal <==> expiry.Some? && today + WarningDays < expiry.value
    ensures r.status == Expired ==> r.cssClass == "text-danger" && r.icon == "❌"
    ensures r.status == Warning ==> r.cssClass == "text-warning" && r.icon == "⚠️"
    ensures r.status in {Normal, NoExpiry} ==> r.cssClass == "" && r.icon == ""
  {
    match expiry
    case None => Classification(NoExpiry, "", "")
    case Some(d) =>
      if d < today then Classification(Expired, "text-danger", "❌")
      else if d <= today + WarningDays then Classification(Warning, "text-warning", "⚠️")
      else Classification(Normal, "", "")
  }

  /**
   * The `CASE` expression of the expiry-ordered listing: 2 for a missing date,
   * 0 for a date before today, 1 for a date within the week, 2 otherwise.
   */
  function SortBucket(expiry: Option<int>, today: int): (b: int)
    ensures 0 <= b <= 2
    ensures b == 0 <==> expiry.Some? && expiry.value < today
    ensures b == 1 <==> expiry.Some? && today <= expiry.value <= today + WarningDays
    ensures b == 2 <==> expiry.None? || today + WarningDays < expiry.value
  {
    if expiry.None? then 2
    else if expiry.value < today then 0
    else if expiry.value <= today + WarningDays then 1
    else 2
  }

  /** The bucket each status belongs to: expired first, then warning, then the rest. */
  function StatusRank(s: Status): nat {
    match s
    case Expired => 0
    case Warning => 1
    case Normal => 2
    case NoExpiry => 2
  }

  /**
   * The query's bucket and the classifier's status agree for the same `today`:
   * bucket 0 exactly for `expired`, 1 exactly for `warning`, 2 for `normal` and `none`.
   */
  lemma BucketAgreesWithStatus(expiry: Option<int>, today: int)
    ensures SortBucket(expiry, today) == StatusRank(Classify(expiry, today).status)
    ensures SortBucket(expiry, today) == 0 <==> Classify(expiry, today).status == Expired
    ensures SortBucket(expiry, today) == 1 <==> Classify(expiry, today).status == Warning
    ensures SortBucket(expiry, today) == 2 <==> Classify(expiry, today).status in {Normal, NoExpiry}
  {
  }
}
