/** The dashboard page of FlowInsight/script.js: the helpers that classify
    scores, impacts, categories and statuses into CSS classes and labels, the
    time buckets of "last synced" texts, the metrics card, and the
    `DashboardManager` whose `data`, `isLoading` and quick-win list change as
    the user acts. Times are integer milliseconds since the epoch, and "now"
    is a parameter. */
module Dashboard {
  import opened Js

  const MsPerMinute := 60000
  const MsPerHour := 3600000
  const MsPerDay := 86400000

  datatype EfficiencyMetric = EfficiencyMetric(efficiencyScore: int, timeSaved: int, activeTools: int)

  /** A connected tool; `lastSyncAt` is the time of its last sync, when it has one. */
  datatype Integration = Integration(id: string, platform: string, isActive: bool, lastSyncAt: Option<int>, status: string)

  datatype QuickWin = QuickWin(
    id: string, title: string, description: string, category: string,
    impact: string, effort: string, estimatedTimeSaved: Option<string>)

  datatype UsageAnalytic = UsageAnalytic(userId: string, platform: string, usagePercentage: Option<int>, status: string)

  datatype Activity = Activity(id: string, description: string, createdAt: int)

  /** Everything the dashboard shows, as `loadDashboardData` stores it. */
  datatype DashboardData = DashboardData(
    efficiencyMetric: EfficiencyMetric,
    integrations: seq<Integration>,
    quickWins: seq<QuickWin>,
    usageAnalytics: seq<UsageAnalytic>,
    recentActivity: seq<Activity>)

  // ---------------------------------------------------------------------
  // Score classifiers

  /** script.js:632-636: the colour of the efficiency score's text. */
  function ScoreColorClass(score: int): (cls: string)
    ensures score >= 80 ==> cls == "text-success-green"
    ensures 60 <= score < 80 ==> cls == "text-warning-amber"
    ensures score < 60 ==> cls == "text-danger-red"
  {
    if score >= 80 then "text-success-green"
    else if score >= 60 then "text-warning-amber"
    else "text-danger-red"
  }

  /** script.js:638-642: the colour of the efficiency score's progress bar. */
  function ProgressColorClass(score: int): (cls: string)
    ensures score >= 80 ==> cls == "bg-success-green"
    ensures 60 <= score < 80 ==> cls == "bg-warning-amber"
    ensures score < 60 ==> cls == "bg-danger-red"
  {
    if score >= 80 then "bg-success-green"
    else if score >= 60 then "bg-warning-amber"
    else "bg-danger-red"
  }

  /** The text and the bar of a score always show the same colour: two scores
      share a text colour exactly when they share a bar colour. */
  lemma ScoreClassesAgree(a: int, b: int)
    ensures ScoreColorClass(a) == ScoreColorClass(b) <==> ProgressColorClass(a) == ProgressColorClass(b)
    ensures ScoreColorClass(a) == "text-success-green" <==> ProgressColorClass(a) == "bg-success-green"
    ensures ScoreColorClass(a) == "text-warning-amber" <==> ProgressColorClass(a) == "bg-warning-amber"
    ensures ScoreColorClass(a) == "text-danger-red" <==> ProgressColorClass(a) == "bg-danger-red"
  {
  }

  /** A higher score never shows a worse colour. */
  lemma ScoreColorMonotone(a: int, b: int)
    requires a <= b
    ensures ScoreColorClass(a) == "text-success-green" ==> ScoreColorClass(b) == "text-success-green"
    ensures ScoreColorClass(b) == "text-danger-red" ==> ScoreColorClass(a) == "text-danger-red"
  {
  }

  // ---------------------------------------------------------------------
  // Enum classifiers: each `switch` with its `default`

  /** script.js:644-651: an unknown impact is styled as a low one. */
  function ImpactClass(impact: string): (cls: string)
    ensures impact == "high" ==> cls == "high-impact"
    ensures impact == "medium" ==> cls == "medium-impact"
    ensures impact != "high" && impact != "medium" ==> cls == "low-impact"
  {
    if impact == "high" then "high-impact"
    else if impact == "medium" then "medium-impact"
    else if impact == "low" then "low-impact"
    else "low-impact"
  }

  /** script.js:662-669: the colour of a quick win's action button. */
  function IconColorClass(impact: string): (cls: string)
    ensures impact == "high" ==> cls == "text-danger-red"
    ensures impact == "medium" ==> cls == "text-warning-amber"
    ensures impact == "low" ==> cls == "text-primary-blue"
    ensures impact != "high" && impact != "medium" && impact != "low" ==> cls == "text-gray-500"
  {
    if impact == "high" then "text-danger-red"
    else if impact == "medium" then "text-warning-amber"
    else if impact == "low" then "text-primary-blue"
    else "text-gray-500"
  }

  /** An impact outside high/medium/low is drawn like a low one by the card
      but gets its own grey button: the two defaults disagree. */
  lemma UnknownImpactDefaults(impact: string)
    requires impact != "high" && impact != "medium" && impact != "low"
    ensures ImpactClass(impact) == ImpactClass("low")
    ensures IconColorClass(impact) != IconColorClass("low")
  {
  }

  /** The four icons a quick-win category can get. */
  const AlertIcon := "<i data-lucide=\"alert-triangle\"></i>"
  const CopyIcon := "<i data-lucide=\"copy\"></i>"
  const RepeatIcon := "<i data-lucide=\"repeat\"></i>"
  const BellIcon := "<i data-lucide=\"bell\"></i>"

  predicate KnownCategory(category: string) {
    category == "optimization" || category == "cleanup" || category == "automation"
  }

  /** script.js:653-660 */
  function QuickWinIcon(category: string): (icon: string)
    ensures category == "optimization" ==> icon == AlertIcon
    ensures category == "cleanup" ==> icon == CopyIcon
    ensures category == "automation" ==> icon == RepeatIcon
    ensures !KnownCategory(category) ==> icon == BellIcon
  {
    if category == "optimization" then AlertIcon
    else if category == "cleanup" then CopyIcon
    else if category == "automation" then RepeatIcon
    else BellIcon
  }

  /** script.js:671-678 */
  function ActionText(category: string): (text: string)
    ensures category == "optimization" ==> text == "Optimize"
    ensures category == "cleanup" ==> text == "Clean up"
    ensures category == "automation" ==> text == "Automate"
    ensures !KnownCategory(category) ==> text == "Act"
  {
    if category == "optimization" then "Optimize"
    else if category == "cleanup" then "Clean up"
    else if category == "automation" then "Automate"
    else "Act"
  }

  /** The icon and the button label fall back together: a quick win gets the
      bell exactly when its button says "Act". */
  lemma CategoryDefaultsAgree(category: string)
    ensures ActionText(category) == "Act" <==> QuickWinIcon(category) == BellIcon
    ensures ActionText(category) == "Act" <==> !KnownCategory(category)
  {
  }

  predicate KnownStatus(status: string) {
    status == "optimal" || status == "needs_attention" || status == "underutilized" || status == "moderate"
  }

  /** script.js:712-725: a badge per known usage status; an unknown one is
      shown as it is, in a plain badge. */
  function AnalyticsStatusBadge(status: string): (badge: string)
    ensures status == "optimal" ==> badge == "<span class=\"analytics-status-badge optimal\">Optimal</span>"
    ensures status == "needs_attention" ==>
              badge == "<span class=\"analytics-status-badge needs-attention\">Needs attention</span>"
    ensures status == "underutilized" ==>
              badge == "<span class=\"analytics-status-badge underutilized\">Underutilized</span>"
    ensures status == "moderate" ==> badge == "<span class=\"analytics-status-badge moderate\">Moderate</span>"
    ensures !KnownStatus(status) ==> badge == "<span class=\"analytics-status-badge\">" + status + "</span>"
  {
    if status == "optimal" then "<span class=\"analytics-status-badge optimal\">Optimal</span>"
    else if status == "needs_attention" then
      "<span class=\"analytics-status-badge needs-attention\">Needs attention</span>"
    else if status == "underutilized" then
      "<span class=\"analytics-status-badge underutilized\">Underutilized</span>"
    else if status == "moderate" then "<span class=\"analytics-status-badge moderate\">Moderate</span>"
    else "<span class=\"analytics-status-badge\">" + status + "</span>"
  }

  /** script.js:727-735 */
  function AnalyticsProgressColor(status: string): (cls: string)
    ensures status == "optimal" ==> cls == "bg-success-green"
    ensures status == "needs_attention" ==> cls == "bg-warning-amber"
    ensures status == "underutilized" ==> cls == "bg-danger-red"
    ensures status == "moderate" ==> cls == "bg-blue-500"
    ensures !KnownStatus(status) ==> cls == "bg-gray-400"
  {
    if status == "optimal" then "bg-success-green"
    else if status == "needs_attention" then "bg-warning-amber"
    else if status == "underutilized" then "bg-danger-red"
    else if status == "moderate" then "bg-blue-500"
    else "bg-gray-400"
  }

  /** An unknown status still reaches the reader: its badge contains the
      status text, and its bar is grey. */
  lemma UnknownStatusShown(status: string)
    requires !KnownStatus(status)
    ensures Includes(AnalyticsStatusBadge(status), status)
    ensures AnalyticsProgressColor(status) == "bg-gray-400"
  {
    var open := "<span class=\"analytics-status-badge\">";
    var badge := AnalyticsStatusBadge(status);
    assert badge[|open|..|open| + |status|] == status;
    IncludesAt(badge, |open|, status);
  }

  // ---------------------------------------------------------------------
  // Time buckets

  /** How long ago something happened, in the unit `formatTimeAgo` picks. */
  datatype Ago = MinutesAgo(minutes: int) | HoursAgo(hours: int) | DaysAgo(days: int)

  /** The bucket and count for an elapsed time of `diffMs` (script.js:848-859):
      the unit is minutes below one hour, hours below one day, days from one
      day on, and the count is the floor of the elapsed time in that unit. */
  function TimeAgo(diffMs: int): (ago: Ago)
    ensures ago.MinutesAgo? <==> diffMs < MsPerHour
    ensures ago.HoursAgo? <==> MsPerHour <= diffMs < MsPerDay
    ensures ago.DaysAgo? <==> MsPerDay <= diffMs
    ensures ago.MinutesAgo? ==>
              ago.minutes < 60 && ago.minutes * MsPerMinute <= diffMs < (ago.minutes + 1) * MsPerMinute
    ensures ago.HoursAgo? ==>
              1 <= ago.hours <= 23 && ago.hours * MsPerHour <= diffMs < (ago.hours + 1) * MsPerHour
    ensures ago.DaysAgo? ==>
              ago.days >= 1 && ago.days * MsPerDay <= diffMs < (ago.days + 1) * MsPerDay
  {
    var diffMins := FloorDiv(diffMs, MsPerMinute);
    var diffHours := FloorDiv(diffMs, MsPerHour);
    var diffDays := FloorDiv(diffMs, MsPerDay);
    if diffMins < 60 then MinutesAgo(diffMins)
    else if diffHours < 24 then HoursAgo(diffHours)
    else DaysAgo(diffDays)
  }

  function AgoText(ago: Ago): string {
    match ago
    case MinutesAgo(m) => IntToString(m) + " min ago"
    case HoursAgo(h) => IntToString(h) + " hr ago"
    case DaysAgo(d) => IntToString(d) + " days ago"
  }

  /** `formatTimeAgo(date)` at time `now` (script.js:846-860). */
  function FormatTimeAgo(date: int, now: int): (text: string)
    ensures now - date < MsPerHour ==> text == IntToString((now - date) / MsPerMinute) + " min ago"
    ensures MsPerHour <= now - date < MsPerDay ==> text == IntToString((now - date) / MsPerHour) + " hr ago"
    ensures MsPerDay <= now - date ==> text == IntToString((now - date) / MsPerDay) + " days ago"
  {
    AgoText(TimeAgo(now - date))
  }

  /** `text` reads as "<count><unit>": digits worth `count`, then `unit`. */
  predicate ReadsAsCount(text: string, unit: string, count: nat) {
    && |unit| < |text| && text[|text| - |unit|..] == unit
    && (forall k :: 0 <= k < |text| - |unit| ==> IsDigit(text[k]))
    && DigitsValue(text[..|text| - |unit|]) == count
  }

  /** A count printed before a unit reads back as the count. */
  lemma CountWithUnitReadBack(count: nat, unit: string)
    ensures ReadsAsCount(NatToString(count) + unit, unit, count)
  {
    var digits := NatToString(count);
    var text := digits + unit;
    assert text[..|digits|] == digits;
    assert text[|digits|..] == unit;
    NatToStringRoundTrip(count);
  }

  /** For a time in the past, the number printed before the unit reads back
      as the whole number of units elapsed. */
  lemma FormatTimeAgoReadBack(date: int, now: int)
    requires date <= now
    ensures now - date < MsPerHour ==>
              ReadsAsCount(FormatTimeAgo(date, now), " min ago", (now - date) / MsPerMinute)
    ensures MsPerHour <= now - date < MsPerDay ==>
              ReadsAsCount(FormatTimeAgo(date, now), " hr ago", (now - date) / MsPerHour)
    ensures MsPerDay <= now - date ==>
              ReadsAsCount(FormatTimeAgo(date, now), " days ago", (now - date) / MsPerDay)
  {
    var diff := now - date;
    if diff < MsPerHour {
      assert FormatTimeAgo(date, now) == NatToString(diff / MsPerMinute) + " min ago";
      CountWithUnitReadBack(diff / MsPerMinute, " min ago");
    } else if diff < MsPerDay {
      assert FormatTimeAgo(date, now) == NatToString(diff / MsPerHour) + " hr ago";
      CountWithUnitReadBack(diff / MsPerHour, " hr ago");
    } else {
      assert FormatTimeAgo(date, now) == NatToString(diff / MsPerDay) + " days ago";
      CountWithUnitReadBack(diff / MsPerDay, " days ago");
    }
  }

  /** Flooring minutes into hours is flooring milliseconds into hours. */
  lemma {:induction false} HoursOfMinutes(diffMs: int)
    ensures FloorDiv(FloorDiv(diffMs, MsPerMinute), 60) == FloorDiv(diffMs, MsPerHour)
  {
    var m := FloorDiv(diffMs, MsPerMinute);
    var h := FloorDiv(m, 60);
    assert h * MsPerHour <= m * MsPerMinute <= diffMs;
    assert diffMs < (m + 1) * MsPerMinute <= (h + 1) * MsPerHour;
  }

  /** What the "Last sync" line shows: a text, or the sync time as
      `toLocaleDateString` prints it (the date format is not modelled). */
  datatype SyncText = Text(text: string) | LocaleDate(at: int)

  /** `getLastSyncText(integration)` at time `now` (script.js:696-710): below
      one day it says what `formatTimeAgo` would say; from one day on it
      falls back to the date, never to a count of days. */
  function LastSyncText(lastSyncAt: Option<int>, now: int): (r: SyncText)
    ensures lastSyncAt.None? ==> r == Text("Never synced")
    ensures lastSyncAt.Some? && now - lastSyncAt.value < MsPerDay ==> r == Text(FormatTimeAgo(lastSyncAt.value, now))
    ensures lastSyncAt.Some? && now - lastSyncAt.value >= MsPerDay ==> r == LocaleDate(lastSyncAt.value)
  {
    match lastSyncAt
    case None => Text("Never synced")
    case Some(at) =>
      var diffMinutes := FloorDiv(now - at, MsPerMinute);
      if diffMinutes < 60 then Text(IntToString(diffMinutes) + " min ago")
      else if diffMinutes < 1440 then
        HoursOfMinutes(now - at);
        Text(IntToString(FloorDiv(diffMinutes, 60)) + " hr ago")
      else LocaleDate(at)
  }

  const InactiveBadge := "<span class=\"integration-status-badge inactive\">Inactive</span>"
  const SyncingBadge := "<span class=\"integration-status-badge syncing\">Syncing</span>"
  const ActiveBadge := "<span class=\"integration-status-badge active\">Active</span>"

  /** `getIntegrationStatusBadge(integration)` at time `now`
      (script.js:680-694). The elapsed hours are a quotient of reals, as the
      source divides numbers; the contract states the equivalent comparison
      in whole milliseconds. */
  function IntegrationStatusBadge(i: Integration, now: int): (badge: string)
    ensures !i.isActive ==> badge == InactiveBadge
    ensures i.isActive && i.lastSyncAt.None? ==> badge == SyncingBadge
    ensures i.isActive && i.lastSyncAt.Some? ==>
              (badge == SyncingBadge <==> now - i.lastSyncAt.value > MsPerDay)
              && (badge == ActiveBadge <==> now - i.lastSyncAt.value <= MsPerDay)
  {
    if !i.isActive then InactiveBadge
    else match i.lastSyncAt
      case None => SyncingBadge
      case Some(at) =>
        var hoursSinceSync := (now - at) as real / 3600000.0;
        if hoursSinceSync > 24.0 then SyncingBadge else ActiveBadge
  }

  /** The badge and the "Last sync" line of an active integration tell the
      same story, except at exactly one day: a relative text always comes
      with the Active badge, Syncing always with a date, and a sync exactly
      24 hours old shows a date beside an Active badge. */
  lemma SyncBadgeAndText(i: Integration, now: int)
    requires i.isActive && i.lastSyncAt.Some?
    ensures LastSyncText(i.lastSyncAt, now).Text? ==> IntegrationStatusBadge(i, now) == ActiveBadge
    ensures IntegrationStatusBadge(i, now) == SyncingBadge ==> LastSyncText(i.lastSyncAt, now).LocaleDate?
    ensures now - i.lastSyncAt.value == MsPerDay ==>
              IntegrationStatusBadge(i, now) == ActiveBadge && LastSyncText(i.lastSyncAt, now).LocaleDate?
  {
  }

  // ---------------------------------------------------------------------
  // Quick-win removal and the metrics card

  /** `win => win.id !== quickWinId` */
  function OtherThan(quickWinId: string): QuickWin -> bool {
    (w: QuickWin) => w.id != quickWinId
  }

  /** The list `completeQuickWin(quickWinId)` leaves (script.js:744): every
      quick win with that id is gone, every other one keeps its count. */
  function WithoutQuickWin(wins: seq<QuickWin>, quickWinId: string): (kept: seq<QuickWin>)
    ensures |kept| <= |wins|
    ensures forall k :: 0 <= k < |kept| ==> kept[k].id != quickWinId
    ensures forall w: QuickWin :: w.id != quickWinId ==> multiset(kept)[w] == multiset(wins)[w]
    ensures kept == wins <==> forall k :: 0 <= k < |wins| ==> wins[k].id != quickWinId
  {
    var keep := OtherThan(quickWinId);
    assert forall w :: keep(w) == (w.id != quickWinId);
    FilterCounts(wins, keep);
    FilterSize(wins, keep);
    Filter(wins, keep)
  }

  /** Removal keeps the survivors in their original order: removing from a
      concatenation removes from each part. */
  lemma WithoutQuickWinKeepsOrder(a: seq<QuickWin>, b: seq<QuickWin>, quickWinId: string)
    ensures WithoutQuickWin(a + b, quickWinId) == WithoutQuickWin(a, quickWinId) + WithoutQuickWin(b, quickWinId)
  {
    FilterAppend(a, b, OtherThan(quickWinId));
  }

  /** Completing the same quick win twice removes nothing the second time. */
  lemma WithoutQuickWinIdempotent(wins: seq<QuickWin>, quickWinId: string)
    ensures WithoutQuickWin(WithoutQuickWin(wins, quickWinId), quickWinId) == WithoutQuickWin(wins, quickWinId)
  {
    var kept := WithoutQuickWin(wins, quickWinId);
    assert forall k :: 0 <= k < |kept| ==> kept[k].id != quickWinId;
  }

  /** Completing two quick wins gives the same list in either order. */
  lemma WithoutQuickWinCommutes(wins: seq<QuickWin>, x: string, y: string)
    ensures WithoutQuickWin(WithoutQuickWin(wins, x), y) == WithoutQuickWin(WithoutQuickWin(wins, y), x)
  {
    FilterCommutes(wins, OtherThan(x), OtherThan(y));
  }

  function IsActive(i: Integration): bool {
    i.isActive
  }

  /** `integrations.filter(i => i.isActive).length` (script.js:363). */
  function ActiveCount(integrations: seq<Integration>): (n: nat)
    ensures n <= |integrations|
    ensures n == |integrations| <==> forall k :: 0 <= k < |integrations| ==> integrations[k].isActive
    ensures n == 0 <==> forall k :: 0 <= k < |integrations| ==> !integrations[k].isActive
    ensures n == |set k | 0 <= k < |integrations| && integrations[k].isActive|
  {
    FilterSize(integrations, IsActive);
    FilterLength(integrations, IsActive);
    assert Passing(integrations, IsActive) == set k | 0 <= k < |integrations| && integrations[k].isActive;
    FilterEmpty(integrations, IsActive);
    |Filter(integrations, IsActive)|
  }

  /** The texts and classes `renderMetrics` writes into the metrics card. */
  datatype MetricsView = MetricsView(
    score: string,
    scoreClass: string,
    progressWidth: int,
    progressClass: string,
    activeTools: string,
    timeSaved: string,
    quickWinsCount: string)

  /** script.js:343-378, with every element of the card present. */
  function RenderMetrics(d: DashboardData): (v: MetricsView)
    ensures var score := d.efficiencyMetric.efficiencyScore;
            && v.progressWidth <= 100 && v.progressWidth <= score
            && (score <= 100 ==> v.progressWidth == score)
            && (score >= 100 ==> v.progressWidth == 100)
    ensures forall k :: 0 <= k < |v.quickWinsCount| ==> IsDigit(v.quickWinsCount[k])
    ensures DigitsValue(v.quickWinsCount) == |d.quickWins|
  {
    var m := d.efficiencyMetric;
    NatToStringRoundTrip(|d.quickWins|);
    MetricsView(
      IntToString(m.efficiencyScore),
      ScoreColorClass(m.efficiencyScore),
      Min(m.efficiencyScore, 100),
      ProgressColorClass(m.efficiencyScore),
      CountsText(ActiveCount(d.integrations), |d.integrations|),
      IntToString(m.timeSaved) + "h",
      NatToString(|d.quickWins|))
  }

  /** `${active}/${total}` */
  function CountsText(active: nat, total: nat): (text: string)
    ensures |text| == |NatToString(active)| + 1 + |NatToString(total)|
    ensures text[|NatToString(active)|] == '/'
    ensures forall k :: 0 <= k < |text| && k != |NatToString(active)| ==> IsDigit(text[k])
  {
    NatToString(active) + "/" + NatToString(total)
  }

  /** `t` reads as "<first>/<second>": digits up to position `n`, a slash
      there, and digits after it, with those values. */
  predicate ReadsAsCounts(t: string, n: nat, first: nat, second: nat) {
    && n < |t| && t[n] == '/'
    && (forall k :: 0 <= k < n ==> IsDigit(t[k]))
    && (forall k :: n < k < |t| ==> IsDigit(t[k]))
    && DigitsValue(t[..n]) == first
    && DigitsValue(t[n + 1..]) == second
  }

  /** Two digit strings joined by a slash read back as their two values. */
  lemma SlashJoinedReadBack(a: string, b: string)
    requires forall k :: 0 <= k < |a| ==> IsDigit(a[k])
    requires forall k :: 0 <= k < |b| ==> IsDigit(b[k])
    ensures ReadsAsCounts(a + "/" + b, |a|, DigitsValue(a), DigitsValue(b))
  {
    var t := a + "/" + b;
    assert t[..|a|] == a;
    assert t[|a| + 1..] == b;
    assert forall k :: 0 <= k < |a| ==> t[k] == a[k];
    assert forall k :: |a| < k < |t| ==> t[k] == b[k - |a| - 1];
  }

  /** "<active>/<total>" splits at its first non-digit, the slash, into two
      numbers that read back as the two counts. */
  lemma CountsTextReadBack(active: nat, total: nat)
    ensures ReadsAsCounts(CountsText(active, total), |NatToString(active)|, active, total)
  {
    SlashJoinedReadBack(NatToString(active), NatToString(total));
    NatToStringRoundTrip(active);
    NatToStringRoundTrip(total);
  }

  /** The active-tools text reads as "<active>/<total>": the digits before the
      first non-digit, which is the slash, count the active integrations and
      the digits after it count all of them. */
  lemma ActiveToolsReadBack(d: DashboardData)
    ensures ReadsAsCounts(RenderMetrics(d).activeTools, |NatToString(ActiveCount(d.integrations))|,
                          ActiveCount(d.integrations), |d.integrations|)
    ensures ActiveCount(d.integrations) <= |d.integrations|
  {
    CountsTextReadBack(ActiveCount(d.integrations), |d.integrations|);
  }

  // ---------------------------------------------------------------------
  // The dashboard manager

  /** A toast notification: title, description and variant. */
  datatype Toast = Toast(title: string, description: string, variant: string)

  const Loaded := Toast("Success", "Dashboard data loaded successfully", "success")
  const Refreshed := Toast("Success", "Analytics refreshed successfully", "success")
  const RefreshFailed := Toast("Error", "Failed to refresh analytics", "error")
  const Completed := Toast("Success", "Quick win marked as completed", "success")
  const CompleteFailed := Toast("Error", "Failed to complete quick win", "error")

  /** The data after `refreshData`'s two random updates (script.js:257-258). */
  function Refresh(d: DashboardData, scoreDraw: nat, timeDraw: nat): (r: DashboardData)
    requires scoreDraw < 20 && timeDraw < 10
    ensures 80 <= r.efficiencyMetric.efficiencyScore <= 99 && 8 <= r.efficiencyMetric.timeSaved <= 17
    ensures r.efficiencyMetric.activeTools == d.efficiencyMetric.activeTools
    ensures r.(efficiencyMetric := d.efficiencyMetric) == d
  {
    d.(efficiencyMetric := d.efficiencyMetric.(efficiencyScore := scoreDraw + 80, timeSaved := timeDraw + 8))
  }

  /** After a refresh the score card is always green and its bar as wide as the score. */
  lemma RefreshShowsGreen(d: DashboardData, scoreDraw: nat, timeDraw: nat)
    requires scoreDraw < 20 && timeDraw < 10
    ensures RenderMetrics(Refresh(d, scoreDraw, timeDraw)).scoreClass == "text-success-green"
    ensures RenderMetrics(Refresh(d, scoreDraw, timeDraw)).progressClass == "bg-success-green"
    ensures RenderMetrics(Refresh(d, scoreDraw, timeDraw)).progressWidth == 80 + scoreDraw
  {
  }

  class DashboardManager {
    /** `this.data`: None until the first load. */
    var data: Option<DashboardData>
    var isLoading: bool
    /** The metrics card as last rendered; None before any render. */
    var metrics: Option<MetricsView>
    /** Every value `setLoading` was given, in order. */
    ghost var loadingHistory: seq<bool>

    /** The metrics card shows the current data. */
    ghost predicate Valid()
      reads this
    {
      metrics == if data.Some? then Some(RenderMetrics(data.value)) else None
    }

    /** script.js:216-219 */
    constructor ()
      ensures Valid()
      ensures data == None && !isLoading && metrics == None && loadingHistory == []
    {
      data := None;
      isLoading := false;
      metrics := None;
      loadingHistory := [];
    }

    /** script.js:321-330: the overlay follows the flag; only the flag is modelled. */
    method SetLoading(loading: bool)
      modifies this
      ensures isLoading == loading && loadingHistory == old(loadingHistory) + [loading]
      ensures data == old(data) && metrics == old(metrics)
    {
      isLoading := loading;
      loadingHistory := loadingHistory + [loading];
    }

    /** script.js:221-247: adopt `loaded` and render it, with the loading flag
        raised for the duration. */
    method LoadDashboardData(loaded: DashboardData) returns (notice: Toast)
      modifies this
      ensures Valid()
      ensures data == Some(loaded) && metrics == Some(RenderMetrics(loaded))
      ensures notice == Loaded
      ensures !isLoading && loadingHistory == old(loadingHistory) + [true, false]
    {
      SetLoading(true);
      data := Some(loaded);
      metrics := Some(RenderMetrics(loaded));
      notice := Loaded;
      SetLoading(false);
    }

    /** script.js:249-277: redraw the score and the time saved (`scoreDraw`
        and `timeDraw` are the two `Math.floor(Math.random() * n)` values);
        without data the update throws and an error toast is shown. */
    method RefreshData(scoreDraw: nat, timeDraw: nat) returns (notice: Toast)
      requires scoreDraw < 20 && timeDraw < 10
      requires Valid()
      modifies this
      ensures Valid()
      ensures old(data).None? ==> data == None && notice == RefreshFailed
      ensures old(data).Some? ==> data == Some(Refresh(old(data).value, scoreDraw, timeDraw)) && notice == Refreshed
      ensures !isLoading && loadingHistory == old(loadingHistory) + [true, false]
    {
      SetLoading(true);
      if data.None? {
        notice := RefreshFailed;
      } else {
        data := Some(Refresh(data.value, scoreDraw, timeDraw));
        metrics := Some(RenderMetrics(data.value));
        notice := Refreshed;
      }
      SetLoading(false);
    }

    /** script.js:738-768: drop the quick win from the list and update the
        count on the card; without data the update throws and an error toast
        is shown. The loading flag is not touched. */
    method CompleteQuickWin(quickWinId: string) returns (notice: Toast)
      requires Valid()
      modifies this
      ensures Valid()
      ensures old(data).None? ==> data == None && metrics == old(metrics) && notice == CompleteFailed
      ensures old(data).Some? ==>
                && data == Some(old(data).value.(quickWins := WithoutQuickWin(old(data).value.quickWins, quickWinId)))
                && metrics == Some(old(metrics).value.(quickWinsCount := NatToString(|data.value.quickWins|)))
                && notice == Completed
      ensures isLoading == old(isLoading) && loadingHistory == old(loadingHistory)
    {
      if data.None? {
        notice := CompleteFailed;
        return;
      }
      data := Some(data.value.(quickWins := WithoutQuickWin(data.value.quickWins, quickWinId)));
      metrics := Some(metrics.value.(quickWinsCount := NatToString(|data.value.quickWins|)));
      notice := Completed;
    }
  }
}
