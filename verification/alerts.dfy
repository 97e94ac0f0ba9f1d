/**
 The alert centre: a fixed list of five alerts, a three-way filter
 (`all`, `unread`, `critical`) with a count badge on each filter button,
 and the Korean labels shown for an alert's severity and suggested action.

 Titles, descriptions and times are display text and are not modelled;
 severity drives three colour choices (row background, side bar, label
 colour) that all branch the same way, modelled once as `Tone`.
 */
module Alerts {
  import opened Seqs

  datatype Alert = Alert(id: int, kind: string, service: string, status: string, severity: string, action: string)

  /** The alerts the component renders, in order. */
  const AlertList: seq<Alert> := [
    Alert(1, "critical", "core-api", "unread", "high", "investigate"),
    Alert(2, "warning", "payment-gateway", "unread", "medium", "monitor"),
    Alert(3, "info", "core-api", "read", "low", "verify"),
    Alert(4, "warning", "transaction-processor", "read", "medium", "analyze"),
    Alert(5, "critical", "external-gateway", "acknowledged", "high", "retry")
  ]

  /** The predicate passed to `alerts.filter` for the selected filter; an
      unknown filter keeps everything, like `all`. */
  predicate Shown(filter: string, a: Alert)
  {
    if filter == "unread" then a.status == "unread"
    else if filter == "critical" then a.severity == "high"
    else true
  }

  /** The list under the selected filter. */
  function FilteredAlerts(filter: string, alerts: seq<Alert>): (r: seq<Alert>)
    ensures |r| <= |alerts|
    ensures forall i :: 0 <= i < |r| ==> Shown(filter, r[i])
  {
    Filter(a => Shown(filter, a), alerts)
  }

  /** The badge counts: the whole list, the unread ones, the high-severity
      ones, each counted with its own inline filter. */
  function AllCount(alerts: seq<Alert>): nat { |alerts| }
  function UnreadCount(alerts: seq<Alert>): (n: nat)
    ensures n <= AllCount(alerts)
  {
    |Filter((a: Alert) => a.status == "unread", alerts)|
  }

  function CriticalCount(alerts: seq<Alert>): (n: nat)
    ensures n <= AllCount(alerts)
  {
    |Filter((a: Alert) => a.severity == "high", alerts)|
  }

  /** The colour family chosen for a severity. */
  datatype Tone = Red | Amber | Cyan

  function SeverityTone(severity: string): (t: Tone)
    ensures t == Red <==> severity == "high"
    ensures t == Amber <==> severity == "medium"
  {
    if severity == "high" then Red else if severity == "medium" then Amber else Cyan
  }

  /** The priority label. */
  function SeverityLabel(severity: string): (l: string)
    ensures l == "긴급" <==> SeverityTone(severity) == Red
    ensures l == "경고" <==> SeverityTone(severity) == Amber
    ensures l == "정보" <==> SeverityTone(severity) == Cyan
  {
    if severity == "high" then "긴급" else if severity == "medium" then "경고" else "정보"
  }

  /** The action button label; any action not listed reads as a retry. */
  function ActionLabel(action: string): (l: string)
    ensures l in ["조사하기", "모니터링", "확인하기", "분석하기", "재시도"]
    ensures l == "재시도" <==> action !in ["investigate", "monitor", "verify", "analyze"]
  {
    if action == "investigate" then "조사하기"
    else if action == "monitor" then "모니터링"
    else if action == "verify" then "확인하기"
    else if action == "analyze" then "분석하기"
    else "재시도"
  }

  /** An alert is listed under a filter exactly when it satisfies that
      filter's predicate, and the listing keeps the original order and
      multiplicity. */
  lemma FilteredAlertsSpec(filter: string, alerts: seq<Alert>)
    ensures IsSubsequence(FilteredAlerts(filter, alerts), alerts)
    ensures forall a :: multiset(FilteredAlerts(filter, alerts))[a] == if Shown(filter, a) then multiset(alerts)[a] else 0
  {
    FilterSubsequence(a => Shown(filter, a), alerts);
    FilterMultiset(a => Shown(filter, a), alerts);
  }

  /** `unread` lists exactly the unread alerts, `critical` exactly the
      high-severity ones, any other filter every alert. */
  lemma ListedIff(filter: string, alerts: seq<Alert>, a: Alert)
    requires a in alerts
    ensures filter == "unread" ==> (a in FilteredAlerts(filter, alerts) <==> a.status == "unread")
    ensures filter == "critical" ==> (a in FilteredAlerts(filter, alerts) <==> a.severity == "high")
    ensures filter != "unread" && filter != "critical" ==> a in FilteredAlerts(filter, alerts)
  {
    FilterMembership(a => Shown(filter, a), alerts, a);
  }

  /** A filter other than `unread` and `critical`, `all` included, lists the
      alerts unchanged. */
  lemma OtherFilterKeepsAll(filter: string, alerts: seq<Alert>)
    requires filter != "unread" && filter != "critical"
    ensures FilteredAlerts(filter, alerts) == alerts
  {
    FilterKeepsAll(a => Shown(filter, a), alerts);
  }

  /** Each badge equals the length of the list its button shows. */
  lemma BadgesMatchLists(alerts: seq<Alert>)
    ensures AllCount(alerts) == |FilteredAlerts("all", alerts)|
    ensures UnreadCount(alerts) == |FilteredAlerts("unread", alerts)|
    ensures CriticalCount(alerts) == |FilteredAlerts("critical", alerts)|
  {
    FilterKeepsAll(a => Shown("all", a), alerts);
    FilterCongruent((a: Alert) => a.status == "unread", a => Shown("unread", a), alerts);
    FilterCongruent((a: Alert) => a.severity == "high", a => Shown("critical", a), alerts);
  }

  /** An alert is under the critical filter exactly when its label reads 긴급
      (and it is drawn red). */
  lemma CriticalIffUrgent(alerts: seq<Alert>, a: Alert)
    requires a in alerts
    ensures a in FilteredAlerts("critical", alerts) <==> SeverityLabel(a.severity) == "긴급"
  {
    FilterMembership(a => Shown("critical", a), alerts, a);
  }

  /** The five known actions get five distinct labels. */
  lemma ActionLabelsDistinct(x: string, y: string)
    requires x in ["investigate", "monitor", "verify", "analyze", "retry"]
    requires y in ["investigate", "monitor", "verify", "analyze", "retry"]
    ensures ActionLabel(x) == ActionLabel(y) <==> x == y
  {
  }

  /** The `all` list and badge: all five alerts. */
  lemma AlertListAll()
    ensures FilteredAlerts("all", AlertList) == AlertList
    ensures AllCount(AlertList) == 5
  {
    FilterKeepsAll(a => Shown("all", a), AlertList);
  }

  /** The `unread` list and badge: alerts 1 and 2. */
  lemma AlertListUnread()
    ensures FilteredAlerts("unread", AlertList) == [AlertList[0], AlertList[1]]
    ensures UnreadCount(AlertList) == 2
  {
    FilterFive(a => Shown("unread", a), AlertList);
    BadgesMatchLists(AlertList);
  }

  /** The `critical` list and badge: alerts 1 and 5. */
  lemma AlertListCritical()
    ensures FilteredAlerts("critical", AlertList) == [AlertList[0], AlertList[4]]
    ensures CriticalCount(AlertList) == 2
  {
    FilterFive(a => Shown("critical", a), AlertList);
    BadgesMatchLists(AlertList);
  }

  /** The labels the list shows, alert by alert. */
  lemma AlertListLabels()
    ensures SeverityLabel(AlertList[0].severity) == "긴급" && ActionLabel(AlertList[0].action) == "조사하기"
    ensures SeverityLabel(AlertList[1].severity) == "경고" && ActionLabel(AlertList[1].action) == "모니터링"
    ensures SeverityLabel(AlertList[2].severity) == "정보" && ActionLabel(AlertList[2].action) == "확인하기"
    ensures SeverityLabel(AlertList[3].severity) == "경고" && ActionLabel(AlertList[3].action) == "분석하기"
    ensures SeverityLabel(AlertList[4].severity) == "긴급" && ActionLabel(AlertList[4].action) == "재시도"
  {
  }
}
