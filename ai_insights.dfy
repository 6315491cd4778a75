/** The insights card (src/components/AIInsightsCard.tsx): the icon and icon
    colour chosen by an insight's type, and the priority badge's colour. */
module AIInsights {
  import opened HealthData

  datatype Icon = AlertTriangle | CheckCircle | Brain | InfoIcon

  /** The colour roles the card's class strings name. */
  datatype ColorRole = DestructiveRole | WarningRole | ActivityRole | PrimaryRole | MutedRole

  /** getInsightIcon. */
  function InsightIcon(kind: InsightType): (icon: Icon)
    ensures icon == AlertTriangle <==> kind == Alert
    ensures icon == CheckCircle <==> kind == Achievement
    ensures icon == Brain <==> kind == Recommendation
    ensures icon == InfoIcon <==> kind == Info
  {
    match kind
    case Alert => AlertTriangle
    case Achievement => CheckCircle
    case Recommendation => Brain
    case Info => InfoIcon
  }

  /** getInsightColor: an alert is destructive when its priority is high and
      a warning otherwise; the other types ignore the priority. */
  function InsightColor(kind: InsightType, priority: Priority): (c: ColorRole)
    ensures c == DestructiveRole <==> kind == Alert && priority == High
    ensures c == WarningRole <==> kind == Alert && priority != High
    ensures c == ActivityRole <==> kind == Achievement
    ensures c == PrimaryRole <==> kind == Recommendation
    ensures c == MutedRole <==> kind == Info
  {
    match kind
    case Alert => if priority == High then DestructiveRole else WarningRole
    case Achievement => ActivityRole
    case Recommendation => PrimaryRole
    case Info => MutedRole
  }

  /** getPriorityColor. */
  function PriorityColor(priority: Priority): (c: ColorRole)
    ensures c == DestructiveRole <==> priority == High
    ensures c == WarningRole <==> priority == Medium
    ensures c == MutedRole <==> priority == Low
  {
    match priority
    case High => DestructiveRole
    case Medium => WarningRole
    case Low => MutedRole
  }

  /** Only an alert's icon colour depends on the priority. */
  lemma PriorityOnlyColorsAlerts(kind: InsightType, p: Priority, q: Priority)
    requires kind != Alert
    ensures InsightColor(kind, p) == InsightColor(kind, q)
  {
  }

  /** An alert's icon and badge share a colour, except for a low-priority
      alert, whose icon is a warning and whose badge is muted. */
  lemma AlertIconMatchesBadge(p: Priority)
    ensures InsightColor(Alert, p) == PriorityColor(p) <==> p != Low
  {
  }

  /** One rendered row: the icon, its colour and the badge colour. */
  datatype InsightRow = InsightRow(id: string, icon: Icon, iconColor: ColorRole, badgeColor: ColorRole)

  /** `insights.map(...)`: one row per insight, in order. */
  function Rows(insights: seq<Insight>): (rows: seq<InsightRow>)
    ensures |rows| == |insights|
    ensures forall i :: 0 <= i < |insights| ==>
      rows[i] == InsightRow(insights[i].id, InsightIcon(insights[i].kind),
                            InsightColor(insights[i].kind, insights[i].priority),
                            PriorityColor(insights[i].priority))
  {
    seq(|insights|, i requires 0 <= i < |insights| =>
      InsightRow(insights[i].id, InsightIcon(insights[i].kind),
                 InsightColor(insights[i].kind, insights[i].priority),
                 PriorityColor(insights[i].priority)))
  }

  /** In the dashboard's catalog only the elevated-heart-rate insight is
      drawn in the destructive colour, both icon and badge. */
  lemma CatalogRows()
    ensures var rows := Rows(GenerateAIInsights());
      forall i :: 0 <= i < |rows| ==>
        (rows[i].iconColor == DestructiveRole <==> rows[i].id == "3")
        && (rows[i].badgeColor == DestructiveRole <==> rows[i].id == "3")
  {
  }
}
