/** The blood-oxygen page (src/pages/BloodOxygen.tsx): the SpO2 status
    classifier, the low-oxygen banner, the current-reading card and the
    printed reference ranges. Readings are whole percentages. */
module BloodOxygen {
  import opened Badge
  import MC = MetricCard

  datatype OxygenStatus = Excellent | Good | Low | Critical

  /** Position of a status from worst to best. */
  function StatusRank(s: OxygenStatus): (n: nat)
    ensures n < 4
  {
    match s
    case Critical => 0
    case Low => 1
    case Good => 2
    case Excellent => 3
  }

  function StatusName(s: OxygenStatus): string {
    match s
    case Excellent => "Excellent"
    case Good => "Good"
    case Low => "Low"
    case Critical => "Critical"
  }

  /** The record getOxygenStatus returns. */
  datatype StatusInfo = StatusInfo(status: OxygenStatus, color: Tone, description: string)

  /** getOxygenStatus: the first lower bound the level reaches decides. */
  function GetOxygenStatus(level: int): (info: StatusInfo)
    ensures info.status == Excellent <==> level >= 98
    ensures info.status == Good <==> 95 <= level < 98
    ensures info.status == Low <==> 90 <= level < 95
    ensures info.status == Critical <==> level < 90
  {
    if level >= 98 then StatusInfo(Excellent, Green, "Optimal oxygen levels")
    else if level >= 95 then StatusInfo(Good, Blue, "Normal range")
    else if level >= 90 then StatusInfo(Low, Yellow, "Below normal")
    else StatusInfo(Critical, Red, "Requires attention")
  }

  /** More oxygen never gives a worse status. */
  lemma StatusMonotone(a: int, b: int)
    requires a <= b
    ensures StatusRank(GetOxygenStatus(a).status) <= StatusRank(GetOxygenStatus(b).status)
  {
  }

  /** The banner at the top of the page: shown exactly below the Good
      band of the classifier. */
  predicate LowOxygenBanner(level: int): (b: bool)
    ensures b <==> StatusRank(GetOxygenStatus(level).status) <= 1
  {
    level < 95
  }

  /** The banner shows exactly for the Low and Critical statuses. */
  lemma BannerMatchesStatus(level: int)
    ensures LowOxygenBanner(level) <==> GetOxygenStatus(level).status in {Low, Critical}
  {
  }

  /** The current-reading card's alert, also used on the dashboard. */
  function CardAlert(level: int): (a: MC.AlertLevel)
    ensures a == MC.Critical <==> level < 95
    ensures a == MC.Warning <==> 95 <= level < 97
    ensures a == MC.Normal <==> level >= 97
  {
    if level < 95 then MC.Critical else if level < 97 then MC.Warning else MC.Normal
  }

  /** The current-reading card's trend arrow, also used on the dashboard. */
  function CardTrend(level: int): (t: MC.Trend)
    ensures t == MC.Stable <==> level >= 98
    ensures t == MC.Down <==> level < 98
  {
    if level >= 98 then MC.Stable else MC.Down
  }

  /** The card is critical exactly when the banner shows; its arrow is steady
      exactly for an Excellent reading. */
  lemma CardAgreesWithStatus(level: int)
    ensures CardAlert(level) == MC.Critical <==> LowOxygenBanner(level)
    ensures CardTrend(level) == MC.Stable <==> GetOxygenStatus(level).status == Excellent
  {
  }

  /** The card's alert never goes down as the level goes down. */
  lemma CardAlertMonotone(a: int, b: int)
    requires a <= b
    ensures MC.Severity(CardAlert(b)) <= MC.Severity(CardAlert(a))
  {
  }

  /** One printed reference range: an inclusive band [lo, hi], `lo` absent
      for the open-ended "< 90%" row. */
  datatype RangeRow = RangeRow(status: OxygenStatus, lo: int, hasLo: bool, hi: int)

  const ReferenceRanges: seq<RangeRow> := [
    RangeRow(Excellent, 98, true, 100),
    RangeRow(Good, 95, true, 97),
    RangeRow(Low, 90, true, 94),
    RangeRow(Critical, 0, false, 89)
  ]

  predicate InRow(r: RangeRow, level: int) {
    (!r.hasLo || r.lo <= level) && level <= r.hi
  }

  /** For whole-percent readings up to 100 the printed ranges partition
      the scale exactly as the classifier does. */
  lemma {:induction false} ReferenceRangesAgree(level: int)
    requires level <= 100
    ensures forall i :: 0 <= i < |ReferenceRanges| ==>
      (InRow(ReferenceRanges[i], level) <==> GetOxygenStatus(level).status == ReferenceRanges[i].status)
  {
    forall i | 0 <= i < |ReferenceRanges|
      ensures InRow(ReferenceRanges[i], level) <==> GetOxygenStatus(level).status == ReferenceRanges[i].status
    {
      if i == 0 {
      } else if i == 1 {
      } else if i == 2 {
      } else {
      }
    }
  }
}
