/** The heart-rate page (src/pages/HeartRate.tsx): the zone classifier, the
    high-heart-rate banner, the current-reading card and the printed zone
    reference table. Readings are the snapshot's whole beats per minute. */
module HeartRate {
  import opened Badge
  import MC = MetricCard
  import Text

  datatype Zone = Resting | Normal | Elevated | High | Maximum

  /** Position of a zone on the scale, slowest first. */
  function ZoneIndex(z: Zone): (n: nat)
    ensures n < 5
  {
    match z
    case Resting => 0
    case Normal => 1
    case Elevated => 2
    case High => 3
    case Maximum => 4
  }

  /** The zone with a given position. */
  function ZoneAt(n: nat): (z: Zone)
    requires n < 5
    ensures ZoneIndex(z) == n
  {
    [Resting, Normal, Elevated, High, Maximum][n]
  }

  function ZoneName(z: Zone): string {
    match z
    case Resting => "Resting"
    case Normal => "Normal"
    case Elevated => "Elevated"
    case High => "High"
    case Maximum => "Maximum"
  }

  /** The record getHeartRateZone returns. */
  datatype ZoneInfo = ZoneInfo(zone: Zone, color: Tone, description: string)

  function ZoneColor(z: Zone): Tone {
    match z
    case Resting => Blue
    case Normal => Green
    case Elevated => Yellow
    case High => Orange
    case Maximum => Red
  }

  /** getHeartRateZone: the first threshold the reading stays under decides. */
  function GetHeartRateZone(bpm: int): (info: ZoneInfo)
    ensures info.zone == Resting <==> bpm < 60
    ensures info.zone == Normal <==> 60 <= bpm < 100
    ensures info.zone == Elevated <==> 100 <= bpm < 120
    ensures info.zone == High <==> 120 <= bpm < 150
    ensures info.zone == Maximum <==> 150 <= bpm
    ensures info.color == ZoneColor(info.zone)
  {
    if bpm < 60 then ZoneInfo(Resting, Blue, "Very relaxed state")
    else if bpm < 100 then ZoneInfo(Normal, Green, "Healthy range")
    else if bpm < 120 then ZoneInfo(Elevated, Yellow, "Light activity")
    else if bpm < 150 then ZoneInfo(High, Orange, "Moderate exercise")
    else ZoneInfo(Maximum, Red, "Intense exercise")
  }

  /** A faster heart never falls into a slower zone. */
  lemma ZoneMonotone(a: int, b: int)
    requires a <= b
    ensures ZoneIndex(GetHeartRateZone(a).zone) <= ZoneIndex(GetHeartRateZone(b).zone)
  {
  }

  /** The banner at the top of the page: it never shows below the Elevated
      zone, and it is absent everywhere below it. */
  predicate HighHeartRateBanner(bpm: int): (b: bool)
    ensures b ==> ZoneIndex(GetHeartRateZone(bpm).zone) >= 2
    ensures !b ==> ZoneIndex(GetHeartRateZone(bpm).zone) <= 2
    ensures b <==> bpm > 100
  {
    bpm > 100
  }

  /** At exactly 100 BPM the reading is already Elevated but no banner shows;
      every reading with a banner is at least Elevated. */
  lemma BannerBoundary(bpm: int)
    ensures GetHeartRateZone(100).zone == Elevated && !HighHeartRateBanner(100)
    ensures HighHeartRateBanner(bpm) ==> ZoneIndex(GetHeartRateZone(bpm).zone) >= 2
  {
  }

  /** The current-reading card's alert, also used on the dashboard. */
  function CardAlert(bpm: int): (a: MC.AlertLevel)
    ensures a == MC.Critical <==> bpm > 100
    ensures a == MC.Warning <==> 85 < bpm <= 100
    ensures a == MC.Normal <==> bpm <= 85
  {
    if bpm > 100 then MC.Critical else if bpm > 85 then MC.Warning else MC.Normal
  }

  /** The current-reading card's trend arrow, also used on the dashboard. */
  function CardTrend(bpm: int): (t: MC.Trend)
    ensures t == MC.Up <==> bpm > 80
    ensures t == MC.Down <==> bpm < 65
    ensures t == MC.Stable <==> 65 <= bpm <= 80
  {
    if bpm > 80 then MC.Up else if bpm < 65 then MC.Down else MC.Stable
  }

  /** The card's trend text names the zone, as the zone table prints it. */
  function CardTrendValue(bpm: int): (s: string)
    ensures s == ZoneTable[ZoneIndex(GetHeartRateZone(bpm).zone)].name + " Zone"
  {
    ZoneName(GetHeartRateZone(bpm).zone) + " Zone"
  }

  /** The card turns critical exactly when the banner shows, and a critical
      or warning card always shows an upward trend. */
  lemma CardAgreesWithBanner(bpm: int)
    ensures CardAlert(bpm) == MC.Critical <==> HighHeartRateBanner(bpm)
    ensures CardAlert(bpm) != MC.Normal ==> CardTrend(bpm) == MC.Up
  {
  }

  /** The card's alert never goes down as the heart rate goes up. */
  lemma CardAlertMonotone(a: int, b: int)
    requires a <= b
    ensures MC.Severity(CardAlert(a)) <= MC.Severity(CardAlert(b))
  {
  }

  /** One row of the printed zone table. */
  datatype ZoneRow = ZoneRow(name: string, range: string, color: Tone)

  const ZoneTable: seq<ZoneRow> := [
    ZoneRow("Resting", "< 60", Blue),
    ZoneRow("Normal", "60-100", Green),
    ZoneRow("Elevated", "100-120", Yellow),
    ZoneRow("High", "120-150", Orange),
    ZoneRow("Maximum", "> 150", Red)
  ]

  /** A reading inside each row's band, used to tie the table to the classifier. */
  function RowWitness(i: nat): (bpm: int)
    requires i < 5
  {
    [50, 80, 110, 130, 160][i]
  }

  /** The table lists the five zones slowest first, with the names and
      colours the classifier gives them. */
  lemma {:induction false} ZoneTableAgrees()
    ensures |ZoneTable| == 5
    ensures forall i :: 0 <= i < 5 ==>
      ZoneTable[i].name == ZoneName(ZoneAt(i)) && ZoneTable[i].color == ZoneColor(ZoneAt(i))
    ensures forall i :: 0 <= i < 5 ==> GetHeartRateZone(RowWitness(i)).zone == ZoneAt(i)
  {
    forall i | 0 <= i < 5
      ensures ZoneTable[i].name == ZoneName(ZoneAt(i)) && ZoneTable[i].color == ZoneColor(ZoneAt(i))
      ensures GetHeartRateZone(RowWitness(i)).zone == ZoneAt(i)
    {
      if i == 0 {
      } else if i == 1 {
      } else if i == 2 {
      } else if i == 3 {
      } else {
      }
    }
  }

  /** The range column of the zone table read as a band of whole beats:
      "< n" and "> n" are strict, "lo-hi" includes both ends. */
  datatype Band = Below(n: nat) | Between(lo: nat, hi: nat) | Above(n: nat)

  function BandText(b: Band): string {
    match b
    case Below(n) => "< " + Text.NatToString(n)
    case Between(lo, hi) => Text.NatToString(lo) + "-" + Text.NatToString(hi)
    case Above(n) => "> " + Text.NatToString(n)
  }

  predicate InBand(b: Band, bpm: int) {
    match b
    case Below(n) => bpm < n
    case Between(lo, hi) => lo <= bpm <= hi
    case Above(n) => bpm > n
  }

  const ZoneBands: seq<Band> := [Below(60), Between(60, 100), Between(100, 120), Between(120, 150), Above(150)]

  /** The printed ranges agree with the classifier everywhere except at the
      shared ends 100, 120 and 150: 100 is printed under both Normal and
      Elevated and is Elevated, 120 under both Elevated and High and is
      High, and 150 under High only, not under "> 150", but is Maximum. */
  lemma {:induction false} ZoneTableBoundaries(bpm: int)
    ensures forall i :: 0 <= i < 5 ==> ZoneTable[i].range == BandText(ZoneBands[i])
    ensures bpm != 100 && bpm != 120 && bpm != 150 ==>
      forall i :: 0 <= i < 5 ==> (InBand(ZoneBands[i], bpm) <==> GetHeartRateZone(bpm).zone == ZoneAt(i))
    ensures InBand(ZoneBands[1], 100) && InBand(ZoneBands[2], 100) && GetHeartRateZone(100).zone == Elevated
    ensures InBand(ZoneBands[2], 120) && InBand(ZoneBands[3], 120) && GetHeartRateZone(120).zone == High
    ensures InBand(ZoneBands[3], 150) && !InBand(ZoneBands[4], 150) && GetHeartRateZone(150).zone == Maximum
  {
    assert Text.NatToString(60) == "60" && Text.NatToString(100) == "100";
    assert Text.NatToString(120) == "120" && Text.NatToString(150) == "150";
    forall i | 0 <= i < 5
      ensures ZoneTable[i].range == BandText(ZoneBands[i])
      ensures bpm != 100 && bpm != 120 && bpm != 150 ==>
        (InBand(ZoneBands[i], bpm) <==> GetHeartRateZone(bpm).zone == ZoneAt(i))
    {
      if i == 0 {
      } else if i == 1 {
      } else if i == 2 {
      } else if i == 3 {
      } else {
      }
    }
  }
}
