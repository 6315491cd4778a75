/** The stress page (src/pages/StressLevels.tsx): the three stress-level
    classifiers, the stressor/reliever view of the day's factors, and the
    page's constant week of data with its summary figures. */
module StressLevels {
  import opened Numeric
  import opened Badge
  import opened Chart

  /** getStressColor. */
  function StressColor(level: real): (t: Tone)
    ensures t == Green <==> level <= 30.0
    ensures t == Yellow <==> 30.0 < level <= 60.0
    ensures t == Red <==> level > 60.0
  {
    if level <= 30.0 then Green else if level <= 60.0 then Yellow else Red
  }

  /** getStressLabel. */
  function StressLabel(level: real): (s: string)
    ensures s == "Low" <==> level <= 30.0
    ensures s == "Moderate" <==> 30.0 < level <= 60.0
    ensures s == "High" <==> level > 60.0
  {
    if level <= 30.0 then "Low" else if level <= 60.0 then "Moderate" else "High"
  }

  /** getStressVariant. */
  function StressVariant(level: real): (v: Variant)
    ensures v == Default <==> level <= 30.0
    ensures v == Secondary <==> 30.0 < level <= 60.0
    ensures v == Destructive <==> level > 60.0
  {
    if level <= 30.0 then Default else if level <= 60.0 then Secondary else Destructive
  }

  /** The three classifiers always name the same band: label, colour and
      badge variant change together. */
  lemma StressClassifiersAgree(level: real)
    ensures StressLabel(level) == "Low" <==> StressColor(level) == Green
    ensures StressColor(level) == Green <==> StressVariant(level) == Default
    ensures StressLabel(level) == "Moderate" <==> StressColor(level) == Yellow
    ensures StressColor(level) == Yellow <==> StressVariant(level) == Secondary
    ensures StressLabel(level) == "High" <==> StressColor(level) == Red
    ensures StressColor(level) == Red <==> StressVariant(level) == Destructive
  {
  }

  /** One day of the page's stress week. */
  datatype StressDay = StressDay(date: string, stress: real, hrv: real, recovery: real)

  const StressData: seq<StressDay> := [
    StressDay("Mon", 45.0, 38.0, 82.0),
    StressDay("Tue", 72.0, 28.0, 65.0),
    StressDay("Wed", 38.0, 42.0, 88.0),
    StressDay("Thu", 58.0, 32.0, 75.0),
    StressDay("Fri", 85.0, 25.0, 58.0),
    StressDay("Sat", 25.0, 45.0, 92.0),
    StressDay("Sun", 32.0, 41.0, 85.0)
  ]

  /** The stored current reading: its level, and the status text the page
      keeps beside it. */
  datatype CurrentStress = CurrentStress(level: real, status: string, hrv: real, recoveryScore: real)

  const Current: CurrentStress := CurrentStress(42.0, "Low", 38.5, 85.0)

  /** The stored weekly summary. */
  datatype WeeklyStats = WeeklyStats(avgStress: int, highStressDays: int)

  const Weekly: WeeklyStats := WeeklyStats(51, 2)

  function StressValues(days: seq<StressDay>): (xs: seq<real>)
    ensures |xs| == |days|
    ensures forall i :: 0 <= i < |days| ==> xs[i] == days[i].stress
  {
    seq(|days|, i requires 0 <= i < |days| => days[i].stress)
  }

  /** How many days the label function calls High. */
  function HighDays(days: seq<StressDay>): (n: nat)
    ensures n <= |days|
    ensures n == 0 <==> forall i :: 0 <= i < |days| ==> StressLabel(days[i].stress) != "High"
    ensures n == |days| <==> forall i :: 0 <= i < |days| ==> StressLabel(days[i].stress) == "High"
  {
    if |days| == 0 then 0
    else (if StressLabel(days[0].stress) == "High" then 1 else 0) + HighDays(days[1..])
  }

  /** The stored summary agrees with the stored week: two days are labelled
      High, and 51 is the rounded mean of the seven stress values (355 / 7). */
  lemma {:induction false} WeeklyStatsMatchData()
    ensures HighDays(StressData) == Weekly.highStressDays
    ensures Sum(StressValues(StressData)) == 355.0
    ensures Round(Sum(StressValues(StressData)) / |StressData| as real) == Weekly.avgStress
  {
    WeeklyHighDays();
    WeeklySum();
  }

  /** Counted from the end of the week: Tuesday (72) and Friday (85) are High. */
  lemma WeeklyHighDays()
    ensures HighDays(StressData) == 2
  {
    var d := StressData;
    assert d[6..][1..] == [];
    assert HighDays(d[6..]) == 0;
    assert d[5..][1..] == d[6..];
    assert HighDays(d[5..]) == 0;
    assert d[4..][1..] == d[5..];
    assert HighDays(d[4..]) == 1;
    assert d[3..][1..] == d[4..];
    assert HighDays(d[3..]) == 1;
    assert d[2..][1..] == d[3..];
    assert HighDays(d[2..]) == 1;
    assert d[1..][1..] == d[2..];
    assert HighDays(d[1..]) == 2;
  }

  /** The seven stress values add up to 355. */
  lemma WeeklySum()
    ensures Sum(StressValues(StressData)) == 355.0
  {
    var d := StressData;
    var xs := StressValues(d);
    assert xs == [45.0, 72.0, 38.0, 58.0, 85.0, 25.0, 32.0];
    assert Sum([32.0]) == 32.0;
    assert Sum([25.0, 32.0]) == 57.0;
    assert Sum([85.0, 25.0, 32.0]) == 142.0;
    assert Sum([58.0, 85.0, 25.0, 32.0]) == 200.0;
    assert Sum([38.0, 58.0, 85.0, 25.0, 32.0]) == 238.0;
    assert Sum([72.0, 38.0, 58.0, 85.0, 25.0, 32.0]) == 310.0;
  }

  /** The badge is computed from the level, not from the stored status: the
      stored reading 42 shows "Moderate" although its status says "Low". */
  lemma CurrentBadgeIgnoresStatus()
    ensures StressLabel(Current.level) == "Moderate"
    ensures StressVariant(Current.level) == Secondary
    ensures StressLabel(Current.level) != Current.status
  {
  }

  /** A factor of the day with its signed impact on stress. */
  datatype StressFactor = StressFactor(factor: string, impact: int, time: string)

  const StressFactors: seq<StressFactor> := [
    StressFactor("Work Meetings", 85, "2:00 PM - 4:00 PM"),
    StressFactor("Exercise", -25, "6:00 AM - 7:00 AM"),
    StressFactor("Traffic Commute", 65, "8:00 AM - 9:00 AM"),
    StressFactor("Meditation", -40, "9:00 PM - 9:15 PM")
  ]

  /** How one factor row is shown: arrow direction and colour, the badge,
      and the magnitude of the impact. */
  datatype FactorView = FactorView(rising: bool, tone: Tone, variant: Variant, badge: string, magnitude: nat)

  /** A positive impact is a stressor; zero or negative is a reliever. The
      number shown is the impact's absolute value. */
  function ViewFactor(f: StressFactor): (v: FactorView)
    ensures v.badge == "Stressor" <==> f.impact > 0
    ensures v.badge == "Reliever" <==> f.impact <= 0
    ensures v.rising <==> f.impact > 0
    ensures v.tone == (if f.impact > 0 then Red else Green)
    ensures v.variant == (if f.impact > 0 then Destructive else Default)
    ensures v.magnitude as int == f.impact || v.magnitude as int == -f.impact
  {
    var magnitude := if f.impact < 0 then -f.impact else f.impact;
    if f.impact > 0 then FactorView(true, Red, Destructive, "Stressor", magnitude)
    else FactorView(false, Green, Default, "Reliever", magnitude)
  }

  /** One row per factor, in list order. */
  function FactorRows(fs: seq<StressFactor>): (rows: seq<FactorView>)
    ensures |rows| == |fs|
    ensures forall i :: 0 <= i < |fs| ==> rows[i] == ViewFactor(fs[i])
  {
    seq(|fs|, i requires 0 <= i < |fs| => ViewFactor(fs[i]))
  }

  /** Of today's factors, the meetings and the commute are stressors and the
      exercise and meditation are relievers. */
  lemma TodaysFactors()
    ensures var rows := FactorRows(StressFactors);
      rows[0].badge == "Stressor" && rows[1].badge == "Reliever"
      && rows[2].badge == "Stressor" && rows[3].badge == "Reliever"
      && rows[1].magnitude == 25 && rows[3].magnitude == 40
  {
  }

  /** The chart: one point per day, labelled by weekday, in order. */
  function StressChart(days: seq<StressDay>): (points: seq<ChartPoint>)
    ensures |points| == |days|
    ensures forall i :: 0 <= i < |days| ==> points[i] == ChartPoint(days[i].date, days[i].stress)
  {
    seq(|days|, i requires 0 <= i < |days| => ChartPoint(days[i].date, days[i].stress))
  }
}
