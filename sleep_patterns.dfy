/** The sleep page (src/pages/SleepPatterns.tsx): the quality label and
    colour, the styling of the sleep insights, and the page's constant week
    of data with its summary figures. */
module SleepPatterns {
  import opened Numeric
  import opened Badge
  import opened Chart

  /** getQualityColor: green, yellow, then red for everything below 70. */
  function QualityColor(quality: real): (t: Tone)
    ensures t == Green <==> quality >= 85.0
    ensures t == Yellow <==> 70.0 <= quality < 85.0
    ensures t == Red <==> quality < 70.0
  {
    if quality >= 85.0 then Green else if quality >= 70.0 then Yellow else Red
  }

  /** getQualityLabel: four bands. */
  function QualityLabel(quality: real): (s: string)
    ensures s == "Excellent" <==> quality >= 85.0
    ensures s == "Good" <==> 70.0 <= quality < 85.0
    ensures s == "Fair" <==> 50.0 <= quality < 70.0
    ensures s == "Poor" <==> quality < 50.0
  {
    if quality >= 85.0 then "Excellent"
    else if quality >= 70.0 then "Good"
    else if quality >= 50.0 then "Fair"
    else "Poor"
  }

  /** Label and colour agree on the two upper bands; Fair and Poor share red. */
  lemma QualityLabelAndColorAgree(quality: real)
    ensures QualityLabel(quality) == "Excellent" <==> QualityColor(quality) == Green
    ensures QualityLabel(quality) == "Good" <==> QualityColor(quality) == Yellow
    ensures QualityColor(quality) == Red <==> QualityLabel(quality) in {"Fair", "Poor"}
  {
  }

  /** A better score never gets a worse colour. */
  lemma QualityColorMonotone(a: real, b: real)
    requires a <= b
    ensures QualityColor(a) == Green ==> QualityColor(b) == Green
    ensures QualityColor(b) == Red ==> QualityColor(a) == Red
  {
  }

  /** The icon styling of an insight, chosen by its type string. */
  function InsightStyle(kind: string): (t: Tone)
    ensures t == Green <==> kind == "positive"
    ensures t == Yellow <==> kind == "warning"
    ensures t == Blue <==> kind != "positive" && kind != "warning"
  {
    if kind == "positive" then Green else if kind == "warning" then Yellow else Blue
  }

  datatype SleepInsight = SleepInsight(kind: string, title: string)

  const Insights: seq<SleepInsight> := [
    SleepInsight("positive", "Consistent Sleep Schedule"),
    SleepInsight("warning", "Weekend Sleep Debt"),
    SleepInsight("improvement", "Deep Sleep Improving")
  ]

  /** The page's three insights get three different stylings; the
      "improvement" one falls to the blue default. */
  lemma InsightStyles()
    ensures InsightStyle(Insights[0].kind) == Green
    ensures InsightStyle(Insights[1].kind) == Yellow
    ensures InsightStyle(Insights[2].kind) == Blue
  {
  }

  /** One night of the page's sleep week. */
  datatype SleepNight = SleepNight(date: string, hours: real, quality: real, deepSleep: real)

  const SleepData: seq<SleepNight> := [
    SleepNight("Mon", 7.5, 85.0, 2.1),
    SleepNight("Tue", 6.2, 72.0, 1.8),
    SleepNight("Wed", 8.1, 92.0, 2.4),
    SleepNight("Thu", 7.0, 80.0, 2.0),
    SleepNight("Fri", 5.8, 65.0, 1.5),
    SleepNight("Sat", 9.2, 95.0, 2.8),
    SleepNight("Sun", 8.5, 88.0, 2.5)
  ]

  /** The stored weekly summary: the average sleep time shown as "7h 24m"
      (444 minutes) and the average quality. */
  const AvgSleepMinutes: int := 7 * 60 + 24
  const AvgQuality: int := 82

  function QualityValues(nights: seq<SleepNight>): (xs: seq<real>)
    ensures |xs| == |nights|
    ensures forall i :: 0 <= i < |nights| ==> xs[i] == nights[i].quality
  {
    seq(|nights|, i requires 0 <= i < |nights| => nights[i].quality)
  }

  function HourValues(nights: seq<SleepNight>): (xs: seq<real>)
    ensures |xs| == |nights|
    ensures forall i :: 0 <= i < |nights| ==> xs[i] == nights[i].hours
  {
    seq(|nights|, i requires 0 <= i < |nights| => nights[i].hours)
  }

  /** The stored average quality 82 is the rounded mean of the seven
      quality values (577 / 7), and it is labelled Good. */
  lemma {:induction false} AvgQualityMatchesData()
    ensures Sum(QualityValues(SleepData)) == 577.0
    ensures Round(Sum(QualityValues(SleepData)) / |SleepData| as real) == AvgQuality
    ensures QualityLabel(AvgQuality as real) == "Good"
  {
    assert QualityValues(SleepData) == [85.0, 72.0, 92.0, 80.0, 65.0, 95.0, 88.0];
    assert Sum([88.0]) == 88.0;
    assert Sum([95.0, 88.0]) == 183.0;
    assert Sum([65.0, 95.0, 88.0]) == 248.0;
    assert Sum([80.0, 65.0, 95.0, 88.0]) == 328.0;
    assert Sum([92.0, 80.0, 65.0, 95.0, 88.0]) == 420.0;
    assert Sum([72.0, 92.0, 80.0, 65.0, 95.0, 88.0]) == 492.0;
  }

  /** The stored average sleep time does not match the stored week: the
      seven nights total 52.3 hours, a mean of about 448 minutes (7h 28m),
      not 444. */
  lemma {:induction false} AvgSleepDisagreesWithData()
    ensures Sum(HourValues(SleepData)) == 52.3
    ensures Round(Sum(HourValues(SleepData)) * 60.0 / |SleepData| as real) == 448
    ensures Round(Sum(HourValues(SleepData)) * 60.0 / |SleepData| as real) != AvgSleepMinutes
  {
    assert HourValues(SleepData) == [7.5, 6.2, 8.1, 7.0, 5.8, 9.2, 8.5];
    assert Sum([8.5]) == 8.5;
    assert Sum([9.2, 8.5]) == 17.7;
    assert Sum([5.8, 9.2, 8.5]) == 23.5;
    assert Sum([7.0, 5.8, 9.2, 8.5]) == 30.5;
    assert Sum([8.1, 7.0, 5.8, 9.2, 8.5]) == 38.6;
    assert Sum([6.2, 8.1, 7.0, 5.8, 9.2, 8.5]) == 44.8;
  }

  /** The chart: one point per night, labelled by weekday, in order. */
  function SleepChart(nights: seq<SleepNight>): (points: seq<ChartPoint>)
    ensures |points| == |nights|
    ensures forall i :: 0 <= i < |nights| ==> points[i] == ChartPoint(nights[i].date, nights[i].hours)
  {
    seq(|nights|, i requires 0 <= i < |nights| => ChartPoint(nights[i].date, nights[i].hours))
  }
}
