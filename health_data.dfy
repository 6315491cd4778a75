/** The front end's synthetic data source (src/lib/healthData.ts): one
    snapshot of vital signs, an hourly trend series and the canned AI insight
    catalog. The wall clock and Math.random are injected: `hour`/`nowHour` is
    the local hour of day, and every Math.random() call is a draw in [0, 1). */
module HealthData {
  import opened Numeric
  import opened Text

  /** One snapshot of readings (HealthMetrics). */
  datatype HealthMetrics = HealthMetrics(
    heartRate: int,
    bloodOxygen: int,
    steps: int,
    calories: int,
    sleepHours: real,
    stressLevel: int,
    waterIntake: int)

  /** One sampled hour of a trend series (HealthTrend). The three vital signs
      are clamped but not rounded, so they are reals. */
  datatype HealthTrend = HealthTrend(
    time: string,
    heartRate: real,
    bloodOxygen: real,
    steps: int,
    stressLevel: real)

  /** The seven Math.random() results a snapshot consumes, in the order the
      source evaluates them. */
  datatype SnapshotDraws = SnapshotDraws(
    heart: real, oxygen: real, steps: real, calories: real,
    sleep: real, stress: real, water: real)

  predicate ValidSnapshotDraws(d: SnapshotDraws) {
    IsUnit(d.heart) && IsUnit(d.oxygen) && IsUnit(d.steps) && IsUnit(d.calories)
    && IsUnit(d.sleep) && IsUnit(d.stress) && IsUnit(d.water)
  }

  /** The snapshot's night rule: before 06:00 or after 22:59. */
  predicate IsSnapshotNight(hour: int) {
    hour < 6 || hour > 22
  }

  /** generateHealthMetrics: every field is a floor plus a bounded random
      offset, rounded with Math.round; sleep hours keep one decimal. */
  function GenerateHealthMetrics(hour: int, d: SnapshotDraws): (m: HealthMetrics)
    requires ValidSnapshotDraws(d)
    ensures IsSnapshotNight(hour) ==> 55 <= m.heartRate <= 65
    ensures !IsSnapshotNight(hour) ==> 70 <= m.heartRate <= 90
    ensures 96 <= m.bloodOxygen <= 100
    ensures 1000 <= m.steps <= 9000
    ensures 300 <= m.calories <= 1500
    ensures 6.0 <= m.sleepHours <= 9.0
    ensures (m.sleepHours * 10.0).Floor as real == m.sleepHours * 10.0
    ensures 20 <= m.stressLevel <= 80
    ensures 500 <= m.waterIntake <= 2500
  {
    var baseHeartRate := if IsSnapshotNight(hour) then 55.0 + d.heart * 10.0 else 70.0 + d.heart * 20.0;
    var sleepTenths := Round((6.0 + d.sleep * 3.0) * 10.0);
    RoundWithin(baseHeartRate, if IsSnapshotNight(hour) then 55 else 70, if IsSnapshotNight(hour) then 65 else 90);
    RoundWithin(96.0 + d.oxygen * 4.0, 96, 100);
    RoundWithin(1000.0 + d.steps * 8000.0, 1000, 9000);
    RoundWithin(300.0 + d.calories * 1200.0, 300, 1500);
    RoundWithin((6.0 + d.sleep * 3.0) * 10.0, 60, 90);
    RoundWithin(20.0 + d.stress * 60.0, 20, 80);
    RoundWithin(500.0 + d.water * 2000.0, 500, 2500);
    assert (sleepTenths as real / 10.0) * 10.0 == sleepTenths as real;
    HealthMetrics(
      Round(baseHeartRate),
      Round(96.0 + d.oxygen * 4.0),
      Round(1000.0 + d.steps * 8000.0),
      Round(300.0 + d.calories * 1200.0),
      sleepTenths as real / 10.0,
      Round(20.0 + d.stress * 60.0),
      Round(500.0 + d.water * 2000.0))
  }

  /** The four Math.random() results one trend point consumes, in order. */
  datatype TrendDraw = TrendDraw(heart: real, oxygen: real, steps: real, stress: real)

  predicate ValidTrendDraw(d: TrendDraw) {
    IsUnit(d.heart) && IsUnit(d.oxygen) && IsUnit(d.steps) && IsUnit(d.stress)
  }

  /** The local hour of day `ago` hours before an instant whose hour is
      nowHour (daylight-saving jumps are not modelled). */
  function SampleHour(nowHour: int, ago: int): (h: int)
    ensures 0 <= h < 24
    ensures (h - nowHour + ago) % 24 == 0
  {
    (nowHour - ago) % 24
  }

  /** Consecutive samples are one hour apart on the clock. */
  lemma SampleHourStep(nowHour: int, ago: int)
    ensures SampleHour(nowHour, ago - 1) == (SampleHour(nowHour, ago) + 1) % 24
  {
  }

  /** Time-of-day activity bands of the trend generator. */
  datatype Band = Morning | Lunch | Evening | Night | Quiet

  /** The band an hour falls into. The source tests the bands in order, first
      match winning; the bands do not overlap, so each one is exactly its
      window. */
  function HourBand(hour: int): (b: Band)
    ensures b == Morning <==> 6 <= hour <= 9
    ensures b == Lunch <==> 12 <= hour <= 14
    ensures b == Evening <==> 17 <= hour <= 19
    ensures b == Night <==> (hour >= 22 || hour <= 5)
    ensures b == Quiet <==> (10 <= hour <= 11 || 15 <= hour <= 16 || 20 <= hour <= 21)
  {
    if 6 <= hour <= 9 then Morning
    else if 12 <= hour <= 14 then Lunch
    else if 17 <= hour <= 19 then Evening
    else if hour >= 22 || hour <= 5 then Night
    else Quiet
  }

  function HeartRateOffset(b: Band): real {
    match b
    case Morning => 15.0
    case Lunch => 10.0
    case Evening => 20.0
    case Night => -15.0
    case Quiet => 0.0
  }

  function StressOffset(b: Band): real {
    match b
    case Morning => 20.0
    case Lunch => 15.0
    case Evening => 25.0
    case Night => -10.0
    case Quiet => 0.0
  }

  /** The shaped heart rate before jitter: base 70 plus the band offset. */
  function ShapedHeartRate(hour: int): (r: real)
    ensures 6 <= hour <= 9 ==> r == 85.0
    ensures 12 <= hour <= 14 ==> r == 80.0
    ensures 17 <= hour <= 19 ==> r == 90.0
    ensures (hour >= 22 || hour <= 5) ==> r == 55.0
    ensures HourBand(hour) == Quiet ==> r == 70.0
  {
    70.0 + HeartRateOffset(HourBand(hour))
  }

  /** The shaped stress level before jitter: base 30 plus the band offset. */
  function ShapedStress(hour: int): (r: real)
    ensures 6 <= hour <= 9 ==> r == 50.0
    ensures 12 <= hour <= 14 ==> r == 45.0
    ensures 17 <= hour <= 19 ==> r == 55.0
    ensures (hour >= 22 || hour <= 5) ==> r == 20.0
    ensures HourBand(hour) == Quiet ==> r == 30.0
  {
    30.0 + StressOffset(HourBand(hour))
  }

  /** Day-time hours get a step floor of 200. */
  predicate IsStepDaytime(hour: int) {
    7 <= hour <= 21
  }

  /** Symmetric jitter `(Math.random() - 0.5) * spread`: within
      [-spread/2, spread/2). */
  function Jitter(r: real, spread: real): (j: real)
    requires IsUnit(r) && 0.0 < spread
    ensures -spread / 2.0 <= j < spread / 2.0
  {
    (r - 0.5) * spread
  }

  /** The point pushed for one sample hour, given the band-shaped heart
      rate and stress level and one draw: jitter, then clamp (steps get a
      day-time floor and are rounded). */
  function ShapedPoint(hour: nat, heartRate: real, stressLevel: real, d: TrendDraw): (p: HealthTrend)
    requires ValidTrendDraw(d)
    ensures p.time == HourLabel(hour) && p.steps >= 0
    ensures Clamp(50.0, 120.0, heartRate - 10.0) <= p.heartRate <= Clamp(50.0, 120.0, heartRate + 10.0)
    ensures Clamp(10.0, 80.0, stressLevel - 15.0) <= p.stressLevel <= Clamp(10.0, 80.0, stressLevel + 15.0)
    ensures 96.0 <= p.bloodOxygen < 100.0
  {
    HealthTrend(
      HourLabel(hour),
      Clamp(50.0, 120.0, heartRate + Jitter(d.heart, 20.0)),
      Clamp(95.0, 100.0, 98.0 + Jitter(d.oxygen, 4.0)),
      var s := Round(d.steps * 500.0 + (if IsStepDaytime(hour) then 200.0 else 0.0));
      if s < 0 then 0 else s,
      Clamp(10.0, 80.0, stressLevel + Jitter(d.stress, 30.0)))
  }

  /** The trend point generated for one sample hour from one draw. */
  function TrendPoint(hour: nat, d: TrendDraw): (p: HealthTrend)
    requires ValidTrendDraw(d)
    ensures p.time == HourLabel(hour)
    ensures 50.0 <= p.heartRate <= 120.0 && 10.0 <= p.stressLevel <= 80.0
  {
    ShapedPoint(hour, ShapedHeartRate(hour), ShapedStress(hour), d)
  }

  /** A trend point respects every clamp; blood oxygen never even reaches the
      lower clamp. */
  predicate TrendPointInRange(p: HealthTrend) {
    && 50.0 <= p.heartRate <= 120.0
    && 95.0 <= p.bloodOxygen <= 100.0
    && 0 <= p.steps <= 700
    && 10.0 <= p.stressLevel <= 80.0
  }

  lemma TrendPointRanges(hour: nat, d: TrendDraw)
    requires ValidTrendDraw(d)
    ensures TrendPointInRange(TrendPoint(hour, d))
    ensures 96.0 <= TrendPoint(hour, d).bloodOxygen < 100.0
    ensures IsStepDaytime(hour) ==> 200 <= TrendPoint(hour, d).steps <= 700
    ensures !IsStepDaytime(hour) ==> TrendPoint(hour, d).steps <= 500
  {
    var extra := if IsStepDaytime(hour) then 200.0 else 0.0;
    RoundWithin(d.steps * 500.0 + extra, if IsStepDaytime(hour) then 200 else 0, if IsStepDaytime(hour) then 700 else 500);
  }

  /** Heart rate and stress are the shaped value plus a jitter in [-10, 10)
      and [-15, 15) respectively, then clamped: so each lies between the clamps
      of the shaped value moved by the jitter's extremes. */
  lemma TrendPointJitter(hour: nat, d: TrendDraw)
    requires ValidTrendDraw(d)
    ensures Clamp(50.0, 120.0, ShapedHeartRate(hour) - 10.0) <= TrendPoint(hour, d).heartRate
    ensures TrendPoint(hour, d).heartRate <= Clamp(50.0, 120.0, ShapedHeartRate(hour) + 10.0)
    ensures Clamp(10.0, 80.0, ShapedStress(hour) - 15.0) <= TrendPoint(hour, d).stressLevel
    ensures TrendPoint(hour, d).stressLevel <= Clamp(10.0, 80.0, ShapedStress(hour) + 15.0)
  {
    var jh := Jitter(d.heart, 20.0);
    var js := Jitter(d.stress, 30.0);
    ClampMonotone(50.0, 120.0, ShapedHeartRate(hour) - 10.0, ShapedHeartRate(hour) + jh);
    ClampMonotone(50.0, 120.0, ShapedHeartRate(hour) + jh, ShapedHeartRate(hour) + 10.0);
    ClampMonotone(10.0, 80.0, ShapedStress(hour) - 15.0, ShapedStress(hour) + js);
    ClampMonotone(10.0, 80.0, ShapedStress(hour) + js, ShapedStress(hour) + 15.0);
  }

  /** The loop body's band adjustment: start from heart rate 70 and stress
      30, then add the offsets of the first band whose window holds the hour. */
  method ShapeForHour(hour: int) returns (heartRate: real, stressLevel: real)
    ensures heartRate == ShapedHeartRate(hour)
    ensures stressLevel == ShapedStress(hour)
  {
    heartRate := 70.0;
    stressLevel := 30.0;
    if 6 <= hour <= 9 {
      heartRate := heartRate + 15.0;
      stressLevel := stressLevel + 20.0;
    } else if 12 <= hour <= 14 {
      heartRate := heartRate + 10.0;
      stressLevel := stressLevel + 15.0;
    } else if 17 <= hour <= 19 {
      heartRate := heartRate + 20.0;
      stressLevel := stressLevel + 25.0;
    } else if hour >= 22 || hour <= 5 {
      heartRate := heartRate - 15.0;
      stressLevel := stressLevel - 10.0;
    }
  }

  /** generateTrendData: `hours + 1` points, oldest first (none for a
      negative span). Point k is sampled `hours - k` hours before now and is
      labelled with that sample's hour, so the last label is the current
      hour. */
  method GenerateTrendData(hours: int, nowHour: int, draws: seq<TrendDraw>) returns (data: seq<HealthTrend>)
    requires 0 <= nowHour < 24
    requires hours + 1 <= |draws|
    requires forall k :: 0 <= k < |draws| ==> ValidTrendDraw(draws[k])
    ensures |data| == if hours >= 0 then hours + 1 else 0
    ensures forall k :: 0 <= k < |data| ==> data[k] == TrendPoint(SampleHour(nowHour, hours - k), draws[k])
    ensures forall k :: 0 <= k < |data| ==> TrendPointInRange(data[k])
    ensures hours >= 0 ==> data[hours].time == HourLabel(nowHour)
  {
    data := [];
    var i := hours;
    while i >= 0
      invariant if hours >= 0 then -1 <= i <= hours else i == hours
      invariant |data| == hours - i
      invariant forall k :: 0 <= k < |data| ==> data[k] == TrendPoint(SampleHour(nowHour, hours - k), draws[k])
    {
      var hour := SampleHour(nowHour, i);
      var heartRate, stressLevel := ShapeForHour(hour);
      var d := draws[hours - i];
      var point := ShapedPoint(hour, heartRate, stressLevel, d);
      assert hours - |data| == i;
      data := data + [point];
      i := i - 1;
    }
    forall k | 0 <= k < |data| ensures TrendPointInRange(data[k]) {
      TrendPointRanges(SampleHour(nowHour, hours - k), draws[k]);
    }
    if hours >= 0 {
      assert SampleHour(nowHour, hours - hours) == nowHour;
    }
  }

  /** Kinds and priorities of an AI insight (AIInsight in AIInsightsCard.tsx). */
  datatype InsightType = Recommendation | Alert | Achievement | Info
  datatype Priority = Low | Medium | High

  datatype Insight = Insight(
    id: string,
    kind: InsightType,
    title: string,
    message: string,
    timestamp: string,
    priority: Priority)

  const HydrationMessage := "Your water intake is below the recommended 2L daily goal. Consider drinking a glass of water now."
  const SleepGoalMessage := "Great job! You've maintained 7+ hours of sleep for 5 consecutive nights."
  const HeartRateMessage := "Your resting heart rate has been consistently above normal. Consider reducing caffeine intake."
  const ActivityMessage := "You've been sedentary for 2 hours. A 5-minute walk could help improve circulation."

  /** generateAIInsights: a fixed catalog of four insights with ids "1".."4";
      no insight is of kind Info, and exactly one (the third) is a
      high-priority alert. */
  function GenerateAIInsights(): (r: seq<Insight>)
    ensures |r| == 4
    ensures [r[0].id, r[1].id, r[2].id, r[3].id] == ["1", "2", "3", "4"]
    ensures forall k :: 0 <= k < |r| ==> r[k].kind != Info
    ensures forall k :: 0 <= k < |r| ==> (r[k].kind == Alert && r[k].priority == High <==> k == 2)
  {
    [ Insight("1", Recommendation, "Hydration Reminder", HydrationMessage, "2 minutes ago", Medium),
      Insight("2", Achievement, "Sleep Goal Achieved!", SleepGoalMessage, "1 hour ago", Low),
      Insight("3", Alert, "Elevated Heart Rate", HeartRateMessage, "3 hours ago", High),
      Insight("4", Recommendation, "Activity Suggestion", ActivityMessage, "30 minutes ago", Medium) ]
  }
}
