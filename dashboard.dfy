/** The main dashboard (src/components/Dashboard.tsx): the overall health
    status, the metric cards, the timeframe chart and the refresh tick that
    raises alerts and latches the emergency care finder. */
module Dashboard {
  import opened Numeric
  import opened Text
  import opened HealthData
  import opened Options
  import opened Chart
  import MC = MetricCard
  import HR = HeartRate
  import BO = BloodOxygen
  import Activity

  /** getHealthStatus: critical is tested first, then warning. */
  function HealthStatus(heartRate: int, bloodOxygen: int, stressLevel: int): (s: MC.AlertLevel)
    ensures s == MC.Critical <==> heartRate > 100 || bloodOxygen < 95 || stressLevel > 70
    ensures s == MC.Warning <==>
      !(heartRate > 100 || bloodOxygen < 95 || stressLevel > 70)
      && (heartRate > 85 || bloodOxygen < 97 || stressLevel > 50)
    ensures s == MC.Normal <==> heartRate <= 85 && bloodOxygen >= 97 && stressLevel <= 50
  {
    if heartRate > 100 || bloodOxygen < 95 || stressLevel > 70 then MC.Critical
    else if heartRate > 85 || bloodOxygen < 97 || stressLevel > 50 then MC.Warning
    else MC.Normal
  }

  /** Worse readings never give a better status. */
  lemma HealthStatusMonotone(hr1: int, o1: int, s1: int, hr2: int, o2: int, s2: int)
    requires hr1 <= hr2 && o1 >= o2 && s1 <= s2
    ensures MC.Severity(HealthStatus(hr1, o1, s1)) <= MC.Severity(HealthStatus(hr2, o2, s2))
  {
  }

  /** The header's status text. */
  function StatusLabel(s: MC.AlertLevel): (text: string)
    ensures s == MC.Critical ==> text == "Critical Alert"
    ensures s == MC.Warning ==> text == "Attention Needed"
    ensures s == MC.Normal ==> text == "All Systems Normal"
  {
    match s
    case Critical => "Critical Alert"
    case Warning => "Attention Needed"
    case Normal => "All Systems Normal"
  }

  /** The header text tells the three statuses apart. */
  lemma StatusLabelsDistinct(a: MC.AlertLevel, b: MC.AlertLevel)
    ensures StatusLabel(a) == StatusLabel(b) <==> a == b
  {
  }

  /** The stress card's alert: it only ever warns. */
  function StressCardAlert(stressLevel: int): (a: MC.AlertLevel)
    ensures a == MC.Warning <==> stressLevel > 70
    ensures a == MC.Normal <==> stressLevel <= 70
  {
    if stressLevel > 70 then MC.Warning else MC.Normal
  }

  /** The alerts of the three cards that carry one, in page order: heart
      rate, blood oxygen, stress. */
  function CardAlerts(m: HealthMetrics): (alerts: seq<MC.AlertLevel>)
    ensures |alerts| == 3
    ensures alerts[0] == HR.CardAlert(m.heartRate)
    ensures alerts[1] == BO.CardAlert(m.bloodOxygen)
    ensures alerts[2] == StressCardAlert(m.stressLevel)
  {
    [HR.CardAlert(m.heartRate), BO.CardAlert(m.bloodOxygen), StressCardAlert(m.stressLevel)]
  }

  /** No card is ever more alarming than the overall status: a critical
      card implies a critical status, and a normal status means every card
      is normal. */
  lemma {:induction false} CardsBelowStatus(m: HealthMetrics)
    ensures forall i :: 0 <= i < 3 ==>
      MC.Severity(CardAlerts(m)[i]) <= MC.Severity(HealthStatus(m.heartRate, m.bloodOxygen, m.stressLevel))
    ensures (exists i :: 0 <= i < 3 && CardAlerts(m)[i] == MC.Critical) ==>
      HealthStatus(m.heartRate, m.bloodOxygen, m.stressLevel) == MC.Critical
  {
    var s := HealthStatus(m.heartRate, m.bloodOxygen, m.stressLevel);
    var alerts := CardAlerts(m);
    forall i | 0 <= i < 3 ensures MC.Severity(alerts[i]) <= MC.Severity(s) {
      if i == 0 {
        assert MC.Severity(alerts[0]) <= MC.Severity(s);
      } else if i == 1 {
        assert MC.Severity(alerts[1]) <= MC.Severity(s);
      } else {
        assert MC.Severity(alerts[2]) <= MC.Severity(s);
      }
    }
  }

  /** The status can be more alarming than every card: stress above 70 makes
      the status critical while the stress card only warns, and stress
      between 51 and 70 makes it a warning while every card is normal. */
  lemma StatusAboveCards()
    ensures var m := HealthMetrics(75, 98, 5000, 800, 7.5, 75, 1500);
      HealthStatus(m.heartRate, m.bloodOxygen, m.stressLevel) == MC.Critical
      && forall i :: 0 <= i < 3 ==> CardAlerts(m)[i] != MC.Critical
    ensures var m := HealthMetrics(75, 98, 5000, 800, 7.5, 60, 1500);
      HealthStatus(m.heartRate, m.bloodOxygen, m.stressLevel) == MC.Warning
      && forall i :: 0 <= i < 3 ==> CardAlerts(m)[i] == MC.Normal
  {
  }

  /** The heart-rate card's trend text on the dashboard. */
  function HeartRateTrendValue(heartRate: int): (s: string)
    ensures HR.CardTrend(heartRate) == MC.Up ==> s == "+5 vs avg"
    ensures HR.CardTrend(heartRate) == MC.Down ==> s == "-3 vs avg"
    ensures HR.CardTrend(heartRate) == MC.Stable ==> s == "Normal range"
  {
    if heartRate > 80 then "+5 vs avg" else if heartRate < 65 then "-3 vs avg" else "Normal range"
  }

  /** The blood-oxygen card's trend text on the dashboard. */
  function OxygenTrendValue(bloodOxygen: int): (s: string)
    ensures BO.CardTrend(bloodOxygen) == MC.Stable ==> s == "Optimal"
    ensures BO.CardTrend(bloodOxygen) == MC.Down ==> s == "Below optimal"
  {
    if bloodOxygen >= 98 then "Optimal" else "Below optimal"
  }

  /** The sleep card: steady from seven hours up. */
  function SleepTrend(sleepHours: real): (t: MC.Trend)
    ensures t == MC.Stable <==> sleepHours >= 7.0
    ensures t == MC.Down <==> sleepHours < 7.0
  {
    if sleepHours >= 7.0 then MC.Stable else MC.Down
  }

  function SleepTrendValue(sleepHours: real): (s: string)
    ensures SleepTrend(sleepHours) == MC.Stable ==> s == "Good sleep"
    ensures SleepTrend(sleepHours) == MC.Down ==> s == "Insufficient"
  {
    if sleepHours >= 7.0 then "Good sleep" else "Insufficient"
  }

  /** The stress card's arrow: up above 60, down below 30. */
  function StressTrend(stressLevel: int): (t: MC.Trend)
    ensures t == MC.Up <==> stressLevel > 60
    ensures t == MC.Down <==> stressLevel < 30
    ensures t == MC.Stable <==> 30 <= stressLevel <= 60
  {
    if stressLevel > 60 then MC.Up else if stressLevel < 30 then MC.Down else MC.Stable
  }

  function StressTrendValue(stressLevel: int): (s: string)
    ensures StressTrend(stressLevel) == MC.Up ==> s == "Elevated"
    ensures StressTrend(stressLevel) == MC.Down ==> s == "Low"
    ensures StressTrend(stressLevel) == MC.Stable ==> s == "Moderate"
  {
    if stressLevel > 60 then "Elevated" else if stressLevel < 30 then "Low" else "Moderate"
  }

  /** A warning stress card always shows an upward arrow. */
  lemma StressCardConsistent(stressLevel: int)
    ensures StressCardAlert(stressLevel) == MC.Warning ==> StressTrend(stressLevel) == MC.Up
  {
  }

  /** Width of a progress bar in percent: the progress, capped at 100. */
  function ProgressWidth(progress: real): (w: real)
    ensures w <= 100.0
    ensures progress <= 100.0 ==> w == progress
    ensures progress >= 100.0 ==> w == 100.0
  {
    Min(100.0, progress)
  }

  /** The steps and calories bars: full exactly once the goal is reached. */
  lemma ProgressWidthFull(steps: int, calories: int)
    ensures ProgressWidth(Activity.StepProgress(steps)) == 100.0 <==> steps >= Activity.StepGoal
    ensures ProgressWidth(Activity.CalorieProgress(calories)) == 100.0 <==> calories >= Activity.CalorieGoal
    ensures steps >= 0 ==> 0.0 <= ProgressWidth(Activity.StepProgress(steps))
  {
  }

  /** The alert a refresh raises, carrying the reading its toast shows. */
  datatype HealthAlert = HighHeartRateAlert(bpm: int) | LowOxygenAlert(level: int)

  /** The tick's alert rule: a high heart rate wins over low oxygen, and at
      most one alert is raised. */
  function TickAlert(m: HealthMetrics): (a: Option<HealthAlert>)
    ensures a == Some(HighHeartRateAlert(m.heartRate)) <==> m.heartRate > 100
    ensures a == Some(LowOxygenAlert(m.bloodOxygen)) <==> m.heartRate <= 100 && m.bloodOxygen < 95
    ensures a == None <==> m.heartRate <= 100 && m.bloodOxygen >= 95
  {
    if m.heartRate > 100 then Some(HighHeartRateAlert(m.heartRate))
    else if m.bloodOxygen < 95 then Some(LowOxygenAlert(m.bloodOxygen))
    else None
  }

  /** Every alert the tick raises accompanies a critical overall status. */
  lemma TickAlertIsCritical(m: HealthMetrics)
    ensures TickAlert(m).Some? ==> HealthStatus(m.heartRate, m.bloodOxygen, m.stressLevel) == MC.Critical
  {
  }

  /** With the front end's own snapshot generator the tick never raises an
      alert (heart rate stays at most 90, blood oxygen at least 96), although
      the overall status can still be critical through stress. */
  lemma SnapshotRaisesNoAlert(hour: int, d: SnapshotDraws)
    requires ValidSnapshotDraws(d)
    ensures TickAlert(GenerateHealthMetrics(hour, d)) == None
  {
  }

  lemma SnapshotCanBeCritical()
    ensures var d := SnapshotDraws(0.5, 0.5, 0.5, 0.5, 0.5, 0.99, 0.5);
      ValidSnapshotDraws(d)
      && HealthStatus(GenerateHealthMetrics(12, d).heartRate, GenerateHealthMetrics(12, d).bloodOxygen,
           GenerateHealthMetrics(12, d).stressLevel) == MC.Critical
  {
    var d := SnapshotDraws(0.5, 0.5, 0.5, 0.5, 0.5, 0.99, 0.5);
    assert GenerateHealthMetrics(12, d).stressLevel == 79;
  }

  /** The toast title of an alert: one title per kind of alert. */
  function ToastTitle(a: HealthAlert): (t: string)
    ensures a.HighHeartRateAlert? <==> t == "⚠️ High Heart Rate Alert"
    ensures a.LowOxygenAlert? <==> t == "🫁 Low Oxygen Alert"
  {
    match a
    case HighHeartRateAlert(_) => "⚠️ High Heart Rate Alert"
    case LowOxygenAlert(_) => "🫁 Low Oxygen Alert"
  }

  /** The toast description of an alert names the reading that raised it,
      and the reading can be read back from the text. */
  function ToastDescription(a: HealthAlert): (d: string)
    ensures a.HighHeartRateAlert? ==> |d| > 49 && d[..19] == "Your heart rate is "
    ensures a.HighHeartRateAlert? && a.bpm >= 0 ==> var m := d[19..|d| - 30];
      (forall i :: 0 <= i < |m| ==> IsDigit(m[i])) && ParseNat(m) == a.bpm
    ensures a.LowOxygenAlert? ==> |d| > 40 && d[..16] == "Blood oxygen at "
    ensures a.LowOxygenAlert? && a.level >= 0 ==> var m := d[16..|d| - 24];
      (forall i :: 0 <= i < |m| ==> IsDigit(m[i])) && ParseNat(m) == a.level
  {
    match a
    case HighHeartRateAlert(bpm) =>
      var d := "Your heart rate is " + IntToString(bpm) + " BPM. Consider taking a break.";
      assert bpm >= 0 ==> var m := d[19..|d| - 30];
        (forall i :: 0 <= i < |m| ==> IsDigit(m[i])) && ParseNat(m) == bpm by {
        if bpm >= 0 {
          ParseNatToString(bpm);
          assert d[19..|d| - 30] == NatToString(bpm);
        }
      }
      d
    case LowOxygenAlert(level) =>
      var d := "Blood oxygen at " + IntToString(level) + "%. Check your breathing.";
      assert level >= 0 ==> var m := d[16..|d| - 24];
        (forall i :: 0 <= i < |m| ==> IsDigit(m[i])) && ParseNat(m) == level by {
        if level >= 0 {
          ParseNatToString(level);
          assert d[16..|d| - 24] == NatToString(level);
        }
      }
      d
  }

  /** The label of the i-th (0-based) point of a weekly or monthly chart. */
  function DayLabel(i: nat): (s: string)
    ensures 5 <= |s| && s[..4] == "Day " && s[4..] == NatToString(i + 1)
  {
    "Day " + NatToString(i + 1)
  }

  /** Distinct points get distinct day labels. */
  lemma DayLabelsDistinct(i: nat, j: nat)
    requires i != j
    ensures DayLabel(i) != DayLabel(j)
  {
    if DayLabel(i) == DayLabel(j) {
      assert DayLabel(i)[4..] == DayLabel(j)[4..];
      NatToStringInjective(i + 1, j + 1);
    }
  }

  /** A heart-rate series relabelled "Day 1", "Day 2", ... in order. */
  function DaySeries(trend: seq<HealthTrend>): (points: seq<ChartPoint>)
    ensures |points| == |trend|
    ensures forall i :: 0 <= i < |trend| ==> points[i] == ChartPoint(DayLabel(i), trend[i].heartRate)
  {
    seq(|trend|, i requires 0 <= i < |trend| => ChartPoint(DayLabel(i), trend[i].heartRate))
  }

  /** A heart-rate series keeping the trend's own hour labels. */
  function HourSeries(trend: seq<HealthTrend>): (points: seq<ChartPoint>)
    ensures |points| == |trend|
    ensures forall i :: 0 <= i < |trend| ==> points[i] == ChartPoint(trend[i].time, trend[i].heartRate)
  {
    seq(|trend|, i requires 0 <= i < |trend| => ChartPoint(trend[i].time, trend[i].heartRate))
  }

  /** The dashboard's state: the latest snapshot and 24-hour trend, the
      selected timeframe tab, the emergency-finder latch, and the alerts
      raised so far (the toasts shown, oldest first). */
  class DashboardState {
    var metrics: HealthMetrics
    var trendData: seq<HealthTrend>
    var timeframe: string
    var showEmergencyFinder: bool
    var toasts: seq<HealthAlert>

    /** The finder is shown exactly when some high-heart-rate alert has been
        raised; the trend always holds 25 in-range points. */
    ghost predicate Valid()
      reads this
    {
      && |trendData| == 25
      && (forall k :: 0 <= k < 25 ==> TrendPointInRange(trendData[k]))
      && (showEmergencyFinder <==> exists i :: 0 <= i < |toasts| && toasts[i].HighHeartRateAlert?)
    }

    /** The initial render: a fresh snapshot and 24-hour trend, the daily
        tab, no finder and no toasts. */
    constructor (hour: int, snapshot: SnapshotDraws, nowHour: int, draws: seq<TrendDraw>)
      requires ValidSnapshotDraws(snapshot)
      requires 0 <= nowHour < 24 && 25 <= |draws|
      requires forall k :: 0 <= k < |draws| ==> ValidTrendDraw(draws[k])
      ensures Valid()
      ensures metrics == GenerateHealthMetrics(hour, snapshot)
      ensures forall k :: 0 <= k < 25 ==> trendData[k] == TrendPoint(SampleHour(nowHour, 24 - k), draws[k])
      ensures timeframe == "daily" && !showEmergencyFinder && toasts == []
    {
      var trend := GenerateTrendData(24, nowHour, draws);
      metrics := GenerateHealthMetrics(hour, snapshot);
      trendData := trend;
      timeframe := "daily";
      showEmergencyFinder := false;
      toasts := [];
    }

    /** One refresh: replace the snapshot and the trend, then raise the
        tick's alert, if any; a high heart rate also latches the finder on.
        The new snapshot is a parameter: any reading, not only one the
        local generator can produce (for those, SnapshotRaisesNoAlert). */
    method Tick(newMetrics: HealthMetrics, nowHour: int, draws: seq<TrendDraw>)
      requires Valid()
      requires 0 <= nowHour < 24 && 25 <= |draws|
      requires forall k :: 0 <= k < |draws| ==> ValidTrendDraw(draws[k])
      modifies this
      ensures Valid()
      ensures metrics == newMetrics
      ensures forall k :: 0 <= k < 25 ==> trendData[k] == TrendPoint(SampleHour(nowHour, 24 - k), draws[k])
      ensures toasts == old(toasts) + (if TickAlert(newMetrics).Some? then [TickAlert(newMetrics).value] else [])
      ensures showEmergencyFinder == (old(showEmergencyFinder) || newMetrics.heartRate > 100)
      ensures timeframe == old(timeframe)
    {
      var trend := GenerateTrendData(24, nowHour, draws);
      metrics := newMetrics;
      trendData := trend;
      if newMetrics.heartRate > 100 {
        toasts := toasts + [HighHeartRateAlert(newMetrics.heartRate)];
        showEmergencyFinder := true;
        assert toasts[|toasts| - 1].HighHeartRateAlert?;
      } else if newMetrics.bloodOxygen < 95 {
        ghost var before := toasts;
        toasts := toasts + [LowOxygenAlert(newMetrics.bloodOxygen)];
        assert forall i :: 0 <= i < |before| ==> toasts[i] == before[i];
      }
    }

    /** A click on a timeframe tab. */
    method SetTimeframe(t: string)
      modifies this
      ensures timeframe == t
      ensures metrics == old(metrics) && trendData == old(trendData)
      ensures showEmergencyFinder == old(showEmergencyFinder) && toasts == old(toasts)
    {
      timeframe := t;
    }

    /** getTimeframeData: a fresh 7-hour or 30-hour trend relabelled by day
        for the weekly and monthly tabs, the current trend otherwise. */
    method GetTimeframeData(nowHour: int, draws: seq<TrendDraw>) returns (points: seq<ChartPoint>)
      requires 0 <= nowHour < 24 && 31 <= |draws|
      requires forall k :: 0 <= k < |draws| ==> ValidTrendDraw(draws[k])
      ensures timeframe == "weekly" ==> |points| == 8
      ensures timeframe == "monthly" ==> |points| == 31
      ensures timeframe == "weekly" || timeframe == "monthly" ==>
        forall i :: 0 <= i < |points| ==>
          points[i].time == DayLabel(i)
          && points[i].value == TrendPoint(SampleHour(nowHour, |points| - 1 - i), draws[i]).heartRate
      ensures timeframe != "weekly" && timeframe != "monthly" ==> points == HourSeries(trendData)
    {
      if timeframe == "weekly" {
        var data := GenerateTrendData(7, nowHour, draws);
        points := DaySeries(data);
      } else if timeframe == "monthly" {
        var data := GenerateTrendData(30, nowHour, draws);
        points := DaySeries(data);
      } else {
        points := HourSeries(trendData);
      }
    }
  }
}
