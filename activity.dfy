/** The activity page (src/pages/Activity.tsx): goal progress for steps and
    calories, the steps-to-distance conversion and the step trend rule. */
module Activity {
  import opened Numeric
  import opened Text
  import opened HealthData
  import MC = MetricCard

  const StepGoal: int := 10000
  const CalorieGoal: int := 2000

  /** stepProgress: percent of the daily step goal, not capped. */
  function StepProgress(steps: int): (p: real)
    ensures p * StepGoal as real == steps as real * 100.0
    ensures p >= 100.0 <==> steps >= StepGoal
    ensures steps >= 0 ==> p >= 0.0
  {
    (steps as real / StepGoal as real) * 100.0
  }

  /** calorieProgress: percent of the daily calorie goal, not capped. */
  function CalorieProgress(calories: int): (p: real)
    ensures p * CalorieGoal as real == calories as real * 100.0
    ensures p >= 100.0 <==> calories >= CalorieGoal
    ensures calories >= 0 ==> p >= 0.0
  {
    (calories as real / CalorieGoal as real) * 100.0
  }

  /** The "N% of goal" label under a progress bar: Math.round of the progress. */
  function GoalLabel(progress: real): (text: string)
    ensures |text| > 9 && text[|text| - 9..] == "% of goal"
    ensures progress >= 0.0 ==> var m := text[..|text| - 9];
      (forall i :: 0 <= i < |m| ==> IsDigit(m[i])) && ParseNat(m) == Round(progress)
  {
    var text := IntToString(Round(progress)) + "% of goal";
    assert progress >= 0.0 ==> var m := text[..|text| - 9];
      (forall i :: 0 <= i < |m| ==> IsDigit(m[i])) && ParseNat(m) == Round(progress) by {
      if progress >= 0.0 {
        ParseNatToString(Round(progress));
        assert text[..|text| - 9] == NatToString(Round(progress));
      }
    }
    text
  }

  /** Reaching the goal reads "100% of goal"; the label rounds, so 9950
      steps already read as 100 and 9949 as 99. */
  lemma GoalLabelRounds()
    ensures GoalLabel(StepProgress(StepGoal)) == "100% of goal"
    ensures Round(StepProgress(9950)) == 100 && Round(StepProgress(9949)) == 99
    ensures GoalLabel(CalorieProgress(1500)) == "75% of goal"
  {
    assert Round(StepProgress(StepGoal)) == 100;
    assert NatToString(100) == "100";
    assert Round(CalorieProgress(1500)) == 75;
    assert NatToString(75) == "75";
  }

  /** Distance in kilometres, at 0.8 metres per step. */
  function DistanceKm(steps: int): (km: real)
    ensures km * 1250.0 == steps as real
  {
    steps as real * 0.0008
  }

  /** The distance as shown with one decimal: a whole number of tenths of a
      kilometre (toFixed(1), halves rounded up). */
  function DistanceTenths(steps: int): (tenths: int)
    ensures DistanceKm(steps) * 10.0 - 0.5 < tenths as real <= DistanceKm(steps) * 10.0 + 0.5
  {
    Round(DistanceKm(steps) * 10.0)
  }

  /** Every 1250 steps add exactly one kilometre, and every 125 steps add
      exactly one displayed tenth. */
  lemma DistanceStep(steps: int)
    ensures DistanceKm(steps + 1250) == DistanceKm(steps) + 1.0
    ensures DistanceTenths(steps + 125) == DistanceTenths(steps) + 1
  {
    assert DistanceKm(steps + 125) * 10.0 + 0.5 == (DistanceKm(steps) * 10.0 + 0.5) + 1.0;
  }

  /** The displayed distance never decreases as steps grow. */
  lemma DistanceMonotone(a: int, b: int)
    requires a <= b
    ensures DistanceTenths(a) <= DistanceTenths(b)
  {
    assert DistanceKm(a) * 10.0 + 0.5 <= DistanceKm(b) * 10.0 + 0.5;
  }

  /** The steps card's arrow: up above 8000 steps, steady otherwise. */
  function StepTrend(steps: int): (t: MC.Trend)
    ensures t == MC.Up <==> steps > 8000
    ensures t == MC.Stable <==> steps <= 8000
  {
    if steps > 8000 then MC.Up else MC.Stable
  }

  /** An up arrow is shown only once 80% of the step goal is passed. */
  lemma StepTrendProgress(steps: int)
    ensures StepTrend(steps) == MC.Up <==> StepProgress(steps) > 80.0
  {
  }

  /** With the snapshot generator's readings neither bar reaches its goal:
      steps stay within 10%..90% and calories within 15%..75%. */
  lemma SnapshotProgressBounds(hour: int, d: SnapshotDraws)
    requires ValidSnapshotDraws(d)
    ensures 10.0 <= StepProgress(GenerateHealthMetrics(hour, d).steps) <= 90.0
    ensures 15.0 <= CalorieProgress(GenerateHealthMetrics(hour, d).calories) <= 75.0
  {
    var m := GenerateHealthMetrics(hour, d);
    assert 1000 <= m.steps <= 9000 && 300 <= m.calories <= 1500;
  }
}
