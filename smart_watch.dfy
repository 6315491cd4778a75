/** The watch face (src/components/SmartWatchView.tsx): a fresh snapshot
    every few seconds and a rotation through three single-metric views,
    with one highlighted dot per view. The timers are modelled as the two
    methods they call. */
module SmartWatch {
  import opened HealthData

  /** One face of the rotation; the steps count is shown with the locale's
      grouping, which is not modelled, so the value is the number itself. */
  datatype WatchView = WatchView(title: string, value: int, unit: string)

  const ViewCount: nat := 3

  /** The three faces, in rotation order. */
  function Views(m: HealthMetrics): (vs: seq<WatchView>)
    ensures |vs| == ViewCount
    ensures vs[0].title == "Heart Rate" && vs[0].value == m.heartRate && vs[0].unit == "BPM"
    ensures vs[1].title == "Blood O2" && vs[1].value == m.bloodOxygen && vs[1].unit == "%"
    ensures vs[2].title == "Steps" && vs[2].value == m.steps && vs[2].unit == "steps"
  {
    [ WatchView("Heart Rate", m.heartRate, "BPM"),
      WatchView("Blood O2", m.bloodOxygen, "%"),
      WatchView("Steps", m.steps, "steps") ]
  }

  /** `(prev + 1) % views.length`: the next face, wrapping after the last. */
  function NextView(v: nat): (w: nat)
    requires v < ViewCount
    ensures w < ViewCount
    ensures v + 1 < ViewCount ==> w == v + 1
    ensures v + 1 == ViewCount ==> w == 0
  {
    (v + 1) % ViewCount
  }

  /** The face shown after k rotations. */
  function Rotate(v: nat, k: nat): (w: nat)
    requires v < ViewCount
    ensures w < ViewCount
  {
    if k == 0 then v else NextView(Rotate(v, k - 1))
  }

  /** After k rotations the face is (v + k) mod 3. */
  lemma {:induction false} RotateIsModular(v: nat, k: nat)
    requires v < ViewCount
    ensures Rotate(v, k) == (v + k) % ViewCount
  {
    if k > 0 {
      RotateIsModular(v, k - 1);
    }
  }

  /** Every face comes back after three rotations, and each of the three is
      shown within any three consecutive ticks. */
  lemma RotationCycles(v: nat)
    requires v < ViewCount
    ensures Rotate(v, ViewCount) == v
    ensures {Rotate(v, 0), Rotate(v, 1), Rotate(v, 2)} == {0, 1, 2}
  {
    RotateIsModular(v, ViewCount);
    RotateIsModular(v, 1);
    RotateIsModular(v, 2);
  }

  /** The dot row: one dot per face, the current one highlighted. */
  function Dots(current: nat): (dots: seq<bool>)
    requires current < ViewCount
    ensures |dots| == ViewCount
    ensures forall i :: 0 <= i < ViewCount ==> (dots[i] <==> i == current)
  {
    seq(ViewCount, i => i == current)
  }

  /** The watch's state: the latest snapshot and the face being shown. */
  class SmartWatchView {
    var metrics: HealthMetrics
    var currentView: nat

    ghost predicate Valid()
      reads this
    {
      currentView < ViewCount
    }

    /** The face on screen. */
    function CurrentMetric(): (face: WatchView)
      reads this
      requires Valid()
      ensures face == Views(metrics)[currentView]
      ensures face.title == "Heart Rate" <==> currentView == 0
    {
      Views(metrics)[currentView]
    }

    /** The watch starts on the heart-rate face with a first snapshot. */
    constructor (hour: int, d: SnapshotDraws)
      requires ValidSnapshotDraws(d)
      ensures Valid()
      ensures metrics == GenerateHealthMetrics(hour, d)
      ensures currentView == 0
    {
      metrics := GenerateHealthMetrics(hour, d);
      currentView := 0;
    }

    /** The five-second timer: a new snapshot, the same face. */
    method RefreshMetrics(hour: int, d: SnapshotDraws)
      requires Valid() && ValidSnapshotDraws(d)
      modifies this
      ensures Valid()
      ensures metrics == GenerateHealthMetrics(hour, d)
      ensures currentView == old(currentView)
    {
      metrics := GenerateHealthMetrics(hour, d);
    }

    /** The three-second timer: the next face, the same snapshot. */
    method AdvanceView()
      requires Valid()
      modifies this
      ensures Valid()
      ensures currentView == NextView(old(currentView))
      ensures metrics == old(metrics)
    {
      currentView := NextView(currentView);
    }
  }
}
