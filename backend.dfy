/** The Flask service (api/app.py): its own snapshot generator, the
    index-labelled trend list, the alert catalog and the validator of
    posted metrics. Python's random source and clock are injected as in
    the front end's generators. */
module Backend {
  import opened Numeric
  import opened Text
  import opened HealthData

  /** random.uniform(a, b) fed by a draw r in [0, 1). */
  function Uniform(a: real, b: real, r: real): (x: real)
    requires a <= b && IsUnit(r)
    ensures a <= x <= b
  {
    var width := b - a;
    ScaleBelow(r, width);
    a + width * r
  }

  /** round(x, 1): x to one decimal (halves rounded up). */
  function RoundTenth(x: real): (y: real)
    ensures (y * 10.0).Floor as real == y * 10.0
    ensures x - 0.05 < y <= x + 0.05
  {
    var tenths := Round(x * 10.0);
    assert (tenths as real / 10.0) * 10.0 == tenths as real;
    tenths as real / 10.0
  }

  /** The metrics record of the service; the timestamp is the injected
      clock's ISO text. */
  datatype ServiceMetrics = ServiceMetrics(
    heartRate: int,
    bloodOxygen: int,
    steps: int,
    calories: int,
    sleepHours: real,
    stressLevel: int,
    waterIntake: int,
    timestamp: string)

  /** generate_health_metrics: each field one randint, sleep a uniform
      rounded to one decimal. The seven draws are consumed in the same order
      as the front end's snapshot, so its draw record is reused. */
  function GenerateServiceMetrics(d: SnapshotDraws, now: string): (m: ServiceMetrics)
    requires ValidSnapshotDraws(d)
    ensures 60 <= m.heartRate <= 100
    ensures 95 <= m.bloodOxygen <= 100
    ensures 1000 <= m.steps <= 15000
    ensures 300 <= m.calories <= 2500
    ensures 6.0 <= m.sleepHours <= 9.0
    ensures (m.sleepHours * 10.0).Floor as real == m.sleepHours * 10.0
    ensures 20 <= m.stressLevel <= 80
    ensures 500 <= m.waterIntake <= 3000
    ensures m.timestamp == now
  {
    var sleep := Uniform(6.0, 9.0, d.sleep);
    RoundWithin(sleep * 10.0, 60, 90);
    ServiceMetrics(
      RandInt(60, 100, d.heart),
      RandInt(95, 100, d.oxygen),
      RandInt(1000, 15000, d.steps),
      RandInt(300, 2500, d.calories),
      RoundTenth(sleep),
      RandInt(20, 80, d.stress),
      RandInt(500, 3000, d.water),
      now)
  }

  /** The two snapshot generators disagree on the oxygen floor: the
      service can report 95 %, which the front end's generator never
      produces, and its step count can exceed the front end's ceiling. */
  lemma ServiceAndClientRangesDiffer(hour: int)
    ensures var d := SnapshotDraws(0.0, 0.0, 0.99, 0.0, 0.0, 0.0, 0.0);
      GenerateServiceMetrics(d, "").bloodOxygen == 95
      && GenerateHealthMetrics(hour, d).bloodOxygen >= 96
      && GenerateServiceMetrics(d, "").steps > 9000
  {
    var d := SnapshotDraws(0.0, 0.0, 0.99, 0.0, 0.0, 0.0, 0.0);
    assert (0.99 * 14001.0).Floor == 13860;
  }

  /** One entry of the service's trend list. */
  datatype ServiceTrend = ServiceTrend(time: string, heartRate: int, bloodOxygen: int, steps: int, stressLevel: int)

  /** The query's default number of hours. */
  const DefaultHours: int := 24

  /** Entry i: labelled by its index, values from four randints. */
  function TrendEntry(i: nat, d: TrendDraw): (e: ServiceTrend)
    requires ValidTrendDraw(d)
    ensures e.time == HourLabel(i) && ParseHourLabel(e.time) == i
    ensures i < 100 ==> |e.time| == 5
    ensures 60 <= e.heartRate <= 120
    ensures 95 <= e.bloodOxygen <= 100
    ensures 0 <= e.steps <= 500
    ensures 20 <= e.stressLevel <= 80
  {
    HourLabelRoundTrip(i);
    ServiceTrend(HourLabel(i), RandInt(60, 120, d.heart), RandInt(95, 100, d.oxygen),
                 RandInt(0, 500, d.steps), RandInt(20, 80, d.stress))
  }

  /** get_health_trends: `hours` entries, or none when hours is not
      positive; entry i is built from the i-th group of draws. */
  method GetHealthTrends(hours: int, draws: seq<TrendDraw>) returns (trends: seq<ServiceTrend>)
    requires hours <= |draws|
    requires forall k :: 0 <= k < |draws| ==> ValidTrendDraw(draws[k])
    ensures |trends| == if hours > 0 then hours else 0
    ensures forall i :: 0 <= i < |trends| ==> trends[i] == TrendEntry(i, draws[i])
  {
    trends := [];
    var i := 0;
    while i < hours
      invariant 0 <= i <= |draws|
      invariant hours > 0 ==> i <= hours
      invariant hours <= 0 ==> i == 0
      invariant |trends| == i
      invariant forall k :: 0 <= k < i ==> trends[k] == TrendEntry(k, draws[k])
    {
      var entry := TrendEntry(i, draws[i]);
      trends := trends + [entry];
      i := i + 1;
    }
  }

  /** The labels count up from "00:00" by index and are not wrapped at 24:
      two entries of one list never share a label. */
  lemma TrendLabelsDistinct(i: nat, j: nat, d: TrendDraw, e: TrendDraw)
    requires ValidTrendDraw(d) && ValidTrendDraw(e)
    requires i != j
    ensures TrendEntry(i, d).time != TrendEntry(j, e).time
  {
  }

  /** get_health_alerts: the service's catalog of two. */
  const ServiceHydrationMessage := "Your water intake is below the recommended 2L daily goal."

  const ServiceAlerts: seq<Insight> := [
    Insight("1", Recommendation, "Hydration Reminder", ServiceHydrationMessage, "2 minutes ago", Medium),
    Insight("2", Achievement, "Sleep Goal Achieved!", SleepGoalMessage, "1 hour ago", Low)
  ]

  /** The service's catalog is the front end's first two insights, except
      that its hydration message stops after the first sentence. */
  lemma ServiceAlertsAgreeWithClient()
    ensures |ServiceAlerts| == 2 && ServiceAlerts[0].id == "1" && ServiceAlerts[1].id == "2"
    ensures ServiceAlerts[1] == GenerateAIInsights()[1]
    ensures ServiceAlerts[0] == GenerateAIInsights()[0].(message := ServiceHydrationMessage)
    ensures ServiceHydrationMessage < GenerateAIInsights()[0].message
  {
  }

  /** A JSON value as `request.get_json()` returns it. */
  datatype Json =
    | JNull
    | JBool(b: bool)
    | JNumber(n: real)
    | JString(s: string)
    | JArray(items: seq<Json>)
    | JObject(fields: map<string, Json>)

  /** Python's `in` is defined on the dict, list and str a JSON body can
      decode to; on None, a bool or a number it raises TypeError. */
  predicate SupportsIn(body: Json): (b: bool)
    ensures !b <==> body.JNull? || body.JBool? || body.JNumber?
  {
    body.JObject? || body.JArray? || body.JString?
  }

  /** `field in body`: a key of an object, an element of an array (only a
      string element can equal the field name), a substring of a string. */
  predicate Has(body: Json, field: string): (h: bool)
    requires SupportsIn(body)
    ensures body.JObject? ==> (h <==> field in body.fields)
    ensures body.JArray? && body.items == [] ==> !h
    ensures body.JString? && (field == "" || body.s == field) ==> h
  {
    assert body.JString? ==> Contains(body.s, "") && Contains(body.s, body.s) by {
      if body.JString? {
        ContainsEmpty(body.s);
        assert OccursAt(body.s, body.s, 0);
      }
    }
    match body
    case JObject(fields) => field in fields
    case JArray(items) => JString(field) in items
    case JString(s) => Contains(s, field)
  }

  /** The answer to a POST of metrics: the body echoed back, the first
      required field it lacks, or the TypeError that `in` raises on a body
      without membership, caught by the handler's `except`. */
  datatype SaveResponse = Saved(data: Json) | MissingField(field: string) | ServerError

  function StatusCode(r: SaveResponse): (code: int)
    ensures code == 200 <==> r.Saved?
    ensures code == 400 <==> r.MissingField?
    ensures code == 500 <==> r.ServerError?
  {
    match r
    case Saved(_) => 200
    case MissingField(_) => 400
    case ServerError => 500
  }

  /** The 400 answer's error text; the field reads back from it. */
  function ErrorMessage(r: SaveResponse): (s: string)
    requires r.MissingField?
    ensures |s| >= 24 && s[..24] == "Missing required field: "
    ensures s[24..] == r.field
  {
    "Missing required field: " + r.field
  }

  /** Different missing fields give different error texts. */
  lemma ErrorMessageInjective(a: string, b: string)
    ensures ErrorMessage(MissingField(a)) == ErrorMessage(MissingField(b)) <==> a == b
  {
    if ErrorMessage(MissingField(a)) == ErrorMessage(MissingField(b)) {
      assert a == ErrorMessage(MissingField(a))[24..];
    }
  }

  const RequiredFields: seq<string> := ["heartRate", "bloodOxygen", "steps"]

  /** The validation rule: walk the required fields in order and stop at
      the first one the body lacks; the first membership test on a body
      without `in` fails the request. */
  function Validate(required: seq<string>, body: Json): (r: SaveResponse)
    ensures r.ServerError? <==> |required| > 0 && !SupportsIn(body)
    ensures r.Saved? <==> (|required| == 0 || SupportsIn(body))
                          && (SupportsIn(body) ==> forall j :: 0 <= j < |required| ==> Has(body, required[j]))
    ensures r.Saved? ==> r.data == body
    ensures r.MissingField? ==> SupportsIn(body) && !Has(body, r.field)
    ensures r.MissingField? ==> exists k :: 0 <= k < |required| && required[k] == r.field
                                             && forall j :: 0 <= j < k ==> Has(body, required[j])
  {
    if |required| == 0 then Saved(body)
    else if !SupportsIn(body) then ServerError
    else if !Has(body, required[0]) then MissingField(required[0])
    else
      var r := Validate(required[1..], body);
      if r.MissingField? then
        var k :| 0 <= k < |required[1..]| && required[1..][k] == r.field
          && forall j :: 0 <= j < k ==> Has(body, required[1..][j]);
        assert required[k + 1] == r.field;
        r
      else r
  }

  /** save_health_metrics: the loop over the required fields with its early
      return, then the echo of the body. */
  method SaveHealthMetrics(data: Json) returns (r: SaveResponse)
    ensures r == Validate(RequiredFields, data)
  {
    var requiredFields := RequiredFields;
    var i := 0;
    while i < |requiredFields|
      invariant 0 <= i <= |requiredFields|
      invariant Validate(requiredFields[i..], data) == Validate(RequiredFields, data)
    {
      var field := requiredFields[i];
      if !SupportsIn(data) {
        return ServerError;
      }
      if !Has(data, field) {
        return MissingField(field);
      }
      assert requiredFields[i..][1..] == requiredFields[i + 1..];
      i := i + 1;
    }
    return Saved(data);
  }

  /** The fields are checked in their listed order: an object missing both
      heart rate and steps is refused for heart rate; one missing only
      steps is refused for steps; extra fields are accepted. */
  lemma SaveReportsFirstMissing(fields: map<string, Json>)
    ensures "heartRate" !in fields ==> Validate(RequiredFields, JObject(fields)) == MissingField("heartRate")
    ensures "heartRate" in fields && "bloodOxygen" in fields && "steps" !in fields
      ==> Validate(RequiredFields, JObject(fields)) == MissingField("steps")
    ensures Validate(RequiredFields, JObject(map["heartRate" := JNumber(72.0), "bloodOxygen" := JNumber(98.0),
      "steps" := JNumber(4000.0), "mood" := JNumber(3.0)])).Saved?
  {
    var full := JObject(map["heartRate" := JNumber(72.0), "bloodOxygen" := JNumber(98.0),
      "steps" := JNumber(4000.0), "mood" := JNumber(3.0)]);
    assert Has(full, RequiredFields[0]) && Has(full, RequiredFields[1]) && Has(full, RequiredFields[2]);
  }

  /** Bodies that are not objects: an array listing the three names and a
      string mentioning them are accepted and echoed, an array holding
      them only as numbers is refused, and a number or null fails with
      500. */
  lemma NonObjectBodies(n: real)
    ensures var names := JArray([JString("heartRate"), JString("bloodOxygen"), JString("steps")]);
      Validate(RequiredFields, names) == Saved(names)
    ensures var text := JString("heartRate bloodOxygen steps");
      Validate(RequiredFields, text) == Saved(text)
    ensures Validate(RequiredFields, JArray([JNumber(72.0)])) == MissingField("heartRate")
    ensures StatusCode(Validate(RequiredFields, JNumber(n))) == 500
    ensures StatusCode(Validate(RequiredFields, JNull)) == 500
  {
    var names := JArray([JString("heartRate"), JString("bloodOxygen"), JString("steps")]);
    assert names.items[0] == JString("heartRate") && names.items[1] == JString("bloodOxygen");
    assert names.items[2] == JString("steps");
    assert Has(names, RequiredFields[0]) && Has(names, RequiredFields[1]) && Has(names, RequiredFields[2]);
    var s := "heartRate bloodOxygen steps";
    assert OccursAt(s, "heartRate", 0) && OccursAt(s, "bloodOxygen", 10) && OccursAt(s, "steps", 22);
    assert Has(JString(s), RequiredFields[0]) && Has(JString(s), RequiredFields[1]);
    assert Has(JString(s), RequiredFields[2]);
  }
}
