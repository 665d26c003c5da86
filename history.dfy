/**
 * The history pipeline: normalization of a bulk `chart_data` payload into
 * named point series, and the synthetic 1 Hz sampler that derives one point
 * from each live payload while streaming is on.
 */
module History {

  import opened Payload

  /** One chart point: `x` is a timestamp in ms or the point's raw index. */
  datatype Point = Point(x: real, y: real)

  datatype Series = Series(name: Json, points: seq<Point>)

  /** A synthetic sample: epoch ms and a temperature per series name. */
  datatype HistoryPoint = HistoryPoint(x: int, temps: map<string, int>)

  // ---------------------------------------------------------------------
  // Bulk normalization
  // ---------------------------------------------------------------------

  /** The point made from raw entry `p` at index `i`, if any. A dict entry
      without `y` is dropped; a missing `x` falls back to the index. A bare
      number stands for `y` at its index. */
  function PointAt(i: nat, p: Json): (o: Option<Point>)
    ensures o.None? <==> p.JObj? && Get(p, "y", JNull) == JNull
    ensures o.Some? ==> o.value.y == Num(if p.JObj? then Get(p, "y", JNull) else p)
    ensures o.Some? && (!p.JObj? || Get(p, "x", JNull) == JNull) ==> o.value.x == i as real
  {
    if p.JObj? then
      var x := Get(p, "x", JNull);
      var y := Get(p, "y", JNull);
      if y == JNull then None
      else Some(Point(if x == JNull then i as real else Num(x), Num(y)))
    else
      Some(Point(i as real, Num(p)))
  }

  function Kept(o: Option<Point>): seq<Point>
  {
    match o
    case Some(pt) => [pt]
    case None => []
  }

  /** The points of a raw point list, in source order. */
  function PointsOf(raw: seq<Json>): seq<Point>
  {
    if raw == [] then []
    else
      var n := |raw| - 1;
      PointsOf(raw[..n]) + Kept(PointAt(n, raw[n]))
  }

  /** `dataset.get('data', [])` when it is a list. */
  function RawPoints(dataset: Json): seq<Json>
  {
    match Get(dataset, "data", JArr([]))
    case JArr(items) => items
    case _ => []
  }

  function SeriesFor(dataset: Json): Series
  {
    Series(Get(dataset, "label", JStr("Unknown")), PointsOf(RawPoints(dataset)))
  }

  /** One series per dict entry of `chart_data`, in order; other entries are skipped. */
  function SeriesOf(datasets: seq<Json>): seq<Series>
  {
    if datasets == [] then []
    else
      var n := |datasets| - 1;
      SeriesOf(datasets[..n]) + (if datasets[n].JObj? then [SeriesFor(datasets[n])] else [])
  }

  /** The `chart_data` list of a history response body (`body.get('data', body)`);
      any other shape yields no datasets. */
  function ChartData(body: Json): seq<Json>
  {
    var actual := Get(body, "data", body);
    match Get(actual, "chart_data", JNull)
    case JArr(datasets) => datasets
    case _ => []
  }

  function Normalized(body: Json): seq<Series>
  {
    SeriesOf(ChartData(body))
  }

  /** Normalizes a history response body into series, as the history branch of
      the response handler does with its two nested loops. */
  method NormalizeHistory(body: Json) returns (series: seq<Series>)
    ensures series == Normalized(body)
  {
    var datasets := ChartData(body);
    series := [];
    var d := 0;
    while d < |datasets|
      invariant 0 <= d <= |datasets|
      invariant series == SeriesOf(datasets[..d])
    {
      var dataset := datasets[d];
      assert datasets[..d + 1][..d] == datasets[..d];
      if dataset.JObj? {
        var name := Get(dataset, "label", JStr("Unknown"));
        var raw := RawPoints(dataset);
        var points := [];
        var i := 0;
        while i < |raw|
          invariant 0 <= i <= |raw|
          invariant points == PointsOf(raw[..i])
        {
          var p := raw[i];
          assert raw[..i + 1][..i] == raw[..i];
          if p.JObj? {
            var x := Get(p, "x", JNull);
            var y := Get(p, "y", JNull);
            var xVal := if x != JNull then Num(x) else i as real;
            if y != JNull {
              points := points + [Point(xVal, Num(y))];
            }
          } else {
            points := points + [Point(i as real, Num(p))];
          }
          i := i + 1;
        }
        assert raw[..|raw|] == raw;
        series := series + [Series(name, points)];
      }
      d := d + 1;
    }
    assert datasets[..|datasets|] == datasets;
  }

  /** Normalization keeps source order: the points of a prefix of the raw list
      are a prefix of the points of the whole list. */
  lemma {:induction false} PointsPrefix(raw: seq<Json>, i: nat)
    requires i <= |raw|
    ensures PointsOf(raw[..i]) <= PointsOf(raw)
    decreases |raw| - i
  {
    if i < |raw| {
      PointsPrefix(raw, i + 1);
      assert raw[..i + 1][..i] == raw[..i];
    } else {
      assert raw[..i] == raw;
    }
  }

  /** A kept raw point lands right after the points kept before it, with the
      value `PointAt` gives it; so output order is source order. */
  lemma PointsPosition(raw: seq<Json>, i: nat)
    requires i < |raw| && PointAt(i, raw[i]).Some?
    ensures |PointsOf(raw[..i])| < |PointsOf(raw)|
    ensures PointsOf(raw)[|PointsOf(raw[..i])|] == PointAt(i, raw[i]).value
  {
    PointsPrefix(raw, i + 1);
    assert raw[..i + 1][..i] == raw[..i];
  }

  /** A list with no dropped entries keeps one point per entry, at its index. */
  lemma {:induction false} PointsNoneDropped(raw: seq<Json>)
    requires forall i :: 0 <= i < |raw| ==> PointAt(i, raw[i]).Some?
    ensures |PointsOf(raw)| == |raw|
    ensures forall i :: 0 <= i < |raw| ==> PointsOf(raw)[i] == PointAt(i, raw[i]).value
  {
    if raw != [] {
      var n := |raw| - 1;
      var pre := raw[..n];
      forall i | 0 <= i < n
        ensures PointAt(i, pre[i]).Some?
      {
        assert pre[i] == raw[i];
      }
      PointsNoneDropped(pre);
      assert PointsOf(raw) == PointsOf(pre) + [PointAt(n, raw[n]).value];
      forall i | 0 <= i < |raw|
        ensures PointsOf(raw)[i] == PointAt(i, raw[i]).value
      {
        if i < n {
          assert pre[i] == raw[i];
        }
      }
    }
  }

  /** Dropped entries still count toward the index used for a missing `x`:
      `[{y:1}, {x:5}, {y:3}]` yields `(0,1)` and `(2,3)`. */
  lemma IndexCountsDropped()
    ensures PointsOf([JObj(map["y" := JNum(1.0)]), JObj(map["x" := JNum(5.0)]), JObj(map["y" := JNum(3.0)])])
      == [Point(0.0, 1.0), Point(2.0, 3.0)]
  {
    var raw := [JObj(map["y" := JNum(1.0)]), JObj(map["x" := JNum(5.0)]), JObj(map["y" := JNum(3.0)])];
    assert raw[..1][..0] == [];
    assert PointsOf(raw[..1]) == [Point(0.0, 1.0)];
    assert raw[..2][..1] == raw[..1];
    assert PointsOf(raw[..2]) == [Point(0.0, 1.0)];
  }

  /** The dict entries of `chart_data`, in order. */
  function Dicts(datasets: seq<Json>): seq<Json>
  {
    if datasets == [] then []
    else
      var n := |datasets| - 1;
      Dicts(datasets[..n]) + (if datasets[n].JObj? then [datasets[n]] else [])
  }

  /** The dict entries are exactly the entries that are dicts. */
  lemma {:induction false} DictsMember(datasets: seq<Json>)
    ensures forall d :: d in Dicts(datasets) <==> d in datasets && d.JObj?
  {
    if datasets != [] {
      var n := |datasets| - 1;
      DictsMember(datasets[..n]);
      assert datasets == datasets[..n] + [datasets[n]];
    }
  }

  /** Every dict entry of `chart_data` gives one series, in order, named by its
      label or "Unknown"; entries of any other kind give none. */
  lemma {:induction false} SeriesPerDataset(datasets: seq<Json>)
    ensures |SeriesOf(datasets)| == |Dicts(datasets)|
    ensures forall i :: 0 <= i < |Dicts(datasets)| ==>
      SeriesOf(datasets)[i].name == Get(Dicts(datasets)[i], "label", JStr("Unknown"))
      && SeriesOf(datasets)[i].points == PointsOf(RawPoints(Dicts(datasets)[i]))
  {
    if datasets != [] {
      var n := |datasets| - 1;
      var pre := datasets[..n];
      SeriesPerDataset(pre);
      var all := SeriesOf(datasets);
      var dicts := Dicts(datasets);
      assert all == SeriesOf(pre) + (if datasets[n].JObj? then [SeriesFor(datasets[n])] else []);
      assert dicts == Dicts(pre) + (if datasets[n].JObj? then [datasets[n]] else []);
      forall i | 0 <= i < |dicts|
        ensures all[i] == SeriesFor(dicts[i])
      {
        if i < |Dicts(pre)| {
          assert all[i] == SeriesOf(pre)[i] && dicts[i] == Dicts(pre)[i];
        }
      }
    }
  }

  /** A chart response with one "Grill" dataset, whose second point lacks `x`,
      gives one series with points (1000, 200) and (1, 210). */
  lemma GrillChartExample()
    ensures Normalized(JObj(map["data" := JObj(map["chart_data" := JArr([
        JObj(map["label" := JStr("Grill"), "data" := JArr([
          JObj(map["x" := JNum(1000.0), "y" := JNum(200.0)]),
          JObj(map["y" := JNum(210.0)])])])])])]))
      == [Series(JStr("Grill"), [Point(1000.0, 200.0), Point(1.0, 210.0)])]
  {
    var raw := [JObj(map["x" := JNum(1000.0), "y" := JNum(200.0)]), JObj(map["y" := JNum(210.0)])];
    assert raw[..1][..0] == [];
    assert PointsOf(raw) == [Point(1000.0, 200.0), Point(1.0, 210.0)];
  }

  // ---------------------------------------------------------------------
  // Synthetic 1 Hz sampler
  // ---------------------------------------------------------------------

  /** A sample is taken while streaming is on and at least one second has
      passed since the previous one. */
  predicate SampleDue(active: bool, lastMs: int, nowMs: int)
  {
    active && nowMs - lastMs >= 1000
  }

  /** The food-probe block `current.F` of a payload, as a map. */
  function FoodTemps(data: Json): map<string, Json>
  {
    match Get(Get(data, "current", EmptyObj), "F", EmptyObj)
    case JObj(f) => f
    case _ => map[]
  }

  /** The `Grill` reading of the raw `P` block, when there is one. */
  function GrillReading(data: Json): map<string, int>
  {
    var p := Get(Get(data, "current", EmptyObj), "P", EmptyObj);
    if Has(p, "Grill") then map["Grill" := IntOf(p.fields["Grill"])] else map[]
  }

  /** The readings of the food probes named in `names`. */
  function Readings(f: map<string, Json>, names: set<string>): map<string, int>
  {
    map k | k in names && k in f :: IntOf(f[k])
  }

  /** Every food probe's reading, unfiltered. */
  function FoodReadings(data: Json): map<string, int>
  {
    var f := FoodTemps(data);
    Readings(f, f.Keys)
  }

  /** The temperatures of a synthetic sample: `Grill` from the raw `P` block
      when present, `SetPoint` from the set point stored before this payload is
      parsed, then every `F` entry (an `F` key may overwrite the first two). */
  function SampleTemps(data: Json, storedSetPoint: int): (t: map<string, int>)
    ensures t.Keys == GrillReading(data).Keys + {"SetPoint"} + FoodTemps(data).Keys
    ensures forall k :: k in FoodTemps(data) ==> t[k] == IntOf(FoodTemps(data)[k])
    ensures "SetPoint" !in FoodTemps(data) ==> t["SetPoint"] == storedSetPoint
  {
    GrillReading(data)["SetPoint" := storedSetPoint] + FoodReadings(data)
  }

  /** Adding one probe's reading to an overlay of readings. */
  lemma ReadingsStep(base: map<string, int>, f: map<string, Json>, done: set<string>, name: string)
    requires name in f
    ensures (base + Readings(f, done))[name := IntOf(f[name])] == base + Readings(f, done + {name})
  {
  }

  /** Builds a sample's temperatures, walking the food probes one by one. */
  method CollectTemps(data: Json, storedSetPoint: int) returns (temps: map<string, int>)
    ensures temps == SampleTemps(data, storedSetPoint)
  {
    var p := Get(Get(data, "current", EmptyObj), "P", EmptyObj);
    temps := map[];
    if Has(p, "Grill") {
      temps := temps["Grill" := IntOf(p.fields["Grill"])];
    }
    temps := temps["SetPoint" := storedSetPoint];
    ghost var base := temps;
    assert base == GrillReading(data)["SetPoint" := storedSetPoint];
    var f := FoodTemps(data);
    var done: set<string> := {};
    assert Readings(f, done) == map[];
    while done != f.Keys
      invariant done <= f.Keys
      invariant temps == base + Readings(f, done)
      decreases |f.Keys - done|
    {
      var name :| name in f.Keys - done;
      ReadingsStep(base, f, done, name);
      temps := temps[name := IntOf(f[name])];
      done := done + {name};
    }
  }

  /** The times at which samples are emitted over a run of successful polls at
      `ticks` (ms), starting from a previous sample at `lastMs`. */
  function EmitTimes(lastMs: int, ticks: seq<int>): seq<int>
    decreases |ticks|
  {
    if ticks == [] then []
    else if SampleDue(true, lastMs, ticks[0]) then [ticks[0]] + EmitTimes(ticks[0], ticks[1..])
    else EmitTimes(lastMs, ticks[1..])
  }

  /** Emitted samples are at least one second apart, and the first is at least
      one second after the previous one: at most one sample per second. */
  lemma {:induction false} EmitTimesSpaced(lastMs: int, ticks: seq<int>)
    ensures var e := EmitTimes(lastMs, ticks);
      (e != [] ==> e[0] - lastMs >= 1000)
      && (forall i :: 0 <= i < |e| - 1 ==> e[i + 1] - e[i] >= 1000)
      && (forall t :: t in e ==> t in ticks)
    decreases |ticks|
  {
    if ticks != [] {
      if SampleDue(true, lastMs, ticks[0]) {
        EmitTimesSpaced(ticks[0], ticks[1..]);
      } else {
        EmitTimesSpaced(lastMs, ticks[1..]);
      }
    }
  }

  /** Polls 1.3 s apart each emit a sample once one second has passed; polls
      0.3 s apart emit only the first. */
  lemma SamplerPacing(t: int)
    ensures EmitTimes(t - 1000, [t, t + 1300]) == [t, t + 1300]
    ensures EmitTimes(t - 1000, [t, t + 300]) == [t]
  {
    assert [t, t + 1300][1..] == [t + 1300];
    assert [t, t + 300][1..] == [t + 300];
    assert EmitTimes(t, [t + 1300]) == [t + 1300] + EmitTimes(t + 1300, []);
    assert EmitTimes(t, [t + 300]) == EmitTimes(t, []);
  }
}
