/** `main`: one task per (api, city) pair, each reporting into one shared
    `Data` collector, then the figures the report prints. The tasks run on a
    single asyncio event loop and no collector method awaits, so each update
    is atomic and the tasks are modelled as a sequential nested loop. */
module Dispatch {
  import opened Python
  import opened Json
  import opened Collector
  import opened Providers
  import opened Average

  /** The figures `main` computes at the end of a run. They are printed
      only when `averageTemp` is not `Raised(e)`: otherwise
      `calculate_average_temp` raises before the first `print`. */
  datatype Report = Report(
    citiesParticipated: nat,
    citiesFailed: nat,
    citiesCounted: nat,
    averageTemp: AverageResult)

  /** The `apis` list `main` dispatches over. */
  const MAIN_APIS: seq<Provider> := [OpenWeatherMap]

  /** `payloads[i][j]` is the decoded response the i-th api returns for the
      j-th city. */
  predicate WellShaped(apis: seq<Provider>, cities: seq<string>, payloads: seq<seq<Json>>) {
    |payloads| == |apis| && forall i :: 0 <= i < |payloads| ==> |payloads[i]| == |cities|
  }

  /** The collector updates made by one api's tasks, one per city, in order. */
  function RowUpdates(api: Provider, cities: seq<string>, row: seq<Json>, env: Env): (us: seq<Update>)
    requires |row| == |cities|
    ensures |us| == |cities|
    decreases |cities|
  {
    if cities == [] then []
    else
      var n := |cities| - 1;
      RowUpdates(api, cities[..n], row[..n], env) + [Extract(NewAdapter(api, cities[n], env), row[n])]
  }

  /** The collector updates made by all tasks, api by api. */
  function TaskUpdates(apis: seq<Provider>, cities: seq<string>, payloads: seq<seq<Json>>, env: Env): (us: seq<Update>)
    requires WellShaped(apis, cities, payloads)
    ensures |us| == |apis| * |cities|
    decreases |apis|
  {
    if apis == [] then []
    else
      var n := |apis| - 1;
      var before := TaskUpdates(apis[..n], cities, payloads[..n], env);
      assert |before| + |cities| == |apis| * |cities| by {
        assert |apis| * |cities| == n * |cities| + |cities|;
      }
      before + RowUpdates(apis[n], cities, payloads[n], env)
  }

  /** The figures printed from the collector's final state. */
  function Summarize(s: CollectorState, participants: nat, parseFloat: string -> Option<real>): Report {
    Report(participants, s.failedCitiesCounter, |s.data|,
           AverageTempAsWritten(s.data, s.failedCitiesCounter, parseFloat))
  }

  /** One task: `collect_temperature` once the response has arrived. It
      makes exactly one collector update, the one `Extract` decides. */
  method CollectTemperature(a: Adapter, payload: Json, collector: Data)
    modifies collector
    ensures collector.State() == Apply(old(collector.State()), Extract(a, payload))
  {
    match Extract(a, payload)
    case Append(temp) => collector.AppendData(temp);
    case Failure(_) => collector.RecordFailedCity(a.city);
  }

  lemma ApplyAllSnoc(s: CollectorState, us: seq<Update>, u: Update)
    ensures ApplyAll(s, us + [u]) == Apply(ApplyAll(s, us), u)
  {
    assert (us + [u])[..|us|] == us;
  }

  /** The inner `for city in cities` loop for one api. */
  method DispatchRow(api: Provider, cities: seq<string>, row: seq<Json>, env: Env, collector: Data)
    requires |row| == |cities|
    modifies collector
    ensures collector.State() == ApplyAll(old(collector.State()), RowUpdates(api, cities, row, env))
  {
    ghost var start := collector.State();
    var j := 0;
    while j < |cities|
      invariant 0 <= j <= |cities|
      invariant collector.State() == ApplyAll(start, RowUpdates(api, cities[..j], row[..j], env))
    {
      ghost var done := RowUpdates(api, cities[..j], row[..j], env);
      var adapter := NewAdapter(api, cities[j], env);
      ghost var u := Extract(adapter, row[j]);
      CollectTemperature(adapter, row[j], collector);
      RowUpdatesStep(api, cities, row, env, j);
      ApplyAllSnoc(start, done, u);
      j := j + 1;
    }
    assert cities[..j] == cities && row[..j] == row;
  }

  lemma RowUpdatesStep(api: Provider, cities: seq<string>, row: seq<Json>, env: Env, j: nat)
    requires |row| == |cities| && j < |cities|
    ensures RowUpdates(api, cities[..j + 1], row[..j + 1], env)
      == RowUpdates(api, cities[..j], row[..j], env) + [Extract(NewAdapter(api, cities[j], env), row[j])]
  {
    assert cities[..j + 1][..j] == cities[..j];
    assert row[..j + 1][..j] == row[..j];
  }

  /** The outer `for api in apis` loop. */
  method DispatchAll(apis: seq<Provider>, cities: seq<string>, payloads: seq<seq<Json>>, env: Env, collector: Data)
    requires WellShaped(apis, cities, payloads)
    modifies collector
    ensures collector.State() == ApplyAll(old(collector.State()), TaskUpdates(apis, cities, payloads, env))
  {
    ghost var start := collector.State();
    var i := 0;
    while i < |apis|
      invariant 0 <= i <= |apis|
      invariant WellShaped(apis[..i], cities, payloads[..i])
      invariant collector.State() == ApplyAll(start, TaskUpdates(apis[..i], cities, payloads[..i], env))
    {
      ghost var done := TaskUpdates(apis[..i], cities, payloads[..i], env);
      DispatchRow(apis[i], cities, payloads[i], env, collector);
      TaskUpdatesStep(apis, cities, payloads, env, i);
      ApplyAllConcat(start, done, RowUpdates(apis[i], cities, payloads[i], env));
      i := i + 1;
    }
    assert apis[..i] == apis && payloads[..i] == payloads;
  }

  lemma TaskUpdatesStep(apis: seq<Provider>, cities: seq<string>, payloads: seq<seq<Json>>, env: Env, i: nat)
    requires WellShaped(apis, cities, payloads) && i < |apis|
    ensures WellShaped(apis[..i], cities, payloads[..i])
    ensures WellShaped(apis[..i + 1], cities, payloads[..i + 1])
    ensures TaskUpdates(apis[..i + 1], cities, payloads[..i + 1], env)
      == TaskUpdates(apis[..i], cities, payloads[..i], env) + RowUpdates(apis[i], cities, payloads[i], env)
  {
    assert apis[..i + 1][..i] == apis[..i];
    assert payloads[..i + 1][..i] == payloads[..i];
  }

  /** `main` with every task reporting: the collector starts empty, every
      (api, city) task makes its one update, and the report is computed from
      the final state. Every task is accounted for exactly once. */
  method Run(apis: seq<Provider>, cities: seq<string>, payloads: seq<seq<Json>>, env: Env,
             parseFloat: string -> Option<real>)
    returns (report: Report)
    requires WellShaped(apis, cities, payloads)
    ensures report.citiesCounted + report.citiesFailed == |apis| * |cities|
    ensures report.citiesParticipated == |cities|
    ensures report == Summarize(ApplyAll(Empty(), TaskUpdates(apis, cities, payloads, env)), |cities|, parseFloat)
  {
    var collector := new Data();
    DispatchAll(apis, cities, payloads, env, collector);
    var citiesFailed := collector.failedCitiesCounter;
    var data := collector.GetData();
    var averageTemp := CalculateAverageTemp(data, collector.failedCitiesCounter, parseFloat);
    report := Report(|cities|, citiesFailed, |data|, averageTemp);
  }

  /** The report does not depend on the order in which the tasks report, as
      long as every collected reading converts with `float()`. */
  lemma ReportOrderIndependent(us: seq<Update>, vs: seq<Update>, participants: nat,
                               parseFloat: string -> Option<real>)
    requires multiset(us) == multiset(vs)
    requires Convertible(ApplyAll(Empty(), us).data, parseFloat)
    ensures Summarize(ApplyAll(Empty(), us), participants, parseFloat)
         == Summarize(ApplyAll(Empty(), vs), participants, parseFloat)
  {
    var a := ApplyAll(Empty(), us);
    var b := ApplyAll(Empty(), vs);
    ApplyAllOrderIndependent(Empty(), us, vs);
    assert |a.data| == |multiset(a.data)| == |multiset(b.data)| == |b.data|;
    AverageOrderIndependent(a.data, b.data, a.failedCitiesCounter, parseFloat);
  }

  /** One OpenWeatherMap task whose "main" object lacks "temp": the run as
      written appends `None`, counts the city as a success, and then
      `calculate_average_temp` raises `TypeError` instead of reporting. */
  lemma MissingTempCrashesReport(city: string, env: Env, parseFloat: string -> Option<real>)
    ensures var s := ApplyAll(Empty(), TaskUpdates(MAIN_APIS, [city], [[JObject(map["main" := JObject(map[])])]], env));
      && s.data == [JNull]
      && Summarize(s, 1, parseFloat).averageTemp == Raised(TypeError)
  {
    var payloads := [[JObject(map["main" := JObject(map[])])]];
    MissingTempIsAppendedAsNone(city, env);
    assert TaskUpdates(MAIN_APIS, [city], payloads, env) == [Append(JNull)] by {
      assert MAIN_APIS[..0] == [];
      assert [city][..0] == [];
      assert payloads[0][..0] == [];
    }
    assert [Append(JNull)][..0] == [];
    NoneReadingRaises(0, parseFloat);
  }

  lemma {:induction false} AppendedComeFromAppends(us: seq<Update>)
    ensures forall t :: t in Appended(us) ==> Append(t) in us
    decreases |us|
  {
    if us != [] {
      var init := us[..|us| - 1];
      AppendedComeFromAppends(init);
      forall t | t in Appended(us) ensures Append(t) in us {
        if t in Appended(init) {
          assert Append(t) in init;
        }
      }
    }
  }

  /** With updates from `ExtractStrict`, whose appends carry only numbers,
      the corrected mean never raises: it is the sentinel or a value. */
  lemma StrictUpdatesNeverRaise(us: seq<Update>, parseFloat: string -> Option<real>)
    requires forall j :: 0 <= j < |us| && us[j].Append? ==> us[j].temp.JNumber?
    ensures !MeanTemp(ApplyAll(Empty(), us).data, parseFloat).Raised?
    ensures Convertible(ApplyAll(Empty(), us).data, parseFloat)
  {
    ApplyAllContents(Empty(), us);
    AppendedComeFromAppends(us);
    var data := ApplyAll(Empty(), us).data;
    assert data == Appended(us);
    forall v | v in data ensures ToFloat(v, parseFloat).Ok? {
      assert Append(v) in us;
    }
    TotalOkIffConvertible(data, parseFloat);
  }
}
