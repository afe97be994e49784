/**
 * `bench/parse-results.mjs`: one `parseBenchRuns` call per metric over the
 * collected reports (`results`, keyed by target name), and the reduction of
 * the parsed records to the chart data.
 */
module ParseResults {
  import opened Wrappers
  import opened Ordering
  import opened Stats
  import opened Reports

  /** The percentile ranks stored on each record: `p25`, `p50`, `p90`, `p95`, `p99`. */
  const Ranks: set<nat> := {25, 50, 90, 95, 99}

  /**
   * The metrics, in the order of the `parsed` object, each with its
   * extractor and whether its call skips `control`.
   */
  const Metrics: seq<(string, Metric, bool)> := [
    ("coldstart", Coldstart, false),
    ("init", Field("init"), false),
    ("importDynamoDB", StepTime("importDynamoDB"), true),
    ("instantiateDynamoDB", StepTime("instantiateDynamoDB"), true),
    ("readDynamoDB", StepTime("readDynamoDB"), true),
    ("writeDynamoDB", StepTime("writeDynamoDB"), true),
    ("executionTimeDynamoDB", Span("importDynamoDB", "writeDynamoDB"), true),
    ("importS3", StepTime("importS3"), true),
    ("instantiateS3", StepTime("instantiateS3"), true),
    ("readS3", StepTime("readS3"), true),
    ("writeS3", StepTime("writeS3"), true),
    ("executionTimeS3", Span("importS3", "writeS3"), true),
    ("importIAM", StepTime("importIAM"), true),
    ("instantiateIAM", StepTime("instantiateIAM"), true),
    ("readIAM", StepTime("readIAM"), true),
    ("writeIAM", StepTime("writeIAM"), true),
    ("executionTimeIAM", Span("importIAM", "writeIAM"), true),
    ("importCloudFormation", StepTime("importCloudFormation"), true),
    ("instantiateCloudFormation", StepTime("instantiateCloudFormation"), true),
    ("readCloudFormation", StepTime("readCloudFormation"), true),
    ("writeCloudFormation", StepTime("writeCloudFormation"), true),
    ("executionTimeCloudFormation", Span("importCloudFormation", "writeCloudFormation"), true),
    ("importLambda", StepTime("importLambda"), true),
    ("instantiateLambda", StepTime("instantiateLambda"), true),
    ("readLambda", StepTime("readLambda"), true),
    ("writeLambda", StepTime("writeLambda"), true),
    ("executionTimeLambda", Span("importLambda", "writeLambda"), true),
    ("memory", Field("peakMemory"), false),
    ("executionTimeAll", Elapsed("start", "end"), false),
    ("totalTimeAll", Elapsed("invokeStart", "end"), false)
  ]

  /** The collected reports, keyed by target name in `Object.keys` order. */
  type Results = seq<(string, seq<Report>)>

  function Keys(results: Results): (r: seq<string>)
    ensures |r| == |results| && forall i :: 0 <= i < |results| ==> r[i] == results[i].0
  {
    seq(|results|, i requires 0 <= i < |results| => results[i].0)
  }

  /**
   * What a `parseBenchRuns` call stores, in key order: one record per target
   * except `control` when skipping, or the first failure.
   */
  function Parsed(results: Results, skipControl: bool, build: Builder): Result<seq<(string, Summary)>> {
    if results == [] then Success([])
    else
      var acc :- Parsed(results[..|results| - 1], skipControl, build);
      var (name, reports) := results[|results| - 1];
      if !Kept(name, skipControl) then Success(acc)
      else
        var e :- build(reports);
        Success(acc + [(name, e)])
  }

  /**
   * `parseBenchRuns(acc, results, mapFn, skipControl)`: visit the keys of
   * `results` in order, skip `control` when asked to, and store each
   * target's record; the first record that cannot be built aborts the call.
   */
  method ParseBenchRuns(results: Results, mapFn: MapFn, skipControl: bool, le: Comparator, percentile: Percentile)
    returns (r: Result<seq<(string, Summary)>>)
    ensures r == Parsed(results, skipControl, EntryOf(mapFn, le, Ranks, percentile))
  {
    var build := EntryOf(mapFn, le, Ranks, percentile);
    var acc: seq<(string, Summary)> := [];
    var i := 0;
    while i < |results|
      invariant 0 <= i <= |results|
      invariant Parsed(results[..i], skipControl, build) == Success(acc)
    {
      assert results[..i + 1][..i] == results[..i];
      var (name, reports) := results[i];
      if Kept(name, skipControl) {
        var e := build(reports);
        if e.Failure? {
          ParsedFailureSticks(results, skipControl, build, i + 1);
          return Failure(e.error);
        }
        acc := acc + [(name, e.value)];
      }
      i := i + 1;
    }
    assert results[..|results|] == results;
    return Success(acc);
  }

  /** Once a prefix of the keys fails, the whole call fails with that error. */
  lemma {:induction false} ParsedFailureSticks(results: Results, skipControl: bool, build: Builder, k: nat)
    requires k <= |results| && Parsed(results[..k], skipControl, build).Failure?
    ensures Parsed(results, skipControl, build) == Parsed(results[..k], skipControl, build)
    decreases |results| - k
  {
    if k < |results| {
      assert results[..k + 1][..k] == results[..k];
      ParsedFailureSticks(results, skipControl, build, k + 1);
    } else {
      assert results[..k] == results;
    }
  }

  /** The call succeeds exactly when every kept target's record can be built. */
  lemma {:induction false} ParsedSucceedsIff(
    results: Results, skipControl: bool, build: Builder)
    ensures Parsed(results, skipControl, build).Success? <==>
      forall i :: 0 <= i < |results| && Kept(results[i].0, skipControl) ==>
        build(results[i].1).Success?
  {
    if results != [] {
      var init := results[..|results| - 1];
      ParsedSucceedsIff(init, skipControl, build);
      assert forall i :: 0 <= i < |init| ==> init[i] == results[i];
    }
  }

  /** Some key `name` of `results` has reports from which `build` makes `record`. */
  ghost predicate BuiltFrom(results: Results, build: Builder, name: string, record: Summary) {
    exists i :: 0 <= i < |results| && results[i].0 == name && build(results[i].1) == Success(record)
  }

  lemma KeptKeysSnoc(results: Results, skipControl: bool)
    requires results != []
    ensures var last := results[|results| - 1].0;
      KeptNames(Keys(results), skipControl)
      == KeptNames(Keys(results[..|results| - 1]), skipControl) + (if Kept(last, skipControl) then [last] else [])
  {
    assert Keys(results)[..|results| - 1] == Keys(results[..|results| - 1]);
  }

  /** A successful call extends the records of all but the last key by at most the last key's record. */
  lemma ParsedSnoc(results: Results, skipControl: bool, build: Builder)
    requires results != [] && Parsed(results, skipControl, build).Success?
    ensures var init := results[..|results| - 1];
      var last := results[|results| - 1];
      && Parsed(init, skipControl, build).Success?
      && (Kept(last.0, skipControl) ==> build(last.1).Success?)
      && Parsed(results, skipControl, build).value
         == Parsed(init, skipControl, build).value
            + (if Kept(last.0, skipControl) then [(last.0, build(last.1).value)] else [])
  {
  }

  lemma BuiltFromPrefix(results: Results, build: Builder, k: nat, name: string, record: Summary)
    requires k <= |results| && BuiltFrom(results[..k], build, name, record)
    ensures BuiltFrom(results, build, name, record)
  {
    var i :| 0 <= i < k && results[..k][i].0 == name && build(results[..k][i].1) == Success(record);
    assert results[i] == results[..k][i];
  }

  /** On success the call stores one record per kept key, in key order. */
  lemma {:induction false} ParsedOrder(results: Results, skipControl: bool, build: Builder)
    requires Parsed(results, skipControl, build).Success?
    ensures var acc := Parsed(results, skipControl, build).value;
      && |acc| == |KeptNames(Keys(results), skipControl)|
      && forall j :: 0 <= j < |acc| ==> acc[j].0 == KeptNames(Keys(results), skipControl)[j]
  {
    if results != [] {
      var init := results[..|results| - 1];
      ParsedSnoc(results, skipControl, build);
      ParsedOrder(init, skipControl, build);
      KeptKeysSnoc(results, skipControl);
      var acc := Parsed(results, skipControl, build).value;
      var prev := Parsed(init, skipControl, build).value;
      var names := KeptNames(Keys(results), skipControl);
      var before := KeptNames(Keys(init), skipControl);
      forall j | 0 <= j < |acc| ensures acc[j].0 == names[j] {
        if j < |prev| {
          assert acc[j] == prev[j] && names[j] == before[j];
        }
      }
    }
  }

  /** On success the record stored under a name is the one built from that name's reports. */
  lemma {:induction false} ParsedRecords(results: Results, skipControl: bool, build: Builder)
    requires Parsed(results, skipControl, build).Success?
    ensures var acc := Parsed(results, skipControl, build).value;
      forall j :: 0 <= j < |acc| ==> BuiltFrom(results, build, acc[j].0, acc[j].1)
  {
    if results != [] {
      var n := |results|;
      var init := results[..n - 1];
      ParsedSnoc(results, skipControl, build);
      var acc := Parsed(results, skipControl, build).value;
      var prev := Parsed(init, skipControl, build).value;
      ParsedRecords(init, skipControl, build);
      forall j | 0 <= j < |acc| ensures BuiltFrom(results, build, acc[j].0, acc[j].1) {
        if j < |prev| {
          assert acc[j] == prev[j];
          BuiltFromPrefix(results, build, n - 1, acc[j].0, acc[j].1);
        } else {
          assert results[n - 1].0 == acc[j].0;
        }
      }
    }
  }

  /** A call that skips `control` stores no record for it; one that does not skip stores one per key. */
  lemma ParsedNames(results: Results, skipControl: bool, build: Builder)
    requires Parsed(results, skipControl, build).Success?
    ensures var acc := Parsed(results, skipControl, build).value;
      && (skipControl ==> forall j :: 0 <= j < |acc| ==> acc[j].0 != "control")
      && (!skipControl ==> |acc| == |results| && forall j :: 0 <= j < |acc| ==> acc[j].0 == results[j].0)
  {
    ParsedOrder(results, skipControl, build);
    var acc := Parsed(results, skipControl, build).value;
    KeptNamesMembers(Keys(results), skipControl);
    forall j | 0 <= j < |acc| && skipControl ensures acc[j].0 != "control" {
      assert acc[j].0 in KeptNames(Keys(results), skipControl);
    }
  }

  /** `Number(b.p95)`: the 95th percentile of a record. */
  function P95(s: Summary): int
    requires 95 in s.percentiles
  {
    s.percentiles[95]
  }

  /**
   * The chart values of one metric: the `p95` of each target's record, in
   * order; for `memory`, less the `p95` of control's memory record
   * (`memory.control`), which fails when there is none.
   */
  function Series(metric: string, values: seq<(string, Summary)>, control: Option<Summary>): (r: Result<seq<int>>)
    requires forall i :: 0 <= i < |values| ==> 95 in values[i].1.percentiles
    requires control.Some? ==> 95 in control.value.percentiles
    ensures r.Failure? <==> metric == "memory" && |values| > 0 && control.None?
    ensures r.Success? ==> |r.value| == |values|
    ensures r.Success? && metric != "memory" ==>
      forall i :: 0 <= i < |values| ==> r.value[i] == P95(values[i].1)
    ensures r.Success? && metric == "memory" && |values| > 0 ==>
      forall i :: 0 <= i < |values| ==> r.value[i] + P95(control.value) == P95(values[i].1)
    ensures r.Success? && metric == "memory" ==>
      forall i :: 0 <= i < |values| && values[i] == ("control", control.value) ==> r.value[i] == 0
  {
    if metric == "memory" && |values| > 0 && control.None? then Failure(Undefined + " (reading 'p95')")
    else if metric == "memory" && |values| > 0 then
      Success(seq(|values|, i requires 0 <= i < |values| => P95(values[i].1) - P95(control.value)))
    else
      Success(seq(|values|, i requires 0 <= i < |values| => P95(values[i].1)))
  }

  /** One `forEach` step of lines 178-187: the `reduce` over one metric's records. */
  method ChartSeries(metric: string, values: seq<(string, Summary)>, control: Option<Summary>)
    returns (r: Result<seq<int>>)
    requires forall i :: 0 <= i < |values| ==> 95 in values[i].1.percentiles
    requires control.Some? ==> 95 in control.value.percentiles
    ensures r == Series(metric, values, control)
  {
    var a: seq<int> := [];
    var i := 0;
    while i < |values|
      invariant 0 <= i <= |values|
      invariant |a| == i
      invariant i > 0 && metric == "memory" ==> control.Some?
      invariant metric != "memory" ==> forall j :: 0 <= j < i ==> a[j] == P95(values[j].1)
      invariant metric == "memory" ==>
        forall j :: 0 <= j < i ==> a[j] + P95(control.value) == P95(values[j].1)
    {
      var num;
      if metric == "memory" {
        if control.None? {
          return Failure(Undefined + " (reading 'p95')");
        }
        num := P95(values[i].1) - P95(control.value);
      } else {
        num := P95(values[i].1);
      }
      a := a + [num];
      i := i + 1;
    }
    ghost var expected := Series(metric, values, control);
    assert expected.Success? && |expected.value| == |a|;
    assert forall j :: 0 <= j < |a| ==> expected.value[j] == a[j];
    assert expected.value == a;
    return Success(a);
  }

  // ---------------------------------------------------------------------
  // The body of `parseResults`

  /** How a metric's call builds one target's record. */
  function Build(m: Metric, le: Comparator, percentile: Percentile): Builder {
    EntryOf(MapOf(m), le, Ranks, percentile)
  }

  /** Each metric's `parseBenchRuns` call result, under the metric's name. */
  function Calls(results: Results, metrics: seq<(string, Metric, bool)>, le: Comparator, percentile: Percentile)
    : seq<(string, Result<seq<(string, Summary)>>)>
  {
    seq(|metrics|, k requires 0 <= k < |metrics| =>
      (metrics[k].0, Parsed(results, metrics[k].2, Build(metrics[k].1, le, percentile))))
  }

  /** The `parsed` object: one call per metric, in order, or the first call's throw. */
  function ParsedAll(results: Results, metrics: seq<(string, Metric, bool)>, le: Comparator, percentile: Percentile)
    : Result<seq<(string, seq<(string, Summary)>)>>
  {
    Collect(Calls(results, metrics, le, percentile))
  }

  /**
   * `parsed` exists exactly when every metric's call succeeds, and then holds
   * each call's records under its metric's name, in metric order.
   */
  lemma ParsedAllPointwise(results: Results, metrics: seq<(string, Metric, bool)>, le: Comparator, percentile: Percentile)
    ensures ParsedAll(results, metrics, le, percentile).Success? <==>
      forall k :: 0 <= k < |metrics| ==> Parsed(results, metrics[k].2, Build(metrics[k].1, le, percentile)).Success?
    ensures ParsedAll(results, metrics, le, percentile).Success? ==>
      var r := ParsedAll(results, metrics, le, percentile).value;
      && |r| == |metrics|
      && forall k :: 0 <= k < |metrics| ==>
           r[k] == (metrics[k].0, Parsed(results, metrics[k].2, Build(metrics[k].1, le, percentile)).value)
  {
    var calls := Calls(results, metrics, le, percentile);
    CollectPointwise(calls);
    assert |calls| == |metrics|;
    assert forall k :: 0 <= k < |metrics| ==>
      calls[k] == (metrics[k].0, Parsed(results, metrics[k].2, Build(metrics[k].1, le, percentile)));
  }

  /** `o[name]` for an object filled by assignments in order: the last value stored under `name`. */
  function Under<T>(entries: seq<(string, T)>, name: string): (r: Option<T>)
    ensures r.Some? ==> exists i :: 0 <= i < |entries| && entries[i] == (name, r.value)
  {
    if entries == [] then None
    else if entries[|entries| - 1].0 == name then Some(entries[|entries| - 1].1)
    else
      var r := Under(entries[..|entries| - 1], name);
      if r.Some? then
        ghost var i :| 0 <= i < |entries| - 1 && entries[..|entries| - 1][i] == (name, r.value);
        assert entries[i] == (name, r.value);
        r
      else r
  }

  /** Every record of every metric has a `p95`. */
  ghost predicate Graphable(parsed: seq<(string, seq<(string, Summary)>)>) {
    forall k, j :: 0 <= k < |parsed| && 0 <= j < |parsed[k].1| ==> 95 in parsed[k].1[j].1.percentiles
  }

  /** `data`: the series of every metric, in the order of `parsed`, or the first throw. */
  function Charts(parsed: seq<(string, seq<(string, Summary)>)>, control: Option<Summary>)
    : (r: Result<seq<(string, seq<int>)>>)
    requires Graphable(parsed)
    requires control.Some? ==> 95 in control.value.percentiles
    ensures r.Success? ==>
      && |r.value| == |parsed|
      && forall k :: 0 <= k < |parsed| ==> r.value[k].0 == parsed[k].0 && |r.value[k].1| == |parsed[k].1|
  {
    if parsed == [] then Success([])
    else
      var init := parsed[..|parsed| - 1];
      assert forall k :: 0 <= k < |init| ==> init[k] == parsed[k];
      var done :- Charts(init, control);
      var (name, values) := parsed[|parsed| - 1];
      assert forall i :: 0 <= i < |values| ==> values[i] == parsed[|parsed| - 1].1[i];
      var series :- Series(name, values, control);
      Success(done + [(name, series)])
  }

  /** On success every record a call stores has exactly the ranks 25, 50, 90, 95 and 99. */
  lemma ParsedRanks(results: Results, skipControl: bool, m: Metric, le: Comparator, percentile: Percentile)
    requires Parsed(results, skipControl, Build(m, le, percentile)).Success?
    ensures var acc := Parsed(results, skipControl, Build(m, le, percentile)).value;
      forall j :: 0 <= j < |acc| ==> acc[j].1.percentiles.Keys == Ranks
  {
    var build := Build(m, le, percentile);
    ParsedRecords(results, skipControl, build);
    var acc := Parsed(results, skipControl, build).value;
    forall j | 0 <= j < |acc| ensures acc[j].1.percentiles.Keys == Ranks {
      var i :| 0 <= i < |results| && results[i].0 == acc[j].0 && build(results[i].1) == Success(acc[j].1);
      EntryOfRanks(results[i].1, MapOf(m), le, Ranks, percentile);
    }
  }

  lemma ParsedAllGraphable(results: Results, metrics: seq<(string, Metric, bool)>, le: Comparator, percentile: Percentile)
    requires ParsedAll(results, metrics, le, percentile).Success?
    ensures Graphable(ParsedAll(results, metrics, le, percentile).value)
  {
    var parsed := ParsedAll(results, metrics, le, percentile).value;
    ParsedAllPointwise(results, metrics, le, percentile);
    forall k | 0 <= k < |parsed| ensures forall j :: 0 <= j < |parsed[k].1| ==> 95 in parsed[k].1[j].1.percentiles {
      ParsedRanks(results, metrics[k].2, metrics[k].1, le, percentile);
    }
  }

  /** `memory.control`: control's record in the `memory` metric's records, if there is one. */
  function ControlMemory(parsed: seq<(string, seq<(string, Summary)>)>): (r: Option<Summary>)
    requires Graphable(parsed)
    ensures r.Some? ==> 95 in r.value.percentiles
  {
    var memory := Under(parsed, "memory");
    if memory.None? then None
    else
      var k :| 0 <= k < |parsed| && parsed[k] == ("memory", memory.value);
      var control := Under(memory.value, "control");
      if control.None? then None
      else
        var j :| 0 <= j < |memory.value| && memory.value[j] == ("control", control.value);
        assert parsed[k].1[j] == memory.value[j];
        control
  }

  /**
   * The chart data `parseResults` computes from the collected reports: every
   * metric parsed in order, then `results.control.length`, which throws
   * when no `control` reports were collected, then one series per metric.
   */
  function Charted(results: Results, le: Comparator, percentile: Percentile): (r: Result<seq<(string, seq<int>)>>)
    ensures r.Success? ==> "control" in Keys(results)
    ensures r.Success? ==>
      && |r.value| == |Metrics|
      && forall k :: 0 <= k < |Metrics| ==>
           && r.value[k].0 == Metrics[k].0
           && |r.value[k].1| == |KeptNames(Keys(results), Metrics[k].2)|
  {
    var parsed :- ParsedAll(results, Metrics, le, percentile);
    if "control" !in Keys(results) then Failure(Undefined + " (reading 'length')")
    else
      ParsedAllGraphable(results, Metrics, le, percentile);
      ParsedAllPointwise(results, Metrics, le, percentile);
      var data :- Charts(parsed, ControlMemory(parsed));
      assert forall k :: 0 <= k < |Metrics| ==>
        |data[k].1| == |KeptNames(Keys(results), Metrics[k].2)| by {
        forall k | 0 <= k < |Metrics|
          ensures |data[k].1| == |KeptNames(Keys(results), Metrics[k].2)|
        {
          ParsedOrder(results, Metrics[k].2, Build(Metrics[k].1, le, percentile));
        }
      }
      Success(data)
  }

  /**
   * Lines 20-187 of `parseResults`: run every metric's `parseBenchRuns` call
   * in order, read the number of runs from `results.control`, and reduce
   * the parsed records to the chart data.
   */
  method ChartData(results: Results, le: Comparator, percentile: Percentile) returns (r: Result<seq<(string, seq<int>)>>)
    ensures r == Charted(results, le, percentile)
  {
    var parsed := ParseAll(results, Metrics, le, percentile);
    if parsed.Failure? {
      return Failure(parsed.error);
    }
    if "control" !in Keys(results) {
      return Failure(Undefined + " (reading 'length')");
    }
    ParsedAllGraphable(results, Metrics, le, percentile);
    r := ChartAll(parsed.value, ControlMemory(parsed.value));
  }

  /** Lines 20-161: the `parseBenchRuns` calls of `metrics`, in order, collected into `parsed`. */
  method ParseAll(results: Results, metrics: seq<(string, Metric, bool)>, le: Comparator, percentile: Percentile)
    returns (r: Result<seq<(string, seq<(string, Summary)>)>>)
    ensures r == ParsedAll(results, metrics, le, percentile)
  {
    ghost var calls := Calls(results, metrics, le, percentile);
    var parsed: seq<(string, seq<(string, Summary)>)> := [];
    var k := 0;
    while k < |metrics|
      invariant 0 <= k <= |metrics|
      invariant Collect(calls[..k]) == Success(parsed)
    {
      var (name, m, skip) := metrics[k];
      var acc := ParseBenchRuns(results, MapOf(m), skip, le, percentile);
      assert calls[k] == (name, acc);
      CollectSnoc(calls, k);
      if acc.Failure? {
        CollectFailureSticks(calls, k + 1);
        return Failure(acc.error);
      }
      parsed := parsed + [(name, acc.value)];
      k := k + 1;
    }
    assert calls[..k] == calls;
    return Success(parsed);
  }

  /** Lines 177-187: one series per metric, in the order of `parsed`. */
  method ChartAll(parsed: seq<(string, seq<(string, Summary)>)>, control: Option<Summary>)
    returns (r: Result<seq<(string, seq<int>)>>)
    requires Graphable(parsed)
    requires control.Some? ==> 95 in control.value.percentiles
    ensures r == Charts(parsed, control)
  {
    var data: seq<(string, seq<int>)> := [];
    var i := 0;
    while i < |parsed|
      invariant 0 <= i <= |parsed|
      invariant Charts(parsed[..i], control) == Success(data)
    {
      assert parsed[..i + 1][..i] == parsed[..i];
      var (name, values) := parsed[i];
      var series := ChartSeries(name, values, control);
      if series.Failure? {
        ChartsFailureSticks(parsed, control, i + 1);
        return Failure(series.error);
      }
      data := data + [(name, series.value)];
      i := i + 1;
    }
    assert parsed[..i] == parsed;
    return Success(data);
  }

  lemma {:induction false} ChartsFailureSticks(parsed: seq<(string, seq<(string, Summary)>)>, control: Option<Summary>, k: nat)
    requires Graphable(parsed) && (control.Some? ==> 95 in control.value.percentiles)
    requires k <= |parsed| && Graphable(parsed[..k]) && Charts(parsed[..k], control).Failure?
    ensures Charts(parsed, control) == Charts(parsed[..k], control)
    decreases |parsed| - k
  {
    if k < |parsed| {
      assert parsed[..k + 1][..k] == parsed[..k];
      ChartsFailureSticks(parsed, control, k + 1);
    } else {
      assert parsed[..k] == parsed;
    }
  }
}
