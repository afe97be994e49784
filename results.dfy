/**
 * `bench/results.mjs`, the older statistics script: one `parseBenchRuns`
 * call per metric, each visiting the fixed target list `names` rather than
 * the keys of the collected reports, and storing records without a `p95`.
 */
module Results {
  import opened Wrappers
  import opened Ordering
  import opened Stats
  import opened Reports
  import Plugin

  /** The percentile ranks stored on each record: `p25`, `p50`, `p90`, `p99`. */
  const Ranks: set<nat> := {25, 50, 90, 99}

  /** The metrics, in the order the script computes them, with their `skipControl` flags. */
  const Metrics: seq<(string, Metric, bool)> := [
    ("coldstart", Field("coldstart"), false),
    ("totalTime", TotalTime, false),
    ("importDep", StepTime("importDep"), true),
    ("instantiate", StepTime("instantiate"), true),
    ("read", StepTime("read"), true),
    ("write", StepTime("write"), true),
    ("memory", Field("peakMemory"), false)
  ]

  /** The collected reports, keyed by target name. */
  type Collected = map<string, seq<Report>>

  const MissingTarget := Undefined + " (reading 'map')"

  /**
   * What a `parseBenchRuns` call stores, in the order of `names`: one record
   * per name except `control` when skipping, or the first failure; a name
   * with no reports in `results` fails.
   */
  function Stored(names: seq<string>, results: Collected, skipControl: bool, build: Builder)
    : Result<seq<(string, Summary)>>
  {
    if names == [] then Success([])
    else
      var acc :- Stored(names[..|names| - 1], results, skipControl, build);
      var name := names[|names| - 1];
      if !Kept(name, skipControl) then Success(acc)
      else if name !in results then Failure(MissingTarget)
      else
        var e :- build(results[name]);
        Success(acc + [(name, e)])
  }

  /**
   * `parseBenchRuns(acc, results, mapFn, skipControl)`: for each of `names`
   * in order, skip `control` when asked to and store the record built from
   * `results[name]`; the first name that fails aborts the call.
   */
  method ParseBenchRuns(results: Collected, mapFn: MapFn, skipControl: bool, le: Comparator, percentile: Percentile)
    returns (r: Result<seq<(string, Summary)>>)
    ensures r == Stored(Plugin.Names, results, skipControl, EntryOf(mapFn, le, Ranks, percentile))
  {
    var names := Plugin.Names;
    var build := EntryOf(mapFn, le, Ranks, percentile);
    var acc: seq<(string, Summary)> := [];
    var i := 0;
    while i < |names|
      invariant 0 <= i <= |names|
      invariant Stored(names[..i], results, skipControl, build) == Success(acc)
    {
      assert names[..i + 1][..i] == names[..i];
      var name := names[i];
      if Kept(name, skipControl) {
        if name !in results {
          StoredFailureSticks(names, results, skipControl, build, i + 1);
          return Failure(MissingTarget);
        }
        var e := build(results[name]);
        if e.Failure? {
          StoredFailureSticks(names, results, skipControl, build, i + 1);
          return Failure(e.error);
        }
        acc := acc + [(name, e.value)];
      }
      i := i + 1;
    }
    assert names[..|names|] == names;
    return Success(acc);
  }

  /** Once a prefix of the names fails, the whole call fails with that error. */
  lemma {:induction false} StoredFailureSticks(names: seq<string>, results: Collected, skipControl: bool, build: Builder, k: nat)
    requires k <= |names| && Stored(names[..k], results, skipControl, build).Failure?
    ensures Stored(names, results, skipControl, build) == Stored(names[..k], results, skipControl, build)
    decreases |names| - k
  {
    if k < |names| {
      assert names[..k + 1][..k] == names[..k];
      StoredFailureSticks(names, results, skipControl, build, k + 1);
    } else {
      assert names[..k] == names;
    }
  }

  /**
   * The call succeeds exactly when every kept name has reports in `results`
   * and its record can be built from them.
   */
  lemma {:induction false} StoredSucceedsIff(names: seq<string>, results: Collected, skipControl: bool, build: Builder)
    ensures Stored(names, results, skipControl, build).Success? <==>
      forall i :: 0 <= i < |names| && Kept(names[i], skipControl) ==>
        names[i] in results && build(results[names[i]]).Success?
  {
    if names != [] {
      var init := names[..|names| - 1];
      StoredSucceedsIff(init, results, skipControl, build);
      assert forall i :: 0 <= i < |init| ==> init[i] == names[i];
    }
  }

  /**
   * On success the call stores, in order, one record per kept name, and the
   * record under a name is the one built from that name's reports.
   */
  lemma {:induction false} StoredRecords(names: seq<string>, results: Collected, skipControl: bool, build: Builder)
    requires Stored(names, results, skipControl, build).Success?
    ensures var acc := Stored(names, results, skipControl, build).value;
      var kept := KeptNames(names, skipControl);
      && |acc| == |kept|
      && forall j :: 0 <= j < |acc| ==>
           && acc[j].0 == kept[j]
           && acc[j].0 in results
           && build(results[acc[j].0]) == Success(acc[j].1)
  {
    if names != [] {
      var n := |names|;
      var init := names[..n - 1];
      var last := names[n - 1];
      StoredSnoc(names, results, skipControl, build);
      StoredRecords(init, results, skipControl, build);
      KeptNamesSnoc(names, skipControl, n - 1);
      assert names[..n] == names;
      var prev := Stored(init, results, skipControl, build).value;
      var acc := Stored(names, results, skipControl, build).value;
      var kept := KeptNames(names, skipControl);
      var before := KeptNames(init, skipControl);
      forall j | 0 <= j < |acc|
        ensures acc[j].0 == kept[j] && acc[j].0 in results && build(results[acc[j].0]) == Success(acc[j].1)
      {
        if j < |prev| {
          assert acc[j] == prev[j] && kept[j] == before[j];
        } else {
          assert acc[j] == (last, build(results[last]).value) && kept[j] == last;
        }
      }
    }
  }

  /** A successful call over all the names extends the call over all but the last by at most the last name's record. */
  lemma StoredSnoc(names: seq<string>, results: Collected, skipControl: bool, build: Builder)
    requires names != [] && Stored(names, results, skipControl, build).Success?
    ensures var init := names[..|names| - 1];
      var last := names[|names| - 1];
      && Stored(init, results, skipControl, build).Success?
      && (Kept(last, skipControl) ==> last in results && build(results[last]).Success?)
      && Stored(names, results, skipControl, build).value
         == Stored(init, results, skipControl, build).value
            + (if Kept(last, skipControl) then [(last, build(results[last]).value)] else [])
  {
  }

  /** A call over the target list stores records for both SDK targets, and for `control` unless it skips it. */
  lemma KeptTargets()
    ensures KeptNames(Plugin.Names, true) == ["aws-lite-raw", "aws-sdk-v3-raw"]
    ensures KeptNames(Plugin.Names, false) == Plugin.Names
  {
    var n := Plugin.Names;
    KeptNamesSnoc(n, true, 0);
    KeptNamesSnoc(n, true, 1);
    KeptNamesSnoc(n, true, 2);
    assert n[..0] == [] && n[..3] == n;
  }

  /** A successful call stores records for both SDK targets, in order, and for `control` first unless it skips it. */
  lemma ParsedTargets(results: Collected, skipControl: bool, build: Builder)
    requires Stored(Plugin.Names, results, skipControl, build).Success?
    ensures var acc := Stored(Plugin.Names, results, skipControl, build).value;
      && |acc| == (if skipControl then 2 else 3)
      && (forall j :: 0 <= j < |acc| ==> acc[j].0 == (if skipControl then ["aws-lite-raw", "aws-sdk-v3-raw"] else Plugin.Names)[j])
  {
    StoredRecords(Plugin.Names, results, skipControl, build);
    KeptTargets();
  }

  /** Every record this script stores has exactly the ranks 25, 50, 90 and 99, and no `p95`. */
  lemma ParsedRecordRanks(results: Collected, mapFn: MapFn, skipControl: bool, le: Comparator, percentile: Percentile)
    requires Stored(Plugin.Names, results, skipControl, EntryOf(mapFn, le, Ranks, percentile)).Success?
    ensures var acc := Stored(Plugin.Names, results, skipControl, EntryOf(mapFn, le, Ranks, percentile)).value;
      forall j :: 0 <= j < |acc| ==> acc[j].1.percentiles.Keys == {25, 50, 90, 99} && 95 !in acc[j].1.percentiles
  {
    var build := EntryOf(mapFn, le, Ranks, percentile);
    StoredRecords(Plugin.Names, results, skipControl, build);
    var acc := Stored(Plugin.Names, results, skipControl, build).value;
    forall j | 0 <= j < |acc|
      ensures acc[j].1.percentiles.Keys == {25, 50, 90, 99} && 95 !in acc[j].1.percentiles
    {
      EntryOfRanks(results[acc[j].0], mapFn, le, Ranks, percentile);
    }
  }

  /** A target missing from the collected reports makes every call that does not skip it fail. */
  lemma MissingTargetFails(results: Collected, skipControl: bool, build: Builder, name: string)
    requires name in Plugin.Names && Kept(name, skipControl) && name !in results
    ensures Stored(Plugin.Names, results, skipControl, build).Failure?
  {
    StoredSucceedsIff(Plugin.Names, results, skipControl, build);
  }

  /** How a metric's call builds one target's record. */
  function Build(m: Metric, le: Comparator, percentile: Percentile): Builder {
    EntryOf(MapOf(m), le, Ranks, percentile)
  }

  /** Each metric's `parseBenchRuns` call result over `names`, under the metric's name. */
  function Calls(names: seq<string>, results: Collected, metrics: seq<(string, Metric, bool)>, le: Comparator, percentile: Percentile)
    : seq<(string, Result<seq<(string, Summary)>>)>
  {
    seq(|metrics|, k requires 0 <= k < |metrics| =>
      (metrics[k].0, Stored(names, results, metrics[k].2, Build(metrics[k].1, le, percentile))))
  }

  /** The records objects of `metrics`: one call per metric, in order, or the first call's throw. */
  function StoredAll(names: seq<string>, results: Collected, metrics: seq<(string, Metric, bool)>, le: Comparator, percentile: Percentile)
    : Result<seq<(string, seq<(string, Summary)>)>>
  {
    Collect(Calls(names, results, metrics, le, percentile))
  }

  /** The run succeeds exactly when every metric's call does, and then holds each call's records under its metric name. */
  lemma StoredAllPointwise(
    names: seq<string>, results: Collected, metrics: seq<(string, Metric, bool)>, le: Comparator, percentile: Percentile)
    ensures StoredAll(names, results, metrics, le, percentile).Success? <==>
      forall k :: 0 <= k < |metrics| ==>
        Stored(names, results, metrics[k].2, Build(metrics[k].1, le, percentile)).Success?
    ensures StoredAll(names, results, metrics, le, percentile).Success? ==>
      var r := StoredAll(names, results, metrics, le, percentile).value;
      && |r| == |metrics|
      && forall k :: 0 <= k < |metrics| ==>
           r[k] == (metrics[k].0, Stored(names, results, metrics[k].2, Build(metrics[k].1, le, percentile)).value)
  {
    var calls := Calls(names, results, metrics, le, percentile);
    CollectPointwise(calls);
    assert |calls| == |metrics|;
    assert forall k :: 0 <= k < |metrics| ==>
      calls[k] == (metrics[k].0, Stored(names, results, metrics[k].2, Build(metrics[k].1, le, percentile)));
  }

  /** Lines 11-30 of `parseResults`: the `parseBenchRuns` call of every metric, in order. */
  method ParseAll(results: Collected, le: Comparator, percentile: Percentile)
    returns (r: Result<seq<(string, seq<(string, Summary)>)>>)
    ensures r == StoredAll(Plugin.Names, results, Metrics, le, percentile)
  {
    var metrics := Metrics;
    ghost var calls := Calls(Plugin.Names, results, metrics, le, percentile);
    var parsed: seq<(string, seq<(string, Summary)>)> := [];
    var k := 0;
    while k < |metrics|
      invariant 0 <= k <= |metrics|
      invariant Collect(calls[..k]) == Success(parsed)
    {
      var (name, m, skip) := metrics[k];
      var acc := ParseBenchRuns(results, MapOf(m), skip, le, percentile);
      assert calls[k] == (name, acc);
      CollectSnoc(calls, k);
      if acc.Failure? {
        CollectFailureSticks(calls, k + 1);
        return Failure(acc.error);
      }
      parsed := parsed + [(name, acc.value)];
      k := k + 1;
    }
    assert calls[..k] == calls;
    return Success(parsed);
  }

  /**
   * The script needs reports for every target: the first call, `coldstart`,
   * does not skip `control`, so a missing target aborts the whole run.
   */
  lemma ParseAllNeedsEveryTarget(results: Collected, le: Comparator, percentile: Percentile, name: string)
    requires name in Plugin.Names && name !in results
    ensures StoredAll(Plugin.Names, results, Metrics, le, percentile).Failure?
  {
    assert Metrics[0].2 == false;
    StoredAllPointwise(Plugin.Names, results, Metrics, le, percentile);
    MissingTargetFails(results, false, Build(Metrics[0].1, le, percentile), name);
  }

  /** On success every stored record of every metric lacks a `p95`. */
  lemma ParseAllHasNoP95(results: Collected, le: Comparator, percentile: Percentile)
    requires StoredAll(Plugin.Names, results, Metrics, le, percentile).Success?
    ensures var parsed := StoredAll(Plugin.Names, results, Metrics, le, percentile).value;
      forall k, j :: 0 <= k < |parsed| && 0 <= j < |parsed[k].1| ==> 95 !in parsed[k].1[j].1.percentiles
  {
    var parsed := StoredAll(Plugin.Names, results, Metrics, le, percentile).value;
    StoredAllPointwise(Plugin.Names, results, Metrics, le, percentile);
    forall k | 0 <= k < |parsed| ensures forall j :: 0 <= j < |parsed[k].1| ==> 95 !in parsed[k].1[j].1.percentiles {
      ParsedRecordRanks(results, MapOf(Metrics[k].1), Metrics[k].2, le, percentile);
    }
  }
}
