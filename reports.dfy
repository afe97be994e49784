/**
 * The per-invocation report records that the statistics read, and the
 * per-sample extractors (`mapFn`) that turn one record into one number.
 * Both statistics scripts, `bench/parse-results.mjs` and
 * `bench/results.mjs`, extract with these and reduce with `Stats.Summarize`.
 */
module Reports {
  import opened Wrappers
  import opened Ordering
  import opened Stats

  /**
   * A step record as `recordEnd` leaves it (only the fields the statistics
   * read).  A `time` of `None` is an absent property; a `timeStart` or
   * `timeEnd` of `None` is a null one, which JavaScript subtraction reads as 0.
   */
  datatype Step = Step(time: Option<int>, timeStart: Option<int>, timeEnd: Option<int>)

  /** One report: its numeric top-level fields by name, and its step records by name. */
  datatype Report = Report(fields: map<string, int>, steps: map<string, Step>)

  /** The shapes of the `mapFn` lambdas. */
  datatype Metric =
    | Field(name: string)                  // `({ init }) => init`, `({ peakMemory }) => peakMemory`
    | Coldstart                            // `(end - invokeStart) - init - (end - start)`
    | StepTime(step: string)               // `({ readS3 }) => readS3.time`
    | Span(first: string, last: string)    // `last.timeEnd - first.timeStart`
    | Elapsed(from: string, to: string)    // `({ start, end }) => end - start`
    | TotalTime                            // `coldstart + (end - start)`

  const Undefined := "TypeError: cannot read properties of undefined"

  /** The top-level fields and step records a metric reads. */
  function NeededFields(m: Metric): set<string> {
    match m
    case Field(name) => {name}
    case Coldstart => {"invokeStart", "init", "start", "end"}
    case StepTime(_) => {}
    case Span(_, _) => {}
    case Elapsed(from, to) => {from, to}
    case TotalTime => {"coldstart", "start", "end"}
  }

  predicate Readable(m: Metric, r: Report) {
    && NeededFields(m) <= r.fields.Keys
    && match m
       case StepTime(step) => step in r.steps && r.steps[step].time.Some?
       case Span(first, last) => first in r.steps && last in r.steps
       case _ => true
  }

  /** A null time stamp in a subtraction: JavaScript converts it to 0. */
  function NullAsZero(stamp: Option<int>): int {
    if stamp.Some? then stamp.value else 0
  }

  /**
   * One sample of a metric.  A record the metric cannot read (a missing step
   * record, a missing number or a missing step time) fails; null stamps of a
   * span count as 0.
   */
  function Extract(m: Metric, r: Report): (v: Result<int>)
    ensures v.Success? <==> Readable(m, r)
    ensures m == Coldstart && v.Success? ==>
      v.value == r.fields["start"] - r.fields["invokeStart"] - r.fields["init"]
    ensures m.Span? && v.Success? && r.steps[m.first].timeStart.None? ==>
      v.value == NullAsZero(r.steps[m.last].timeEnd)
  {
    if !(NeededFields(m) <= r.fields.Keys) then Failure(Undefined)
    else match m
      case Field(name) => Success(r.fields[name])
      case Coldstart =>
        var duration := r.fields["end"] - r.fields["invokeStart"];
        var execution := r.fields["end"] - r.fields["start"];
        Success(duration - r.fields["init"] - execution)
      case StepTime(step) =>
        if step in r.steps && r.steps[step].time.Some? then Success(r.steps[step].time.value)
        else Failure(Undefined + " (reading 'time')")
      case Span(first, last) =>
        if last !in r.steps then Failure(Undefined + " (reading 'timeEnd')")
        else if first !in r.steps then Failure(Undefined + " (reading 'timeStart')")
        else Success(NullAsZero(r.steps[last].timeEnd) - NullAsZero(r.steps[first].timeStart))
      case Elapsed(from, to) => Success(r.fields[to] - r.fields[from])
      case TotalTime => Success(r.fields["coldstart"] + (r.fields["end"] - r.fields["start"]))
  }

  /** A `mapFn` argument of `parseBenchRuns`, such as `r => Extract(m, r)`; a failure is a throw. */
  type MapFn = Report -> Result<int>

  /** The `mapFn` of a metric's `parseBenchRuns` call. */
  function MapOf(m: Metric): MapFn {
    r => Extract(m, r)
  }

  /** `results[name].map(mapFn)`: one sample per report, in order; the first failing report fails. */
  function MapSamples(reports: seq<Report>, mapFn: MapFn): (r: Result<seq<int>>)
    ensures r.Success? <==> forall i :: 0 <= i < |reports| ==> mapFn(reports[i]).Success?
    ensures r.Success? ==>
      && |r.value| == |reports|
      && forall i :: 0 <= i < |reports| ==> r.value[i] == mapFn(reports[i]).value
  {
    if reports == [] then Success([])
    else
      var first := mapFn(reports[0]);
      if first.Failure? then Failure(first.error)
      else
        var rest := MapSamples(reports[1..], mapFn);
        if rest.Failure? then
          assert exists i :: 0 <= i < |reports[1..]| && mapFn(reports[1..][i]).Failure?;
          Failure(rest.error)
        else
          var r := [first.value] + rest.value;
          assert forall i :: 1 <= i < |reports| ==> r[i] == rest.value[i - 1] && reports[i] == reports[1..][i - 1];
          Success(r)
  }

  /** The record `parseBenchRuns` stores under one target name. */
  function Entry(reports: seq<Report>, mapFn: MapFn, le: Comparator, ranks: set<nat>, percentile: Percentile): (r: Result<Summary>)
    ensures r.Success? <==> |reports| > 0 && forall i :: 0 <= i < |reports| ==> mapFn(reports[i]).Success?
    ensures r.Success? ==> r.value.percentiles.Keys == ranks
  {
    var samples :- MapSamples(reports, mapFn);
    Summarize(samples, le, ranks, percentile)
  }

  /** How one target's record is built from its reports. */
  type Builder = seq<Report> -> Result<Summary>

  /** The record builder of a `parseBenchRuns(acc, results, mapFn)` call. */
  function EntryOf(mapFn: MapFn, le: Comparator, ranks: set<nat>, percentile: Percentile): Builder {
    reports => Entry(reports, mapFn, le, ranks, percentile)
  }

  /** A record built by `EntryOf` carries exactly the requested percentile ranks. */
  lemma EntryOfRanks(reports: seq<Report>, mapFn: MapFn, le: Comparator, ranks: set<nat>, percentile: Percentile)
    requires EntryOf(mapFn, le, ranks, percentile)(reports).Success?
    ensures EntryOf(mapFn, le, ranks, percentile)(reports).value.percentiles.Keys == ranks
  {
  }

  /**
   * With a numeric comparator, a target's record has mean and variance of
   * its samples and min and max are their numeric extremes.
   */
  lemma EntryStatistics(reports: seq<Report>, mapFn: MapFn, ranks: set<nat>, percentile: Percentile)
    requires |reports| > 0 && forall i :: 0 <= i < |reports| ==> mapFn(reports[i]).Success?
    ensures var samples := MapSamples(reports, mapFn).value;
      var e := Entry(reports, mapFn, NumericLe, ranks, percentile).value;
      && |samples| == |reports|
      && e.mean == Mean(samples) && e.variance == Variance(samples)
      && e.min in samples && e.max in samples
      && (forall x | x in samples :: e.min <= x <= e.max)
  {
    NumericExtremes(MapSamples(reports, mapFn).value, ranks, percentile);
  }

  // ---------------------------------------------------------------------
  // Which names a `parseBenchRuns` call fills

  /** `name === 'control' && skipControl` is the one name a call skips. */
  predicate Kept(name: string, skipControl: bool) {
    !(name == "control" && skipControl)
  }

  /** The names of `names`, in order, that a call stores a record for. */
  function KeptNames(names: seq<string>, skipControl: bool): (r: seq<string>)
    ensures !skipControl ==> r == names
  {
    if names == [] then []
    else
      var init := names[..|names| - 1];
      var last := names[|names| - 1];
      assert names == init + [last];
      KeptNames(init, skipControl) + (if Kept(last, skipControl) then [last] else [])
  }

  /** The kept names are the names other than a skipped `control`. */
  lemma {:induction false} KeptNamesMembers(names: seq<string>, skipControl: bool)
    ensures forall x :: x in KeptNames(names, skipControl) <==> x in names && Kept(x, skipControl)
  {
    if names != [] {
      var init := names[..|names| - 1];
      KeptNamesMembers(init, skipControl);
      assert names == init + [names[|names| - 1]];
    }
  }

  lemma KeptNamesSnoc(names: seq<string>, skipControl: bool, i: nat)
    requires i < |names|
    ensures KeptNames(names[..i + 1], skipControl)
         == KeptNames(names[..i], skipControl) + (if Kept(names[i], skipControl) then [names[i]] else [])
  {
    assert names[..i + 1][..i] == names[..i];
  }

  /**
   * The records objects of a script run (`coldstart`, `init`, ...): each
   * metric's call result under the metric's name, in order, or the first
   * call's throw.
   */
  function Collect<T>(calls: seq<(string, Result<T>)>): Result<seq<(string, T)>> {
    if calls == [] then Success([])
    else
      var done :- Collect(calls[..|calls| - 1]);
      var (name, call) := calls[|calls| - 1];
      var v :- call;
      Success(done + [(name, v)])
  }

  /** A run succeeds exactly when every call does, and then keeps every call's value under its name, in order. */
  lemma {:induction false} CollectPointwise<T>(calls: seq<(string, Result<T>)>)
    ensures Collect(calls).Success? <==> forall k :: 0 <= k < |calls| ==> calls[k].1.Success?
    ensures Collect(calls).Success? ==>
      && |Collect(calls).value| == |calls|
      && forall k :: 0 <= k < |calls| ==> Collect(calls).value[k] == (calls[k].0, calls[k].1.value)
  {
    if calls != [] {
      var init := calls[..|calls| - 1];
      CollectPointwise(init);
      assert forall k :: 0 <= k < |init| ==> init[k] == calls[k];
    }
  }

  /** Running one more call appends its value, or throws its error. */
  lemma CollectSnoc<T>(calls: seq<(string, Result<T>)>, k: nat)
    requires k < |calls| && Collect(calls[..k]).Success?
    ensures Collect(calls[..k + 1]) ==
      if calls[k].1.Failure? then Failure(calls[k].1.error)
      else Success(Collect(calls[..k]).value + [(calls[k].0, calls[k].1.value)])
  {
    assert calls[..k + 1][..k] == calls[..k];
  }

  /** Once a call throws, the run throws with that error. */
  lemma {:induction false} CollectFailureSticks<T>(calls: seq<(string, Result<T>)>, k: nat)
    requires k <= |calls| && Collect(calls[..k]).Failure?
    ensures Collect(calls) == Collect(calls[..k])
    decreases |calls| - k
  {
    if k < |calls| {
      assert calls[..k + 1][..k] == calls[..k];
      CollectFailureSticks(calls, k + 1);
    } else {
      assert calls[..k] == calls;
    }
  }
}
