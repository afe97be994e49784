/**
 * `src/lambdas/invoker/index.mjs`: the Lambda that invokes a benchmarked
 * function with `LogType: 'Tail'`, refuses a failed invocation, and returns
 * the function's own report stamped with the invoke's start and end times
 * and, when the log tail carries them, the peak memory and the init
 * duration.  `Date.now` is the `clock` stream; the outcome of
 * `aws.Lambda.Invoke` is the parameter `invoked`.
 */
module Invoker {
  import opened Wrappers
  import opened Js
  import opened Streams
  import opened Telemetry

  /** The fields the handler may add to the report. */
  const Added: set<string> := {"invokeStart", "invokeEnd", "peakMemory", "init"}

  /**
   * Field `key` of `after` is the `read` value when there is one, and
   * otherwise whatever `before` had there, present or absent.
   */
  predicate Merged(before: map<string, Value>, after: map<string, Value>, key: string, read: Option<Value>) {
    match read
    case Some(v) => key in after && after[key] == v
    case None => (key in after <==> key in before) && (key in before ==> after[key] == before[key])
  }

  /** Setting one of the added fields leaves every other field as it was. */
  lemma AddedOnly(fields: map<string, Value>, key: string, v: Value)
    requires key in Added
    ensures fields[key := v] - Added == fields - Added
  {
    assert forall k :: k in fields[key := v] - Added <==> k in fields - Added;
  }

  /** `handler({ FunctionName, name })`. */
  method Handler(invoked: Result<Invocation>, clock: Stream<int>) returns (r: Result<Value>)
    ensures invoked.Failure? ==> r == Failure(invoked.error)
    ensures invoked.Success? && Failed(invoked.value) == Success(true) ==> r == Failure(InvokeFailed)
    ensures r.Success? <==>
      && invoked.Success?
      && Failed(invoked.value) == Success(false)
      && Get(invoked.value.payload, "report").value.Obj?
    ensures r.Success? ==>
      var report := Get(invoked.value.payload, "report").value.fields;
      var log := invoked.value.logResult;
      && r.value.Obj?
      && r.value.fields - Added == report - Added
      && "invokeStart" in r.value.fields && r.value.fields["invokeStart"] == Num(At(clock, 0) as real)
      && "invokeEnd" in r.value.fields && r.value.fields["invokeEnd"] == Num(At(clock, 1) as real)
      && Merged(report, r.value.fields, "peakMemory", ReadNumber(log, MemoryMarker, MemoryUnit))
      && Merged(report, r.value.fields, "init", ReadNumber(log, InitMarker, InitUnit))
    ensures r.Success? && Monotone(clock) ==> r.value.fields["invokeStart"].n <= r.value.fields["invokeEnd"].n
  {
    UnitsArePlain();
    var invokeStart := At(clock, 0);
    var invoke :- invoked;
    var failed :- Failed(invoke);
    if failed {
      return Failure(InvokeFailed);
    }
    var run := Get(invoke.payload, "report").value;
    ghost var report := if run.Obj? then run.fields else map[];
    run :- Set(run, "invokeStart", Num(invokeStart as real));
    AddedOnly(report, "invokeStart", Num(invokeStart as real));
    var invokeEnd := At(clock, 1);
    ghost var stamped := run.fields;
    run := Set(run, "invokeEnd", Num(invokeEnd as real)).value;
    AddedOnly(stamped, "invokeEnd", Num(invokeEnd as real));
    var maxMem := ReadNumber(invoke.logResult, MemoryMarker, MemoryUnit);
    if maxMem.Some? {
      AddedOnly(run.fields, "peakMemory", maxMem.value);
      run := Set(run, "peakMemory", maxMem.value).value;
    }
    assert run.fields - Added == report - Added;
    var init := ReadNumber(invoke.logResult, InitMarker, InitUnit);
    if init.Some? {
      AddedOnly(run.fields, "init", init.value);
      run := Set(run, "init", init.value).value;
    }
    return Success(run);
  }
}
