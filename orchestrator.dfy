/**
 * `bench/index.mjs`: the older orchestrator.  It makes sure the dummy row
 * exists, then for `runs` rounds benchmarks every target once: bump the
 * target's configuration so that its next invocation is a cold start, wait
 * for the update, invoke it with the log tail, and keep the report with its
 * end time, peak memory and cold-start duration.  Any failure of a sample
 * is caught and the sample dropped.  The AWS calls, `Date.now` and
 * `new Date().toISOString()` are the inputs of an `Attempt`, one per round
 * and target.
 */
module Orchestrator {
  import opened Wrappers
  import opened Js
  import opened Streams
  import opened Ordering
  import opened Telemetry
  import opened Fixtures
  import Plugin

  /** `const runs = 10`. */
  const Runs: nat := 10

  // ---------------------------------------------------------------------
  // `updateAndWait` and `waitFor`

  /** What the outside world answers while one target is sampled. */
  datatype Attempt = Attempt(
    config: Result<Value>,             // the first `GetFunctionConfiguration`
    stamp: string,                     // `new Date().toISOString()`
    updated: Result<()>,               // `UpdateFunctionConfiguration`
    probes: Stream<Result<Value>>,     // the `GetFunctionConfiguration` calls of `waitFor`, in order
    invoked: Result<Invocation>,       // `Invoke`
    end: int)                          // `Date.now()` after the invoke

  /** `{ ...v }` for the variables object: its own fields, or none when it is `undefined` or `null`. */
  function Spread(v: Value): map<string, Value> {
    if v.Obj? then v.fields else map[]
  }

  /**
   * `{ Variables: { ...config.Environment.Variables, UPDATED: stamp } }`:
   * every existing variable is kept, and `UPDATED` is added or overwritten.
   */
  function UpdatedEnvironment(config: Value, stamp: string): (r: Result<Value>)
    ensures r.Success? <==> (
      && config != Undefined && config != Null
      && Get(config, "Environment").value != Undefined && Get(config, "Environment").value != Null)
    ensures r.Success? ==>
      var before := Spread(Get(Get(config, "Environment").value, "Variables").value);
      && r.value.Obj? && r.value.fields.Keys == {"Variables"}
      && r.value.fields["Variables"].Obj?
      && r.value.fields["Variables"].fields.Keys == before.Keys + {"UPDATED"}
      && r.value.fields["Variables"].fields["UPDATED"] == Str(stamp)
      && forall k :: k in before && k != "UPDATED" ==> r.value.fields["Variables"].fields[k] == before[k]
  {
    var environment :- Get(config, "Environment");
    var variables :- Get(environment, "Variables");
    Success(Obj(map["Variables" := Obj(Spread(variables)["UPDATED" := Str(stamp)])]))
  }

  /** `LastUpdateStatus` of probe `k`, or what that probe throws. */
  function Status(probes: Stream<Result<Value>>, k: nat): Result<Value> {
    var config :- At(probes, k);
    Get(config, "LastUpdateStatus")
  }

  /** Probe `k` throws or reports a status other than `Successful`. */
  predicate Pending(probes: Stream<Result<Value>>, k: nat) {
    Status(probes, k) != Success(Str("Successful"))
  }

  /** Every probe before the `n`-th said something other than `Successful`. */
  predicate PendingBefore(probes: Stream<Result<Value>>, n: nat) {
    forall k :: 0 <= k < n ==> Status(probes, k).Success? && Pending(probes, k)
  }

  lemma PendingExtends(probes: Stream<Result<Value>>, n: nat)
    requires PendingBefore(probes, n) && Status(probes, n).Success? && Pending(probes, n)
    ensures PendingBefore(probes, n + 1)
  {
  }

  function TimedOut(name: string): string {
    "Lambda did not successfully update after " + NatString(31) + " tries: " + name
  }

  /** `waitFor({ aws, FunctionName: name, tries })`. */
  function Waited(name: string, probes: Stream<Result<Value>>, tries: nat): Result<()>
    requires tries <= 31
    decreases 31 - tries
  {
    var status :- Status(probes, tries);
    if status == Str("Successful") then Success(())
    else if tries <= 30 then Waited(name, probes, tries + 1)
    else Failure("Lambda did not successfully update after " + NatString(tries) + " tries: " + name)
  }

  /**
   * The poll loop: at most 32 probes; it stops at the first probe that
   * throws or says `Successful`, and after 32 pending probes it gives up
   * saying 31 tries.
   */
  method WaitFor(name: string, probes: Stream<Result<Value>>) returns (r: Result<()>, count: nat)
    ensures r == Waited(name, probes, 0)
    ensures 1 <= count <= 32
    ensures forall k :: 0 <= k < count - 1 ==> Status(probes, k).Success? && Pending(probes, k)
    ensures r.Success? <==> !Pending(probes, count - 1)
    ensures Status(probes, count - 1).Failure? ==> r == Failure(Status(probes, count - 1).error)
    ensures Status(probes, count - 1).Success? && Pending(probes, count - 1) ==> count == 32 && r == Failure(TimedOut(name))
  {
    var tries := 0;
    while true
      invariant 0 <= tries <= 31
      invariant Waited(name, probes, 0) == Waited(name, probes, tries)
      invariant PendingBefore(probes, tries)
      decreases 31 - tries
    {
      var status := Status(probes, tries);
      if status.Failure? {
        return Failure(status.error), tries + 1;
      }
      if status.value == Str("Successful") {
        return Success(()), tries + 1;
      }
      if tries > 30 {
        return Failure("Lambda did not successfully update after " + NatString(tries) + " tries: " + name), tries + 1;
      }
      WaitedStep(name, probes, tries);
      PendingExtends(probes, tries);
      tries := tries + 1;
    }
  }

  /** A pending probe before the last one hands over to the next. */
  lemma WaitedStep(name: string, probes: Stream<Result<Value>>, tries: nat)
    requires tries <= 30 && Status(probes, tries).Success? && Pending(probes, tries)
    ensures Waited(name, probes, tries) == Waited(name, probes, tries + 1)
  {
  }

  /** `updateAndWait({ aws, FunctionName: name })`. */
  function Updated(name: string, a: Attempt): Result<()> {
    var config :- a.config;
    var environment :- UpdatedEnvironment(config, a.stamp);
    var _ :- a.updated;
    Waited(name, a.probes, 0)
  }

  /** The update waits for a probe that says `Successful`, within 32 probes, and needs every call before it to succeed. */
  lemma {:induction false} UpdatedNeedsSuccessfulProbe(name: string, a: Attempt)
    requires Updated(name, a).Success?
    ensures a.config.Success? && UpdatedEnvironment(a.config.value, a.stamp).Success? && a.updated.Success?
    ensures exists k :: 0 <= k < 32 && !Pending(a.probes, k) && forall j :: 0 <= j < k ==> Pending(a.probes, j)
  {
    WaitedFindsSuccessful(name, a.probes, 0);
  }

  lemma {:induction false} WaitedFindsSuccessful(name: string, probes: Stream<Result<Value>>, tries: nat)
    requires tries <= 31 && Waited(name, probes, tries).Success?
    requires forall j :: 0 <= j < tries ==> Pending(probes, j)
    ensures exists k :: tries <= k < 32 && !Pending(probes, k) && forall j :: 0 <= j < k ==> Pending(probes, j)
    decreases 31 - tries
  {
    if Pending(probes, tries) {
      WaitedFindsSuccessful(name, probes, tries + 1);
    }
  }

  // ---------------------------------------------------------------------
  // One sample: the `bench` closure

  function PeakMemoryMissing(name: string): string {
    "Peak memory not found: " + name
  }

  function StillWarm(name: string): string {
    "Coldstart not detected, Lambda is warm: " + name
  }

  /** What `bench` pushes for `name`, or what it catches. */
  function Sampled(name: string, a: Attempt): Result<Value> {
    UnitsArePlain();
    var _ :- Updated(name, a);
    var invoke :- a.invoked;
    var failed :- Failed(invoke);
    if failed then Failure(InvokeFailed)
    else
      var run :- Set(Get(invoke.payload, "report").value, "end", Num(a.end as real));
      var maxMem := ReadNumber(invoke.logResult, MemoryMarker, MemoryUnit);
      if maxMem.None? then Failure(PeakMemoryMissing(name))
      else
        var coldstart := ReadNumber(invoke.logResult, InitMarker, InitUnit);
        if coldstart.None? then Failure(StillWarm(name))
        else Success(Obj(run.fields["peakMemory" := maxMem.value]["coldstart" := coldstart.value]))
  }

  /**
   * A sample is kept only when the update went through, the invoke did not
   * fail, and the log tail holds both the peak memory and the init
   * duration; it is the function's report with `end`, `peakMemory` and
   * `coldstart` set and every other field as the function reported it.
   */
  lemma SampleNeedsBothMarkers(name: string, a: Attempt)
    requires Sampled(name, a).Success?
    ensures Updated(name, a).Success? && a.invoked.Success?
    ensures Failed(a.invoked.value) == Success(false)
    ensures (exists q :: 0 <= q <= |a.invoked.value.logResult| && Matches(a.invoked.value.logResult, q, MemoryMarker, MemoryUnit))
    ensures (exists q :: 0 <= q <= |a.invoked.value.logResult| && Matches(a.invoked.value.logResult, q, InitMarker, InitUnit))
    ensures var report := Get(a.invoked.value.payload, "report").value;
      var sample := Sampled(name, a).value;
      && report.Obj? && sample.Obj?
      && sample.fields.Keys == report.fields.Keys + {"end", "peakMemory", "coldstart"}
      && sample.fields["end"] == Num(a.end as real)
      && sample.fields["peakMemory"] == ReadNumber(a.invoked.value.logResult, MemoryMarker, MemoryUnit).value
      && sample.fields["coldstart"] == ReadNumber(a.invoked.value.logResult, InitMarker, InitUnit).value
      && forall k :: k in report.fields && k !in {"end", "peakMemory", "coldstart"} ==> sample.fields[k] == report.fields[k]
  {
    UnitsArePlain();
    var invoke := a.invoked.value;
    var report := Get(invoke.payload, "report").value;
    var memory := ReadNumber(invoke.logResult, MemoryMarker, MemoryUnit).value;
    var init := ReadNumber(invoke.logResult, InitMarker, InitUnit).value;
    var fields := report.fields["end" := Num(a.end as real)]["peakMemory" := memory]["coldstart" := init];
    assert Sampled(name, a) == Success(Obj(fields));
    assert fields.Keys == report.fields.Keys + {"end", "peakMemory", "coldstart"};
  }

  /** A warm function, one whose log tail has no init duration, never yields a sample. */
  lemma WarmIsDropped(name: string, a: Attempt)
    requires a.invoked.Success?
    requires forall q :: 0 <= q <= |a.invoked.value.logResult| ==> !Matches(a.invoked.value.logResult, q, InitMarker, InitUnit)
    ensures Sampled(name, a).Failure?
    ensures Updated(name, a).Success? && Failed(a.invoked.value) == Success(false)
      && Get(a.invoked.value.payload, "report").value.Obj?
      && ReadNumber(a.invoked.value.logResult, MemoryMarker, MemoryUnit).Some?
      ==> Sampled(name, a) == Failure(StillWarm(name))
  {
    UnitsArePlain();
  }

  /** `updateAndWait`, the poll loop included. */
  method UpdateAndWait(name: string, a: Attempt) returns (r: Result<()>)
    ensures r == Updated(name, a)
  {
    var config :- a.config;
    var environment :- UpdatedEnvironment(config, a.stamp);
    var _ :- a.updated;
    var count;
    r, count := WaitFor(name, a.probes);
  }

  /** The body of `bench` up to `stats[name].push(run)`; the result is what is pushed, or what is caught. */
  method Sample(name: string, a: Attempt) returns (r: Result<Value>)
    ensures r == Sampled(name, a)
  {
    UnitsArePlain();
    var _ :- UpdateAndWait(name, a);
    var invoke :- a.invoked;
    var failed :- Failed(invoke);
    if failed {
      return Failure(InvokeFailed);
    }
    var run :- Set(Get(invoke.payload, "report").value, "end", Num(a.end as real));
    var maxMem := ReadNumber(invoke.logResult, MemoryMarker, MemoryUnit);
    if maxMem.None? {
      return Failure(PeakMemoryMissing(name));
    }
    run := Set(run, "peakMemory", maxMem.value).value;
    var coldstart := ReadNumber(invoke.logResult, InitMarker, InitUnit);
    if coldstart.None? {
      return Failure(StillWarm(name));
    }
    run := Set(run, "coldstart", coldstart.value).value;
    return Success(run);
  }

  // ---------------------------------------------------------------------
  // The rounds

  /** The attempt for every round and target: those `listed`, and `rest` for all others. */
  datatype Plan = Plan(listed: map<(nat, string), Attempt>, rest: Attempt)

  function Trial(plan: Plan, i: nat, name: string): Attempt {
    if (i, name) in plan.listed then plan.listed[(i, name)] else plan.rest
  }

  /**
   * What `bench` yields for each round and target it runs: the sample it
   * pushes, or the error it catches.
   */
  type Outcomes = map<(nat, string), Result<Value>>

  /** The outcomes of rounds 1 to `runs` over the targets `names`. */
  function OutcomesOf(plan: Plan, runs: nat, names: seq<string>): (o: Outcomes)
    ensures forall i, name :: 1 <= i <= runs && name in names ==>
      (i, name) in o && o[(i, name)] == Sampled(name, Trial(plan, i, name))
  {
    var keys := set i, name | 1 <= i <= runs && name in names :: (i, name);
    map k | k in keys :: Sampled(k.1, Trial(plan, k.0, k.1))
  }

  /** The sample of `name` in round `i`, as a list of at most one. */
  function Kept(name: string, outcomes: Outcomes, i: nat): (r: seq<Value>)
    ensures |r| <= 1
  {
    if (i, name) in outcomes && outcomes[(i, name)].Success? then [outcomes[(i, name)].value] else []
  }

  /** `stats[name]`, or the `[]` it is initialised to on first sight. */
  function Prior(stats: map<string, seq<Value>>, name: string): seq<Value> {
    if name in stats then stats[name] else []
  }

  /** `if (!stats[name]) stats[name] = []`, then the push when `bench` succeeds. */
  function AfterTarget(stats: map<string, seq<Value>>, i: nat, name: string, outcomes: Outcomes): map<string, seq<Value>> {
    stats[name := Prior(stats, name) + Kept(name, outcomes, i)]
  }

  /** Round `i` over the targets `names`, one after another. */
  function AfterRound(stats: map<string, seq<Value>>, i: nat, names: seq<string>, outcomes: Outcomes): map<string, seq<Value>>
    decreases |names|
  {
    if names == [] then stats
    else AfterTarget(AfterRound(stats, i, names[..|names| - 1], outcomes), i, names[|names| - 1], outcomes)
  }

  /** Rounds 1 to `rounds` over the targets `names`. */
  function Collected(stats: map<string, seq<Value>>, rounds: nat, names: seq<string>, outcomes: Outcomes): map<string, seq<Value>> {
    if rounds == 0 then stats
    else AfterRound(Collected(stats, rounds - 1, names, outcomes), rounds, names, outcomes)
  }

  /** The samples of `name` kept in rounds 1 to `k`, in round order. */
  function Successes(name: string, outcomes: Outcomes, k: nat): seq<Value> {
    if k == 0 then [] else Successes(name, outcomes, k - 1) + Kept(name, outcomes, k)
  }

  predicate Distinct(names: seq<string>) {
    forall i, j :: 0 <= i < j < |names| ==> names[i] != names[j]
  }

  /** In one round every listed target gets a list, and no other key appears. */
  lemma {:induction false} AfterRoundKeys(stats: map<string, seq<Value>>, i: nat, names: seq<string>, outcomes: Outcomes)
    ensures forall k :: k in AfterRound(stats, i, names, outcomes) <==> k in stats || k in names
    decreases |names|
  {
    if names != [] {
      var init := names[..|names| - 1];
      assert names == init + [names[|names| - 1]];
      AfterRoundKeys(stats, i, init, outcomes);
    }
  }

  /**
   * In one round a listed target's list is extended by at most its own
   * sample of the round, and no other list changes.
   */
  lemma {:induction false} AfterRoundAt(stats: map<string, seq<Value>>, i: nat, names: seq<string>, outcomes: Outcomes, name: string)
    requires Distinct(names)
    ensures name in names ==> (
      && name in AfterRound(stats, i, names, outcomes)
      && AfterRound(stats, i, names, outcomes)[name] == Prior(stats, name) + Kept(name, outcomes, i))
    ensures name !in names && name in stats ==> (
      && name in AfterRound(stats, i, names, outcomes)
      && AfterRound(stats, i, names, outcomes)[name] == stats[name])
    decreases |names|
  {
    if names != [] {
      var init := names[..|names| - 1];
      var last := names[|names| - 1];
      assert names == init + [last];
      assert Distinct(init);
      if name == last {
        assert last !in init;
        AfterRoundAt(stats, i, init, outcomes, last);
        AfterRoundKeys(stats, i, init, outcomes);
      } else {
        AfterRoundAt(stats, i, init, outcomes, name);
        assert name in names ==> name in init;
      }
    }
  }

  /** After at least one round every target has a list, and no other key appears. */
  lemma {:induction false} CollectedKeys(stats: map<string, seq<Value>>, rounds: nat, names: seq<string>, outcomes: Outcomes)
    ensures rounds > 0 ==> forall k :: k in Collected(stats, rounds, names, outcomes) <==> k in stats || k in names
  {
    if rounds > 1 {
      CollectedKeys(stats, rounds - 1, names, outcomes);
    }
    if rounds > 0 {
      AfterRoundKeys(Collected(stats, rounds - 1, names, outcomes), rounds, names, outcomes);
    }
  }

  /** Each target's list is what it held before, then its samples in round order. */
  lemma CollectedAt(stats: map<string, seq<Value>>, rounds: nat, names: seq<string>, outcomes: Outcomes, name: string)
    requires Distinct(names) && rounds > 0 && name in names
    ensures name in Collected(stats, rounds, names, outcomes)
    ensures Collected(stats, rounds, names, outcomes)[name] == Prior(stats, name) + Successes(name, outcomes, rounds)
  {
    AfterRoundAt(Collected(stats, rounds - 1, names, outcomes), rounds, names, outcomes, name);
    CollectedPrior(stats, rounds, names, outcomes, name);
  }

  /** The list a target holds (or `[]`) after `rounds` rounds. */
  lemma {:induction false} CollectedPrior(stats: map<string, seq<Value>>, rounds: nat, names: seq<string>, outcomes: Outcomes, name: string)
    requires Distinct(names) && name in names
    ensures Prior(Collected(stats, rounds, names, outcomes), name) == Prior(stats, name) + Successes(name, outcomes, rounds)
  {
    if rounds == 0 {
      assert Prior(stats, name) + [] == Prior(stats, name);
    } else {
      var before := Collected(stats, rounds - 1, names, outcomes);
      CollectedPrior(stats, rounds - 1, names, outcomes, name);
      AfterRoundAt(before, rounds, names, outcomes, name);
      assert (Prior(stats, name) + Successes(name, outcomes, rounds - 1)) + Kept(name, outcomes, rounds)
        == Prior(stats, name) + Successes(name, outcomes, rounds);
    }
  }

  /** Every list of a key that is not a target is as it was. */
  lemma {:induction false} CollectedElsewhere(stats: map<string, seq<Value>>, rounds: nat, names: seq<string>, outcomes: Outcomes, name: string)
    requires Distinct(names) && name !in names && name in stats
    ensures name in Collected(stats, rounds, names, outcomes)
    ensures Collected(stats, rounds, names, outcomes)[name] == stats[name]
  {
    if rounds > 0 {
      CollectedElsewhere(stats, rounds - 1, names, outcomes, name);
      AfterRoundAt(Collected(stats, rounds - 1, names, outcomes), rounds, names, outcomes, name);
    }
  }

  /** Starting from `{}`, a target's list never holds more samples than there were rounds. */
  lemma {:induction false} SuccessesBound(name: string, outcomes: Outcomes, k: nat)
    ensures |Successes(name, outcomes, k)| <= k
  {
    if k > 0 {
      SuccessesBound(name, outcomes, k - 1);
    }
  }

  /** The whole benchmark from `stats = {}`: exactly the targets, each with its own samples, at most `Runs` of them. */
  lemma BenchmarkStats(outcomes: Outcomes)
    ensures forall k :: k in Collected(map[], Runs, Plugin.Names, outcomes) <==> k in Plugin.Names
    ensures forall name :: name in Plugin.Names ==>
      && Collected(map[], Runs, Plugin.Names, outcomes)[name] == Successes(name, outcomes, Runs)
      && |Collected(map[], Runs, Plugin.Names, outcomes)[name]| <= Runs
  {
    Plugin.NamesStartWithControl();
    CollectedKeys(map[], Runs, Plugin.Names, outcomes);
    forall name | name in Plugin.Names
      ensures Collected(map[], Runs, Plugin.Names, outcomes)[name] == Successes(name, outcomes, Runs)
      ensures |Collected(map[], Runs, Plugin.Names, outcomes)[name]| <= Runs
    {
      CollectedAt(map[], Runs, Plugin.Names, outcomes, name);
      SuccessesBound(name, outcomes, Runs);
    }
  }

  /** The orchestrator's state: the `stats` object and the dummy row of the dummy data table. */
  class Benchmark {
    var stats: map<string, seq<Value>>
    /** The item keyed `id = 'data'` in the dummy data table, if there is one. */
    var row: Option<map<string, Value>>

    constructor(row: Option<map<string, Value>>)
      ensures stats == map[] && this.row == row
    {
      stats := map[];
      this.row := row;
    }

    /** Lines 31-46: write the dummy row only when there is none; an existing row is never rewritten. */
    method EnsureDummyRow()
      modifies this`row
      ensures old(row).Some? ==> row == old(row)
      ensures old(row).None? ==> row == Some(RowItem)
    {
      if row.None? {
        row := Some(RowItem);
      }
    }

    /** One target in round `i`; `outcomes` records what its `bench` yields. */
    method Target(i: nat, name: string, plan: Plan, ghost outcomes: Outcomes)
      requires (i, name) in outcomes && outcomes[(i, name)] == Sampled(name, Trial(plan, i, name))
      modifies this`stats
      ensures stats == AfterTarget(old(stats), i, name, outcomes)
    {
      var list := if name in stats then stats[name] else [];
      var run := Sample(name, Trial(plan, i, name));
      if run.Success? {
        list := list + [run.value];
      } else {
        assert list + [] == list;
      }
      stats := stats[name := list];
    }

    /** Round `i`: every target of `names`, in order (`lambdae.map`). */
    method Round(i: nat, names: seq<string>, plan: Plan, ghost outcomes: Outcomes)
      requires forall name :: name in names ==> (i, name) in outcomes && outcomes[(i, name)] == Sampled(name, Trial(plan, i, name))
      modifies this`stats
      ensures stats == AfterRound(old(stats), i, names, outcomes)
    {
      ghost var s0 := stats;
      var j := 0;
      while j < |names|
        invariant 0 <= j <= |names|
        invariant stats == AfterRound(s0, i, names[..j], outcomes)
      {
        assert names[..j + 1][..j] == names[..j];
        Target(i, names[j], plan, outcomes);
        j := j + 1;
      }
      assert names[..j] == names;
    }

    /** `for (let i = 1; i < (runs + 1); i++)`: exactly `runs` rounds. */
    method Rounds(runs: nat, names: seq<string>, plan: Plan)
      modifies this`stats
      ensures stats == Collected(old(stats), runs, names, OutcomesOf(plan, runs, names))
    {
      ghost var s0 := stats;
      ghost var outcomes := OutcomesOf(plan, runs, names);
      var i := 1;
      while i < runs + 1
        invariant 1 <= i <= runs + 1
        invariant stats == Collected(s0, i - 1, names, outcomes)
      {
        Round(i, names, plan, outcomes);
        i := i + 1;
      }
    }

    /** `main` up to the end of the rounds. */
    method Run(plan: Plan)
      modifies this
      ensures old(row).Some? ==> row == old(row)
      ensures old(row).None? ==> row == Some(RowItem)
      ensures stats == Collected(old(stats), Runs, Plugin.Names, OutcomesOf(plan, Runs, Plugin.Names))
    {
      EnsureDummyRow();
      Rounds(Runs, Plugin.Names, plan);
    }
  }
}
