module Runner {
  import opened Wrappers
  import opened Js
  import opened Streams
  import opened Instrumentation

  /** The report of one `run` call, and the clock and rss oracles it reads. */
  class Harness {
    /** `Date.now()` readings, in the order they are taken. */
    const clock: Stream<int>
    /** `process.memoryUsage.rss()` readings, in the order they are taken. */
    const rss: Stream<int>
    /** How many readings of each have been taken. */
    var ticks: nat
    var samples: nat

    /** `report.id`, `report.start`, `report.end` and the step records by key. */
    var id: string
    var start: int
    var end: Option<int>
    var steps: map<string, StepRecord>

    /** The service blocks `run` goes through: `Blocks`. */
    const blocks: seq<Block>

    constructor(clock: Stream<int>, rss: Stream<int>)
      ensures this.clock == clock && this.rss == rss && blocks == Blocks && AllWellFormed(blocks)
      ensures ticks == 0 && samples == 0 && steps == map[] && end == None
    {
      this.clock := clock;
      this.rss := rss;
      blocks := Blocks;
      CutJoins(Schedule);
      ticks := 0;
      samples := 0;
      id := "";
      start := 0;
      end := None;
      steps := map[];
    }

    /** `Date.now()`. */
    method Now() returns (t: int)
      modifies this`ticks
      ensures t == At(clock, old(ticks)) && ticks == old(ticks) + 1
    {
      t := At(clock, ticks);
      ticks := ticks + 1;
    }

    /** The report `run` starts: `id`, `start = Date.now()`, no `end`, and a blank record per key of `fns`. */
    method Begin(fns: Fns, requestId: string)
      modifies this`id, this`start, this`end, this`steps, this`ticks
      ensures id == requestId && start == At(clock, old(ticks)) && end == None && steps == Blanks(fns)
      ensures ticks == old(ticks) + 1
    {
      id := requestId;
      start := Now();
      steps := Blanks(fns);
      end := None;
    }

    /** `report.end = Date.now()`. */
    method Finish()
      modifies this`end, this`ticks
      ensures end == Some(At(clock, old(ticks))) && ticks == old(ticks) + 1
    {
      var e := Now();
      end := Some(e);
    }

    /** `process.memoryUsage.rss()`. */
    method Rss() returns (m: int)
      modifies this`samples
      ensures m == At(rss, old(samples)) && samples == old(samples) + 1
    {
      m := At(rss, samples);
      samples := samples + 1;
    }

    /** `recordStart(step)`: throws when the report has no record for `step`. */
    method RecordStart(step: string) returns (r: Result<()>)
      modifies this`steps, this`ticks, this`samples
      ensures r.Failure? <==> step !in old(steps)
      ensures r.Failure? ==> r.error == NoRecord && steps == old(steps)
      ensures r.Success? ==>
        && steps == old(steps)[step := old(steps)[step].(memoryStart := Some(At(rss, old(samples))), timeStart := Some(At(clock, old(ticks))))]
        && ticks == old(ticks) + 1 && samples == old(samples) + 1
    {
      if step !in steps {
        return Failure(NoRecord);
      }
      var m := Rss();
      var t := Now();
      steps := steps[step := steps[step].(memoryStart := Some(m), timeStart := Some(t))];
      return Success(());
    }

    /**
     * `recordEnd(step)`: stamps the end and derives `time` and `memory`
     * (a null start counts as 0, as JavaScript's subtraction does).
     */
    method RecordEnd(step: string)
      requires step in steps
      modifies this`steps, this`ticks, this`samples
      ensures ticks == old(ticks) + 1 && samples == old(samples) + 1
      ensures var was := old(steps)[step];
        var t, m := At(clock, old(ticks)), At(rss, old(samples));
        steps == old(steps)[step := was.(timeEnd := Some(t), memoryEnd := Some(m),
          time := Some(t - OrZero(was.timeStart)), memory := Some(m - OrZero(was.memoryStart)))]
    {
      var t := Now();
      var m := Rss();
      var was := steps[step];
      steps := steps[step := was.(timeEnd := Some(t), memoryEnd := Some(m),
        time := Some(t - OrZero(was.timeStart)), memory := Some(m - OrZero(was.memoryStart)))];
    }

    /** `recordStart(step)`, `await phase(...args)`, `recordEnd(step)`. */
    method Step(fns: Fns, step: string, args: Result<seq<Value>>) returns (r: Result<Value>)
      requires steps.Keys == fns.Keys
      modifies this`steps, this`ticks, this`samples
      ensures steps.Keys == fns.Keys
      ensures r == Call(fns, step, args)
      ensures r.Success? ==>
        && steps == old(steps)[step := Recorded(clock, rss, old(ticks), old(samples))]
        && ticks == old(ticks) + 2 && samples == old(samples) + 2
    {
      var started := RecordStart(step);
      if started.Failure? {
        return Failure(NoRecord);
      }
      if args.Failure? {
        return Failure(args.error);
      }
      r := Settle(fns[step], args.value);
      if r.Success? {
        RecordEnd(step);
      }
    }

    /** The import, instantiate and read steps `names[..3]` of one service, in order. */
    method Prepare(fns: Fns, names: seq<string>) returns (r: Result<(Value, Value)>)
      requires |names| >= 3 && steps.Keys == fns.Keys
      modifies this`steps, this`ticks, this`samples
      ensures steps.Keys == fns.Keys
      ensures r == Prepared(fns, names)
      ensures r.Success? ==>
        && ticks == old(ticks) + 6 && samples == old(samples) + 6
        && steps == old(steps)
             [names[0] := Recorded(clock, rss, old(ticks), old(samples))]
             [names[1] := Recorded(clock, rss, old(ticks) + 2, old(samples) + 2)]
             [names[2] := Recorded(clock, rss, old(ticks) + 4, old(samples) + 4)]
    {
      var sdk :- Step(fns, names[0], Success([]));
      var client :- Step(fns, names[1], Success([sdk]));
      var payload :- Step(fns, names[2], Success([client]));
      return Success((client, payload));
    }

    /** The steps of service block `b`, in order. */
    method RunService(fns: Fns, b: Block) returns (r: Result<Value>)
      requires WellFormed(b) && steps.Keys == fns.Keys
      modifies this`steps, this`ticks, this`samples
      ensures steps.Keys == fns.Keys
      ensures r == Service(fns, b)
      ensures r.Success? ==>
        && ticks == old(ticks) + 2 * |b.names| && samples == old(samples) + 2 * |b.names|
        && steps == Stamped(b.names, clock, rss, old(steps), 0, |b.names|, old(ticks), old(samples))
    {
      var t, m := ticks, samples;
      ghost var s0 := steps;
      var read :- Prepare(fns, b.names);
      var (client, payload) := read;
      if b.write == NoWrite {
        r := Success(payload);
      } else {
        r := Step(fns, b.names[3], WriteArgs(b.write, client, payload));
      }
      if r.Success? {
        StampedService(b.names, clock, rss, s0, t, m);
      }
    }

    /** One more service block, `blocks[j]`, after the first `j` completed. */
    method RunNext(fns: Fns, blocks: seq<Block>, j: nat, results: seq<Value>, ghost s0: map<string, StepRecord>, ghost t0: nat, ghost m0: nat)
      returns (r: Result<seq<Value>>)
      requires AllWellFormed(blocks) && j < |blocks| && steps.Keys == fns.Keys
      requires Pipeline(fns, blocks[..j]) == Success(results)
      requires ticks == t0 + 2 * |StepNames(blocks[..j])| && samples == m0 + 2 * |StepNames(blocks[..j])|
      requires steps == BlocksStamped(blocks[..j], clock, rss, s0, t0, m0)
      modifies this`steps, this`ticks, this`samples
      ensures steps.Keys == fns.Keys
      ensures r == Pipeline(fns, blocks[..j + 1])
      ensures r.Failure? ==> r == Pipeline(fns, blocks)
      ensures r.Success? ==>
        && ticks == t0 + 2 * |StepNames(blocks[..j + 1])| && samples == m0 + 2 * |StepNames(blocks[..j + 1])|
        && steps == BlocksStamped(blocks[..j + 1], clock, rss, s0, t0, m0)
    {
      BlocksStampedSnoc(blocks, j, clock, rss, s0, t0, m0);
      PipelineSnoc(fns, blocks, j);
      ghost var before, t, m := steps, ticks, samples;
      var x := RunService(fns, blocks[j]);
      if x.Failure? {
        PipelineFailureSticks(fns, blocks, j + 1);
        return Failure(x.error);
      }
      assert steps == Stamped(blocks[j].names, clock, rss, before, 0, |blocks[j].names|, t, m);
      return Success(results + [x.value]);
    }

    /** The service blocks `blocks`, in order; the first throw aborts the rest. */
    method RunBlocks(fns: Fns, blocks: seq<Block>) returns (r: Result<seq<Value>>)
      requires AllWellFormed(blocks) && steps.Keys == fns.Keys
      modifies this`steps, this`ticks, this`samples
      ensures r == Pipeline(fns, blocks)
      ensures r.Success? ==>
        && ticks == old(ticks) + 2 * |StepNames(blocks)| && samples == old(samples) + 2 * |StepNames(blocks)|
        && steps == BlocksStamped(blocks, clock, rss, old(steps), old(ticks), old(samples))
    {
      ghost var s0, t0, m0 := steps, ticks, samples;
      var results: seq<Value> := [];
      var j := 0;
      while j < |blocks|
        invariant 0 <= j <= |blocks|
        invariant steps.Keys == fns.Keys
        invariant Pipeline(fns, blocks[..j]) == Success(results)
        invariant ticks == t0 + 2 * |StepNames(blocks[..j])| && samples == m0 + 2 * |StepNames(blocks[..j])|
        invariant steps == BlocksStamped(blocks[..j], clock, rss, s0, t0, m0)
      {
        var next := RunNext(fns, blocks, j, results, s0, t0, m0);
        if next.Failure? {
          return next;
        }
        results := next.value;
        j := j + 1;
      }
      assert blocks[..j] == blocks;
      return Success(results);
    }

    /**
     * `run(fns, context)`: on success the report has `id`, `start` and `end`,
     * one completed record per scheduled step, stamped in schedule order
     * (`RunLeavesCompletedReport` spells these records out for `Blocks`),
     * and the result bundles the six service
     * results; any throw aborts the run.
     */
    method Run(fns: Fns, requestId: string) returns (r: Result<seq<Value>>)
      requires AllWellFormed(blocks)
      modifies this
      ensures r == Pipeline(fns, blocks)
      ensures id == requestId && start == At(clock, old(ticks))
      ensures r.Success? ==>
        && steps == BlocksStamped(blocks, clock, rss, Blanks(fns), old(ticks) + 1, old(samples))
        && end == Some(At(clock, old(ticks) + 1 + 2 * |StepNames(blocks)|))
    {
      Begin(fns, requestId);
      r := RunBlocks(fns, blocks);
      if r.Success? {
        Finish();
      }
    }
  }

}
