/**
 * `src/shared/run.js`: the instrumentation harness every SDK handler calls.
 * `run(fns, context)` builds a report with one blank step record per key of
 * `fns`, then runs the fixed phase schedule (import, instantiate, read and
 * write for DynamoDB, S3, IAM, CloudFormation and Lambda; import,
 * instantiate and read for STS), wrapping every phase in `recordStart` /
 * `recordEnd`, which stamp the step record with clock and resident-memory
 * readings.  The clock (`Date.now`) and `process.memoryUsage.rss` are
 * oracles: fixed streams of readings consumed in order.
 */
module Instrumentation {
  import opened Wrappers
  import opened Js
  import opened Streams

  /** A step record of the report. */
  datatype StepRecord = StepRecord(
    memoryStart: Option<int>,
    memoryEnd: Option<int>,
    timeStart: Option<int>,
    timeEnd: Option<int>,
    time: Option<int>,
    memory: Option<int>)

  /** The record `run` creates for every key of `fns`: four nulls, no `time`, no `memory`. */
  const Blank := StepRecord(None, None, None, None, None, None)

  /** The report `run` starts from: a blank record for every key of `fns`. */
  function Blanks(fns: Fns): (steps: map<string, StepRecord>)
    ensures steps.Keys == fns.Keys
    ensures forall k :: k in steps ==> steps[k] == Blank
  {
    map k | k in fns :: Blank
  }

  /**
   * One phase of a handler, as the outcomes of its promise: the value it
   * resolves to, or its rejection, for the argument lists listed in
   * `outcomes`, and `otherwise` for every other argument list.  A run calls
   * each phase at most once, so every behaviour a run can observe of a
   * phase is that of some `Phase`.
   */
  datatype Phase = Phase(outcomes: map<seq<Value>, Result<Value>>, otherwise: Result<Value>)

  /** The outcome of awaiting phase `p` called with `args`. */
  function Settle(p: Phase, args: seq<Value>): Result<Value> {
    if args in p.outcomes then p.outcomes[args] else p.otherwise
  }

  /** The `fns` argument: the phases a handler supplies, by name. */
  type Fns = map<string, Phase>

  /** What a service's write phase receives. */
  datatype Write =
    | NoWrite        // STS: the read result is the service result
    | Alone          // `write(client)`
    | WithPayload    // `writeS3(client, S3Payload)`
    | WithItem       // `writeDynamoDB(client, DynamoDBPayload.Item)`

  /**
   * One service block of `run`: its step names in order (import,
   * instantiate, read and, unless it has no write, write) and what its
   * write phase receives.
   */
  datatype Block = Block(names: seq<string>, write: Write)

  predicate WellFormed(b: Block) {
    |b.names| == if b.write == NoWrite then 3 else 4
  }

  predicate AllWellFormed(blocks: seq<Block>) {
    forall i :: 0 <= i < |blocks| ==> WellFormed(blocks[i])
  }

  /** The step names of `blocks`, in order. */
  function StepNames(blocks: seq<Block>): seq<string> {
    if blocks == [] then [] else StepNames(blocks[..|blocks| - 1]) + blocks[|blocks| - 1].names
  }

  /** The phase schedule of `run`, in order: four steps per service, three for STS. */
  const Schedule: seq<string> := [
    "importDynamoDB", "instantiateDynamoDB", "readDynamoDB", "writeDynamoDB",
    "importS3", "instantiateS3", "readS3", "writeS3",
    "importIAM", "instantiateIAM", "readIAM", "writeIAM",
    "importCloudFormation", "instantiateCloudFormation", "readCloudFormation", "writeCloudFormation",
    "importLambda", "instantiateLambda", "readLambda", "writeLambda",
    "importSTS", "instantiateSTS", "readSTS"
  ]

  /**
   * A schedule of 23 steps cut into the service blocks of `run`: DynamoDB
   * (its write gets the read result's `Item`), S3 (its write gets the read
   * result), IAM, CloudFormation, Lambda, and STS (no write).
   */
  function Cut(s: seq<string>): seq<Block>
    requires |s| == 23
  {
    [ Block(s[0..4], WithItem), Block(s[4..8], WithPayload), Block(s[8..12], Alone),
      Block(s[12..16], Alone), Block(s[16..20], Alone), Block(s[20..23], NoWrite) ]
  }

  /** The service blocks of `run`, in order. */
  const Blocks: seq<Block> := Cut(Schedule)

  lemma StepNamesSnoc(blocks: seq<Block>, k: nat)
    requires k < |blocks|
    ensures StepNames(blocks[..k + 1]) == StepNames(blocks[..k]) + blocks[k].names
  {
    assert blocks[..k + 1][..k] == blocks[..k];
  }

  /** Cutting a schedule into blocks yields well-formed blocks that run its steps in order. */
  lemma CutJoins(s: seq<string>)
    requires |s| == 23
    ensures AllWellFormed(Cut(s))
    ensures StepNames(Cut(s)) == s
  {
    var b := Cut(s);
    assert b[..0] == [] && b[..6] == b;
    var ends := [0, 4, 8, 12, 16, 20, 23];
    for k := 0 to 6
      invariant StepNames(b[..k]) == s[..ends[k]]
    {
      StepNamesSnoc(b, k);
      assert b[k].names == s[ends[k]..ends[k + 1]];
      assert s[..ends[k]] + s[ends[k]..ends[k + 1]] == s[..ends[k + 1]];
    }
    assert s[..23] == s;
  }

  lemma ScheduleRowDistinct(i: nat)
    requires i < |Schedule|
    ensures forall k :: i < k < |Schedule| ==> Schedule[i] != Schedule[k]
  {
  }

  /** The 23 step names of the schedule are pairwise different. */
  lemma ScheduleDistinct()
    ensures Distinct(Schedule)
  {
    forall i | 0 <= i < |Schedule| {
      ScheduleRowDistinct(i);
    }
  }

  /** What `recordStart(step)` throws when `report[step]` does not exist. */
  const NoRecord := "TypeError: cannot set properties of undefined (setting 'memoryStart')"

  /**
   * One step of the schedule, as values: `recordStart(step)` throws unless
   * `step` is a key of `fns`; then the arguments are evaluated, and the
   * phase's promise is awaited.
   */
  function Call(fns: Fns, step: string, args: Result<seq<Value>>): Result<Value> {
    if step !in fns then Failure(NoRecord)
    else
      var a :- args;
      Settle(fns[step], a)
  }

  /**
   * The arguments of a write phase, given the service's client and read
   * result; `(DynamoDBClient, DynamoDBPayload.Item)` throws when the read
   * resolved to `undefined` or `null`.
   */
  function WriteArgs(w: Write, client: Value, payload: Value): Result<seq<Value>>
    requires w != NoWrite
  {
    match w
    case Alone => Success([client])
    case WithPayload => Success([client, payload])
    case WithItem =>
      var item :- Get(payload, "Item");
      Success([client, item])
  }

  /**
   * The data flow through a service's first three phases `names` (import,
   * instantiate, read): the client and the read result.
   */
  function Prepared(fns: Fns, names: seq<string>): Result<(Value, Value)>
    requires |names| >= 3
  {
    var sdk :- Call(fns, names[0], Success([]));
    var client :- Call(fns, names[1], Success([sdk]));
    var payload :- Call(fns, names[2], Success([client]));
    Success((client, payload))
  }

  /**
   * The data flow through the phases of service block `b` (import,
   * instantiate, read and, unless it has no write, write); its value is the
   * write result (the read result for STS).
   */
  function Service(fns: Fns, b: Block): Result<Value>
    requires WellFormed(b)
  {
    var read :- Prepared(fns, b.names);
    var (client, payload) := read;
    if b.write == NoWrite then Success(payload)
    else Call(fns, b.names[3], WriteArgs(b.write, client, payload))
  }

  /** The results of the service blocks `blocks`, in order, or the first throw. */
  function Pipeline(fns: Fns, blocks: seq<Block>): Result<seq<Value>>
    requires AllWellFormed(blocks)
  {
    if blocks == [] then Success([])
    else
      var done :- Pipeline(fns, blocks[..|blocks| - 1]);
      var x :- Service(fns, blocks[|blocks| - 1]);
      Success(done + [x])
  }

  /** A service that completes has found each of its steps among the keys of `fns`. */
  lemma ServiceNeedsSteps(fns: Fns, b: Block)
    requires WellFormed(b) && Service(fns, b).Success?
    ensures forall k :: 0 <= k < |b.names| ==> b.names[k] in fns
  {
  }

  /**
   * A run of service blocks that completes yields one result per block and
   * has found each of their steps among the keys of `fns`.
   */
  lemma {:induction false} PipelineNeedsSteps(fns: Fns, blocks: seq<Block>)
    requires AllWellFormed(blocks)
    ensures Pipeline(fns, blocks).Success? ==>
      && |Pipeline(fns, blocks).value| == |blocks|
      && forall i, k :: 0 <= i < |blocks| && 0 <= k < |blocks[i].names| ==> blocks[i].names[k] in fns
  {
    if blocks != [] && Pipeline(fns, blocks).Success? {
      var init := blocks[..|blocks| - 1];
      PipelineNeedsSteps(fns, init);
      ServiceNeedsSteps(fns, blocks[|blocks| - 1]);
      assert forall i :: 0 <= i < |init| ==> init[i] == blocks[i];
    }
  }

  /** Running one more block after the first `k` completed. */
  lemma PipelineSnoc(fns: Fns, blocks: seq<Block>, k: nat)
    requires AllWellFormed(blocks) && k < |blocks|
    ensures Pipeline(fns, blocks[..k + 1]) ==
      if Pipeline(fns, blocks[..k]).Failure? then Pipeline(fns, blocks[..k])
      else if Service(fns, blocks[k]).Failure? then Failure(Service(fns, blocks[k]).error)
      else Success(Pipeline(fns, blocks[..k]).value + [Service(fns, blocks[k]).value])
  {
    assert blocks[..k + 1][..k] == blocks[..k];
  }

  /** Once the first `k` blocks throw, the whole run throws that error. */
  lemma {:induction false} PipelineFailureSticks(fns: Fns, blocks: seq<Block>, k: nat)
    requires AllWellFormed(blocks) && k <= |blocks| && Pipeline(fns, blocks[..k]).Failure?
    ensures Pipeline(fns, blocks) == Pipeline(fns, blocks[..k])
    decreases |blocks| - k
  {
    if k < |blocks| {
      assert blocks[..k + 1][..k] == blocks[..k];
      PipelineFailureSticks(fns, blocks, k + 1);
    } else {
      assert blocks[..k] == blocks;
    }
  }

  /**
   * A handler that supplies no CloudFormation phases (as the `aws-lite`
   * handlers do) makes `run` throw; so does one that supplies no STS phases
   * (as every SDK handler does).
   */
  lemma MissingPhasesFail(fns: Fns)
    requires "importCloudFormation" !in fns || "importSTS" !in fns
    ensures Pipeline(fns, Blocks).Failure?
  {
    CutJoins(Schedule);
    PipelineNeedsSteps(fns, Blocks);
    assert Blocks[3].names[0] == "importCloudFormation" && Blocks[5].names[0] == "importSTS";
  }

  /**
   * The record a step has after `recordStart` took clock reading `t` and
   * rss reading `m`, and `recordEnd` took the next reading of each.
   */
  function Recorded(clock: Stream<int>, rss: Stream<int>, t: nat, m: nat): StepRecord {
    StepRecord(
      Some(At(rss, m)), Some(At(rss, m + 1)), Some(At(clock, t)), Some(At(clock, t + 1)),
      Some(At(clock, t + 1) - At(clock, t)), Some(At(rss, m + 1) - At(rss, m)))
  }

  /**
   * A recorded step holds its duration and its memory change; with a
   * non-decreasing clock the duration is non-negative.
   */
  lemma RecordedDerives(clock: Stream<int>, rss: Stream<int>, t: nat, m: nat)
    ensures var r := Recorded(clock, rss, t, m);
      && r.time.Some? && r.timeStart.Some? && r.timeEnd.Some? && r.memory.Some? && r.memoryStart.Some? && r.memoryEnd.Some?
      && r.time.value == r.timeEnd.value - r.timeStart.value
      && r.memory.value == r.memoryEnd.value - r.memoryStart.value
      && (Monotone(clock) ==> r.time.value >= 0)
  {
    if Monotone(clock) {
      assert At(clock, t) <= At(clock, t + 1);
    }
  }

  /** The memory change of a step is negative whenever resident memory shrinks across it. */
  lemma MemoryMayShrink()
    ensures Recorded(Stream([0, 1], 1), Stream([100, 99], 99), 0, 0).memory == Some(-1)
  {
  }

  /**
   * With a non-decreasing clock the stamps of a completed run are ordered:
   * `start`, then each step's start and end, in schedule order, then `end`,
   * for the readings `run` takes (`start` at `t0`, step `i` at
   * `t0 + 1 + 2i` and `t0 + 2 + 2i`, `end` after the last step).
   */
  lemma StampsOrdered(clock: Stream<int>, rss: Stream<int>, t0: nat, m0: nat, i: nat)
    requires Monotone(clock) && i < |Schedule|
    ensures var r := Recorded(clock, rss, t0 + 1 + 2 * i, m0 + 2 * i);
      && At(clock, t0) <= r.timeStart.value <= r.timeEnd.value <= At(clock, t0 + 1 + 2 * |Schedule|)
      && (i + 1 < |Schedule| ==> r.timeEnd.value <= Recorded(clock, rss, t0 + 1 + 2 * (i + 1), m0 + 2 * (i + 1)).timeStart.value)
  {
    var r := Recorded(clock, rss, t0 + 1 + 2 * i, m0 + 2 * i);
    assert At(clock, t0) <= At(clock, t0 + 1 + 2 * i);
    assert At(clock, t0 + 1 + 2 * i) <= At(clock, t0 + 2 + 2 * i);
    assert At(clock, t0 + 2 + 2 * i) <= At(clock, t0 + 1 + 2 * |Schedule|);
  }

  predicate Distinct(names: seq<string>) {
    forall i, k :: 0 <= i < k < |names| ==> names[i] != names[k]
  }

  /**
   * The step records after the steps `names[lo..hi]` ran, the first taking
   * clock reading `t` and rss reading `m`.
   */
  function Stamped(names: seq<string>, clock: Stream<int>, rss: Stream<int>, steps: map<string, StepRecord>, lo: nat, hi: nat, t: nat, m: nat)
    : map<string, StepRecord>
    requires lo <= hi <= |names|
    decreases hi - lo
  {
    if lo == hi then steps
    else Stamped(names, clock, rss, steps[names[lo] := Recorded(clock, rss, t, m)], lo + 1, hi, t + 2, m + 2)
  }

  /** The first of the steps `names[lo..hi]` takes the readings `t` and `m`. */
  lemma StampedFirst(
    names: seq<string>, clock: Stream<int>, rss: Stream<int>, steps: map<string, StepRecord>, lo: nat, hi: nat, t: nat, m: nat)
    requires lo < hi <= |names|
    ensures Stamped(names, clock, rss, steps, lo, hi, t, m)
         == Stamped(names, clock, rss, steps[names[lo] := Recorded(clock, rss, t, m)], lo + 1, hi, t + 2, m + 2)
  {
  }

  /** The steps of one service stamp their records one after the other. */
  lemma StampedService(names: seq<string>, clock: Stream<int>, rss: Stream<int>, steps: map<string, StepRecord>, t: nat, m: nat)
    requires 3 <= |names| <= 4
    ensures var s3 := steps
        [names[0] := Recorded(clock, rss, t, m)]
        [names[1] := Recorded(clock, rss, t + 2, m + 2)]
        [names[2] := Recorded(clock, rss, t + 4, m + 4)];
      Stamped(names, clock, rss, steps, 0, |names|, t, m)
        == if |names| == 3 then s3 else s3[names[3] := Recorded(clock, rss, t + 6, m + 6)]
  {
    var n := |names|;
    StampedFirst(names, clock, rss, steps, 0, n, t, m);
    var s1 := steps[names[0] := Recorded(clock, rss, t, m)];
    StampedFirst(names, clock, rss, s1, 1, n, t + 2, m + 2);
    var s2 := s1[names[1] := Recorded(clock, rss, t + 2, m + 2)];
    StampedFirst(names, clock, rss, s2, 2, n, t + 4, m + 4);
    var s3 := s2[names[2] := Recorded(clock, rss, t + 4, m + 4)];
    if n == 4 {
      StampedFirst(names, clock, rss, s3, 3, n, t + 6, m + 6);
    }
  }

  /** Running the steps `a` up to `b` and then `b` up to `c` is running `a` up to `c`. */
  lemma {:induction false} StampedConcat(
    names: seq<string>, clock: Stream<int>, rss: Stream<int>, steps: map<string, StepRecord>, a: nat, b: nat, c: nat, t: nat, m: nat)
    requires a <= b <= c <= |names|
    ensures Stamped(names, clock, rss, Stamped(names, clock, rss, steps, a, b, t, m), b, c, t + 2 * (b - a), m + 2 * (b - a))
         == Stamped(names, clock, rss, steps, a, c, t, m)
    decreases b - a
  {
    if a < b {
      StampedConcat(names, clock, rss, steps[names[a] := Recorded(clock, rss, t, m)], a + 1, b, c, t + 2, m + 2);
    }
  }

  /** Running the same step names from two lists stamps alike. */
  lemma {:induction false} StampedSame(
    a: seq<string>, b: seq<string>, clock: Stream<int>, rss: Stream<int>, steps: map<string, StepRecord>,
    la: nat, lb: nat, n: nat, t: nat, m: nat)
    requires la + n <= |a| && lb + n <= |b|
    requires a[la..la + n] == b[lb..lb + n]
    ensures Stamped(a, clock, rss, steps, la, la + n, t, m) == Stamped(b, clock, rss, steps, lb, lb + n, t, m)
    decreases n
  {
    if n > 0 {
      assert a[la] == a[la..la + n][0] == b[lb..lb + n][0] == b[lb];
      assert a[la + 1..la + n] == a[la..la + n][1..] == b[lb..lb + n][1..] == b[lb + 1..lb + n];
      var next := steps[a[la] := Recorded(clock, rss, t, m)];
      StampedSame(a, b, clock, rss, next, la + 1, lb + 1, n - 1, t + 2, m + 2);
    }
  }

  /** A step that none of `names[lo..hi]` names keeps its record. */
  lemma {:induction false} StampedOthers(
    names: seq<string>, clock: Stream<int>, rss: Stream<int>, steps: map<string, StepRecord>, lo: nat, hi: nat, t: nat, m: nat,
    s: string)
    requires lo <= hi <= |names| && s in steps
    requires forall i :: lo <= i < hi ==> names[i] != s
    ensures s in Stamped(names, clock, rss, steps, lo, hi, t, m)
    ensures Stamped(names, clock, rss, steps, lo, hi, t, m)[s] == steps[s]
    decreases hi - lo
  {
    if lo < hi {
      var next := steps[names[lo] := Recorded(clock, rss, t, m)];
      StampedOthers(names, clock, rss, next, lo + 1, hi, t + 2, m + 2, s);
    }
  }

  /**
   * When the names are pairwise different, step `names[i]` of
   * `names[lo..hi]` holds the `i - lo`th pair of readings after `t` and `m`.
   */
  lemma {:induction false} StampedAt(
    names: seq<string>, clock: Stream<int>, rss: Stream<int>, steps: map<string, StepRecord>, lo: nat, hi: nat, t: nat, m: nat,
    i: nat)
    requires lo <= i < hi <= |names| && Distinct(names)
    ensures names[i] in Stamped(names, clock, rss, steps, lo, hi, t, m)
    ensures Stamped(names, clock, rss, steps, lo, hi, t, m)[names[i]] == Recorded(clock, rss, t + 2 * (i - lo), m + 2 * (i - lo))
    decreases hi - lo
  {
    var next := steps[names[lo] := Recorded(clock, rss, t, m)];
    StampedFirst(names, clock, rss, steps, lo, hi, t, m);
    if i == lo {
      assert forall k :: lo + 1 <= k < hi ==> names[k] != names[lo];
      StampedOthers(names, clock, rss, next, lo + 1, hi, t + 2, m + 2, names[i]);
    } else {
      StampedAt(names, clock, rss, next, lo + 1, hi, t + 2, m + 2, i);
      assert t + 2 + 2 * (i - (lo + 1)) == t + 2 * (i - lo);
      assert m + 2 + 2 * (i - (lo + 1)) == m + 2 * (i - lo);
    }
  }

  /** Running the steps `a + b` is running the steps `a`, then the steps `b`. */
  lemma StampedAppend(a: seq<string>, b: seq<string>, clock: Stream<int>, rss: Stream<int>, steps: map<string, StepRecord>, t: nat, m: nat)
    ensures Stamped(a + b, clock, rss, steps, 0, |a + b|, t, m)
         == Stamped(b, clock, rss, Stamped(a, clock, rss, steps, 0, |a|, t, m), 0, |b|, t + 2 * |a|, m + 2 * |a|)
  {
    var ab := a + b;
    assert ab[0..|a|] == a[0..|a|];
    StampedSame(ab, a, clock, rss, steps, 0, 0, |a|, t, m);
    StampedConcat(ab, clock, rss, steps, 0, |a|, |ab|, t, m);
    assert ab[|a|..|a| + |b|] == b[0..|b|];
    StampedSame(ab, b, clock, rss, Stamped(a, clock, rss, steps, 0, |a|, t, m), |a|, 0, |b|, t + 2 * |a|, m + 2 * |a|);
  }

  /** The step records after the steps of `blocks` ran, the first taking clock reading `t` and rss reading `m`. */
  function BlocksStamped(blocks: seq<Block>, clock: Stream<int>, rss: Stream<int>, steps: map<string, StepRecord>, t: nat, m: nat)
    : map<string, StepRecord>
  {
    Stamped(StepNames(blocks), clock, rss, steps, 0, |StepNames(blocks)|, t, m)
  }

  /** Running the blocks `blocks[..k + 1]` is running `blocks[..k]`, then the steps of block `k`. */
  lemma BlocksStampedSnoc(blocks: seq<Block>, k: nat, clock: Stream<int>, rss: Stream<int>, steps: map<string, StepRecord>, t: nat, m: nat)
    requires k < |blocks|
    ensures |StepNames(blocks[..k + 1])| == |StepNames(blocks[..k])| + |blocks[k].names|
    ensures BlocksStamped(blocks[..k + 1], clock, rss, steps, t, m)
         == Stamped(blocks[k].names, clock, rss, BlocksStamped(blocks[..k], clock, rss, steps, t, m), 0, |blocks[k].names|,
                    t + 2 * |StepNames(blocks[..k])|, m + 2 * |StepNames(blocks[..k])|)
  {
    StepNamesSnoc(blocks, k);
    StampedAppend(StepNames(blocks[..k]), blocks[k].names, clock, rss, steps, t, m);
  }

  /**
   * The report a completed run leaves: every key of `fns` keeps its record,
   * the scheduled steps (all keys of `fns`) hold consecutive pairs of
   * readings in schedule order, and every other record is still blank.
   */
  lemma CompletedReport(fns: Fns, names: seq<string>, clock: Stream<int>, rss: Stream<int>, t: nat, m: nat)
    requires Distinct(names) && forall i :: 0 <= i < |names| ==> names[i] in fns
    ensures var steps := Stamped(names, clock, rss, Blanks(fns), 0, |names|, t, m);
      && (forall i :: 0 <= i < |names| ==> names[i] in steps && steps[names[i]] == Recorded(clock, rss, t + 2 * i, m + 2 * i))
      && (forall s :: s in fns && s !in names ==> s in steps && steps[s] == Blank)
  {
    var blank := Blanks(fns);
    forall i | 0 <= i < |names|
      ensures var steps := Stamped(names, clock, rss, blank, 0, |names|, t, m);
        names[i] in steps && steps[names[i]] == Recorded(clock, rss, t + 2 * i, m + 2 * i)
    {
      StampedAt(names, clock, rss, blank, 0, |names|, t, m, i);
    }
    forall s | s in fns && s !in names
      ensures var steps := Stamped(names, clock, rss, blank, 0, |names|, t, m);
        s in steps && steps[s] == Blank
    {
      StampedOthers(names, clock, rss, blank, 0, |names|, t, m, s);
    }
  }

  /** A completed `run` found every scheduled phase in `fns`. */
  lemma CompletedNeedsSchedule(fns: Fns)
    requires Pipeline(fns, Blocks).Success?
    ensures forall i :: 0 <= i < |Schedule| ==> Schedule[i] in fns
  {
    CutJoins(Schedule);
    PipelineNeedsSteps(fns, Blocks);
    StepNamesWithin(Blocks, fns);
  }

  /** When every step of every block is in `fns`, so is every step name. */
  lemma {:induction false} StepNamesWithin(blocks: seq<Block>, fns: Fns)
    requires forall i, k :: 0 <= i < |blocks| && 0 <= k < |blocks[i].names| ==> blocks[i].names[k] in fns
    ensures forall j :: 0 <= j < |StepNames(blocks)| ==> StepNames(blocks)[j] in fns
  {
    if blocks != [] {
      var init := blocks[..|blocks| - 1];
      var last := blocks[|blocks| - 1];
      assert forall i :: 0 <= i < |init| ==> init[i] == blocks[i];
      StepNamesWithin(init, fns);
      forall j | 0 <= j < |StepNames(blocks)| ensures StepNames(blocks)[j] in fns {
        if j < |StepNames(init)| {
          assert StepNames(blocks)[j] == StepNames(init)[j];
        } else {
          assert StepNames(blocks)[j] == last.names[j - |StepNames(init)|];
        }
      }
    }
  }

  /**
   * What a completed `run` leaves in the report, stated on the schedule
   * itself: the i-th scheduled step holds the readings taken i pairs after
   * the first, and every other record of `fns` is still blank.
   */
  lemma RunLeavesCompletedReport(fns: Fns, clock: Stream<int>, rss: Stream<int>, t: nat, m: nat)
    requires Pipeline(fns, Blocks).Success?
    ensures var steps := BlocksStamped(Blocks, clock, rss, Blanks(fns), t, m);
      && (forall i :: 0 <= i < |Schedule| ==>
            Schedule[i] in steps && steps[Schedule[i]] == Recorded(clock, rss, t + 2 * i, m + 2 * i))
      && (forall s :: s in fns && s !in Schedule ==> s in steps && steps[s] == Blank)
  {
    CutJoins(Schedule);
    ScheduleDistinct();
    CompletedNeedsSchedule(fns);
    assert BlocksStamped(Blocks, clock, rss, Blanks(fns), t, m)
        == Stamped(Schedule, clock, rss, Blanks(fns), 0, |Schedule|, t, m);
    CompletedReport(fns, Schedule, clock, rss, t, m);
  }

  /** `x` as an operand of JavaScript's `-`: null counts as 0. */
  function OrZero(x: Option<int>): int {
    if x.Some? then x.value else 0
  }
}
