# aws-lite performance benchmark: the bookkeeping core in Dafny

This project models the bookkeeping of the aws-lite performance benchmark.
That benchmark measures how fast and how memory-hungry the same handful of
AWS calls are with `aws-lite`, with the AWS SDK v3 and with a `control`
function that makes no calls. The model covers:

- **the instrumentation harness** (`src/shared/run.js`). Every benchmarked
  Lambda calls it. It runs a fixed schedule of 23 phases (import,
  instantiate, read and write for DynamoDB, S3, IAM, CloudFormation and
  Lambda; import, instantiate and read for STS). Each step record is stamped
  with clock and resident-memory readings (modules `Instrumentation`,
  `Runner`).
- **the invoker Lambda** (`src/lambdas/invoker/index.mjs`). It invokes a
  target, refuses a failed invocation, and stamps the report with the invoke
  times and the peak memory and init duration read from the log tail
  (modules `Invoker`, `Telemetry`).
- **the older orchestrator** (`bench/index.mjs`). It ensures the dummy row
  exists. Then, for ten rounds, it forces a cold start of every target,
  waits for the configuration update, invokes the target, and keeps the
  sample only when both log markers are present (module `Orchestrator`).
- **the readiness poll** (`bench/wait.mjs`), which runs after a deploy
  (module `Readiness`).
- **the seeding of the dummy resources** (`bench/seed-data.mjs`): the
  DynamoDB row, the S3 object and the IAM role (modules `Seed`, `Fixtures`).
- **the Architect plugin** (`src/plugins/lambdas.mjs`): the target list, and
  the deploy hook that patches every function resource (module `Plugin`).
- **the two statistics scripts** (`bench/parse-results.mjs` and its older
  copy `bench/results.mjs`). Each reduces the collected reports to
  per-target records (min, max, mean, median, standard deviation,
  percentiles), metric by metric. They share modules `Reports` and `Stats`;
  the scripts themselves are modules `ParseResults` and `Results`.

Shared infrastructure:

- `Wrappers`: `Option` and `Result`. A JavaScript throw is a `Failure`
  carrying the message.
- `Js`: JSON-like values with property read and write, where reading from
  `undefined` or `null` throws.
- `Streams`: an infinite stream of readings, used for `Date.now()` and
  `process.memoryUsage.rss()`.
- `Ordering`: insertion sort under a comparator. It provides the numeric
  order and JavaScript's default `.sort()` order, which compares decimal
  strings code unit by code unit.

Where the source updates state in place, the model does too:

- the report of one `run` call is the class `Runner.Harness`;
- the orchestrator's `stats` object and the dummy row are the class
  `Orchestrator.Benchmark`;
- the account's stores are the class `Seed.Account`;
- the CloudFormation resources are the class `Plugin.Template`.

Each method is proved against a function that specifies it, and the
properties are lemmas about those functions.

## Model

| member | source | states |
|---|---|---|
| Ordering.SortBy | bench/parse-results.mjs:199 | `.sort()` returns a permutation of the samples with the same length |
| Ordering.SortBySorted | bench/parse-results.mjs:199 | under a total preorder the result of the sort is sorted |
| Ordering.SortingSortedIsIdentity | bench/parse-results.mjs:199 | sorting an already sorted list changes nothing |
| Ordering.SortedEnds | bench/parse-results.mjs:199-201 | in a sorted list the first element precedes and the last follows every element |
| Ordering.NumericLeIsTotalPreorder | bench/parse-results.mjs:199 | the numeric comparator is total and transitive |
| Ordering.JsDefaultLeIsTotalPreorder | bench/parse-results.mjs:199 | the default string comparison of `.sort()` is total and transitive |
| Ordering.LexLeAntisymmetric | bench/parse-results.mjs:199 | two strings that each precede the other are equal |
| Ordering.SameWidthOrdersAgree | bench/parse-results.mjs:199 | for naturals whose decimal strings have the same length, the default order and the numeric order agree, in both directions |
| Stats.SumsArePermutationInvariant | bench/parse-results.mjs:213-221 | reordering the samples changes neither their sum nor their squared deviations |
| Stats.SortPreservesMeanAndVariance | bench/parse-results.mjs:199-204 | the mean and variance of the sorted samples are those of the samples as collected |
| Stats.VarianceNonNegative | bench/parse-results.mjs:217-221 | the squared standard deviation is a well-formed quotient and is never negative |
| Stats.VarianceZeroIffAllEqual | bench/parse-results.mjs:217-221 | the standard deviation is zero exactly when every sample is the same |
| Stats.Summarize | bench/parse-results.mjs:199-209 | a record exists iff there is at least one sample; min, max and median are samples; mean and variance are those of the samples; the percentile keys are exactly the requested ranks |
| Stats.SummaryBounds | bench/parse-results.mjs:199-203 | under a total preorder, min precedes every sample, max follows every sample, and the median lies between them |
| Stats.MedianIsUpperMiddle | bench/parse-results.mjs:203 | the median is element floor(n/2) of the sorted samples, the upper middle for an even count |
| Stats.NumericExtremes | bench/parse-results.mjs:199-201 | with a numeric comparator, min and max are the numeric minimum and maximum of the samples |
| Stats.DefaultOrderMisplacesExtremes | bench/parse-results.mjs:199-201 | with the default `.sort()`, the samples [9, 10] give min 10 and max 9 |
| Stats.DefaultOrderAgreesOnSameWidth | bench/parse-results.mjs:199-209 | samples of equal decimal width get the same record under the default order as under the numeric order |
| Stats.EvenCountMedianExample | bench/parse-results.mjs:203 | for 10, 20, 30, 40 the median is 30 (no averaging), min 10, max 40 |
| Stats.EvenCountMeanExample | bench/parse-results.mjs:213-215 | for 10, 20, 30, 40 the mean is 25 |
| Stats.EvenCountDefaultOrderExample | bench/results.mjs:50 | the default order gives the same record as the numeric order for 10, 20, 30, 40 |
| Reports.Extract | bench/parse-results.mjs:22-119 | a metric yields a sample iff the report has every top-level number and step record it reads, and, for a step metric, the step's `time`; the cold start is end - invokeStart - init - (end - start); a null span stamp counts as 0 |
| Reports.MapSamples | bench/parse-results.mjs:199 | `results[name].map(mapFn)` succeeds iff every report yields a sample, one per report and in order |
| Reports.Entry | bench/parse-results.mjs:199-209 | a target's record exists iff it has reports and each yields a sample; its percentile keys are the requested ranks |
| Reports.EntryStatistics | bench/parse-results.mjs:199-204 | with a numeric comparator, a record's mean and variance are those of its samples, and min and max are their extremes |
| Reports.CollectPointwise | bench/parse-results.mjs:20-161 | a run of calls succeeds iff every call does, and then keeps each call's records under its metric name, in order |
| Reports.CollectSnoc | bench/parse-results.mjs:20-161 | running one more call appends its records, or throws that call's error |
| Reports.CollectFailureSticks | bench/parse-results.mjs:20-161 | once one call throws, the run throws with that error |
| Reports.KeptNames | bench/parse-results.mjs:197 | without `skipControl` every name is kept |
| Reports.KeptNamesMembers | bench/parse-results.mjs:196-197 | the kept names are the names other than a skipped `control` |
| ParseResults.ParseBenchRuns | bench/parse-results.mjs:194-211 | the method stores what `Parsed` specifies: one record per kept key in key order, or the first failure |
| ParseResults.ParsedFailureSticks | bench/parse-results.mjs:196-199 | once a prefix of the keys fails, the whole call fails with that error |
| ParseResults.ParsedSucceedsIff | bench/parse-results.mjs:196-199 | the call succeeds exactly when every kept target's record can be built |
| ParseResults.ParsedOrder | bench/parse-results.mjs:195-198 | on success, one record per kept key, in `Object.keys` order |
| ParseResults.ParsedRecords | bench/parse-results.mjs:198-209 | on success, the record under a name is the one built from that name's reports |
| ParseResults.ParsedNames | bench/parse-results.mjs:197 | a call that skips `control` stores no record for it; one that does not skip stores one record per key |
| ParseResults.Series | bench/parse-results.mjs:178-187 | the chart series is each record's p95 in order; for `memory` it is minus control's memory p95, and it fails iff that record is missing while there are records |
| ParseResults.ChartSeries | bench/parse-results.mjs:179-186 | the `reduce` over one metric's records computes `Series` |
| ParseResults.ParsedRanks | bench/parse-results.mjs:198-209 | every record a call stores has exactly the ranks 25, 50, 90, 95 and 99 |
| ParseResults.ParsedAllPointwise | bench/parse-results.mjs:20-161 | the `parsed` object exists iff every metric's call succeeds, and then holds each call's records under its metric name, in metric order |
| ParseResults.ParsedAllGraphable | bench/parse-results.mjs:20-161 | every record in `parsed` has a p95 |
| ParseResults.ParseAll | bench/parse-results.mjs:20-161 | the calls, run in metric order, compute `ParsedAll` |
| ParseResults.ControlMemory | bench/parse-results.mjs:182 | `memory.control`, when present, is a record with a p95 |
| ParseResults.Charts | bench/parse-results.mjs:177-187 | `data` has one series per metric, in the order of `parsed`, each as long as that metric's records |
| ParseResults.ChartAll | bench/parse-results.mjs:177-187 | the `forEach` over `parsed` computes `Charts` |
| ParseResults.ChartsFailureSticks | bench/parse-results.mjs:178-187 | once one metric's series throws, building `data` throws with that error |
| ParseResults.Charted | bench/parse-results.mjs:20-187 | the chart data exists only when reports for `control` were collected (line 175); it has one series per metric, in metric order, each with one value per target the metric keeps |
| ParseResults.ChartData | bench/parse-results.mjs:20-187 | parsing every metric, reading `results.control.length` and building the series compute `Charted` |
| Results.ParseBenchRuns | bench/results.mjs:46-61 | the method stores what `Stored` specifies over the fixed target list |
| Results.StoredFailureSticks | bench/results.mjs:47-50 | once a prefix of the names fails, the whole call fails with that error |
| Results.StoredSucceedsIff | bench/results.mjs:47-50 | the call succeeds exactly when every kept name has reports and its record can be built |
| Results.StoredSnoc | bench/results.mjs:47-59 | a successful call extends the call over all but the last name by at most that name's record |
| Results.StoredRecords | bench/results.mjs:47-59 | on success, one record per kept name, in order, each built from that name's reports |
| Results.KeptTargets | bench/results.mjs:47-48 | over the target list, a skipping call keeps exactly the two SDK targets and a non-skipping call keeps all three |
| Results.ParsedTargets | bench/results.mjs:47-59 | a successful call stores the two SDK targets in order, and `control` first unless it skips it |
| Results.ParsedRecordRanks | bench/results.mjs:54-58 | every stored record has ranks 25, 50, 90 and 99 and no p95 |
| Results.MissingTargetFails | bench/results.mjs:50 | a kept target with no reports makes the call fail |
| Results.StoredAllPointwise | bench/results.mjs:11-30 | the run succeeds iff every metric's call does, and then holds each call's records under its metric name, in metric order |
| Results.ParseAll | bench/results.mjs:11-30 | the calls, run in metric order over the target list, compute `StoredAll` |
| Results.ParseAllNeedsEveryTarget | bench/results.mjs:12 | a target with no reports makes the run throw, since the first call keeps `control` |
| Results.ParseAllHasNoP95 | bench/results.mjs:11-30 | no record of any metric has a p95 |
| Instrumentation.Blanks | src/shared/run.js:15-20 | the starting report has exactly one all-null record per key of `fns` |
| Instrumentation.CutJoins | src/shared/run.js:33-129 | the service blocks are well formed and run the 23 scheduled steps in order |
| Instrumentation.ScheduleDistinct | src/shared/run.js:33-129 | the 23 scheduled step names are pairwise different |
| Instrumentation.ServiceNeedsSteps | src/shared/run.js:22-25 | a service that completes found each of its steps among the keys of `fns` |
| Instrumentation.PipelineNeedsSteps | src/shared/run.js:33-135 | a completed run yields one result per service and found every step among the keys of `fns` |
| Instrumentation.PipelineFailureSticks | src/shared/run.js:33-129 | a throw in one service aborts the rest of the run with that error |
| Instrumentation.MissingPhasesFail | src/shared/run.js:84-129 | a handler with no CloudFormation or no STS phases makes `run` throw |
| Instrumentation.RecordedDerives | src/shared/run.js:26-31 | a recorded step holds `time = timeEnd - timeStart` and `memory = memoryEnd - memoryStart`; a non-decreasing clock makes `time` non-negative |
| Instrumentation.MemoryMayShrink | src/shared/run.js:30 | a step's memory change is negative when resident memory shrinks |
| Instrumentation.StampsOrdered | src/shared/run.js:13-133 | with a non-decreasing clock, start precedes each step's start, which precedes its end, which precedes end |
| Instrumentation.StampedOthers | src/shared/run.js:22-31 | a step that is not run keeps its record |
| Instrumentation.StampedAt | src/shared/run.js:22-31 | with distinct names, the i-th step run holds the i-th pair of clock and memory readings |
| Instrumentation.CompletedReport | src/shared/run.js:11-133 | after a completed run every key keeps a record; scheduled steps hold consecutive readings in order; the others stay blank |
| Instrumentation.StepNamesWithin | src/shared/run.js:33-129 | when every step of every block is a key of `fns`, so is every scheduled step name |
| Instrumentation.CompletedNeedsSchedule | src/shared/run.js:33-129 | a completed run found every one of the 23 scheduled phases in `fns` |
| Instrumentation.RunLeavesCompletedReport | src/shared/run.js:11-133 | after a completed run the i-th scheduled step holds the readings taken i pairs after the first, and every other record of `fns` is still blank |
| Runner.Harness.Begin | src/shared/run.js:11-20 | the report holds the request id, start is the first clock reading, and each key of `fns` gets a blank record |
| Runner.Harness.RecordStart | src/shared/run.js:22-25 | throws iff the step has no record; otherwise stamps memoryStart and timeStart with the next readings |
| Runner.Harness.RecordEnd | src/shared/run.js:26-31 | stamps timeEnd and memoryEnd and derives time and memory, where a null start counts as 0 |
| Runner.Harness.Step | src/shared/run.js:34-36 | `recordStart`, then the phase, then `recordEnd`; the result is the `Call` outcome |
| Runner.Harness.RunService | src/shared/run.js:33-48 | one service's steps in order; the result is the `Service` outcome and the step records are stamped |
| Runner.Harness.RunBlocks | src/shared/run.js:33-129 | every service in order; the result is the `Pipeline` outcome and the stamps are `BlocksStamped` |
| Runner.Harness.Run | src/shared/run.js:1-135 | `run(fns, context)`: result `Pipeline(fns, Blocks)`; on success every step is stamped in schedule order and `end` is set |
| Telemetry.FirstMatchIsLeftmost | src/lambdas/invoker/index.mjs:3-4 | `match` gives null iff the pattern matches nowhere, and otherwise the whole run of digits and dots at the leftmost match |
| Telemetry.FirstMatchIsNumerals | src/lambdas/invoker/index.mjs:3-4 | a match is a non-empty run of digits and dots |
| Telemetry.ReadsMarkedValue | src/lambdas/invoker/index.mjs:22-24 | marker, then digits, then unit, with no earlier match, yields exactly those digits |
| Telemetry.NumberOfNatString | src/lambdas/invoker/index.mjs:24 | `Number(String(n))` is `n` |
| Telemetry.TwoDotsIsNaN | src/lambdas/invoker/index.mjs:24 | a matched run with two dots gives NaN |
| Telemetry.ReadNumber | src/lambdas/invoker/index.mjs:22-30 | a value is read iff the pattern matches somewhere, and it is a number or NaN |
| Telemetry.ReadsWholeNumber | src/lambdas/invoker/index.mjs:22-30 | a log tail with a whole number between marker and unit, and no earlier match, reads back that number |
| Telemetry.Failed | src/lambdas/invoker/index.mjs:14 | the check throws iff Payload is undefined or null; otherwise it is true iff `errorType` or `FunctionError` is truthy |
| Invoker.Handler | src/lambdas/invoker/index.mjs:6-31 | a failed invoke is refused; otherwise the report comes back with invokeStart and invokeEnd set and peakMemory and init set when read; no other field changes; the stamps are ordered on a monotone clock |
| Orchestrator.UpdatedEnvironment | bench/index.mjs:130 | the new environment keeps every variable and sets `UPDATED` to the stamp; it throws iff config or its Environment is missing |
| Orchestrator.WaitFor | bench/index.mjs:139-149 | at most 32 probes; it stops at the first probe that throws or says `Successful`, and gives up after 32 pending probes |
| Orchestrator.UpdatedNeedsSuccessfulProbe | bench/index.mjs:128-137 | a completed update had every call succeed and a `Successful` probe among the first 32 |
| Orchestrator.UpdateAndWait | bench/index.mjs:128-137 | the method's result is the `Updated` outcome |
| Orchestrator.SampleNeedsBothMarkers | bench/index.mjs:57-89 | a sample is kept only if the update succeeded, the invoke did not fail, and both markers are in the log tail; it is the report with `end`, `peakMemory` and `coldstart` set |
| Orchestrator.WarmIsDropped | bench/index.mjs:81-88 | a warm invocation, with no init duration in its tail, never yields a sample |
| Orchestrator.Sample | bench/index.mjs:57-94 | the method's result is the `Sampled` outcome |
| Orchestrator.AfterRoundKeys | bench/index.mjs:53-56 | after one round every target has a list, and no other key appears |
| Orchestrator.AfterRoundAt | bench/index.mjs:53-89 | in one round a target's list grows by at most its own sample, and other lists do not change |
| Orchestrator.CollectedAt | bench/index.mjs:48-108 | after the rounds, each target's list is its prior list followed by its kept samples, in round order |
| Orchestrator.CollectedElsewhere | bench/index.mjs:48-108 | a key that is not a target keeps its list |
| Orchestrator.SuccessesBound | bench/index.mjs:48-89 | a target never holds more samples than there were rounds |
| Orchestrator.BenchmarkStats | bench/index.mjs:15-108 | starting from `{}`, ten rounds leave exactly the targets as keys, each with at most 10 samples of its own |
| Orchestrator.Benchmark.EnsureDummyRow | bench/index.mjs:31-46 | the dummy row is written only when missing; an existing row is never rewritten |
| Orchestrator.Benchmark.Target | bench/index.mjs:54-93 | `stats` becomes `AfterTarget`: the list is initialised when missing, and the sample is pushed when kept |
| Orchestrator.Benchmark.Round | bench/index.mjs:53-95 | `stats` becomes `AfterRound` over the targets, in order |
| Orchestrator.Benchmark.Rounds | bench/index.mjs:48-108 | exactly `runs` rounds: `stats` becomes `Collected` |
| Orchestrator.Benchmark.Run | bench/index.mjs:27-108 | `main` through the last round: the dummy row is ensured, then the rounds run |
| Readiness.Checking | bench/wait.mjs:2-4 | the checked functions are exactly `n('dummy-' + name)` for the targets other than `control` |
| Readiness.CheckingAppend | bench/wait.mjs:2-4 | the checked list keeps the target order: checking a concatenation is concatenating the checked lists |
| Readiness.CheckingOne | bench/wait.mjs:2-4 | one name gives no check for `control` and its dummy function otherwise |
| Readiness.CheckingTargets | bench/wait.mjs:2-4 | over the target list: the dummies of the two SDK targets |
| Readiness.RoundIsAll | bench/wait.mjs:12-22 | a round succeeds iff every function is `Active`; otherwise it fails as one of the checks does |
| Readiness.Check | bench/wait.mjs:1-33 | at most 11 rounds with a sleep between; returns iff a round is ready; another error is rethrown at once; gives up after the 11th retry |
| Readiness.ReadyRoundEnds | bench/wait.mjs:22 | a round in which every function is `Active` ends the wait |
| Readiness.RejectedCallFails | bench/wait.mjs:12-22 | a `GetFunction` call that rejects (a function the account lacks, say), checked after functions that are all `Active`, fails the round with that rejection; unless its message is `retry_checks`, that is not the retry marker, so the wait rethrows it at once |
| Seed.Find | bench/seed-data.mjs:12 | `find` gives nothing iff no parameter name ends with the suffix |
| Seed.FindIsFirst | bench/seed-data.mjs:12 | `find` gives the value of the first parameter whose name ends with the suffix |
| Seed.StepsTouchOwnStore | bench/seed-data.mjs:12-88 | each step touches only its own store |
| Seed.SeededResources | bench/seed-data.mjs:8-89 | a completed seeding leaves the expected row, a one-megabyte object and the role in place |
| Seed.SeedIdempotent | bench/seed-data.mjs:8-89 | with no faults, seeding a second time writes nothing |
| Seed.RowWrittenOnlyWhenStale | bench/seed-data.mjs:24-34 | the row is written only when missing or different, and then with the expected item |
| Seed.WrongLengthStops | bench/seed-data.mjs:47-53 | an object of the wrong length is not republished, and seeding stops before IAM |
| Seed.ObjectWrittenOnlyAfter404 | bench/seed-data.mjs:42-61 | the object is written only after a 404, and then with exactly one megabyte |
| Seed.RoleCreatedOnlyAfter404 | bench/seed-data.mjs:66-88 | the role is created only after a 404; any other `GetRole` error is thrown |
| Seed.EarlierErrorStops | bench/seed-data.mjs:12-88 | an error in an earlier step prevents the later steps |
| Seed.Account.SeedTable | bench/seed-data.mjs:12-34 | the stores and the throw are as `TableStep` specifies |
| Seed.Account.SeedObject | bench/seed-data.mjs:39-61 | the stores and the throw are as `ObjectStep` specifies |
| Seed.Account.SeedRole | bench/seed-data.mjs:66-88 | the stores and the throw are as `RoleStep` specifies |
| Seed.Account.SeedData | bench/seed-data.mjs:8-89 | the stores and the throw are as `Seeded` specifies |
| Fixtures.ZerosBase64Shape | bench/seed-data.mjs:22 | the base64 of n zero bytes has length 4*ceil(n/3), is all 'A' before padding, and decodes to n bytes |
| Fixtures.RowDataIsInflated | bench/seed-data.mjs:20-22 | the row data is 136536 characters, more than the 102400 bytes it stands for, and decodes to 102400 bytes |
| Fixtures.ObjectBody | bench/seed-data.mjs:58 | the object body is exactly one megabyte of 'A' |
| Js.LookupAfterSet | src/plugins/lambdas.mjs:18-22 | after a write, the path holds the written value |
| Js.LookupOtherAfterSet | src/plugins/lambdas.mjs:18-22 | a write leaves every path that branches off before the written key as it was |
| Js.WritableWhereReadable | src/plugins/lambdas.mjs:18-22 | a write to a path that can be read does not throw |
| Js.SetToCurrentIsIdentity | src/plugins/lambdas.mjs:18-22 | writing the value a path already holds changes nothing |
| Plugin.NamesStartWithControl | src/plugins/lambdas.mjs:1-9 | the targets begin with `control` and are pairwise different |
| Plugin.LambdasFor | src/plugins/lambdas.mjs:12 | one custom Lambda per name, in order, with source `src/lambdas/<name>` |
| Plugin.PatchLeavesOthers | src/plugins/lambdas.mjs:17 | a resource that is not a function is left as it is |
| Plugin.PatchSetsTwoFields | src/plugins/lambdas.mjs:17-22 | a patched function carries its Architect name and the table reference; every other variable and top-level field is unchanged |
| Plugin.PatchIdempotent | src/plugins/lambdas.mjs:17-22 | patching a patched resource changes nothing |
| Plugin.PatchAllPointwise | src/plugins/lambdas.mjs:16-24 | a full pass succeeds iff every resource patches; it keeps names and positions and patches each resource on its own |
| Plugin.PatchAllIdempotent | src/plugins/lambdas.mjs:15-25 | the deploy hook is idempotent |
| Plugin.PatchAllFailureSticks | src/plugins/lambdas.mjs:16-24 | a throw on one resource makes the whole pass throw |
| Plugin.ThrowKeepsName | src/plugins/lambdas.mjs:18-22 | when the table reference cannot be written, the resource keeps its new `FunctionName`, has no table reference, and keeps every top-level field but `Properties` |
| Plugin.ThrowBeforeNaming | src/plugins/lambdas.mjs:17-18 | a throw before the `FunctionName` write leaves the resource as it was |
| Plugin.Template.DeployStart | src/plugins/lambdas.mjs:15-25 | on success the resources become `PatchAll` of the old ones; on a throw at resource i, those before i are patched, resource i keeps the write it had made, and the rest are unchanged |

## Left out

- Oracles. The outside world enters the model as first-order data:
  - `Date.now()` and `process.memoryUsage.rss()` are streams of readings;
  - the AWS answers are an `Attempt` per round and target, a table of `GetFunction` answers per round, and `Faults`;
  - each SDK phase is a table of outcomes by argument list (`Phase`).
- Network calls, logging, and the one-second `setTimeout` sleeps. The sleeps are only counted.
- Concurrency. `Promise.all` over the targets (bench/index.mjs:53-95) and over the readiness checks (bench/wait.mjs:12-22) is modelled in list order. A round's failure is the first rejection in list order, not the first in time.
- Floating point:
  - samples are whole numbers in the statistics;
  - mean and variance are exact quotients;
  - `toFixed(2)` is not modelled;
  - `Number` of a log value is a decimal real or NaN.
- Stats.VarianceNonNegative: the record carries the variance; `Math.sqrt` (the standard deviation itself) is not modelled.
- Foreign libraries. The `percentile` package is a parameter of the statistics, with no property assumed of it. Chart generation, the sha256 checksum and the file writes are not part of this model.
- The rest of `main` in bench/index.mjs is not modelled:
  - the SSM parameter lookup (lines 23-25);
  - the `GetItem`/`PutItem` failures of the dummy-row check;
  - the `BatchWriteItem`, the results file and the call to `parseResults` (lines 113-124).
- bench/index.mjs:99-104: `process.exit(1)` is not modelled, because `bench` catches every error.
- The SDK handlers under `src/lambdas/*` and their phase bodies are not part of this model. Only their shape, which phases they supply, is.
- Constants of src/shared/run.js:138-173: only `IAM.RoleName` and `DynamoDB.Key` are modelled. The CloudFormation stack, the descriptions and the bucket name are not.
- Invoker.Handler: a `Payload.report` that is an array is a throw in the model, because `Js.Set` writes only to objects. JavaScript adds the four properties to the array and returns it. For `undefined`, `null` and primitives both throw, as strict-mode modules do.
- Orchestrator.Sample: the same gap for bench/index.mjs:70-89. A `Payload.report` that is an array is a throw in the model (`Orchestrator.Sampled` writes `end` with `Js.Set`), while JavaScript sets `end`, `peakMemory` and `coldstart` on the array and pushes it onto the target's list.
- Plugin.Template.DeployStart: `Js.Set` refuses arrays, so two array cases of src/plugins/lambdas.mjs:17-22 differ. First, when `Properties.Environment.Variables` is an array, the model's `Plugin.Patch` throws "cannot create property 'BENCHMARK_TABLE_NAME'" and `DeployStart` reports a throw at that resource. JavaScript adds the property to the array and the hook completes. Second, when `Properties` is an array, the model throws at the line-18 write and leaves the resource unchanged. JavaScript puts `FunctionName` on the array and throws only at the line-19 read of `Environment.Variables`.
- Reports.Extract: a sample that JavaScript computes as `NaN` is a failure in the model, while the script stores it. `NaN` sorts after the digits and its `toFixed(2)` is `"NaN"`. These are `coldstart`, `executionTimeAll`, `totalTimeAll` and, in bench/results.mjs, `totalTime`, when a top-level number they subtract is missing. A sample that is `undefined` fails in both: `.sort()` puts it last, and `toFixed` of the maximum throws. Samples in the model are whole numbers.
- Results with a repeated key cannot come from a JavaScript object. The model does not exclude them; for them it stores one record per entry, where JavaScript keeps one per key.
- bench/parse-results.mjs:14: reading `results` from `tmp/latest-results.json` when none is passed is not modelled. The collected reports are an argument.
- Orchestrator.UpdatedEnvironment: spreading a non-object `Variables`, a string or an array, contributes no fields in the model. JavaScript's `{ ...v }` adds the index keys of a string or an array; those are not modelled.
- `Error('Invoke failed:', name)` takes only its first argument as the message, so the target name is not part of the thrown message. The model keeps that message.
- The fields the scripts read are used as each script names them. In bench/parse-results.mjs, `coldstart` is recomputed from `invokeStart` and `init`, which come from the invoker Lambda. The older orchestrator writes `end` and `coldstart` itself. No lemma follows a report across both paths.

## Findings

| source | as written | input that shows it | evidently intended | confidence | as-written member | corrected member |
|---|---|---|---|---|---|---|
| bench/parse-results.mjs:199 (also bench/results.mjs:50) | `.map(mapFn).sort()` sorts the numeric samples with the default comparator, which compares their decimal strings | samples [9, 10]: the sorted array is [10, 9], so min is 10 and max is 9 (the median and the percentiles read the same misordered array) | a numeric sort `(a, b) => a - b`, so that min, max and median are the numeric ones | high for the ordering; not executed | Stats.DefaultOrderMisplacesExtremes | Stats.NumericExtremes |
