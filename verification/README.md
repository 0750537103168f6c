# A verified model of pepper's hard core

This project models the parts of pepper whose correctness rests on invariants over whole runs, and proves what those
parts promise. Each module follows one component:

- **Compute jobs** (`ComputeJobs`, `ComputeRuns`, `ComputeOnce`, `GuestCids`, `LogicalSize`, `ShellQuote`, `Scheduler`): the life of a job as a state
  machine in which every database load, every persist and every abort is its own step; guest context ids; the size of a
  content graph; the command line handed to the guest shell; placement.
- **Erasure planner** (`ErasurePressure`, `Hysteresis`, `ErasurePlanner`): pressure under saturating 64-bit arithmetic,
  plan switching over arbitrary clocks, and the counters fed by guards.
- **Block storage helpers** (`BatchWriter`, `Caches`): the batching writer, the payload cache and the owner manifest cache.
- **S3 benchmark** (`LoadGenerator`, `Dataset`, `CacheFill`, `Workload`): generated bodies and their multipart form,
  percent encoding, dataset syntax, query generation and the simulated client cache.
- **Diagnostics** (`Pagination`): cursor pagination and text truncation.
- **Parity gate** (`Suites`, `Samples`, `Parity`, `ParityReport`): suite validation, aggregation and verdicts.

`Common`, `Arithmetic`, `ByteOrder` and `Decimal` hold what several modules share. Code that the program writes as loops or as
methods that change fields is written that way here and proved against a function of its inputs or of its old state;
the laws are lemmas about those functions. Floating point values are real numbers. I/O, clocks, random draws, hashes
and signatures are parameters, so every statement holds for all of their values.

Seven promises turn out to hold only under a condition. For each there is a lemma with the condition, exact unless said otherwise,
and one with an input that breaks it:

- Inserting a submitted job is a step forward if and only if its id has no record, or a terminal one, or a queued one of
  the same specification; over a whole run, statuses change only as allowed if and only if no submission inserts over a
  running record (`InsertForwardIff`, `StatusesForwardIff`). The lookup and the insert of a submission are separate, so two
  overlapping submissions of one id can put a running job back to queued (`OverlappingSubmissions`). Runs without such an
  overlap are always fine (`StatusesMoveForward`). Terminal statuses, receipts that verify and canceled jobs that never
  start do not depend on it (`TerminalForGood`, `ReceiptsVerify`, `CanceledNeverStarts`).
- No job is executed twice, whatever crashes and restarts, as long as submissions of one id do not overlap and none starts
  before the recovery scan (`ExecutedAtMostOnce`). The start check refuses only canceled jobs, so each half is needed
  (`ExecutedTwiceByOverlap`, `ExecutedTwiceByRecovery`). This condition is sufficient; a run that breaks it may still execute
  every job once.
- A write keeps a stored receipt if and only if it is another job's record, or has another status, or carries that receipt
  (`ReceiptKeptIff`). A guest event loaded before the receipt was stored and written afterwards takes it away
  (`ReceiptLost`).
- Raising the configured gateway capacity keeps direct fanout if and only if a capacity was configured before, or the
  new one is so large that no input reaches the threshold (`RaisingCapacityKeepsDirect`,
  `UnconfiguredCapacityLeavesDirect`).
- After a call of the plan switch the pending counter is the trailing run of its candidate if and only if the candidate was
  not the current plan and no switch was due (`PendingCounterIsTrailingRunIff`, `PendingCounterDiffers`).
- A walk over the publication intents visits every intent once if and only if every id that ends a page before the last
  one has at most 256 bytes, because cursors are shortened to that length (`IntentWalkIff`, `LongIdsNeverEnd`).
- Whatever the outcomes of its requests, the successes of a cache-fill run equal its cached blocks if and only if no query
  lists a block twice, and its logical bytes are successes times 8 MiB if and only if every listed block is full
  (`SuccessesEqualCachedIff`, `ReadsAreWholeIff`, `RepeatedBlockBreaks`, `ShortBlockBreaks`). Generated queries over parsed
  datasets meet both (`GeneratedRunsAreExact`, `Benchmark`).

The planner's byte totals wrap around at 64 bits; `TotalExactIff` states when they are the true sums.

## Model

| member | source | states |
|---|---|---|
| `ComputeJobs.StepKeeps` | crates/pepper-agent/src/compute.rs:353-440 | every step of every actor (task, submission, cancellation, recovery, restart, lock-free writer) keeps the protocol invariant and removes no record and no terminal status; statuses and specifications change only as allowed while submissions insert over no running record and no other specification |
| `ComputeJobs.PersistForward` | crates/pepper-agent/src/main.rs:5709-5738 | writing any record that was loaded earlier, however late, leaves a sound table: terminal statuses stay, and any receipt then stored names its job and status |
| `ComputeJobs.TaskKeeps` | crates/pepper-agent/src/compute.rs:850-882 | each step of an execution (start, run, fail, time out, finish, wrap up an error) keeps the invariant, even between a load and the write that depends on it |
| `ComputeJobs.FinishPersistOk` | crates/pepper-agent/src/compute.rs:1201-1238 | the final record with its receipt may be written and the lock given back in every state of the invariant, also when a cancellation got in first |
| `ComputeJobs.CancelKeeps` | crates/pepper-agent/src/compute.rs:690-815 | so does every phase of a cancellation, including one that is given up |
| `ComputeJobs.AgentKeeps` | crates/pepper-agent/src/compute.rs:353-398 | so do recovery after a restart and late writers |
| `ComputeJobs.SubmitKeeps` | crates/pepper-agent/src/network_services.rs:577-635 | so do the lookup, the refusal, the insert and the spawn of a submission, each a step of its own |
| `ComputeRuns.RunInvariant` | crates/pepper-agent/src/compute.rs:353-440 | the invariant holds in every state of every run, with its parts about status order and specifications as long as submissions insert over no running record and no other specification |
| `ComputeRuns.TerminalForGood` | crates/pepper-agent/src/main.rs:5709-5738 | in every run, whatever overlaps, records stay and a terminal status never changes |
| `ComputeRuns.StatusesMoveForward` | crates/pepper-agent/src/compute.rs:690-815 | when no submission of an id starts while another of that id is between its lookup and its insert, a job keeps its specification and moves only queued to running, canceled or failed and running to a terminal status |
| `ComputeRuns.StatusesForwardIff` | crates/pepper-agent/src/network_services.rs:577-635 | over any run, statuses change only as allowed if and only if no submission inserts its record over a running one |
| `ComputeRuns.InsertForwardIff` | crates/pepper-agent/src/network_services.rs:584-624 | in any reachable state, an insert is a step forward if and only if there is no record, or it is terminal, or it is still queued with the same specification |
| `ComputeRuns.OverlappingSubmissions` | crates/pepper-agent/src/network_services.rs:577-635 | an eight-step run with two overlapping submissions that takes a job from running back to queued |
| `ComputeRuns.SubmitIdempotent` | crates/pepper-agent/src/network_services.rs:577-635 | without overlap, from the moment a job exists submitting it again returns its current record, another specification is refused, and no insert of it is pending |
| `ComputeRuns.CanceledNeverStarts` | crates/pepper-agent/src/compute.rs:850-882 | in every run, a job canceled before a task has begun it is never begun afterwards |
| `ComputeRuns.StartingIsNotCanceled` | crates/pepper-agent/src/compute.rs:858-869 | in every run, no cancellation is stored while a task is between its start check and the write that says running |
| `ComputeRuns.ReceiptsVerify` | crates/pepper-agent/src/compute.rs:221-245 | every receipt stored in any state of any run names its job and that job's terminal status and passes verification, and every succeeded job has one |
| `ComputeRuns.ReceiptKeptIff` | crates/pepper-agent/src/main.rs:5709-5738 | a step of any run keeps a stored receipt if and only if it writes nothing, another job, another status or that receipt |
| `ComputeRuns.ReceiptLost` | crates/pepper-agent/src/compute.rs:1483-1491 | a run without overlap in which a guest event loaded early and written late removes a stored receipt |
| `ComputeRuns.TasksWithinPermits` | crates/pepper-agent/src/compute.rs:400-440 | in every state of every run there are no more tasks than queue permits, and every guest id is in range and held by a task of its own |
| `ComputeRuns.AllocationSucceedsInEveryRun` | crates/pepper-agent/src/compute.rs:1776-1802 | so no allocation of any run fails, and it takes an id that no other task holds |
| `ComputeOnce.ExecutedAtMostOnce` | crates/pepper-agent/src/compute.rs:850-882 | over any run with any crashes, no job is executed twice, provided that submissions of one id do not overlap and none starts before the recovery scan |
| `ComputeOnce.ExecutedTwiceByOverlap` | crates/pepper-agent/src/network_services.rs:577-635 | a run after recovery in which two overlapping submissions execute one job twice |
| `ComputeOnce.ExecutedTwiceByRecovery` | crates/pepper-agent/src/main.rs:1411-1428 | a run without overlap in which a submission served before the recovery scan is executed twice |
| `GuestCids.ProbesCount` | crates/pepper-agent/src/compute.rs:1784-1798 | the first n probes are n different ids, up to the whole range |
| `GuestCids.VacantProbeExists` | crates/pepper-agent/src/compute.rs:1784-1798 | with at most `limit` ids taken, one of `limit` + 1 probes is free |
| `GuestCids.Allocator.FindVacant` | crates/pepper-agent/src/compute.rs:1784-1798 | the circular search stops at the first free probe or after exactly limit + 1 taken ones |
| `GuestCids.Allocator.Allocate` | crates/pepper-agent/src/compute.rs:1776-1802 | fails exactly when all limit + 1 probes are taken, otherwise takes the first free one; ids stay in range and no two live guards share one |
| `GuestCids.Allocator.Drop` | crates/pepper-agent/src/compute.rs:1766-1774 | a dropped guard frees its own id and no other |
| `LogicalSize.Visit` | crates/pepper-agent/src/compute.rs:2673-2705 | one block is usable exactly when it can be read and passes the checks of its codec, and then yields its leaf size, or the linked entries of a directory |
| `LogicalSize.LogicalCidSize` | crates/pepper-agent/src/compute.rs:2660-2709 | terminates on every link graph; succeeds exactly when the reachable set is usable, has at most 100,000 members and its sizes fit 64 bits, and then returns the sum over the distinct reachable leaves |
| `LogicalSize.TooManyReachable` | crates/pepper-agent/src/compute.rs:2668-2672 | never succeeds when more than 100,000 blocks are reachable |
| `LogicalSize.ClosedContains` | crates/pepper-agent/src/compute.rs:2660-2709 | a set closed under links that holds the root holds everything reachable |
| `ShellQuote.EscapeReads` | crates/pepper-agent/src/compute.rs:2657-2659 | inside single quotes the reader of section 2.2.2 of the POSIX Shell Command Language gives an escaped word back and stops at its closing quote |
| `ShellQuote.CommandLineRoundTrip` | crates/pepper-agent/src/compute.rs:972-978 | a shell reads the command line back as exactly the argument vector and leaves the rest of the script untouched, if and only if no argument holds NUL |
| `ShellQuote.CommandLineInjective` | crates/pepper-agent/src/compute.rs:972-978 | different NUL-free vectors give different command lines |
| `Scheduler.RankSorts` | crates/pepper-agent/src/compute.rs:85-96 | ranking permutes the offers into order of local bytes, delay, parallelism and node id |
| `Scheduler.RankStable` | crates/pepper-agent/src/compute.rs:85-96 | offers that tie keep their order |
| `Scheduler.Schedule` | crates/pepper-agent/src/compute.rs:85-218 | stops at the first ranked offer that does not fail; the attempts are exactly the failures before it in rank order and one acceptance; reports no offers or all failed exactly then |
| `Scheduler.WinnerIsBest` | crates/pepper-agent/src/compute.rs:110-218 | the chosen offer is an accepted one, and every accepted offer that ranks above it was tried before it and failed or has no address |
| `ErasurePressure.PressureMonotone` | crates/pepper-agent/src/ec_planner.rs:295-346 | gateway pressure stays within 0..1000 and grows with encoded bytes and active work under saturating arithmetic |
| `ErasurePressure.PressureAntitoneInCapacity` | crates/pepper-agent/src/ec_planner.rs:295-346 | and falls with non-zero capacity |
| `ErasurePressure.RaisingCapacityKeepsDirect` | crates/pepper-agent/src/ec_planner.rs:231-272 | raising capacity keeps direct fanout for every load and input if and only if the old capacity was non-zero or the new one's peak pressure stays below 850 |
| `ErasurePressure.UnconfiguredCapacityLeavesDirect` | crates/pepper-agent/src/ec_planner.rs:231-272 | from capacity zero it can be left otherwise |
| `ErasurePressure.PressureBelowPeak` | crates/pepper-agent/src/ec_planner.rs:295-346 | no load or input pushes pressure over the peak of a capacity |
| `ErasurePressure.FailureEwmaBounded` | crates/pepper-agent/src/ec_planner.rs:444-452 | the failure average stays within 0..1000 over any outcomes |
| `ErasurePressure.SuccessesDrainFailureEwma` | crates/pepper-agent/src/ec_planner.rs:429-452 | every success lowers a positive average and 41 in a row bring any average to 0 |
| `ErasurePressure.DrainsFrom41` | crates/pepper-agent/src/ec_planner.rs:429-452 | after a lone failure the average is drained exactly from the 41st success on |
| `ErasurePressure.FailuresRaiseFailureEwma` | crates/pepper-agent/src/ec_planner.rs:429-452 | failures raise an average below 993, and after 41 in a row it is at least 993 and stays where it is |
| `ErasurePressure.FailingTargetForcesDirect` | crates/pepper-agent/src/ec_planner.rs:159-182 | a stripe with such a target has direct fanout as its candidate whatever the other inputs |
| `Hysteresis.SwitchIff` | crates/pepper-agent/src/ec_planner.rs:348-373 | a call switches to its candidate if and only if that is not current, the last k candidates were all it and the dwell time has passed |
| `Hysteresis.PendingCounter` | crates/pepper-agent/src/ec_planner.rs:348-373 | the pending counter is the trailing run of the pending plan, or 0 when that is the current plan |
| `Hysteresis.PendingCounterIsTrailingRunIff` | crates/pepper-agent/src/ec_planner.rs:348-373 | after a call it equals the trailing run of the call's candidate if and only if that was not the current plan before the call and no switch was due |
| `Hysteresis.PendingCounterDiffers` | crates/pepper-agent/src/ec_planner.rs:348-373 | a first sample of the initial plan has a run of 1 and a counter of 0 |
| `Hysteresis.SwitchBudget` | crates/pepper-agent/src/ec_planner.rs:348-373 | k times the switches plus the pending counter never exceeds the calls |
| `Hysteresis.SwitchCount` | crates/pepper-agent/src/ec_planner.rs:348-373 | n calls make at most n / k switches |
| `Hysteresis.SwitchesDwell` | crates/pepper-agent/src/ec_planner.rs:348-373 | for any clock, even one that jumps back, consecutive switch times differ by at least the dwell time |
| `Hysteresis.SwitchesTakeTime` | crates/pepper-agent/src/ec_planner.rs:348-373 | so the number of switches is bounded by the time of the last one |
| `Hysteresis.PatientCandidatePrevails` | crates/pepper-agent/src/ec_planner.rs:348-373 | a candidate seen k times in a row with the dwell time over is current |
| `ErasurePlanner.TallyCounts` | crates/pepper-agent/src/ec_planner.rs:493-521 | completed and failed count exactly the guards dropped with and without a completion mark |
| `ErasurePlanner.TallyWraps` | crates/pepper-agent/src/ec_planner.rs:493-521 | each byte total is the sum over the dropped guards modulo 2^64 |
| `ErasurePlanner.TotalExactIff` | crates/pepper-agent/src/ec_planner.rs:493-521 | and the sum itself if and only if that fits 64 bits |
| `ErasurePlanner.PlanGuard.AddGatewayBytes` | crates/pepper-agent/src/ec_planner.rs:476-478 | a guard's bytes saturate |
| `ErasurePlanner.PlanLedger.Begin` | crates/pepper-agent/src/ec_planner.rs:375-390 | keeps begun = live + completed + failed for every plan and the active counter equal to the live guards |
| `ErasurePlanner.PlanLedger.Drop` | crates/pepper-agent/src/ec_planner.rs:493-521 | likewise; the active counter cannot underflow and the outcome enters the tally once |
| `ErasurePlanner.TargetLedger.Begin` | crates/pepper-agent/src/ec_planner.rs:184-193 | every slot counts its live guards |
| `ErasurePlanner.TargetLedger.Drop` | crates/pepper-agent/src/ec_planner.rs:429-442 | and its failure average is the average of the outcomes it has seen, in order |
| `ErasurePlanner.TargetLedger.Pressure` | crates/pepper-agent/src/ec_planner.rs:159-182 | the stripe's pressure is the largest over its targets' slots |
| `ErasurePlanner.SwitchState.ApplyHysteresis` | crates/pepper-agent/src/ec_planner.rs:348-373 | the fields updated in place always hold the state reached by the whole history of samples |
| `ErasurePlanner.Planner.Select` | crates/pepper-agent/src/ec_planner.rs:200-293 | a forced plan bypasses the switch; otherwise the candidate for the live load joins the history and the plan is the one the history leads to |
| `ErasurePlanner.Planner.DropEncoding` | crates/pepper-agent/src/ec_planner.rs:454-464 | the encoder counter is the number of live encoding guards |
| `BatchWriter.Run` | crates/pepper-agent/src/network_services.rs:86-267 | for any arrival timing and store replies every request is answered exactly once, in order, in consecutive batches of 1 to 4, and the counters grow by the sum, count and maximum of the batch sizes |
| `BatchWriter.AllOrNothing` | crates/pepper-agent/src/network_services.rs:233-263 | a batch is answered all with success, request i with result i, or all with the same error |
| `BatchWriter.MixedBatchFails` | crates/pepper-agent/src/network_services.rs:146-183 | a batch that mixes encoded and logical blocks, or is encoded on a normal writer, is all errors |
| `BatchWriter.Wires` | crates/pepper-agent/src/network_services.rs:149-167 | an encoded batch is accepted exactly when every block has a CID of its codec, and pairs each block with its own CID and size |
| `BatchWriter.CallCarriesBatch` | crates/pepper-agent/src/network_services.rs:184-219 | whichever store call is chosen, it carries the whole batch in order |
| `BatchWriter.BatchMetrics.Record` | crates/pepper-agent/src/network_services.rs:106-120 | one batch enters the four counters |
| `Caches.FittingIsLongest` | crates/pepper-agent/src/block_cache.rs:64-85 | the kept part of a history is its longest suffix within the byte budget |
| `Caches.FittingIncremental` | crates/pepper-agent/src/block_cache.rs:64-85 | evicting after each admission gives the same as cutting the whole history once |
| `Caches.NewestKeptIff` | crates/pepper-agent/src/block_cache.rs:64-85 | the newest block survives its own admission if and only if it fits the budget alone |
| `Caches.BlockPayloadCache.Put` | crates/pepper-agent/src/block_cache.rs:64-85 | after any puts the cache holds exactly the longest fitting suffix of its admissions, with map, order queue and byte total in agreement, and an admitted block is present |
| `Caches.BlockPayloadCache.Get` | crates/pepper-agent/src/block_cache.rs:52-62 | returns only what the content-addressed store holds under that CID, misses only what is not kept, and counts one hit or miss |
| `Caches.OwnerManifestCache.Insert` | crates/pepper-agent/src/fast_path.rs:64-76 | the cache holds exactly the last 1,024 admissions |
| `Caches.OwnerManifestCache.Get` | crates/pepper-agent/src/fast_path.rs:60-62 | a hit is one of them and a miss is none of them |
| `LoadGenerator.BodySplit` | benchmarks/pepper-s3-throughput/src/loadgen.rs:959-986 | a body is the concatenation of the body of its first chunks and the body that starts at the next chunk |
| `LoadGenerator.WriteGenerated` | benchmarks/pepper-s3-throughput/src/loadgen.rs:938-957 | the file holds exactly the single-request body |
| `LoadGenerator.MultipartPut` | benchmarks/pepper-s3-throughput/src/loadgen.rs:562-610 | completes exactly when every part gets an entity tag, with parts 1..ceil(size / 256 MiB) whose concatenation is the single-request body; otherwise aborts at a part without one |
| `LoadGenerator.PartSizesCover` | benchmarks/pepper-s3-throughput/src/loadgen.rs:562-610 | part sizes are positive, at most 256 MiB, and sum to the object size |
| `LoadGenerator.AwsEncode` | benchmarks/pepper-s3-throughput/src/loadgen.rs:988-1002 | the byte loop computes the encoding |
| `LoadGenerator.EncodeRoundTrip` | benchmarks/pepper-s3-throughput/src/loadgen.rs:988-1002 | percent-decoding gives every byte string back in both slash modes, and only unreserved characters (section 2.3 of RFC 3986), upper-case triplets (section 2.1) and optionally '/' are emitted |
| `LoadGenerator.EncodeInjective` | benchmarks/pepper-s3-throughput/src/loadgen.rs:988-1002 | different strings never share an encoding |
| `Dataset.ParseDataset` | benchmarks/pepper-s3-throughput/src/cache_fill.rs:236-253 | accepts exactly comma-separated groups that all parse, expands them in order, and yields non-empty lists of positive multiples of the block size |
| `Dataset.DatasetRoundTrip` | benchmarks/pepper-s3-throughput/src/cache_fill.rs:236-253 | every list of valid groups is read back from its text |
| `Dataset.BlockFromGlobal` | benchmarks/pepper-s3-throughput/src/cache_fill.rs:500-512 | the subtracting loop finds the block whose global position is the index |
| `Dataset.GlobalInjective` | benchmarks/pepper-s3-throughput/src/cache_fill.rs:500-512 | no two blocks share a global position |
| `CacheFill.GenerateQuery` | benchmarks/pepper-s3-throughput/src/cache_fill.rs:514-580 | finishes exactly when its draws suffice, and then holds an ascending selection within the dataset of the drawn size that shares at least the requested overlap with the previous one; a fan-out query takes one block of every object |
| `CacheFill.Fill` | benchmarks/pepper-s3-throughput/src/cache_fill.rs:563-568 | runs out exactly when the start and all drawn blocks together are fewer than the target, and otherwise stops at the first draw that reaches it |
| `CacheFill.TakeOverlap` | benchmarks/pepper-s3-throughput/src/cache_fill.rs:514-580 | the cyclic walk takes n different blocks of the previous selection |
| `CacheFill.GenerateQueries` | benchmarks/pepper-s3-throughput/src/cache_fill.rs:514-580 | the mix has 43 queries, each with the size of its class and its overlap with the query before it, within the dataset and without repeats; it gives up only at a query whose draws do not suffice |
| `Workload.ReadsConserved` | benchmarks/pepper-s3-throughput/src/cache_fill.rs:630-764 | requested + suppressed = selected after any prefix of a run |
| `Workload.CachedExactlyAfterSuccess` | benchmarks/pepper-s3-throughput/src/cache_fill.rs:630-764 | a block is cached exactly when an earlier query fetched it with success |
| `Workload.SuppressedExactlyAfterSuccess` | benchmarks/pepper-s3-throughput/src/cache_fill.rs:630-764 | a read is suppressed exactly then |
| `Workload.SuccessAtMostOnce` | benchmarks/pepper-s3-throughput/src/cache_fill.rs:630-764 | a block fetched with success is never fetched by a later query |
| `Workload.SuccessesEqualCachedIff` | benchmarks/pepper-s3-throughput/src/cache_fill.rs:630-764 | successes equal cached blocks for all outcomes if and only if no query lists a block twice |
| `Workload.RepeatedBlockBreaks` | benchmarks/pepper-s3-throughput/src/cache_fill.rs:630-764 | a query that lists a block twice breaks it when it alone succeeds |
| `Workload.ReadsAreWholeIff` | benchmarks/pepper-s3-throughput/src/cache_fill.rs:630-764 | in any scenario logical bytes are successes times 8 MiB for all outcomes if and only if every listed block is full |
| `Workload.ShortBlockBreaks` | benchmarks/pepper-s3-throughput/src/cache_fill.rs:630-764 | a query that lists a short block breaks it when it alone succeeds |
| `Workload.FoundAtMostOnce` | benchmarks/pepper-s3-throughput/src/cache_fill.rs:630-764 | an object whose lookup succeeded is never looked up again |
| `Workload.GeneratedRunsAreExact` | benchmarks/pepper-s3-throughput/src/cache_fill.rs:630-764 | for generated queries over a parsed dataset both laws hold in every run |
| `Workload.Benchmark` | benchmarks/pepper-s3-throughput/src/cache_fill.rs:1145-1190 | from the dataset text through generated queries to the figures: reads are conserved, logical bytes are successes times 8 MiB, and in the workload scenario successes are the cached blocks |
| `Workload.OthersSuppressNothing` | benchmarks/pepper-s3-throughput/src/cache_fill.rs:630-764 | the other scenarios suppress nothing |
| `Workload.KeepInPermutation` | benchmarks/pepper-s3-throughput/src/cache_fill.rs:630-764 | the order in which fetches complete does not matter |
| `Workload.Execute` | benchmarks/pepper-s3-throughput/src/cache_fill.rs:630-764 | for any outcomes and completion orders the totals, logical bytes and final cache are those of the run, and errors are the requested reads that did not succeed plus the failed lookups |
| `Pagination.PageLimit` | crates/pepper-agent/src/diagnostics.rs:78-86 | a given limit within 1..256 is taken as it is, an absent one is 100, and anything else is refused |
| `Pagination.BoundedText` | crates/pepper-agent/src/diagnostics.rs:66-76 | the longest prefix that fits and ends between two characters |
| `Pagination.TruncateText` | crates/pepper-agent/src/diagnostics.rs:66-76 | the boundary search computes it |
| `Pagination.TruncationLosesThreeBytes` | crates/pepper-agent/src/diagnostics.rs:66-76 | on UTF-8 it gives up at most three bytes |
| `Pagination.WalkIff` | crates/pepper-agent/src/diagnostics.rs:283-314 | over any strictly ordered keys a walk ends after every matching record, once and in order, if and only if no page end before the last page is shortened |
| `Pagination.IntentWalkIff` | crates/pepper-agent/src/diagnostics.rs:283-314 | for intents: if and only if every such id has at most 256 bytes |
| `Pagination.ShortIdsVisitAll` | crates/pepper-agent/src/diagnostics.rs:283-314 | so ids of at most 256 bytes are always walked completely |
| `Pagination.LongIdsNeverEnd` | crates/pepper-agent/src/diagnostics.rs:283-314 | two ids that agree on more than 256 bytes trap a walk with one intent per page forever |
| `Pagination.SequenceWalkVisitsAll` | crates/pepper-agent/src/diagnostics.rs:446-510 | walks over repair and read-resolution records are always complete |
| `Suites.SlugInjective` | benchmarks/pepper-parity/src/schema.rs:224-229 | different cells never share a slug, whatever dashes and digits their operations hold |
| `Suites.Cells` | benchmarks/pepper-parity/src/schema.rs:337-351 | the three loops yield the matrix in order, with exactly the combinations as members |
| `Suites.Validate` | benchmarks/pepper-parity/src/schema.rs:259-335 | accepts a suite if and only if it is valid: unique names, known profiles, complete commands, exactly one subject, a competitor when gates are required, a non-empty workload and gates in range |
| `Suites.ScanTargets` | benchmarks/pepper-parity/src/schema.rs:277-309 | the target loop passes exactly distinct, complete targets and counts their roles |
| `Samples.Median` | benchmarks/pepper-parity/src/report.rs:78-89 | sorts in place and returns the middle value or the mean of the two middle ones |
| `Samples.MedianPermuted` | benchmarks/pepper-parity/src/report.rs:78-89 | the median does not depend on order |
| `Samples.MedianBalanced` | benchmarks/pepper-parity/src/report.rs:78-89 | at most half of the values lie below it and at most half above |
| `Parity.AggregateRecords` | benchmarks/pepper-parity/src/report.rs:109-138 | exactly the keys with a record appear, each with the medians, worst failure rate and audit outcome of its records |
| `Parity.GroupIsCell` | benchmarks/pepper-parity/src/report.rs:109-126 | an aggregate holds the records of one target and one cell and no others |
| `Parity.AuditFailedIff` | benchmarks/pepper-parity/src/report.rs:114-124 | an aggregate's audit failed if and only if some repetition's did |
| `ParityReport.PassIffPair` | benchmarks/pepper-parity/src/report.rs:186-244 | a verdict is pass if and only if both sides are measured, sound and positive, and the subject's medians are within the limits, stated by multiplication and without ratios |
| `ParityReport.WorstThroughput` | benchmarks/pepper-parity/src/report.rs:264-273 | the smallest ratio over the comparisons that are not invalid, absent when there is none |
| `ParityReport.WorstLatency` | benchmarks/pepper-parity/src/report.rs:274-279 | the largest latency ratio likewise |
| `ParityReport.Compute` | benchmarks/pepper-parity/src/report.rs:140-304 | the loops over records, competitors and cells compute the report that the lemmas below are about |
| `ParityReport.ReportDependsOnGated` | benchmarks/pepper-parity/src/report.rs:140-304 | comparisons, worst ratios, counts and pass flag depend only on the multiset of the subject's and competitors' records |
| `ParityReport.ReportIgnoresOrder` | benchmarks/pepper-parity/src/report.rs:140-304 | so no permutation of the records changes them |
| `ParityReport.ReportIgnoresOthers` | benchmarks/pepper-parity/src/report.rs:140-304 | nor do added records of ceilings or of targets the suite does not list |
| `ParityReport.SuitePasses` | benchmarks/pepper-parity/src/report.rs:280-292 | a report passes if and only if its gates are informational or every competitor passes at every cell |
| `ParityReport.RequiredSuiteReports` | benchmarks/pepper-parity/src/report.rs:260-262 | a validated suite with required gates always has something to compare |

## Left out

- Jobs delegated to another node: their status is polled and copied; the model covers jobs that run locally.
- Guest processes, sockets, cgroups, file systems and cleanup: only whether such a call succeeds appears, as a choice of step.
- Attempt event texts, timestamps and log contents of a job record: they do not influence its status or receipt.
- Signatures and hashes: functions given as parameters; CIDs stand for their text form, taken to be injective.
- `PlanLedger` and `TargetLedger`: parallel arrays become one table per index and each method is one atomic step, so interleavings of the single counter updates inside a drop are not captured.
- `Planner`: the reasons text, the fallback counter and the per-target completion average, which no decision reads.
- TallyCounts: event counters are unbounded, because 2^64 events do not occur; only the byte totals wrap.
- Fill: random draws are a finite list; running out of them, which is characterized exactly, stands for the loop going on.
- GenerateQueries: says nothing about the distribution of the draws.
- MultipartPut: chunk contents are an arbitrary function of seed, index, length and profile; HTTP requests appear only as the entity tag they return or not.
- Run: queue and execution times are not recorded, and the store's replies are arbitrary.
- Execute: retries and latencies are not modelled, and two fetches of one block within one query share their outcome.
- WalkIff: the record set does not change during the walk, and records come in strictly increasing key order.
- Compute: measurements are real numbers, so NaN, infinities and rounding are not modelled; detail texts become an enumeration, and ceiling records are listed in record order, which no lemma calls order-independent.
- HTTP routing, bucket and file system APIs, pins, the keyed runtime, and the other benchmarks: thin layers over code outside these components.
