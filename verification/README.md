# SiriusScope data plane: models and proofs

SiriusScope receives blocks of signal samples, aggregates them in parallel into waterfall rows and bearing
estimates, shows them live and from storage, and drives an antenna through sector scans. This project models the
high-load data plane and the control logic around it in Dafny 4.11 and proves what the code is relied on for.
`dafny verify dfyconfig.toml` checks everything.

| files | what they model |
|---|---|
| `Common`, `WindowIndex`, `FrequencyBins`, `TimeBase` | integer widths, window, bin and time arithmetic |
| `BearingModel`, `BearingFlatStorage`, `BearingAggregator`, `BearingEquivalence`, `BearingGrouping`, `BearingCounters`, `BearingVerdicts`, `BearingEstimates`, `WindowGroups` | the bearing aggregator: its in-place fast path, the per-sample path over an ordered map, grouping by window, and what verdicts and estimates mean |
| `WaterfallAggregator` | the waterfall aggregator, in place, against grouping by time bucket |
| `BlockStorage`, `DataIngestPipeline` | block pool, block queue and ingest front |
| `FanOutSubmission` | the stage queues and their overload policies, in place |
| `FanOutModel`, `FanOutTokens`, `FanOutInvariant`, `FanOutAccounting`, `FanOutLifetime`, `FanOutSafety`, `FanOutTheorems`, `FanOutGuarantees`, `FanOutProgress`, `FanOutShutdown`, `FanOutFlushing` | the engine as a state machine of producers, ingest worker, stage workers, flusher and stopper; `FanOutGuarantees` holds the safety results, `FanOutProgress` that its threads never get stuck and their work ends, `FanOutShutdown` the same of stopping it, `FanOutFlushing` when a flush succeeds |
| `EngineSummary` | the per-(band, beam) summary |
| `WaterfallRowQueue`, `SourceBridge` | the lossy queues before and after the engine, and the acquisition session |
| `WaterfallRows`, `LiveWaterfall`, `LiveHistory`, `LiveScreen`, `WaterfallSessions` | resampling, storage, the ring buffer and its controller; exactly when the live screen equals the reloaded one, and the controller's way from polled rows to that screen; stepping between sessions |
| `AntennaGeometry`, `AntennaMotion` | safe coordinates around the blind zone, planning, and motion tick by tick |
| `ScanRecording`, `ScanLifecycle`, `ScanOutcomes`, `ScanController` | recorder, recording adapter, the scan session over all event orders, and what each event does and reports |

How the model reads the code:

- A region under one mutex, one atomic operation, or one piece of a thread's own work is one step. Steps of
  different threads interleave freely. Runs start from a freshly started component; `Reachable` and `RunTo` range over
  all finite runs.
- In the engine a *ticket* is the position of a block in the order of successful pushes, and a *task* is one stage's
  duty toward one block. The history part of the state only records what happened; no guard reads it.
- `clear()` discards its entries one at a time and the flusher reads the conjuncts of its predicate one at a time, with
  steps of others in between. The code holds locks meanwhile, so the model allows more interleavings than the code.
- Classes carry ghost fields (`model`, `split`, `issued`, `completed`, ...) that say what the real fields mean; `Valid()`
  ties the two, and every method's contract speaks about them. Specification functions are defined on values, and the
  properties are lemmas about those.
- Doubles are reals. `qFuzzyCompare`, `lround`, `fmod`, `floor` and the clamps are written out over reals.
- 64-bit and 16-bit limits that the code checks or saturates at are explicit; event and sample counters are unbounded.
- Answers of collaborators (source, pipeline, antenna, recording controller, thread creation) are parameters.

Where the code does less than one may expect, the model follows the code:

- The fast bearing path drops samples of a band outside the flat capacity that the per-sample path would keep
  (`FastPathRefinesSimplePath` says: exactly then they differ), and its cursor saturates where the exact division
  rejects (`CursorExactness`, `CursorCanDiverge`).
- The centre of the last frequency bin usually lies above the source range (`LastBinRoundTrip`).
- Rows that are not whole periods apart may look different live and after a reload: `ScreensAgreeExactly` says from the
  rows' times when, `HalfPeriodsDisagree` shows two rows that do and `NearPeriodsAgree` two that do not.
- A reload's answer that comes after live rows takes rows newer than its request off the screen (`LateAnswerHidesRows`).
- A flush after `clear()` waits for as many further pushes as were discarded (`PushesAddUp`, `QuietIsDrained`, `FlushNeedsAPush`).
- Clearing the bridge during an ingest leaves its metrics one block off until the next start or clear (`Snapshot`).
- A block refused by the full queue still spends its sequence id (`FillAndPush`).

## Model

| member | source | states |
|---|---|---|
| BearingEquivalence.FastPathRefinesSimplePath | src/pipeline/bearing_aggregator.cpp:200-384 | From a fresh aggregator, for every sequence of blocks and a final flush, the trusted block-local path returns call by call the snapshots (estimates in order, counters, sequence ids) and delta counters of the per-sample path if and only if no accepted sample has a band outside the flat capacity; premise: no window index passes 64 bits |
| BearingEquivalence.PathsAgreeOnAnyStream | src/pipeline/bearing_aggregator.cpp:200-384 | With no premise on indices: the two paths return the same call by call when no sample is misplaced or saturated, and, fed sample by sample, only then |
| BearingEquivalence.JudgementsDiffer | src/pipeline/bearing_aggregator.cpp:232-332 | For every sample and cursor the verdicts differ exactly for a misplaced band, or for an index past 64 bits whose amplitude is below the floor or whose cursor can still advance |
| BearingEquivalence.OrdinaryPeriodsFit | src/pipeline/bearing_aggregator.cpp:570-594 | A sample period no longer than the window period meets the premise of the refinement for all samples |
| BearingEquivalence.JudgementsAgree | src/pipeline/bearing_aggregator.cpp:232-332 | Per sample the two paths give the same verdict except for the misplaced band, whatever the order of their checks |
| BearingEquivalence.BlocksAgree | src/pipeline/bearing_aggregator.cpp:386-402 | The agreement per block, from any pair of states that agree on all but the cursor |
| BearingAggregation.BearingAggregator.ConsumeTrustedBlockLocalFast | src/pipeline/bearing_aggregator.cpp:200-384 | The in-place fast path, with flat slots, local accumulators and touched lists, computes on every input the fold of the fast judgement over an ordered candidate map: same state, snapshots and counters |
| BearingAggregation.BearingAggregator.ConsumeBlockOfSamples | src/pipeline/bearing_aggregator.cpp:386-402 | One block: empty blocks change nothing, the block counter, the block azimuth or its fallback |
| BearingAggregation.BearingAggregator.Flush | src/pipeline/bearing_aggregator.cpp:549-568 | Flushing merges what is local and closes the open window as the map model does |
| BearingAggregation.BearingAggregator.AdvanceWindow | src/pipeline/bearing_aggregator.cpp:239-278 | The incremental update loop leaves exactly the cursor that priming with this sample would leave |
| BearingAggregation.BearingAggregator.MergeLocalCandidates | src/pipeline/bearing_aggregator.cpp:927-978 | Merging the local accumulators empties them and keeps the window equal to the map model |
| BearingAggregation.BearingAggregator.CloseOpenWindow | src/pipeline/bearing_aggregator.cpp:980-1061 | Closing emits at most one snapshot, the one of the map model |
| BearingAggregation.BearingAggregator.EmitUsedSlots | src/pipeline/bearing_aggregator.cpp:1003-1043 | Walking the flat slots emits the candidates in the key order of the ordered map |
| BearingAggregation.BearingAggregator.ConsumeSample | src/pipeline/bearing_aggregator.cpp:226-370 | One sample of the fast path equals one step of the model |
| BearingAggregation.BearingAggregator.UpdateLocalCandidate | src/pipeline/bearing_aggregator.cpp:868-925 | Updating a touched or untouched local slot adds the sample to the mapped candidate |
| BearingFlatStorage.SlotOrderIsKeyOrder | src/pipeline/bearing_aggregator.cpp:743-775 | The slot number band*F+bin orders slots exactly as (band, bin) orders keys |
| BearingFlatStorage.SlotOfKeyOf | src/pipeline/bearing_aggregator.cpp:743-775 | Slot and key determine each other (slot to key to slot) |
| BearingFlatStorage.KeyOfSlotOf | src/pipeline/bearing_aggregator.cpp:743-775 | Slot and key determine each other (key to slot to key) |
| BearingFlatStorage.AddCommutesWithMerge | src/pipeline/bearing_aggregator.cpp:868-978 | Adding samples locally and merging later equals adding them to the open window at once |
| BearingFlatStorage.MirrorsAdd | src/pipeline/bearing_aggregator.cpp:777-821 | Adding a sample to a slot keeps flat storage and map equal everywhere |
| BearingFlatStorage.UsedKeysListTheMap | src/pipeline/bearing_aggregator.cpp:1003-1043 | The used slots in index order are the map keys in map order |
| BearingGrouping.StreamingIsGroupBy | src/pipeline/bearing_aggregator.cpp:200-547 | Streaming equals batch grouping on either path: over samples in index order, however cut into blocks of one azimuth, the snapshots are one per window holding a sample the path accepts, in strictly increasing window order, numbered from 1, each built from exactly its samples |
| BearingGrouping.ProductionIsGroupBy | src/pipeline/bearing_aggregator.cpp:200-384 | The same for the production path with its samples named without its cursor: those the per-sample path accepts whose band has a slot; premise: no window index passes 64 bits |
| BearingGrouping.FastAcceptsPlaced | src/pipeline/bearing_aggregator.cpp:232-332 | The fast path accepts exactly the samples the per-sample path accepts without the misplaced ones, with the same windows |
| BearingGrouping.CandidatesSnoc | src/pipeline/bearing_aggregator.cpp:777-821 | Adding a sample to the candidate map is regrouping with one more sample |
| BearingGrouping.RepresentativeStaysInWindow | src/pipeline/bearing_aggregator.cpp:1074-1076 | Candidate bounds are ordered and the midpoint representative lies in the window of the candidate's samples |
| BearingGrouping.AcceptedNonDecreasing | src/pipeline/bearing_aggregator.cpp:412-470 | Window indices of accepted samples never decrease when sample indices do not |
| BearingCounters.SamplesConserved | src/pipeline/bearing_aggregator.cpp:404-547 | Consumed samples equal invalid, out of range, below the floor and accepted; each counter is the number of samples so judged; totals grow by the call's counters and sequence ids by one per snapshot |
| BearingCounters.CallsCountTheirSnapshots | src/pipeline/bearing_aggregator.cpp:980-1061 | On every run of blocks each call, the final flush included, counts exactly the snapshots and estimates it returns and what they count |
| BearingVerdicts.AcceptedExactly | src/pipeline/bearing_aggregator.cpp:404-547 | A sample is accepted into window w and a bin exactly when w whole window periods have passed since the first sample and no more, its amplitude is at least 1 and the floor, and its frequency lies in the source range and in the bin's part of it |
| BearingVerdicts.RefusedExactly | src/pipeline/bearing_aggregator.cpp:404-547 | Which of the other samples are counted as below the floor, out of range and invalid, from time, amplitude and frequency alone |
| BearingVerdicts.UnusableAcceptsNothing | src/pipeline/bearing_aggregator.cpp:404-547 | Without periods, bins or a source range nothing is accepted, and what is still called out of range |
| BearingVerdicts.FastPathChosenExactly | src/pipeline/bearing_aggregator.cpp:184-189 | The fast path is chosen exactly with periods, bands, two bins, a range, and a largest product of the bin formula that fits 64 bits |
| BearingVerdicts.CursorMovesExactly | src/pipeline/bearing_aggregator.cpp:219-278 | The window cursor moves exactly with samples that are loud enough and not before the first one |
| BearingEstimates.EstimateOfCandidate | src/pipeline/bearing_aggregator.cpp:1063-1090 | For lit peaks p0, p1 there is an estimate exactly when 0.7 times the strength of the stronger and 0.3 times the energy of both reach the required quality; its bearing is in one turn and is the antenna azimuth less d half separations up to whole turns, for the d with d(p0 + p1) = p0 - p1; its sample is the midpoint |
| BearingEstimates.BearingOfPlainPeaks | src/pipeline/bearing_aggregator.cpp:21-30 | Equal peaks give the antenna azimuth; a silent beam 1 turns it down by the half separation and a silent beam 0 up |
| BearingEstimates.BearingOfSilence | src/pipeline/bearing_aggregator.cpp:21-30 | Two silent peaks give the antenna azimuth |
| BearingEstimates.QualityOfPeaks | src/pipeline/bearing_aggregator.cpp:32-45 | Quality is 0.7 of the stronger peak above 1 on a scale of 126 and 0.3 of the sum on a scale of 254, each share between none and all |
| BearingEstimates.QualityBehaves | src/pipeline/bearing_aggregator.cpp:32-45 | Quality lies between 0 and 1, does not tell the beams apart and never falls when a peak rises |
| BearingEstimates.NormalizedDirection | src/pipeline/bearing_aggregator.cpp:700-714 | Normalizing an angle lands in one turn, keeps the direction and leaves angles of that turn alone |
| BearingEstimates.EstimateTime | src/pipeline/bearing_aggregator.cpp:651-658 | An estimate's time is the exact time of its sample when it has one that fits, else the recording's start |
| BearingEstimates.SnapshotListsEstimates | src/pipeline/bearing_aggregator.cpp:1003-1055 | A snapshot lists, in candidate order, the estimates of exactly the candidates that both beams lit and whose quality suffices, and counts complete, incomplete and missing beams |
| WindowIndex.WindowForSampleIsExact | src/pipeline/bearing_aggregator.cpp:570-594 | Both branches give floor((s - first) * T / P), absent before the first sample or past 64 bits |
| WindowIndex.WindowReached | src/pipeline/bearing_aggregator.cpp:596-623 | Galois relation: the window index of s is at least w exactly when s has reached the start of window w |
| WindowIndex.FirstSampleIsFirst | src/pipeline/bearing_aggregator.cpp:596-623 | The first sample of a window is the least that reaches it; there is none exactly when no 64-bit index does |
| WindowIndex.CursorExactness | src/pipeline/bearing_aggregator.cpp:232-278 | The incremental index equals the exact one, in any order of samples, except exactly when an index past 64 bits meets a cursor that can still advance |
| WindowIndex.CursorCanDiverge | src/pipeline/bearing_aggregator.cpp:232-278 | A concrete grid and sample where the incremental index saturates and the exact division rejects |
| WindowIndex.MidpointSharesWindow | src/pipeline/bearing_aggregator.cpp:1074-1076 | The midpoint of two samples of a window lies in that window |
| WindowIndex.ShortSamplePeriodNeverOverflows | src/pipeline/bearing_aggregator.cpp:586-593 | No index passes 64 bits when the sample period is at most the window period |
| FrequencyBins.BinIsExactQuotient | src/pipeline/bearing_aggregator.cpp:660-684 | For every frequency in range the guarded 64-bit product does not wrap and both formulas are the exact quotient |
| FrequencyBins.BinMonotone | src/pipeline/bearing_aggregator.cpp:660-684 | Bins are monotone in frequency and in range |
| FrequencyBins.BinMeans | src/pipeline/bearing_aggregator.cpp:660-684 | A frequency has bin b exactly when it is in the source range and in the bin's part of it, and no bin exactly when it is outside |
| FrequencyBins.CenterRoundTrip | src/pipeline/bearing_aggregator.cpp:686-698 | A bin below the last round-trips through its centre if and only if the rounding remainder is at most half the range; its centre is in range |
| FrequencyBins.WideRangeRoundTrips | src/pipeline/bearing_aggregator.cpp:686-698 | A range of at least twice the bin count less two round-trips every bin but the last |
| FrequencyBins.LastBinRoundTrip | src/pipeline/bearing_aggregator.cpp:686-698 | The last bin round-trips exactly when half the range is below the bin count less one |
| TimeBase.GlobalTimeIsExact | src/core/domain_models.cpp:281-318 | A time is given exactly for a start not before 1970, a period and a sample not before the first one, when it fits int64, and is exact |
| WindowGroups.SplitIsGroupBy | src/pipeline/bearing_aggregator.cpp:412-547 | Cutting a stream when the window changes is grouping by window whenever windows never decrease |
| WindowGroups.GroupsHoldTheirWindow | src/pipeline/bearing_aggregator.cpp:412-547 | Every sample of a group came with the group's window |
| WaterfallAggregation.Stream | src/pipeline/waterfall_aggregator.cpp:39-113 | The rows of all consume calls of a fresh aggregator and a final flush are the rows of the stream's groups, however it is cut into blocks; over samples in index order those are one per bucket holding a kept sample, in strictly increasing bucket order, each from all kept samples of its bucket |
| WaterfallAggregation.BucketIsExact | src/pipeline/waterfall_aggregator.cpp:140-160 | A sample's bucket b satisfies b periods <= time since the first sample < b + 1 periods; it has none exactly before the first sample, without periods, or past 64 bits |
| WaterfallAggregation.RowTimeCoversSamples | src/pipeline/waterfall_aggregator.cpp:39-175 | In every stream the time of a row is at most the time of each of its samples and less than a row period before it, unless it saturated, and then their times do not fit either; its index bounds enclose them |
| WaterfallAggregation.KeptExactly | src/pipeline/waterfall_aggregator.cpp:60-88 | A sample is kept in a bucket and bin exactly when its time is in the row period, its frequency in the bin and its amplitude at the floor; what else is quiet, out of range or invalid |
| WaterfallAggregation.UnusableKeepsNothing | src/pipeline/waterfall_aggregator.cpp:60-88 | Without periods, bins or a source range nothing is kept, and what is still called out of range |
| WaterfallAggregation.StreamingIsGroupBy | src/pipeline/waterfall_aggregator.cpp:54-113 | A stream in index order, cut where the bucket changes, is grouped by bucket |
| WaterfallAggregation.CutsDoNotMatter | src/pipeline/waterfall_aggregator.cpp:39-102 | Cutting the stream into blocks anywhere changes nothing |
| WaterfallAggregation.SamplesConserved | src/pipeline/waterfall_aggregator.cpp:60-99 | Consumed equals invalid, out of range, below the floor and accumulated |
| WaterfallAggregation.PeakIsMaximum | src/pipeline/waterfall_aggregator.cpp:245-268 | Peaks are attained maxima of the clamped amplitudes |
| WaterfallAggregation.IndexBounds | src/pipeline/waterfall_aggregator.cpp:255-257 | First and last sample index of a row are attained bounds |
| WaterfallAggregation.CellSnoc | src/pipeline/waterfall_aggregator.cpp:209-268 | One more sample raises one peak and one hit count, saturating at 65535, of one cell |
| WaterfallAggregation.HitsAddUp | src/pipeline/waterfall_aggregator.cpp:203-268 | A silent cell is zero and the hits of two groups of samples add up |
| WaterfallAggregation.UtcSaturates | src/pipeline/waterfall_aggregator.cpp:162-175 | The row time is exact, or the largest int64 where it does not fit; a negative start saturates only by its offset |
| WaterfallAggregation.BucketMonotone | src/pipeline/waterfall_aggregator.cpp:140-160 | Buckets are monotone in the sample index |
| WaterfallAggregation.KeptIsInRange | src/pipeline/waterfall_aggregator.cpp:177-201 | A kept sample's bin is inside the row |
| WaterfallAggregation.WaterfallAggregator.Consume | src/pipeline/waterfall_aggregator.cpp:54-102 | Rows returned are those of the groups closed meanwhile; counters are the numbers of samples so judged |
| WaterfallAggregation.WaterfallAggregator.ConsumeBlock | src/pipeline/waterfall_aggregator.cpp:39-52 | Empty blocks only count; other blocks count once and consume |
| WaterfallAggregation.WaterfallAggregator.Flush | src/pipeline/waterfall_aggregator.cpp:104-113 | Flushing emits the open row, if any, and leaves none open |
| WaterfallAggregation.WaterfallAggregator.AddSampleToOpenRow | src/pipeline/waterfall_aggregator.cpp:245-268 | The in-place cell update yields the row of one more sample |
| WaterfallAggregation.WaterfallAggregator.CloseOpenRow | src/pipeline/waterfall_aggregator.cpp:229-243 | The closed row is the summary of its group |
| WaterfallAggregation.WaterfallAggregator.OpenBucket | src/pipeline/waterfall_aggregator.cpp:216-227 | A new row is blank, at its bucket's time |
| FanOutGuarantees.EachTaskOnce | src/pipeline/processing_engine.cpp:296-324 | In every reachable state each active stage's task of each block handed out is queued, running, skipped and awaiting completion, or left to the ingest worker, in exactly one place, or was met exactly once |
| FanOutGuarantees.CountersAgree | src/pipeline/processing_engine.cpp:1105-1123 | In every reachable state remainingStages of a live context counts its open tasks, and the in-flight counter counts the blocks being submitted, with a nonzero count, or whose last completion has not left |
| FanOutGuarantees.GivenUpMeansFinished | src/pipeline/processing_engine.cpp:1105-1123 | When a block's storage is given up, every active stage has met it exactly once and its completion was recorded exactly once, unless clear() discarded it |
| FanOutGuarantees.ContextsOutliveTheirUse | src/pipeline/processing_engine.cpp:1054-1085 | No stage worker and no completion ever works on a context, or a block, that is gone |
| FanOutGuarantees.FlushIsSafe | src/pipeline/processing_engine.cpp:120-148 | A flush that read its drained predicate true, conjunct by conjunct in any interleaving: every block pushed before it began is finished or was discarded |
| FanOutGuarantees.FlushWaitsForEarlierPushes | src/pipeline/processing_engine.cpp:120-148 | From any reachable state: a flush that starts there and, after any steps of all threads, ends with success has seen each of its facts true since it started, against the number of blocks pushed when it started, and every one of those blocks is finished or was discarded |
| FanOutGuarantees.PushesAddUp | src/pipeline/bounded_block_queue.h:127-132 | Pushed equals popped, waiting and discarded; completed pops trail pops by at most one; so after clear() discarded d blocks a flush can only pass once d more were pushed |
| FanOutGuarantees.OnlyThePopCounterSeesTheGap | src/pipeline/processing_engine.cpp:237-258 | For every configuration with room for a block there is a reachable state with a block in the ingest worker's hand in which every conjunct but the pop counter says drained |
| FanOutGuarantees.PoolIsPartitioned | src/pipeline/signal_block_pool.cpp:43-105 | In every reachable state each block has exactly one owner: the stack, one producer, or one pushed block (queued, in hand or in a context); in use equals acquired less released |
| FanOutGuarantees.StoppedLeavesNothing | src/pipeline/processing_engine.cpp:88-118 | After stop with no producer mid-call: queues empty, nothing in flight, no context, every block back in the pool, every pushed block finished |
| FanOutGuarantees.OverloadIsBounded | src/pipeline/processing_engine.cpp:929-1030 | On every run lossless stages are never skipped nor over capacity, latest-only queues hold at most one job, drop-oldest queues stay within their depth budget; the signal-parameter stage is lossless |
| FanOutGuarantees.SubmissionReachesEveryStage | src/pipeline/processing_engine.cpp:828-927 | An accepted submission puts the block last and exactly once into every active queue and touches no other; a lossless queue keeps all, a latest-only queue only it, and a drop-oldest queue no overdue job and every job that its budgets allow |
| FanOutGuarantees.IngestWorkerNeverStuck | src/pipeline/processing_engine.cpp:237-324 | Between a pop and the end of its block the ingest worker always has a step to take |
| FanOutProgress.EngineNeverStuck | src/pipeline/processing_engine.cpp:1054-1123 | In every reachable state in which a block waits, is held, queued or being completed anywhere, some thread of the engine can take a step: no deadlock |
| FanOutProgress.WorkIsBounded | src/pipeline/processing_engine.cpp:237-324 | However the engine's threads interleave, without new pushes they take no more steps than a bound computed from the state: no endless run |
| FanOutProgress.WorkSettles | src/pipeline/processing_engine.cpp:237-324 | From every reachable state the engine's threads alone can reach a quiet state with every pushed block finished or discarded |
| FanOutProgress.QuietMeansFinished | src/pipeline/processing_engine.cpp:1136-1146 | When all threads rest and all queues are empty every block is finished or discarded, nothing is in flight, no context is left, and completed pops are all pushes but the discarded |
| FanOutProgress.QuietIsDrained | src/pipeline/processing_engine.cpp:120-148 | In a quiet engine the flush predicate is true if and only if the pushes since the flush began are at least the blocks ever discarded by clear() |
| FanOutFlushing.FlushCanSucceed | src/pipeline/processing_engine.cpp:120-148 | When nothing was ever discarded, a flush started in any reachable state can end with success by the engine's own work alone, with no further push |
| FanOutFlushing.FlushNeedsAPush | src/pipeline/processing_engine.cpp:120-148 | When clear() ever discarded a block, no flush can end with success before a further push, whatever all threads do |
| FanOutFlushing.FlushNeverStuck | src/pipeline/processing_engine.cpp:120-148 | A flush under way always has a step |
| FanOutFlushing.ProducersAreServed | src/pipeline/data_ingest_pipeline.cpp:85-132 | A producer acquires exactly when the pool has a block, pushes exactly when the queue takes one, and may otherwise only be refused or give its block back |
| FanOutFlushing.InactiveStagesRest | src/pipeline/processing_engine.cpp:1155-1165 | On every run the queues and threads of inactive stages, and of all stages in sequential mode, stay empty and gone |
| FanOutShutdown.StopNeverStuck | src/pipeline/processing_engine.cpp:88-118 | In every reachable state of a stop under way the stopper, or a thread that it waits for, can take a step: no deadlock in shutdown |
| FanOutShutdown.StopSettles | src/pipeline/processing_engine.cpp:88-118 | From every reachable state a stop that has begun can be brought to its end by the engine's threads and itself, within a bound computed from the state |
| FanOutShutdown.StopIsBounded | src/pipeline/processing_engine.cpp:88-118 | However they interleave, the engine's threads and the stop take no more steps than that bound |
| FanOutShutdown.CountersCountSteps | src/pipeline/bounded_block_queue.h:55-132 | Over every run the counters of pushes, refusals, exhaustions, acquisitions, pops and completed pops, and the discards, are the numbers of those steps |
| FanOutShutdown.RefusedPushGivesBack | src/pipeline/data_ingest_pipeline.cpp:108-132 | A producer whose push was refused keeps its block, can only give it back, and nothing was queued |
| FanOutProgress.SubmitJobs | src/pipeline/processing_engine.cpp:852-886 | A submission adds one job per active stage, and every job it skips it hands to the ingest worker |
| FanOutSubmission.StageQueues.SubmitContext | src/pipeline/processing_engine.cpp:828-927 | All or nothing for every mix of policies: either every active queue takes the job as its policy says, or no queue changes and nothing is skipped; the failure inside the second loop is unreachable |
| FanOutSubmission.StageQueues.SubmitStage | src/pipeline/processing_engine.cpp:929-963 | One stage under its policy: refused only when lossless and full, otherwise the queue and the skipped jobs are those of the policy |
| FanOutSubmission.StageQueues.ReplacePending | src/pipeline/processing_engine.cpp:965-988 | Every pending job is skipped, in order, and only the new one is left |
| FanOutSubmission.StageQueues.DropOldest | src/pipeline/processing_engine.cpp:990-1030 | The queue loses exactly the oldest DropCount jobs, in order, which DropLeavesRoom and DropsOnlyWhenDemanded show to be those that the three budgets demand |
| FanOutSubmission.StageQueues.PopJob | src/pipeline/processing_engine.cpp:1032-1052 | The oldest job leaves; other queues stay |
| FanOutSubmission.StageAfterSubmit | src/pipeline/processing_engine.cpp:929-1030 | After a submission a stage's queue is within its limit and in time order, ends with the new job, loses nothing when lossless, holds only the new job when latest-only, and under drop-oldest keeps no overdue job and every job that the budgets allow |
| FanOutSubmission.DropLeavesRoom | src/pipeline/processing_engine.cpp:1002-1027 | Dropping leaves room below capacity and depth budget and no overdue job |
| FanOutSubmission.DropsOnlyWhenDemanded | src/pipeline/processing_engine.cpp:1002-1016 | Drop-oldest drops no job unless the queue still has capacity or depth-budget many jobs from it on or the job has waited too long, stated over the configuration's numbers |
| FanOutSubmission.DropCountIsLeast | src/pipeline/processing_engine.cpp:1002-1027 | The number of jobs dropped is the least after which the queue is below capacity and depth budget and its oldest job within the wait budget |
| FanOutSubmission.RefusedExactly | src/pipeline/processing_engine.cpp:828-870 | A submission is refused exactly by a stop, no capacity, or a full queue of an active lossless stage |
| FanOutSubmission.SkipsSpareLossless | src/pipeline/processing_engine.cpp:970-1030 | Skipped jobs come from active stages that may skip, and were queued there |
| FanOutSubmission.NormalizeRepairs | src/pipeline/processing_engine.cpp:1205-1220 | Normalizing makes any configuration usable and changes no usable one; repaired values are one second and one half, and nothing but the signal-parameter policy changes else |
| FanOutTokens.TasksConserved | src/pipeline/processing_engine.cpp:828-1134 | Every step moves or meets tasks without creating or losing one; only handing a block out creates them, one per active stage |
| FanOutTokens.SubmitTokens | src/pipeline/processing_engine.cpp:867-884 | Over a whole submission queued after plus skipped equals queued before plus one task per active stage |
| FanOutAccounting.OpenStep | src/pipeline/processing_engine.cpp:1105-1114 | Besides handing out, only the subtraction closes a task |
| FanOutAccounting.TicketStep | src/pipeline/processing_engine.cpp:1105-1134 | Every step keeps, for every block, the agreement of counter, tasks, completion record and in-flight mark |
| FanOutAccounting.UnreferencedIsClosed | src/pipeline/processing_engine.cpp:302-324 | A context nobody refers to has no open task |
| FanOutLifetime.RefStep | src/pipeline/processing_engine.cpp:302-324 | Every step keeps: a context exists exactly while a queue, a stage worker or the ingest worker refers to it |
| FanOutLifetime.PoolStep | src/pipeline/signal_block_pool.cpp:66-105 | Every step keeps the ownership partition of the pool |
| FanOutInvariant.QueueStep | src/pipeline/bounded_block_queue.h:55-132 | Every step keeps the queue in push order, the pop counters in step with it, and no older block behind the worker |
| FanOutInvariant.HoldersStep | src/pipeline/processing_engine.cpp:237-324 | Every step keeps who may hold which block in which phase |
| FanOutSafety.CoreStep | src/pipeline/processing_engine.cpp:237-1134 | Every step keeps the whole invariant |
| FanOutSafety.BoundsStep | src/pipeline/processing_engine.cpp:929-1030 | Every step keeps queue limits, time order, and lossless stages unskipped |
| FanOutSafety.PopsCovered | src/pipeline/processing_engine.cpp:130-135 | Enough completed pops: no block pushed before the target is queued or in the worker's hand |
| FanOutSafety.NothingInFlight | src/pipeline/processing_engine.cpp:1136-1146 | Nothing in flight: every block handed out is finished |
| FanOutSafety.FinishedStays | src/pipeline/processing_engine.cpp:1105-1123 | A finished block stays finished |
| FanOutTheorems.FlushStep | src/pipeline/processing_engine.cpp:130-138 | Every step, also of other actors between two conjuncts, keeps what the flusher has established |
| FanOutTheorems.StopStep | src/pipeline/processing_engine.cpp:88-118 | Every step keeps the order of the shutdown: queue, ingest worker, stage workers |
| FanOutTheorems.RunsKeepInv | src/pipeline/processing_engine.cpp:49-324 | Every run from a started engine keeps the invariant |
| BlockStorage.SignalBlockPool.Acquire | src/pipeline/signal_block_pool.cpp:66-79 | Takes the top of the stack, a block nobody has, and counts it, or counts an exhaustion |
| BlockStorage.SignalBlockPool.Release | src/pipeline/signal_block_pool.cpp:95-105 | Puts a block in use back on the stack; blocks in use and available partition the pool |
| BlockStorage.BoundedBlockQueue.TryPush | src/pipeline/bounded_block_queue.h:55-71 | Queues at the end and counts, or counts a drop when shut down, without capacity or full; an empty handle is not counted |
| BlockStorage.BoundedBlockQueue.Pop | src/pipeline/bounded_block_queue.h:73-90 | Hands out blocks in push order; nothing once shut down and empty |
| BlockStorage.BoundedBlockQueue.Clear | src/pipeline/bounded_block_queue.h:127-132 | Discards without counting; pushed equals popped, discarded and waiting |
| BlockStorage.BoundedBlockQueue.Reset | src/pipeline/bounded_block_queue.h:116-125 | Everything back to the initial state |
| DataIngest.DataIngestPipeline.Start | src/pipeline/data_ingest_pipeline.cpp:38-58 | A running pipeline is left alone; otherwise it starts clean with no queued block to lose, keeps counting sequence ids, and accepts without running when the engine does not start |
| DataIngest.DataIngestPipeline.Stop | src/pipeline/data_ingest_pipeline.cpp:60-68 | However many queued blocks the stopping engine still takes, every queued block is back in the pool, the queue is empty and shut down, and nothing is accepted |
| DataIngest.DataIngestPipeline.ClearQueuedBlocks | src/pipeline/data_ingest_pipeline.cpp:214-217 | The queued blocks return to the pool in order and are counted neither as popped nor as dropped |
| DataIngest.DataIngestPipeline.IngestSamples | src/pipeline/data_ingest_pipeline.cpp:85-132 | Success queues exactly one fresh block holding exactly the samples under the next sequence id; every failure counts one dropped block and leaves queue and pool as they were |
| DataIngest.DataIngestPipeline.FillAndPush | src/pipeline/data_ingest_pipeline.cpp:108-132 | A filled block is queued, or given back when the queue refuses it; its sequence id is spent and its samples counted as input either way |
| EngineSummary.OrderDoesNotMatter | src/pipeline/processing_engine.cpp:369-404 | Completing the same blocks in another order gives the same counts, maxima and total |
| EngineSummary.SummariesAgree | src/pipeline/processing_engine.cpp:389-403 | Summaries of the same blocks in two orders have the same entries |
| EngineSummary.PeakIsLargest | src/pipeline/processing_engine.cpp:326-367 | A key's maximum bounds all its amplitudes and zero, and is one of them |
| EngineSummary.BlockBounds | src/pipeline/processing_engine.cpp:326-367 | A block's first and last index are attained bounds of its samples, or its metadata's when it has none |
| EngineSummary.BoundsAreAttained | src/pipeline/processing_engine.cpp:369-388 | The summary's first and last index are attained bounds over all completed blocks |
| EngineSummary.BoundsIgnoreOrder | src/pipeline/processing_engine.cpp:369-388 | The bounds do not depend on the order of completion |
| EngineSummary.CountsAddUp | src/pipeline/processing_engine.cpp:375-403 | The counts of the entries add up to the processed samples |
| EngineSummary.MakeBlockAccounting | src/pipeline/processing_engine.cpp:326-367 | One entry per key with its count and maximum, and the smallest and largest sample index, or the metadata bounds of an empty block |
| EngineSummary.Summary.RecordBlockCompleted | src/pipeline/processing_engine.cpp:369-404 | After any sequence of completions the summary is the direct fold over all samples of all completed blocks, keys unique |
| EngineSummary.MergeEntry | src/pipeline/processing_engine.cpp:389-403 | Finding and merging, or appending, one entry extends the description |
| LiveHistory.ScreensAgreeExactly | src/app/waterfallcontroller.cpp:384-422 | For rendered rows at any strictly increasing times the screen built from live pushes equals the screen rebuilt from storage whenever every screen row shows the same row, or none, either way, a condition on times alone; and only then, when no two lines are alike or blank |
| LiveScreen.CommitViewport | src/app/waterfallcontroller.cpp:592-597 | A committed viewport: the reload asked for, taken, loaded and shown puts at every screen row the newest stored row that lands there, and the screen is the one the live rows had built whenever the rows' schedules agree, and only then when no two lines are alike |
| LiveScreen.PollWaterfallRows | src/app/waterfallcontroller.cpp:599-618 | Polled rows, in any batches, make the screen that of all the session's rows shown live in order, and storage holds them |
| LiveScreen.ServeHistoryRequest | src/app/waterfallcontroller.cpp:348-434 | The history worker's turn: the waiting request, if any, is loaded from storage and shown |
| LiveScreen.BeginSession | src/app/waterfallcontroller.cpp:507-552 | A started recording shows a blank screen that tracks its rows once its first reload is served |
| LiveScreen.NoVisibleTimeMissed | src/app/waterfallcontroller.cpp:394-402 | Every time that lands on the screen is in the range that the reload asks storage for |
| LiveScreen.LateAnswerHidesRows | src/app/waterfallcontroller.cpp:402-434 | An answer to a request from before live rows came in leaves none of them on the screen |
| LiveHistory.LivePickStandsThere | src/app/waterfallcontroller.cpp:721-741 | The row a screen row shows live is the one whose later rows' shifts, each a gap in whole periods but at least 1 and at most the screen, add up to that screen row |
| LiveHistory.ReloadPickIsNewest | src/app/waterfallcontroller.cpp:402-420 | The row a screen row shows after a reload is the newest loaded row whose rounded distance from the top is that screen row |
| LiveHistory.LiveShowsPicks | src/app/waterfallcontroller.cpp:698-795 | The live buffer shows at every screen row the row standing there, and a blank where none stands |
| LiveHistory.ReloadShowsPicks | src/app/waterfallcontroller.cpp:384-422 | The reloaded buffer shows at every screen row the newest loaded row that lands on it, and a blank where none does |
| LiveHistory.LoadedIsSuffix | src/app/waterfallstorage.cpp:238-267 | The reload gets the rows since its earliest time, of which at most the newest two screens' worth |
| LiveHistory.SlotsShowPicks | src/app/waterfallcontroller.cpp:402-420 | Filling the slots row by row leaves in each the newest row that lands on it |
| LiveHistory.LiveEqualsHistory | src/app/waterfallcontroller.cpp:384-422 | For rows whole periods apart both screens agree, also when gaps are longer than the screen, and show at screen row i the row i periods before the newest, or a blank |
| LiveHistory.SpacedSchedulesAgree | src/app/waterfallcontroller.cpp:384-422 | Times whole periods apart meet the exact condition |
| LiveHistory.LivePickIsPickAt | src/app/waterfallcontroller.cpp:698-795 | With whole periods screen row i shows live the row i periods before the newest |
| LiveHistory.PickReloadedIsPickAt | src/app/waterfallcontroller.cpp:384-422 | With whole periods screen row i shows after a reload the row i periods before the newest |
| LiveHistory.NothingDropped | src/app/waterfallcontroller.cpp:395-402 | With whole periods the reload's limit of twice the screen never drops a row |
| LiveHistory.HalfPeriodsDisagree | src/app/waterfallcontroller.cpp:721-738 | Two rows one and a half periods apart where the screens differ |
| LiveHistory.NearPeriodsAgree | src/app/waterfallcontroller.cpp:721-738 | Two rows no whole period apart where the screens agree |
| LiveWaterfall.AfterRowLines | src/app/waterfallcontroller.cpp:721-741 | A live row is on top, the skipped periods blank below it, older lines moved down |
| LiveWaterfall.LoadHistoryRows | src/app/waterfallcontroller.cpp:384-422 | The loading loop fills exactly the slots of the specification from storage |
| LiveWaterfall.RingBuffer.PushLine | src/app/waterfallringbuffer.cpp:35-61 | Shifts all lines down in place and writes the new one on top; lines of another width change nothing |
| LiveWaterfall.RingBuffer.ReplaceSlots | src/app/waterfallringbuffer.cpp:90-120 | The whole contents become those of the slots, cut or filled with blanks, with the number of occupied rows |
| LiveWaterfall.OccupiedCounts | src/app/waterfallringbuffer.cpp:90-120 | The number of occupied rows is the number of slots that hold bins |
| LiveWaterfall.RingBuffer.CopyLine | src/app/waterfallringbuffer.cpp:122-132 | The stored line for a valid row and width, else nothing |
| LiveWaterfall.WaterfallController.AppendRenderRow | src/app/waterfallcontroller.cpp:698-758 | Stores the row; in live mode shows it below its clamped gap; a width mismatch forgets the live time and asks for a reload under the next id; otherwise nothing changes |
| LiveWaterfall.WaterfallController.PushGap | src/app/waterfallcontroller.cpp:721-734 | Pushes the blank rows of a gap |
| LiveWaterfall.WaterfallController.PushLiveRow | src/app/waterfallcontroller.cpp:782-795 | Pushes exactly the rows of the buffer's width |
| LiveWaterfall.WaterfallController.UpdateRenderBuffer | src/app/waterfallcontroller.cpp:647-682 | Forgets the live time and asks, under a new id and in place of a waiting request, for the viewport's top, the bottom a screen less one row below it (0 for a top of 0), its period, row count and view and the buffer's width; without a session the screen goes blank |
| LiveWaterfall.WaterfallController.StartRecording | src/app/waterfallcontroller.cpp:507-552 | Live at the session's start with a positive period, and a reload asked for; nothing when a session is active |
| LiveWaterfall.WaterfallController.TakeHistoryRequest | src/app/waterfallcontroller.cpp:355-369 | The worker takes the waiting request, which is the latest one |
| LiveWaterfall.WaterfallController.ApplyHistory | src/app/waterfallcontroller.cpp:424-434 | The buffer becomes the loaded slots if they answer the latest request; any other answer changes nothing |
| WaterfallRows.ResampleSameView | src/app/waterfallrowresampler.cpp:36-69 | Resampling to the row's own view and width only clamps amplitudes: the identity on rendered rows |
| WaterfallRows.ResampleFollowsFrequency | src/app/waterfallrowresampler.cpp:10-69 | Resampling to any view: each bin shows, to the nearest integer, the line between the two amplitudes around its frequency, and nothing outside the row's view |
| WaterfallRows.SingleBinFillsView | src/app/waterfallrowresampler.cpp:18-69 | A row of one bin shows it everywhere in its view |
| WaterfallRows.AlignedRowIndex | src/app/waterfalltimeline.cpp:222-228 | A time whole periods below the top maps to exactly that row, or to none off screen |
| WaterfallRows.RowIndexIsNearest | src/app/waterfalltimeline.cpp:222-228 | A time has visible row i exactly when no row is nearer, the lower one of two; none half a period or more above the top |
| WaterfallRows.RowIndexRoundTrip | src/app/waterfalltimeline.cpp:222-233 | Row to time to row is the identity on visible rows |
| WaterfallRows.SessionRows.AppendRow | src/app/waterfallstorage.cpp:209-236 | Inserts one row, keeps the rows sorted and the session's times around them; a later row goes last |
| WaterfallRows.SessionRows.LoadRows | src/app/waterfallstorage.cpp:238-267 | The newest rows of the closed time range, in order |
| WaterfallSessions.NextUndoesPrevious | src/app/waterfallstorage.cpp:112-168 | b is the next session after a exactly when a is the previous session before b |
| WaterfallSessions.SessionIndex.PreviousSession | src/app/waterfallstorage.cpp:112-142 | The nearest earlier session, none for the first, the latest for an unknown one |
| WaterfallSessions.SessionIndex.NextSession | src/app/waterfallstorage.cpp:144-168 | The nearest later session, none for the last or an unknown one |
| WaterfallSessions.SessionIndex.LatestSession | src/app/waterfallstorage.cpp:99-110 | The latest of all sessions |
| WaterfallSessions.SessionIndex.StartSession | src/app/waterfallstorage.cpp:170-192 | Adds a session, open, with an end and a positive row period, or replaces the one with its id and clears its rows; others stay |
| ScanLifecycle.StateSessionRecorderAgree | src/app/scancontroller.cpp:605-720 | Over all event orders: a session exists exactly while moving, scanning or completing; recorder and recording adapter hold its id exactly while scanning or completing; opening and closing cannot fail |
| ScanLifecycle.OneOutcomePerSession | src/app/scancontroller.cpp:820-855 | Every session id is active or was reported exactly once as completed, cancelled or failed |
| ScanOutcomes.OutcomesTellTheEnd | src/app/scancontroller.cpp:213-939 | Every event reports the end of one scan under its own id, cancelled by stop, completed by the answer, failed by a start or an azimuth, or reports nothing and keeps an active scan |
| ScanOutcomes.StoppingCancels | src/app/scancontroller.cpp:373-402 | Stopping an active scan closes everything, reports its cancellation and keeps its frames readable; else it does nothing |
| ScanOutcomes.StartOutcome | src/app/scancontroller.cpp:289-371 | For every start: refused, not planned, failed under id 0 or its own, moving, or scanning, each exactly under its condition |
| ScanOutcomes.BeginOutcome | src/app/scancontroller.cpp:605-660 | A sweep begins, with recorder and recording opened, exactly unless the antenna or the recording refuses; then it fails and reports |
| ScanOutcomes.AzimuthOutcome | src/app/scancontroller.cpp:482-539 | Within tolerance of the start an azimuth begins the sweep, at the end it completes it and queues one answer, otherwise it only moves |
| ScanOutcomes.FramesOutcome | src/app/scancontroller.cpp:895-939 | Frames count exactly while scanning or completing |
| ScanOutcomes.SelectionOutcome | src/app/scancontroller.cpp:213-263 | Selection, its clearing and the speed take effect exactly when no scan is active and they are valid |
| ScanOutcomes.DistanceIsShortestWay | src/app/scancontroller.cpp:36-42 | The distance of two azimuths is the short way round: no number of turns brings them closer |
| ScanLifecycle.StaleAnswerIgnored | src/app/scancontroller.cpp:707-711 | Over all event orders a queued finalize answer is without effect if and only if its scan was already reported as completed, cancelled or failed |
| ScanLifecycle.ReportsStay | src/app/scancontroller.cpp:213-939 | No event takes a report back, so a stale answer stays stale |
| ScanLifecycle.CompletionReportsItsFrames | src/app/scancontroller.cpp:733-831 | A completed scan reports exactly the frames accepted for it, and the recorder returns them |
| ScanLifecycle.BeginNeverFails | src/app/scancontroller.cpp:645-650 | With this recorder and adapter the acquisition always opens |
| ScanLifecycle.FinalizeKeeps | src/app/scancontroller.cpp:707-832 | Finalizing the active scan closes and reports it; any other answer does nothing; the invariant is kept |
| ScanLifecycle.StepKeepsInv | src/app/scancontroller.cpp:213-939 | Every event keeps the lifecycle invariant |
| ScanLifecycle.CompletesAtTheEnd | src/app/scancontroller.cpp:524-538 | A sweep completes exactly when the antenna passed the end of its path on the line or is within tolerance of it |
| ScanControllers.ScanController.StartScan | src/app/scancontroller.cpp:289-371 | The guarded start in the source's order of checks, ending in rejection, failure, a move or an immediate sweep |
| ScanControllers.ScanController.BeginSectorScan | src/app/scancontroller.cpp:605-660 | Antenna, recording and acquisition opened in order; any refusal fails the scan |
| ScanControllers.ScanController.StopScan | src/app/scancontroller.cpp:373-402 | Cancelling closes the acquisition and the recording and reports once |
| ScanControllers.ScanController.UpdateAzimuth | src/app/scancontroller.cpp:482-539 | An azimuth sample begins the sweep at the start and completes it at the end |
| ScanControllers.ScanController.FinalizeCompletedScan | src/app/scancontroller.cpp:707-832 | The queued answer acts only on the session it belongs to |
| ScanControllers.ScanController.Fail | src/app/scancontroller.cpp:834-855 | Failing closes what is open, forgets the session and reports it, or reports id 0 without one |
| ScanControllers.ScanController.CloseActiveAcquisitionWithoutCalculation | src/app/scancontroller.cpp:857-880 | Closes the active acquisition of the active session, if any |
| ScanControllers.ScanController.OnBearingFrames | src/app/scancontroller.cpp:895-939 | Frames are appended in order while scanning or completing, else ignored |
| ScanRecording.CloseKeepsObservations | src/app/inmemoryscanacquisitionrecorder.cpp:8-72 | What was appended between begin and close is what the closed session returns |
| ScanRecording.ObservationsFind | src/app/inmemoryscanacquisitionrecorder.cpp:55-72 | Each session's observations are found under its id, active or closed, and none under another |
| ScanRecording.InMemoryScanAcquisitionRecorder.Begin | src/app/inmemoryscanacquisitionrecorder.cpp:8-24 | Opens a session with a new nonzero id when none is active, else refuses without change |
| ScanRecording.InMemoryScanAcquisitionRecorder.Append | src/app/inmemoryscanacquisitionrecorder.cpp:26-36 | Appends to the active session, else refuses |
| ScanRecording.InMemoryScanAcquisitionRecorder.Close | src/app/inmemoryscanacquisitionrecorder.cpp:38-53 | Moves the active session of this id to the closed ones, else refuses |
| ScanRecording.InMemoryScanAcquisitionRecorder.Observations | src/app/inmemoryscanacquisitionrecorder.cpp:55-72 | The observations of the active or the first closed session with the id |
| ScanRecording.WaterfallScanRecordingAdapter.BeginScanRecording | src/app/waterfallscanrecordingadapter.cpp:27-50 | Starts at most one recording at a time; starts and stops alternate |
| ScanRecording.WaterfallScanRecordingAdapter.EndScanRecording | src/app/waterfallscanrecordingadapter.cpp:52-72 | Ends only its own scan's recording, or any for id 0 |
| AntennaGeometry.AzimuthRoundTrip | src/core/antenna_motion_planner.cpp:144-169 | Usable azimuth to coordinate to azimuth is the identity |
| AntennaGeometry.CoordRoundTrip | src/core/antenna_motion_planner.cpp:144-169 | Coordinate in 0..340 to azimuth to coordinate is the identity, and the azimuth is usable |
| AntennaGeometry.PlannedExactlyWhenUsable | src/core/antenna_motion_planner.cpp:25-120 | A scan is planned exactly for valid options and usable ends far enough apart; the sector check after it cannot fail; the path joins the two ends |
| AntennaGeometry.StartsAtNearerEnd | src/core/antenna_motion_planner.cpp:97-117 | The start is the end nearer to the antenna, a blind azimuth counting as the nearer edge |
| AntennaGeometry.SectorIsInterval | src/core/domain_models.cpp:222-251 | A sector contains exactly the usable azimuths whose coordinates lie between its ends, and spans their distance, also across north |
| AntennaGeometry.PlannedSectorIsPath | src/core/antenna_motion_planner.cpp:87-120 | For every planned path containment is betweenness of coordinates and the sector's span is the path's |
| AntennaGeometry.NormalizeRange | src/core/antenna_motion_planner.cpp:122-136 | Normalizing lands in one turn and keeps azimuths |
| AntennaGeometry.NormalizeKeepsDirection | src/core/antenna_motion_planner.cpp:122-136 | Normalizing adds whole turns only, for any angle |
| AntennaGeometry.SafeCoordOf | src/core/antenna_motion_planner.cpp:144-160 | Coordinates start at the blind zone's end and grow through north to its start; a blind azimuth has that of the nearer edge |
| AntennaGeometry.RefusalTellsWhy | src/core/antenna_motion_planner.cpp:25-86 | Which of invalid input, blind end, no width and too narrow a refused plan reports, exactly |
| AntennaGeometry.CrossesNorth | src/core/antenna_motion_planner.cpp:97-120 | A planned path is said to cross north exactly when it joins the two sides of north on the line |
| AntennaMotion.DriveLeftIsClamped | src/app/antennacontrollerstub.cpp:236-268 | A left tick is motion on the line clamped at 0, where it stops, within a billionth of a degree |
| AntennaMotion.DriveRightIsClamped | src/app/antennacontrollerstub.cpp:270-302 | A right tick is motion on the line clamped at 340, where it stops, within a billionth of a degree |
| AntennaMotion.MoveTowardProgresses | src/app/antennacontrollerstub.cpp:319-338 | A move reaches its coordinate or comes closer by the whole step |
| AntennaMotion.NeverInBlindZone | src/app/antennacontrollerstub.cpp:41-234 | From a usable azimuth no run of drives, scans, stops and ticks enters the blind zone |
| AntennaMotion.DrivesTurnTheirWay | src/app/antennacontrollerstub.cpp:63-83 | A left or right command and a tick turn the antenna that way on the line by its speed times the tick, of at least a millisecond, up to the end |
| AntennaMotion.ScanStartsAtNearerEnd | src/app/antennacontrollerstub.cpp:85-199 | A scan between usable azimuths is accepted exactly with a speed and ends apart, sweeps between those two ends, and starts at the nearer one |
| AntennaMotion.BlindEndRefused | src/app/antennacontrollerstub.cpp:133-150 | A scan with an end in the blind zone changes nothing |
| AntennaMotion.ScanProgresses | src/app/antennacontrollerstub.cpp:208-234 | Every tick of a scan lowers an integer measure; the move ends at the start, the sweep at the target |
| AntennaMotion.ScanReachesTarget | src/app/antennacontrollerstub.cpp:176-199 | However long the ticks, every accepted scan passes its start and stops at its target within its measure |
| AntennaMotion.AntennaControllerStub.SetAzimuthDeg | src/app/antennacontrollerstub.cpp:41-54 | Validates, normalizes and skips fuzzily equal azimuths |
| AntennaMotion.AntennaControllerStub.StartSectorScan | src/app/antennacontrollerstub.cpp:85-118 | Rejects or starts toward the nearer end, as specified |
| AntennaMotion.AntennaControllerStub.AdvanceMotion | src/app/antennacontrollerstub.cpp:208-234 | One tick does what the specification of its mode says |
| AntennaMotion.AntennaControllerStub.AdvanceDriveLeft | src/app/antennacontrollerstub.cpp:236-268 | The left tick in raw azimuths |
| AntennaMotion.AntennaControllerStub.AdvanceDriveRight | src/app/antennacontrollerstub.cpp:270-302 | The right tick in raw azimuths |
| AntennaMotion.AntennaControllerStub.MoveTowardSafeCoord | src/app/antennacontrollerstub.cpp:319-338 | The move toward a coordinate and whether it arrived |
| WaterfallRowQueues.WaterfallRowQueue.PushRows | src/pipeline/waterfall_row_queue.cpp:38-81 | Pushed equals dropped, drained and queued; ids are consecutive and the queue holds the last ones issued; under drop-oldest it is the newest rows that fit, under drop-newest the oldest |
| WaterfallRowQueues.WaterfallRowQueue.PushRow | src/pipeline/waterfall_row_queue.cpp:47-72 | One row under either policy, with its id |
| WaterfallRowQueues.WaterfallRowQueue.Drain | src/pipeline/waterfall_row_queue.cpp:83-98 | The oldest rows leave in order; nothing else changes |
| WaterfallRowQueues.WaterfallRowQueue.SetConfig | src/pipeline/waterfall_row_queue.cpp:26-36 | Empties the queue and restarts ids and counters |
| WaterfallRowQueues.DrainedWithoutGaps | src/pipeline/waterfall_row_queue.cpp:57-67 | Under drop-newest drained ids run from 1 without gaps and the queue continues them |
| WaterfallRowQueues.KeptSnoc | src/pipeline/waterfall_row_queue.cpp:47-72 | The contents after a batch, row by row |
| SourceBridge.SourceToPipelineBridge.Submit | src/pipeline/source_to_pipeline_bridge.cpp:138-195 | Counts the block and queues it, drops it, or replaces the oldest, as state and policy say; conservation and order are kept |
| SourceBridge.SourceToPipelineBridge.WorkerTakes | src/pipeline/source_to_pipeline_bridge.cpp:240-257 | The oldest block goes to the pipeline, in submission order, or the worker leaves |
| SourceBridge.SourceToPipelineBridge.WorkerFinishes | src/pipeline/source_to_pipeline_bridge.cpp:275-287 | The block in hand is counted as ingested or rejected |
| SourceBridge.SourceToPipelineBridge.Start | src/pipeline/source_to_pipeline_bridge.cpp:46-86 | Starts clean, once; a thread that cannot start leaves it stopped |
| SourceBridge.SourceToPipelineBridge.RequestStop | src/pipeline/source_to_pipeline_bridge.cpp:93-109 | Queued blocks become counted drops |
| SourceBridge.SourceToPipelineBridge.Stop | src/pipeline/source_to_pipeline_bridge.cpp:88-131 | After stop everything received is ingested, rejected or dropped, in blocks and samples |
| SourceBridge.SourceToPipelineBridge.Clear | src/pipeline/source_to_pipeline_bridge.cpp:225-233 | Queue and metrics go; the block being ingested is what conservation is then off by |
| SourceBridge.SourceToPipelineBridge.Snapshot | src/pipeline/source_to_pipeline_bridge.cpp:216-223 | Received equals ingested, rejected, dropped, queued and in progress if and only if no ingest was in progress at the last clear |
| SourceBridge.TotalAddsUp | src/pipeline/source_to_pipeline_bridge.cpp:138-195 | A tally counts blocks and adds up their samples, over any concatenation |
| SourceBridge.SourceToPipelineBridge.Drained | src/pipeline/source_to_pipeline_bridge.cpp:203-207 | When flush sees its predicate everything received is settled |
| SourceBridge.BcoAcquisitionSession.SetSource | src/pipeline/bco_acquisition_session.cpp:22-29 | The source changes only while neither active nor running |
| SourceBridge.BcoAcquisitionSession.StartSource | src/pipeline/bco_acquisition_session.cpp:31-45 | Active exactly when pipeline and source started |
| SourceBridge.BcoAcquisitionSession.StopSource | src/pipeline/bco_acquisition_session.cpp:47-53 | Stays active when the source does not stop |
| SourceBridge.BcoAcquisitionSession.OpenInput | src/pipeline/bco_acquisition_session.cpp:55-59 | Opens the bridge, once |
| SourceBridge.BcoAcquisitionSession.SetAccepting | src/pipeline/bco_acquisition_session.cpp:61-65 | Accepting implies that the bridge is running |
| SourceBridge.BcoAcquisitionSession.Deliver | src/pipeline/bco_acquisition_session.cpp:39-42 | Blocks pass exactly while accepting |
| SourceBridge.BcoAcquisitionSession.CloseInput | src/pipeline/bco_acquisition_session.cpp:67-89 | Closing stops accepting and the bridge and settles everything received |
| SourceBridge.BcoAcquisitionSession.ClearInput | src/pipeline/bco_acquisition_session.cpp:91-95 | Clears the bridge without stopping it |

## Left out

- Real threads, condition variables, wake-ups, timeouts, fair scheduling: that a thread which can take a step does take it is not stated.
- Start, stop and start again of one engine, and two stops at once: each run is one life of the engine.
- What the stages compute inside the engine: a stage's processing of a block is one opaque step.
- `SpectrumAggregator`, `SignalParameterAggregator`, `BearingService`, UDP and simulator sources, binary storage are not part of this model.
- Per-stage order across blocks that the ingest worker processes itself: the code does not promise it.
- The flat but untrusted and the general consume variants of the bearing aggregator: the model has the trusted block-local path and the per-sample path over a map.
- Timing samples, latencies, metrics text, diagnostics publishing, snapshot envelopes (`makeSnapshot`) and time-delta metrics of the row queue.
- Wrap-around of the 64-bit counters of blocks, samples, rows and ids.
- Floating-point rounding, not-a-number and infinite inputs.
- The blocking `push` and `tryPop` of the block queue, which the pipeline does not use.
- Overlapping calls in the class `DataIngestPipeline`: there one call follows another, and the state machine of the engine covers producers, `clear()` and stop in any interleaving.
- Viewport setters (`jumpToLive`, `switchToSession`, scrolling), pixel positions and time ticks of the timeline: single assignments or user interface.
- Viewport changes during a session, and live rows between a reload's request and its answer, beyond `LateAnswerHidesRows`.
- Flat byte layout of the ring buffer: it is an array of lines, each a sequence.
- Order of equal rows under the unstable sort of `loadRows`, and the storage's own order of sessions.
- Ids generated for sessions that start without one.
- UI progress, error texts, signal parameters, streaming bearing results and the result table of the scan controller.
- Manual drives and speed texts of the scan controller beyond their guard, and the azimuth source thread.
- EngineSummary.MakeBlockAccounting: does not say in which order the entries are listed, because the map is walked in an order left open.
- FanOutGuarantees.IngestWorkerNeverStuck: does not say that the worker is ever scheduled.
- BearingEquivalence.FastPathRefinesSimplePath: says nothing for streams with an index past 64 bits; PathsAgreeOnAnyStream covers those, but for calls of several samples only that agreeing verdicts give agreeing results.
