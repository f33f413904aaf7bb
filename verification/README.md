# Verified model of TF-Concurrente

The repository loads taxi trips from a CSV file with a pipeline of goroutines, trains a
linear regression on them with parallel workers or with a cluster of nodes, and computes
statistics. This project models those three pipelines in Dafny and proves that each one,
whatever the scheduler and the network do, computes what a simple sequential program would.
`dafny verify dfyconfig.toml` checks everything.

The two concurrent trainers and the loader are transition systems: a configuration, a state
with one program counter per goroutine and one bounded FIFO queue per channel, a set of
actions, `Enabled` (the goroutine is at that point and would not block) and `Step`. A
schedule is any sequence of enabled actions, and the theorems quantify over all schedules.
Fields marked as history in the sources record what a message stands for; no step decides
anything by them. The loops inside the goroutines, the arithmetic, the scaler, the metrics
and the statistics are methods over arrays and local variables, proved against the functions
that the transition systems use.

## Files

- `Wrappers.dfy`: optional values.
- `Sums.dfy`: finite real sums, their linearity, permutation, exchange, Cauchy-Schwarz.
- `Ledger.dfy`: bags of items held by several holders, and their conservation.
- `Descent.dfy`: sequential full-batch gradient descent, the shared specification.
- `Gradient.dfy`: partitions, `computeGrad`, `AccumulateGradient`, the loops of one worker
  epoch and of one aggregator epoch.
- `TrainSystem.dfy`, `TrainRuns.dfy`: the goroutines of `Train`, their invariant and runs.
- `TrainHeap.dfy`: the same goroutines with every theta a slice on one shared heap.
- `Cluster.dfy`, `ClusterRuns.dfy`: coordinator, nodes and streams, with failures.
- `Trips.dfy`, `Features.dfy`, `Convergence.dfy`: trips, standardisation, and what it makes
  true of training.
- `Evaluation.dfy`: metrics and baselines. `Training.dfy`: both trainers end to end.
- `Parser.dfy`, `LoadSystem.dfy`, `LoadRuns.dfy`: validation rules and the loader pipeline.
- `Stats.dfy`: the aggregates over loaded trips.

## Actions and the code they stand for

- `TrainSystem`: CoordSend sgd.go:149-153, CoordReceive 156-159, CoordClose 170-172,
  WorkerTake 213-217, WorkerGrad 220-228, WorkerDone 233, WorkerExit 213, AggReceive 253-263,
  AggUpdate 267-271, AggPublish 274-276. The order given to WorkerTake is the shuffle.
- `Cluster`: SendInit coordinator.go:79-87, TakeAck 88-91, DialFault 67-70, FanSend 117-122,
  FanReceive 126-136, the two Fan faults 123-124 and 127-129, FoldNext 157-166, Timeout
  151-156, EndEpoch 140-144 and 170-188, SendStop 191-195, NodeHandle node.go:44-97.
- `LoadSystem`: Scan loader.go:165-177, EndScan 166-168 and 178, SendBatch 172 and 179,
  CloseBatches 163, Take 138, ParseNext 139-145, EndBatch and Exit 138, CloseOut 154-157,
  Collect 190-192, EndCollect 190-201.

## Where code and documentation differ

- The comments call the local trainer mini-batch SGD. The code updates theta once per epoch,
  with the batch means weighted back by their lengths, so it is full-batch descent, and batch
  size, shuffling and worker count do not influence the exact result. The model follows the
  code; `TrainRuns.TrainRefinesDescent` is that statement.
- The comment on `TrainDistributed` speaks of the first 80% of the trips; the code takes the
  fraction from the options, and so does the model.

## Model

| member | source | states |
|---|---|---|
| TrainRuns.TrainRefinesDescent | internal/model/sgd.go:115-172 | for every schedule, shuffle, batch size and worker count the coordinator holds, after e results, exactly e steps of sequential full-batch descent and their losses; when Train returns, even with other goroutines still running, these are all epochs; a run in which nobody can move has returned and everybody has finished |
| TrainRuns.TrainTerminates | internal/model/sgd.go:126-172 | no schedule is longer than a bound computed from the configuration |
| TrainRuns.EpochBarrier | internal/model/sgd.go:237-277 | in every reachable state all messages on gradCh belong to the epoch being collected; when W Dones are in, the channel is empty, all workers wait, and the accumulators are the gradient sum with each row counted once |
| TrainSystem.Barrier | internal/model/sgd.go:251-264 | the barrier as a consequence of the invariant alone |
| TrainSystem.StepKeepsInv | internal/model/sgd.go:144-278 | every action of every goroutine keeps the invariant over channels, program counters and partial sums |
| TrainSystem.TrainConfigValid | internal/model/sgd.go:119-135 | the partitions Train hands to its workers hold every row number exactly once |
| TrainRuns.NoDeadlock | internal/model/sgd.go:123-172 | with the real channel capacities some goroutine can move until all have finished |
| TrainRuns.ChannelsHaveRoom | internal/model/sgd.go:123-131 | gradCh never holds more than 4 W messages and the other channels more than one theta, and a sender waits only while its channel is that full |
| TrainRuns.StepDecreases | internal/model/sgd.go:144-278 | a natural number falls on every step, so no run is endless |
| TrainRuns.RunCompletes | internal/model/sgd.go:169-172 | from every reachable state some schedule leads to the end, all goroutines gone and all channels empty |
| TrainRuns.ThetaHasOneWriter | internal/model/sgd.go:60-76 | while the coordinator may still read the slice it shares with the aggregator, the aggregator cannot write it, and what is read is still zero |
| TrainRuns.WorkersFollowTheLoop | internal/model/sgd.go:219-233 | the worker actions send exactly the messages of the verified worker loop |
| TrainRuns.AggregatorFollowsTheLoop | internal/model/sgd.go:246-277 | the update is what the verified aggregator loop computes from the messages received, and equals one step of sequential descent |
| TrainHeap.LookStep | internal/model/sgd.go:147-156 | with thetas as slices on a shared heap, copied where the code copies and overwritten in place by the aggregator, every goroutine sees after a step exactly what the value semantics says |
| TrainHeap.SeparateStep | internal/model/sgd.go:265-276 | a step hands a slice over, drops it or allocates a new one, so no slice ever has two holders |
| TrainHeap.HeapRefinesValues | internal/model/sgd.go:60-76 | the schedules possible on the heap are those of the value system and lead to the same state |
| TrainHeap.SharedUntilFirstResult | internal/model/sgd.go:139-159 | coordinator and aggregator use one slice exactly until the first result is received, and the aggregator cannot write it while the coordinator may still read it |
| TrainHeap.NoSliceIsShared | internal/model/sgd.go:66-68 | in every reachable state the thetas of the aggregator, the coordinator, the result channel, the parameter channels and the workers are pairwise separate slices |
| Gradient.Broadcast | internal/model/sgd.go:147-153 | one fresh copy of theta for each worker, no two the same slice |
| Gradient.RunWorkerEpoch | internal/model/sgd.go:219-233 | one epoch of a worker sends the mean gradient of each chunk of its shuffled rows, then one Done |
| Gradient.RunAggregatorEpoch | internal/model/sgd.go:247-276 | reads up to and including the W-th Done, updates theta in place by the accumulated gradient over the accumulated count, hands out a fresh copy |
| Gradient.ChunkingPreservesGradient | internal/model/sgd.go:219-229 | absorbing a worker's messages adds exactly the gradient and count of its rows, for any order and chunk size |
| Gradient.ComputeGrad | internal/model/sgd.go:283-298 | the mean over the batch of error times row, in a fresh slice |
| Gradient.ComputeMSE | internal/model/sgd.go:301-309 | the mean squared error over all rows |
| Gradient.DotProduct | internal/model/features.go:126-132 | the loop computes the sum of products |
| Gradient.MakePartitions | internal/model/sgd.go:334-343 | W ranges, the i-th from i * (n / W) to (i + 1) * (n / W), but the last to n |
| Gradient.PiecesAreEven | internal/model/sgd.go:332-343 | every worker and every node gets n / W consecutive rows, the last one the fewer than W that remain as well |
| Gradient.EpochIsCut | internal/model/sgd.go:219-233 | message k of a worker's epoch is the mean gradient of the k-th batchSize shuffled rows, only the last batch may be shorter, and there are as many as the rows need |
| Gradient.PartsCover | internal/model/sgd.go:332-343 | the ranges hold each index below n exactly once, also when there are more ranges than indices |
| Gradient.AccumulateGradient | internal/model/sgd.go:349-372 | batches of 1024 weighted back give the gradient sum over all rows and their number, zero rows included |
| Gradient.PiecesAddUp | internal/model/sgd.go:334-372 | gradients and counts over the pieces, in any order, add up to those of all rows |
| Descent.GradientOfAnyOrder | internal/model/sgd.go:208-217 | the gradient sum over any permutation of the row numbers is the full gradient |
| Descent.WeightsOfAnyOrder | internal/model/sgd.go:90-113 | the weights of descent depend on the rows only as a bag |
| Descent.LossesOfAnyOrder | internal/model/sgd.go:156-159 | and so do its recorded losses |
| Features.FitScaler | internal/model/features.go:58-98 | the two passes compute mean and deviation of every feature; without trips the means are 0 and the deviations 1 |
| Features.ScalerIsExact | internal/model/features.go:74-97 | the stored mean is the mean; a deviation of at least 1e-10 is stored exactly and makes the column's mean square one, a smaller one is stored as 1 |
| Features.ConstantFeature | internal/model/features.go:91-95 | a feature equal on all training trips has deviation 1 and an all-zero column |
| Features.ScalingIsInvertible | internal/model/features.go:103-111 | undoing the scaling of a feature vector gives the raw features back, and its last entry is 1 |
| Training.FeaturesOfLine | internal/model/features.go:26-47 | the eight raw features in terms of the line a trip was read from, with weekends by the calendar of January 2015 |
| Features.BuildFeatureVector | internal/model/features.go:103-111 | the eight scores followed by the constant one |
| Features.BuildMatrix | internal/model/features.go:115-123 | one row per trip, in order, with its duration as target |
| Features.FittedMatrixIsStandardised | internal/model/features.go:58-123 | on the trips it was fitted on, every feature column sums to zero with mean square at most one, and the bias column is one |
| Features.FitOfAnyOrder | internal/model/features.go:58-98 | the scaler depends on the trips only as a bag |
| Features.MatrixOfAnyOrder | internal/model/features.go:115-123 | reordering the trips reorders the matrix |
| Convergence.GradientIsTheDerivative | internal/model/sgd.go:280-309 | the squared errors around theta are exactly linear in the gradient sum plus a square, in every direction |
| Convergence.StepLowersLoss | internal/model/sgd.go:265-271 | one epoch lowers the loss by at least lr * (2 - 9 lr) times the squared gradient norm |
| Convergence.LossNeverRises | internal/model/sgd.go:144-167 | no later loss exceeds an earlier one when lr is at most 2 over the number of columns |
| Convergence.GradientsAreSummable | internal/model/sgd.go:144-167 | lr * (2 - 9 lr) times the sum of all squared gradient norms of a run is at most the loss that was lost |
| Convergence.LossIsConvex | internal/model/sgd.go:280-309 | the loss of any weights is at least what the gradient at theta foretells |
| Convergence.StepNearsAny | internal/model/sgd.go:265-271 | lr times what a step's loss exceeds the loss of w by is at most the squared distance to w the step gains |
| Convergence.LossNearsAny | internal/model/sgd.go:144-167 | with lr at most 1/9 the loss after e epochs exceeds that of any weights w by at most the square of w over lr * e |
| Convergence.MeanPredictionIsBias | internal/model/sgd.go:283-298 | on a standardised matrix the predictions average to the bias weight |
| Convergence.BiasClosedForm | internal/model/sgd.go:265-271 | the bias after e epochs is mean(y) * (1 - (1 - lr)^e), whatever the other weights are |
| Training.LocalResultIsDescent | internal/model/sgd.go:77-185 | whatever Train returns is sequential descent on the first floor(fraction * n) of the shuffled trips, with the scaler fitted on them, for the epochs and learning rate of its defaulted options |
| Training.ClusterResultIsDescent | internal/cluster/coordinator.go:39-62 | whatever TrainDistributed returns is sequential descent on the first floor(fraction * n) trips, for any number of nodes, any arrival order and its own defaults |
| Training.TrainersAgree | internal/cluster/coordinator.go:36-62 | when their training parts are reorderings of each other and epochs and learning rate are equal, both trainers return the same model, scaler included, and losses, for all schedules, workers, nodes and batch sizes |
| Training.SplitsAgree | internal/model/sgd.go:84-104 | the shuffle leaves the training part as large as the deterministic split, and the same trips when it mixes only within the two parts |
| Training.TrainLossNeverRises | internal/model/sgd.go:141-167 | with lr at most 2/9 the recorded losses of every call of Train never rise, start no higher than at zero weights, and never trigger the divergence warning after the first epoch |
| Training.DistributedLossNeverRises | internal/cluster/coordinator.go:181-187 | the same of every model the coordinator returns |
| Training.TrainLossNearsAny | internal/model/sgd.go:141-167 | with lr at most 1/9 each recorded loss of a call of Train is within the square of w over lr times epoch of the loss of any weights w |
| Training.DistributedLossNearsAny | internal/cluster/coordinator.go:181-187 | the same of every model the coordinator returns |
| Training.TrainedBias | internal/model/sgd.go:174-185 | the bias weight of a returned model in closed form |
| Training.TrainedRmse | internal/model/sgd.go:187-190 | the squared training RMSE of a returned model is its last recorded loss |
| Training.LocalDefaults | internal/model/sgd.go:23-39 | option by option: kept when usable, otherwise 1 worker, 10 epochs, rate 0.01, batches of 1024, fraction 0.8 |
| Training.ClusterDefaults | internal/cluster/coordinator.go:43-51 | option by option: kept when usable, otherwise 100 epochs, rate 0.05, fraction 0.8; workers and batch size untouched |
| Training.WorkIsShared | internal/model/sgd.go:119-135 | a call of Train starts as many workers as its options say, with its batch size and n / W of the training rows each |
| Training.DataIsShared | internal/cluster/coordinator.go:64-87 | each node of a call of TrainDistributed holds n / N of the training rows, the last one the rest as well |
| Training.SplitAt | internal/model/sgd.go:93 | the split point is the fraction of the trips rounded down, and never exceeds their number |
| ClusterRuns.DistributedRefinesDescent | internal/cluster/coordinator.go:95-188 | whatever fails and in whatever order replies arrive, theta is sequential descent for the completed epochs, with their losses; a returned model has all epochs |
| ClusterRuns.RepliesAreCurrent | internal/cluster/coordinator.go:113-167 | every reply waiting to be folded has the current epoch and is the gradient of the current theta on that node's acknowledged partition |
| ClusterRuns.FailureIsFinal | internal/cluster/coordinator.go:147-172 | once a node has reported an error in an epoch, that epoch's update is never applied and no model is ever returned |
| ClusterRuns.FaultFreeRunsSucceed | internal/cluster/coordinator.go:101-195 | a run without failures that can go on only by failing has returned its model, every node has left its session after its Stop, and every stream is empty |
| ClusterRuns.RunIsBounded | internal/cluster/coordinator.go:64-195 | no run, with failures or without, is longer than a bound computed from the state it starts in |
| ClusterRuns.HealthyMoves | internal/cluster/coordinator.go:78-195 | while nothing has failed, some step that is no failure is enabled until the job is over at the coordinator and at every node |
| ClusterRuns.StepDecreases | internal/cluster/coordinator.go:64-195 | a natural number falls on every step, failures included |
| ClusterRuns.ResultChannelHasRoom | internal/cluster/coordinator.go:110-144 | resultCh never holds more than one result per node, so no goroutine blocks on it |
| ClusterRuns.CoordinatorFollowsTheLoop | internal/cluster/coordinator.go:146-179 | an epoch ends, in an update, a failure or a timeout, as the verified aggregation loop ends on the results folded |
| Cluster.StepKeepsInv | internal/cluster/coordinator.go:64-195 | every step of coordinator, goroutines and nodes keeps the invariant over streams, data and sums |
| Cluster.EpochIsComplete | internal/cluster/coordinator.go:140-179 | when the results are drained without an error the accumulators are the gradient sum and count of all training rows |
| Cluster.NodeSession.Receive | internal/cluster/node.go:44-97 | one turn of the node's loop: data replaces what it holds and is acknowledged, a theta is answered by the gradient sum and number of its rows, a Stop or any other message ends the session without a reply |
| Cluster.AggregateEpoch | internal/cluster/coordinator.go:146-179 | folds replies in arrival order, gives up at the first one that is late, drains the rest after an error, and updates theta in place exactly if all were in time and none failed |
| Parser.ParseLine | internal/loader/parser.go:66-164 | returns the first rule that fails, or a trip when none does; the trip has the line's own fields, the exact duration, hour and weekday of the pickup, and lies within the bounds of the rules |
| Parser.FirstRuleExactly | internal/loader/parser.go:109-150 | a line is accepted if and only if it falls to no rule and else rejected by the first it falls to, with the rules in nanoseconds and without quotients: the last nanosecond of January 2015 is in, the next is not |
| Parser.JanuaryCalendar | internal/loader/parser.go:152-163 | hour and weekday of an accepted trip by the calendar of January 2015 |
| LoadSystem.Configure | internal/loader/loader.go:86-93 | options that are given are kept, others become the number of processors and batches of 10000; lines and limit are passed on |
| LoadSystem.StepKeepsInv | internal/loader/loader.go:129-192 | every step keeps line conservation, output order, counters and the closing protocol |
| LoadSystem.ReadBatches | internal/loader/loader.go:163-180 | the reader's loop cuts the lines within the limit into full batches and a shorter last one, in order and losing none |
| LoadSystem.ParseBatch | internal/loader/loader.go:138-147 | a worker's loop over a batch sends its valid trips in order and counts each discard under its rule |
| LoadSystem.EveryLineIsAccounted | internal/loader/loader.go:139-145 | every line is either one trip or one discard of one rule |
| LoadSystem.LinesInAnyOrder | internal/loader/loader.go:138-147 | the trips as a bag and the discards depend on the lines only as a bag |
| LoadSystem.OutcomesAreOfLines | internal/loader/loader.go:138-147 | a trip occurs as often as lines parse to it, and the discards of a rule are the lines it rejects first |
| LoadSystem.DiscardCounters.Inc | internal/loader/loader.go:40-44 | adds one to the counter of rules 1 to 9 and ignores other numbers |
| LoadSystem.DiscardCounters.Snapshot | internal/loader/loader.go:46-52 | a copy of the nine counters with index 0 at zero |
| LoadRuns.LoadRefinesSequential | internal/loader/loader.go:122-201 | for every schedule, worker count and batch size the run is bounded, totalRead always splits into lines inside, trips and discards, and when nobody can move the run has ended with the trips, discards and total of one pass over the first min(Limit, lines) lines |
| LoadRuns.LinesAreConserved | internal/loader/loader.go:129-192 | in every reachable state totalRead is lines inside the pipeline plus trips in outCh and collected plus counted discards |
| LoadRuns.ChannelProtocol | internal/loader/loader.go:122-192 | on every run nothing is sent on a closed channel, no channel is closed twice, outCh closes only after batchCh is closed and drained and all workers have left; when Load returns, or nobody can move, both have been closed exactly once, are empty, and every goroutine is gone |
| LoadRuns.ReaderFollowsTheLoop | internal/loader/loader.go:163-180 | the batches put on batchCh are, in order, those of the verified reader loop |
| LoadRuns.WorkersFollowTheLoop | internal/loader/loader.go:138-147 | the trips and counts a worker's steps give are those the verified loop over its batch gives |
| LoadRuns.NoDeadlock | internal/loader/loader.go:122-192 | with the real capacities some goroutine can move until the collector has finished |
| LoadRuns.StepDecreases | internal/loader/loader.go:122-192 | a natural number falls on every step |
| LoadRuns.CollectedTripsAreValid | internal/loader/loader.go:189-192 | every trip with the collector has passed all nine rules |
| LoadRuns.ResultIsOfLines | internal/loader/loader.go:189-201 | in what Load returns each trip occurs as often as lines among those read parse to it, Discards[r] is the number of lines read that rule r rejects first, and TotalRead their number |
| LoadRuns.ChannelsHaveRoom | internal/loader/loader.go:122-126 | batchCh never holds more than 2 W batches nor outCh more than 1024 W trips, and a sender waits only while its channel is that full |
| Evaluation.Evaluate | internal/model/model.go:80-115 | MAE is the mean magnitude of the residuals, RMSE squared their mean square, R2 the explained share of the durations' spread, 0 without spread; all zeros for no trips |
| Evaluation.MetricsMeasure | internal/model/model.go:96-114 | the same of the metrics of any predictor |
| Evaluation.PerfectPredictor | internal/model/model.go:96-114 | without errors MAE and RMSE are 0, and R2 is 1 where durations vary |
| Evaluation.ConstantError | internal/model/model.go:96-114 | an error that is the same on every trip is both MAE and RMSE |
| Evaluation.TestMeanExplainsNothing | internal/model/model.go:175-186 | predicting the test mean has an R2 of exactly 0 |
| Evaluation.MetricsAreOrdered | internal/model/model.go:96-114 | MAE never exceeds RMSE and R2 is at most one, for every predictor |
| Evaluation.TrainRmseIsTheLoss | internal/model/model.go:80-115 | on the training trips the squared RMSE is the loss on the training matrix |
| Evaluation.BaselineMetrics | internal/model/model.go:119-193 | MAE, RMSE and R2, in the same sense, of predicting the training mean and of dividing by the mean training speed |
| Evaluation.GlobalSpeedIsTheMean | internal/model/model.go:124-136 | the global speed times the number of training trips that take time is the sum of their speeds |
| Evaluation.GlobalSpeedIsBetween | internal/model/model.go:124-136 | and it lies between the least and the greatest of them |
| Evaluation.SpeedPrediction | internal/model/model.go:161-164 | the speed baseline predicts the minutes the distance takes at the global speed, and 0 where that is not positive |
| Evaluation.ConstantPredictionCost | internal/model/model.go:138-170 | predicting a constant costs ssTot plus n times its squared distance from the test mean |
| Evaluation.SpeedBaselineIsExact | internal/model/model.go:124-167 | where all trips go at one speed the speed baseline finds that speed and predicts every duration exactly |
| Evaluation.MeanBaselineR2 | internal/model/model.go:175-186 | the mean baseline's R2 is never positive |
| Stats.Compute | internal/stats/stats.go:52-115 | every array holds the exact counts and speed sums of the trips, and TopCells is the true top |
| Stats.HoursAndWeekdays | internal/stats/stats.go:76-78 | each entry is the number of trips with that hour, or with that weekday |
| Stats.HistogramBins | internal/stats/stats.go:80-88 | each of the 91 two-minute and 101 one-mile bins holds the number of trips that lie in it |
| Stats.SpeedsAreMeans | internal/stats/stats.go:90-94 | the average of an hour times its trips that take time is the sum of their miles per hour |
| Stats.BinsInRange | internal/stats/stats.go:80-88 | a validated trip falls into existing bins, the ones its duration and distance lie in |
| Stats.AggregatesAreLossless | internal/stats/stats.go:76-94 | over validated trips all four histograms add up to the number of trips and each hour averages exactly its own trips |
| Stats.AverageSpeedsAreLegal | internal/stats/stats.go:37-42 | every hour with trips averages between 0.5 and 80 mph |
| Stats.TopCells | internal/stats/stats.go:100-112 | at most 50 distinct cells with exact counts in falling order, and no omitted cell counts more than a kept one |
| Stats.TopCellsCountTrips | internal/stats/stats.go:96-112 | the count of a kept cell is the number of trips whose latitude and longitude, cut to hundredths towards zero, are its own; 50 cells are kept, or all if there are fewer |
| Stats.UncutCellsHoldAllTrips | internal/stats/stats.go:96-112 | the counts of the kept cells add up to the number of trips if and only if the trips lie in at most 50 cells, exactly when nothing is cut |

## Left out

- Floating point: `float64` is `real`. Independence of the schedule holds in exact
  arithmetic only, and not-a-number and infinities do not occur; a parsed number is finite.
- `math.Sqrt`, `math.Sin`, `math.Cos`: parameters; only that sqrt gives a non-negative root is assumed.
- Random shuffles: any permutation, chosen anew by every worker in every epoch.
- Gradient slices on gradCh are values, as are X and y, which nobody writes; that each gradient
  is a fresh slice is stated by `Gradient.ComputeGrad`. Thetas are slices on a heap in `TrainHeap`.
- Gradient.ComputeGrad: asks for a non-empty batch, which all its callers pass; the code divides zero by zero otherwise.
- Gradient.MakePartitions: asks for W > 0; the code panics at W = 0, which no default prevents for an empty list of nodes.
- Evaluation.Evaluate: asks for nine weights and positive deviations, which every trained model has (`Features.FitIsGood`).
- Evaluation.BaselineMetrics: where no training trip has a positive duration the code's mean speed is not-a-number; 0 stands for it, and the comparison it is used in treats both alike.
- Losses on an empty training matrix are not-a-number in the code and None here; theorems about losses ask for at least one training trip.
- Parser.ParseLine: starts from the converted fields; splitting a line, trimming, number and date syntax and the header lookup are one parameter of the loader.
- Scanner errors and overlong lines: the lines of the model are those the scanner delivers.
- Real time: the epoch timeout, which the code looks at only when a result arrives, is a failure that may happen at that moment; a node that never answers is not told apart from a slow one.
- gob, TCP dialling, closing of connections and the accept loop: streams are FIFO, and any send, receive or node may fail.
- Integer widths: counters and indices are unbounded; only the clamping of a time difference to 64 bits is modelled.
- Sorting in the statistics is an insertion sort; ties come in no particular order, as in the code.
- HTTP handlers, databases, command line, logging, JSON and CSV files: no deep property.
