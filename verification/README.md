# Federated Dynamic Averaging: a verified model

The repository runs Federated Dynamic Averaging (FDA) on top of Flower, TensorFlow and ns-3. In a
round, every participating client trains batch by batch. After each batch it sends the squared drift
of its weights from the round's starting point to a metric server, which holds the call until all
participants have sent theirs and then tells all of them whether to stop the round. This project
models that protocol and the bookkeeping around it, and proves what it guarantees.

| file | what it models |
|---|---|
| `MetricBarrier`, `BarrierLiveness`, `BarrierCounts`, `BarrierPool`, `BarrierReentry` | the reusable barrier as a transition system: safety, the exact liveness boundary, exact counts, the handler pool, and what re-entry does |
| `MetricServer` | the server object whose methods carry out those transitions |
| `L2Norm`, `Geometry` | the drift metric and the variance identity behind the threshold |
| `Training`, `Lockstep`, `RoundBoundary`, `SafeRounds`, `RoundReports`, `Campaign` | the training loop, the batch cursor, all participants together, how rounds end, how far models drift in them, what they report, and rounds in succession |
| `Monitor`, `DropoutLoop`, `Ns3Round`, `Strategy`, `RoundBookkeeping`, `WeightedAverage`, `Averages` | who trains, the simulated network round, the join of its records, and the aggregated metrics |
| `Partition`, `ClassSplit`, `Percentages` | splitting a data set evenly or with a class bias, and generating the shares |
| `WorkerPool` | the thread pool of the ns-3 test runner |
| `TraceParser`, `NodeVector` | the packet part of the netanim trace parser, and the node-list printer and parser |
| `FiniteSets`, `Sums`, `Options` | cardinalities, sums and multiples, and optional values |

## Reading guide

**The barrier.** One event is one stretch of code run under the server's lock: a call from its entry to
its wait or its return (`Arrive`), a notified call from the end of its wait to its return (`Wake`), and
the reset between rounds (`EndRound`). A run is any sequence of enabled events. `Orderly` says that
nobody re-enters while a batch drains and that rounds end with nobody inside. Orderly runs are safe
(`OrderlyRunsAgree`). Nothing in the server enforces that order, and a training loop that hears
"continue" may well call again during the drain, so the results about order come with their exact
boundaries: `PassesForeverIffNeverStranded` for liveness, `ReentryHarmsIff` for the agreement of one
batch.

**A round.** `RoundRun` is any run of training loops on the barrier, re-entry included. Whatever the
interleaving, two participants are never more than one batch apart, no round is longer than the first
crossing allows, and if everyone is told to stop then all stopped at that first crossing. The two exact
boundaries are `CanEndIffOrderly` (a round can still end exactly if nobody has re-entered during a drain)
and `ToldTheTruthIff` (all answers are true exactly if nobody woke after a re-entry above the threshold).
Only "stop" can be untrue: "continue" is never said wrongly, whatever the interleaving (`ContinueIsTrue`). So
whenever the server lets anyone go on, the models' mean squared distance to their average and the squared
drift of that average share the threshold between them (`RoundsStayInTheSafeBall`), in every round of a
campaign (`EveryRoundStaysSafe`).

**The answer means "stop".** The documentation of `SendMetricAndWait` (geom/server/metric_server.py:59)
says that `True` means to continue. The code answers `True` when some norm exceeds the threshold, and
the client stops on it; the model follows the code.

**False as stated, true under an exact condition.** Each has a lemma with a failing input and one with the
condition. The answers of one batch need not agree (`ReentrySplitsTheVerdict`; `ReentryHarmsIff`). That all participants
of a round train the same number of batches and then stop fails after a re-entry: the round may never end
(`ReentryStrandsTheRound`; `CanEndIffOrderly`), and one client may be stopped at a batch where nobody crossed
(`ReentryStopsTooEarly`; `ToldTheTruthIff`). The dropout loop does not remove all dropouts (`SecondOfTwoStays`; `LoopIsFilterIff`), so the round time the
server reports can exceed the one the simulator states (`SlippedDropoutCounts`; `ReportedTimeIff`). The id
maps are not inverses after a second registration (`SecondRegistrationBreaks`;
`InverseIffRegisteredOnce`). The batch cursor skips or repeats samples when the batch size changes between
rounds (`ChangedSizeSkips`; `InOrderIffSameSizes`). Reference expansion in the trace parser changes the
events when a `wpr` lacks its last-bit time (`MissingLastBitShows`; `ExpansionPreservesEventsIff`). A biased
window can be shorter than requested (`LongRequestFallsShort`; `WindowLength`).

**The order of the simulator's answers.** The join keeps, for each result, the record listed last for its
client. From an arbitrary peer that could be the record of an earlier registration (`StaleRecordWins`;
`CarriesOwnIff`). The simulator of this repository lists its answers by ascending id
(ns-3.35/scratch/wifi_exp/flwr-interface.cc:145-150), and then it never is, over every history of
registrations (`AscendingSuffices`), so the results about reported times assume only that order.

**Unresolved merge markers.** Several files contain them. The model follows geom/client/client.py:1-196;
geom/network/ns3_round.py:77-79 (the other side reads a field that is never set); in
geom/server/strategy.py the side without `t_start`, whose round simulation still ends in the `max` over
the successful clients, and the documented `metric_handlig`; and in geom/utils/model.py the side with `start_fit`, with `fit` returning what it
documents (lines 392-393) and its caller unpacks, although line 479 returns one value fewer.

## Model

| member | source | states |
|---|---|---|
| MetricBarrier.OrderlyRunsAgree | geom/server/metric_server.py:53-106 | for every orderly run of any length and interleaving: the server is always in a well-formed filling or draining phase, calls and replies are exactly those of a sequence of completed batches plus the open one, in each completed batch every participant called once and got the one answer "some of these n norms exceeds t0·d^r" |
| MetricBarrier.OrderlyStep | geom/server/metric_server.py:66-75 | every step of an orderly run keeps "filling or draining", keeps the observer's record in agreement with the server's fields, and completes only batches in which everyone agrees |
| MetricBarrier.FiledBatchesAgree | geom/server/metric_server.py:72-75 | every batch ever completed in an orderly run is agreed upon, at the threshold of its own round |
| MetricBarrier.RoundThreshold | geom/server/metric_server.py:78-106 | after r round resets of any run, orderly or not, the threshold is the initial one discounted r times |
| MetricBarrier.DiscountedIsGeometric | geom/server/metric_server.py:90 | repeated discounting is t0·d^k |
| MetricBarrier.NotesAreTheTrace | geom/server/metric_server.py:66-76 | in any run the recorded batches contain every call and every reply, once, in order |
| MetricBarrier.ReentrySplitsTheVerdict | geom/server/metric_server.py:66-76 | a run of two clients in which one re-enters during the drain and the two callers of one batch get different answers |
| BarrierReentry.ReentryHarmsIff | geom/server/metric_server.py:67-72 | at any wake of a drain, disturbed or not, all answers so far equal the verdict on the batch's own norms if and only if that verdict is "stop" or no call that came in meanwhile had a norm above the threshold |
| BarrierReentry.ContinueIsDeserved | geom/server/metric_server.py:67-75 | until all n calls of a batch are answered, whoever re-enters meanwhile, "continue" is said only if none of the batch's own norms exceeds the threshold |
| BarrierReentry.DisturbedDrain | geom/server/metric_server.py:67-75 | through a drain with re-entering calls the list only grows, and it exceeds the threshold exactly if the batch did or a loud call came in |
| BarrierLiveness.PassesForeverIffNeverStranded | geom/server/metric_server.py:66-75 | for n fixed clients and any interleaving: the barrier can still be filled any number of times if and only if no arrival has overlapped a drain and no reset has hit a waiting call; otherwise it can never be filled again and some call waits forever |
| BarrierLiveness.DoomedStep | geom/server/metric_server.py:67-75 | a stranded state stays stranded under every step, and no step of it fills the barrier |
| BarrierLiveness.DoomedRunsDryUp | geom/server/metric_server.py:67-75 | once stranded, no batch fills again, and the calls and wakes still possible are bounded by a number that each of them lowers by one |
| BarrierLiveness.LiveFillsForever | geom/server/metric_server.py:66-75 | from every live state a continuation fills any wanted number of batches |
| BarrierLiveness.DrainAnswersOnlyTurnToStop | geom/server/metric_server.py:72-75 | within one drain, even a disturbed one, answers can only go from "continue" to "stop" in wake order |
| BarrierCounts.RunsAddUp | geom/server/metric_server.py:67-75 | for every run with n fixed clients, after f fillings: exactly n·f arrivals plus those now waiting, and (n − 1)·f wakes less those still notified |
| BarrierCounts.BatchesTakeExactly | geom/server/metric_server.py:68-75 | in every such run nobody is inside exactly when the k completed batches have taken n·k arrivals and (n − 1)·k wakes |
| BarrierCounts.CountsHold | geom/server/metric_server.py:67-75 | at every moment a client has called once per filling, and once more if it waits, and has been answered once per filling, less one if it is notified |
| BarrierCounts.NeverMoreThanOneApart | geom/utils/model.py:414-431 | in every run, disciplined or not, any two clients have trained numbers of batches that differ by at most one |
| BarrierPool.PoolSufficesIff | geom/server/metric_server.py:45-47 | with W handler threads and n proxies some batch can fill if and only if n ≤ W; with fewer, no call of any reachable run is answered |
| BarrierPool.EnoughHandlers | geom/server/metric_server.py:45-47 | with n fixed clients and a handler for each, every run between two resets, re-entry included, is one the pool can serve |
| BarrierPool.StepCounts | geom/server/metric_server.py:68-75 | every orderly step brings the open batch one step closer to its end, or ends it and opens one of full length: the measure of progress |
| BarrierPool.OrderlyProgress | geom/server/metric_server.py:45-75 | with a handler per proxy an orderly run is never stuck |
| MetricServer.MetricService.SendMetric | geom/server/metric_server.py:66-76 | the method's state change and reply are the `Arrive` transition |
| MetricServer.MetricService.ResumeAfterWait | geom/server/metric_server.py:72-76 | after its wait, a call's state change and reply are the `Wake` transition |
| MetricServer.MetricService.AnyExceeds | geom/server/metric_server.py:72 | true exactly if some norm in the list exceeds the threshold |
| MetricServer.MetricService.ResetRoundState | geom/server/metric_server.py:78-91 | the method's state change is the `EndRound` transition |
| L2Norm.L2Metric.UpdateState | geom/utils/l2_norm.py:47-64 | without starting weights an error and no change; otherwise the metric becomes the accumulated drift |
| L2Norm.DriftIsFlatDistance | geom/utils/l2_norm.py:60-64 | the tensor-by-tensor accumulation is the squared distance of the flattened weight vectors |
| L2Norm.OneWeightMoved | geom/utils/l2_norm.py:60-64 | a single weight that moves by x makes the metric x squared |
| L2Norm.DriftOfShorter | geom/utils/l2_norm.py:60-64 | tensors beyond the shorter of the two lists do not count |
| L2Norm.ZeroIffUnmoved | geom/utils/l2_norm.py:60-73 | the metric is zero exactly if every weight stands where it was when the round's starting weights were set |
| L2Norm.ContinueBoundsTheSpread | geom/server/metric_server.py:66-76 | whatever happens between the filling of a batch and its last answer, re-entries included: if any of its answers is "continue", the models of its callers, which are all clients, have a mean squared distance to their average plus a squared drift of the average within the threshold, for any number of clients and weights |
| L2Norm.AgreedContinueBoundsTheSpread | geom/server/metric_server.py:72 | the same for a completed batch of the observer's record |
| Geometry.VarianceSplit | geom/utils/l2_norm.py:60-64 | summed squared distances to any point are those to the average plus n times the distance from the average to that point |
| Geometry.SafeBall | geom/utils/l2_norm.py:60-64 | if every model's drift is within t, spread plus drift of the average is within t |
| Geometry.MeanIsMean | geom/utils/l2_norm.py:60-64 | n times each coordinate of the average model is the sum of that coordinate over the models |
| Training.CustomModel.RunEpoch | geom/utils/model.py:410-431 | an epoch trains exactly up to and including the batch answered "stop", or nothing if the flag was up already, although a further batch was fetched |
| Training.CustomModel.Fit | geom/utils/model.py:397-479 | whatever the number of epochs, exactly the b + 1 batches from the cursor on are trained, the cursor moves by b + 1, and the returned norm is the drift of the weights after the last of them from the round's start, or 0 with several epochs; the two cases in which a local name is unbound |
| Training.CustomModel.OnTrainBatchEnd | geom/client/callback.py:34-44 | the answer "stop" raises the flag and nothing lowers it |
| Training.FlexibleClient.Fit | geom/client/client.py:80-122 | over any number of rounds, each with its own batch size, the samples trained on are those of the recorded rounds, each round starting at the cursor counted in batches of its own size; the report is (b + 1) times the batch size, and with one epoch the drift of the model from the global weights it was given |
| Training.InOrderIffSameSizes | geom/utils/model.py:399-425 | the positions trained on over any number of rounds are a prefix of the stream, without gap or repeat, if and only if the batch size has never changed |
| Training.SameSizesInOrder | geom/utils/model.py:399-425 | with one batch size the samples trained on are exactly the stream up to the cursor |
| Training.ChangedSizeSkips | geom/utils/model.py:399-411 | a round of one sample followed by a round of one batch of two skips a sample |
| Training.LeastStop | geom/client/callback.py:42-44 | a loop that is ever told to stop has a first such batch |
| Lockstep.AllStopAtFirstCrossing | geom/utils/model.py:401-431 | for every interleaving: when all have stopped, all trained b + 1 batches, b the least batch at which anyone crossed, some last norm exceeds the threshold, and the barrier was passed b + 1 times |
| Lockstep.StoppedIsOrderly | geom/server/metric_server.py:66-76 | a round in which everyone was told to stop was orderly and leaves nobody inside, since a stranded loop waits having heard only "continue" |
| Lockstep.ClientHolds | geom/client/callback.py:34-44 | in every round a loop that was told to stop was told so by the answer to its latest batch, besides the counts of calls and answers |
| Lockstep.ToldTheTruth | geom/server/metric_server.py:72 | in an orderly round each participant is told, batch by batch, exactly whether some participant crossed the threshold |
| RoundBoundary.EveryRoundEnds | geom/client/callback.py:34-44 | for every interleaving no round is longer than b + 1 times n arrivals and n − 1 wakes, b the first crossing, and it has that length exactly when all have been told to stop |
| RoundBoundary.CanEndIffOrderly | geom/server/metric_server.py:66-76 | if some batch crosses, a round can still end with everyone told to stop if and only if no call has entered during a drain so far |
| RoundBoundary.ToldTheTruthIff | geom/server/metric_server.py:72 | in every round all answers so far are true if and only if no call has woken after a re-entry with a norm above the threshold |
| RoundBoundary.ContinueIsTrue | geom/server/metric_server.py:72 | in every round, re-entry included, whoever hears "continue" for batch j hears the truth: nobody crossed at batch j |
| RoundBoundary.ReentryStrandsTheRound | geom/server/metric_server.py:66-76 | three calls of two training loops after which the round can never end, although the threshold is crossed |
| RoundBoundary.ReentryStopsTooEarly | geom/server/metric_server.py:72 | one step later a client is told to stop at a batch at which nobody crossed |
| RoundBoundary.PoolNeverBinds | geom/server/metric_server.py:45-47 | with a handler per participant every round is one the pool can serve, so the results on rounds hold behind the pool |
| RoundBoundary.CanGoOn | geom/utils/model.py:414-431 | an orderly round that is not over has a step that keeps it orderly |
| RoundBoundary.FillingsAtMost | geom/server/metric_server.py:68-72 | in every round no batch fills after that of the first crossing |
| Campaign.EveryRoundStartsFresh | geom/server/metric_server.py:88-90 | over rounds played to their end on one server, each starts on a fresh barrier of its own participants, round i at the threshold t0·d^i |
| Campaign.EveryRoundInLockstep | geom/server/strategy.py:137 | in round i of such a succession all participants train up to the first batch at which anyone exceeds t0·d^i |
| Campaign.EveryRoundStaysSafe | geom/server/metric_server.py:72-90 | whenever "continue" is answered in round i of such a succession, finished or not, the models of any group of its participants have spread plus drift of their average within t0·d^i |
| Campaign.CutOffIff | geom/server/metric_server.py:88-90 | after any part of a round, the reset leaves a fresh barrier if and only if nobody is inside |
| RoundReports.ParticipantsReportTheSame | geom/client/client.py:102-122 | all participants of a finished round report the same processed samples, (b + 1) times the batch size, and with one epoch some reported norm exceeds the threshold |
| RoundReports.ParticipantsStopTogether | geom/client/callback.py:42-44 | every participant's first "stop" answers the batch of the first crossing and no other |
| SafeRounds.RoundsStayInTheSafeBall | geom/server/metric_server.py:66-76 | for every interleaving, re-entry included, and whether or not anyone ever crosses: if any participant hears "continue" for batch j, then after batch j any group of participants has spread plus drift of its average within the threshold |
| MonitorState.InverseIffRegisteredOnce | geom/utils/monitor.py:133-145 | after any history the index of an id leads back to it, and the two maps are mutual inverses if and only if no id was registered twice |
| MonitorState.SecondRegistrationBreaks | geom/utils/monitor.py:133-145 | the maps of a client registered twice are not mutual inverses |
| MonitorState.Monitor.GetIndex | geom/utils/monitor.py:81-91 | the latest index given to the id, none exactly if it was never registered |
| MonitorState.Monitor.GetCid | geom/utils/monitor.py:93-103 | the id registered at that position of the history, none exactly beyond it |
| MonitorState.Monitor.UpdateIdMappings | geom/utils/monitor.py:133-145 | keeps both maps equal to what the extended history determines |
| DropoutLoop.PopWhileEnumerating | geom/server/strategy.py:106-109 | the loop that pops while it enumerates computes the specified kept and removed lists |
| DropoutLoop.LoopRemovesEvenOffsets | geom/server/strategy.py:106-109 | exactly the dropouts at even offsets of their run of neighbours are removed; all others stay in order |
| DropoutLoop.LoopConserves | geom/server/strategy.py:106-109 | kept plus removed is a permutation of the selection, and only dropouts are removed |
| DropoutLoop.RunsLoseHalf | geom/server/strategy.py:106-109 | of k adjacent dropouts exactly ⌈k/2⌉ are removed |
| DropoutLoop.LoopIsFilterIff | geom/server/strategy.py:104-109 | the loop is the intended filter if and only if no two dropouts are adjacent |
| DropoutLoop.SecondOfTwoStays | geom/server/strategy.py:106-109 | a concrete selection in which a dropout goes on to train |
| Ns3RoundStats.Ns3Round.RoundExec | geom/network/ns3_round.py:33-89 | an index beyond the simulated clients and a client without an answer raise, exactly then; otherwise flags are aligned with the selection, and throughputs, times and processed clients with the non-dropouts; the number of throughputs times their average is their sum; the total is the largest sum of the three times of a client all of whose times are positive, and no such client raises |
| Ns3RoundStats.SuccessesAre | geom/network/ns3_round.py:50-54 | processed clients are exactly the selected ones all of whose three times are positive |
| Ns3RoundStats.StatsAre | geom/network/ns3_round.py:49-69 | client by client: the flag is 0 exactly if all three times are positive, and a success contributes its own throughput and the sum of its three times |
| Ns3RoundStats.MarkAllAt | geom/network/ns3_round.py:47-62 | the returned dictionary holds every answer of the simulator and a flag for exactly the selected clients, 0 if all three of its times are positive and 1 otherwise |
| Ns3RoundStats.Ns3Round.Classify | geom/network/ns3_round.py:48-69 | the loop adds the statistics of the whole selection, or of those before the first client without an answer |
| Ns3RoundStats.StatsSnoc | geom/network/ns3_round.py:49-69 | one more client adds its flag, and its throughput, time and number only if it succeeded |
| Ns3RoundStats.ParseClients | geom/network/network.py:201-215 | the bitmap is the characteristic vector of the participants; an index error exactly if one is out of range |
| Strategy.FedAvgWithGeometric.ConfigureFit | geom/server/strategy.py:100-116 | hands out what the popping loop keeps when told to drop the clients one of whose three simulated times is not positive, records the dropouts it removed, sizes the barrier by the hand-out, and keeps the whole simulated dictionary; if the simulation raises or nobody succeeds nothing changes |
| Strategy.DropsOutTells | geom/server/strategy.py:104-109 | a selected client counts as a dropout exactly if one of its three simulated times is not positive |
| Strategy.FedAvgWithGeometric.AggregateFit | geom/server/strategy.py:131-144 | resets the barrier for a new round, sets the client count to 0, and joins each result by the nested loop |
| Strategy.FedAvgWithGeometric.Ns3Simulation | geom/server/strategy.py:172-202 | which of the three exceptions the simulated round of a selection raises, and otherwise the dictionary of all answers with the selection flagged |
| Strategy.JoinFollowsLastMatch | geom/server/strategy.py:141-144 | after the nested loop a result carries the record of the last id listed for its client, and the flag of the one that has a flag |
| Strategy.MetricHandling | geom/server/strategy.py:279-321 | the reported round time is the largest sum of a result's three times, each of the five averages times the number of results is the sum of its column, an empty list fails before the guards for it matter, and so does a result without simulated values |
| RoundBookkeeping.ReportedTimeIff | geom/server/strategy.py:303-306 | from selection to aggregation, over every registration history: the reported round time is at least the simulated total, and equal to it if and only if no dropout at an odd offset of its run of neighbouring dropouts is slower |
| RoundBookkeeping.ReportedTimeNotOvertaken | geom/server/strategy.py:303-306 | the same for answers in any order in which no stale record overtakes |
| RoundBookkeeping.SlippedDropoutCounts | geom/server/strategy.py:106-109 | two neighbouring dropouts and a success, for which the server reports more than the simulated total |
| RoundBookkeeping.CarriesOwnIff | geom/server/strategy.py:141-144 | over every registration history a result carries its own flag, and its own record if and only if the last id listed for its client holds that record |
| RoundBookkeeping.RegisteredOnceSuffices | geom/server/strategy.py:141-144 | no record is overtaken if ids are registered once |
| RoundBookkeeping.AskedOnlySuffices | geom/server/strategy.py:141-144 | no record is overtaken, whatever the history, if the simulator answers only for the selection |
| RoundBookkeeping.AscendingSuffices | ns-3.35/scratch/wifi_exp/flwr-interface.cc:145-150 | no record is overtaken, whatever the history and whoever is answered for, if the answers come by ascending id, as the simulator sends them |
| RoundBookkeeping.StaleRecordWins | geom/server/strategy.py:141-144 | from a peer that listed a stale record last, a client registered twice would get the stale record |
| RoundBookkeeping.RoundTimeAgrees | geom/network/ns3_round.py:64-78 | over every registration history, with no two adjacent dropouts the reported round time is the simulated total |
| RoundBookkeeping.BarrierSizeIsHandOut | geom/server/strategy.py:111-112 | for distinct sampled clients the count that sizes the barrier is the number of different participants who will call it |
| WeightedAverage.Aggregate | geom/server/strategy.py:338-349 | the returned accuracy counted once for every example is the sum of all accuracies so counted, and 0 without examples |
| WeightedAverage.MeanIgnoresOrder | geom/server/strategy.py:341-347 | the result does not depend on the order of the clients |
| WeightedAverage.MeanWithin | geom/server/strategy.py:341-347 | the result lies between any bounds of the accuracies of clients that saw examples |
| WeightedAverage.MeanOfGroups | geom/server/strategy.py:341-347 | averaging two groups and then their results by example counts is averaging everyone |
| Partition.EvenSlicesTile | geom/utils/dataset.py:224-231 | the slices of all clients, in order, are the whole data set with labels aligned; all but the last are equal, and the last exceeds them by less than their number |
| Partition.WindowLength | geom/utils/dataset.py:280-293 | a class's window is never longer than requested, as long as requested if and only if start plus request stay below twice the class, and otherwise what is left of the class plus (start + request) mod length |
| Partition.LongRequestFallsShort | geom/utils/dataset.py:284-290 | a request for twice the class gets the class only once |
| Partition.WindowIsCircular | geom/utils/dataset.py:280-293 | whatever the request, sample j of a class's window is the class's sample (start + j) mod length |
| Partition.AsksForIff | geom/utils/dataset.py:277 | the requested counts are the only ones with count ≤ size·share < count + 1 for every class |
| Partition.ChosenIsCircular | geom/utils/dataset.py:275-297 | where each class's samples stand among the chosen ones: as many as requested unless that is twice past the end, each a feature with its own label, in circular order from (size·index) mod length |
| Partition.AllPairsAt | geom/utils/dataset.py:301-312 | the whole data set the extra samples are drawn from holds every sample of every class at its place |
| Partition.ShortfallNonNegative | geom/utils/dataset.py:300 | for nonnegative shares with sum at most 1 the windows together never exceed the partition size |
| Partition.SelectByClass | geom/utils/dataset.py:275-297 | the loop over the classes selects exactly each class's window, features paired with their labels, for the counts with count ≤ size·share < count + 1 |
| Partition.PartitionWithBias | geom/utils/dataset.py:253-318 | exactly total // parts samples: the windows of the counts with count ≤ size·share < count + 1, plus distinct extra pairs of the data set, permuted, each feature with its own label; unpacking fails exactly when that size is 0 |
| Partition.ModIsRemainder | geom/utils/dataset.py:280 | the recursive remainder used for the windows is the remainder of the division |
| ClassSplit.SplitDataByClass | geom/utils/dataset.py:246-250 | one nonempty group per distinct label, each holding only that label, together a permutation of the labelled data |
| ClassSplit.SelectClass | geom/utils/dataset.py:248-249 | the samples of one label in data-set order, nonempty if the label occurs |
| ClassSplit.WithLabelAppend | geom/utils/dataset.py:248-249 | selecting one label from two lists put together is putting the two selections together: data-set order |
| ClassSplit.GroupingPermutes | geom/utils/dataset.py:246-250 | grouping by distinct covering labels loses and duplicates no sample |
| Percentages.HighBias | geom/utils/dataset.py:390-409 | for any distinct focus classes and nonnegative draws: nonnegative shares, summing to 1 if and only if some class is out of focus or the draws reach 1; focus classes keep their draw, or its share of the total when the draws exceed 1, and the others are equal |
| Percentages.LowBias | geom/utils/dataset.py:351-355 | nonnegative shares summing to 1, each proportional to the uniform share plus noise clipped to the unit interval, or no numbers exactly when the uniform share plus noise is at most 0 for every class |
| Percentages.DrawFocus | geom/utils/dataset.py:394-397 | after the first loop each focus class holds its draw and the sum is that of the draws |
| Percentages.ShareRest | geom/utils/dataset.py:402-407 | the rest, shared equally, fills the sum up to exactly 1 |
| WorkerPool.AlwaysInv | ns-3.35/test.py:984-1052 | for every interleaving and every moment of interrupt: queue order, conservation of jobs, the order of the main thread's phases, and each result was shipped by a step that found just that: a run of its job ending with that code, a job that asks to be skipped, or the flag up |
| WorkerPool.ResultsAreHistory | ns-3.35/test.py:999-1052 | the results are, one by one and in order, what the steps of the run found: the return code of each run that ended, and each job not run because of the flag or its own request |
| WorkerPool.ResultHasStep | ns-3.35/test.py:999-1052 | a coded result comes from a step at which a run of that very job ended with that very code; a broken or skipped one from a look at it with the flag up, or down and the job asking to be skipped |
| WorkerPool.PoolSafety | ns-3.35/test.py:984-1001 | no worker exits before every dispatched job was taken, exits equal pills taken, and every job taken is in exactly one place |
| WorkerPool.FinishedCollectsAll | ns-3.35/test.py:1723-1726 | when all workers are joined the collected results are exactly the jobs, each once, and both queues are empty |
| WorkerPool.RunsAreFinite | ns-3.35/test.py:1701-1704 | every run is over after at most 5 steps a job, 6 a worker and one interrupt |
| WorkerPool.NeverStuck | ns-3.35/test.py:1862-1863 | before everything is joined some thread can step: collecting and joining finish |
| WorkerPool.Summarise | ns-3.35/test.py:1716-1757 | each of the six counters is the number of results of its own kind, together they are all results, and the status is 0 exactly if every result is a skip or a return code 0 |
| WorkerPool.ExitStatus | ns-3.35/test.py:1946-1949 | for every finished run the success condition holds if and only if every run of a job ended with return code 0 and no worker looked at a job while the interrupt flag was up |
| TraceParser.Animxmlparser.DoParse | ns-3.35/netanim-3.108/animxmlparser.cpp:174-264 | the parsing loop leaves exactly the specified state: events, counters, times, stored references |
| TraceParser.Animxmlparser.HandlePacket | ns-3.35/netanim-3.108/animxmlparser.cpp:227-264 | what one received packet emits and counts |
| TraceParser.ParseStores | ns-3.35/netanim-3.108/animxmlparser.cpp:214-226 | what is stored for a uid is the latest `pr` with it, so a referenced stream never looks up a missing one |
| TraceParser.ReferenceAdds | ns-3.35/netanim-3.108/animxmlparser.cpp:219-247 | a `wpr` between different nodes adds one event: its packet with the fields of the latest `pr` of its uid, at the first-bit transmission of that |
| TraceParser.WirelessAdds | ns-3.35/netanim-3.108/animxmlparser.cpp:227-247 | a `wp` between different nodes adds its packet, repaired if it lacks its last-bit reception, at its first-bit transmission |
| TraceParser.WiredAdds | ns-3.35/netanim-3.108/animxmlparser.cpp:227-260 | a `p` between different nodes adds its packet and four updates, one quarter of the flight apart |
| TraceParser.OthersAddNothing | ns-3.35/netanim-3.108/animxmlparser.cpp:214-218 | a `pr` adds no event |
| TraceParser.ParseCounts | ns-3.35/netanim-3.108/animxmlparser.cpp:244-247 | the counter is the number of packets emitted, the last packet time the first-bit reception of the last of them, the other recorded time that of the fiftieth |
| TraceParser.ParseTimes | ns-3.35/netanim-3.108/animxmlparser.cpp:229-229 | the first packet time is the earliest first-bit transmission of all receptions, emitted or not, and the simulation ends at the latest last-bit time of all elements |
| TraceParser.ExpansionPreservesState | ns-3.35/netanim-3.108/animxmlparser.cpp:219-243 | replacing each `wpr` by the full record of the latest `pr` leaves the whole parser state the same, if no `wpr` lacks its last-bit time |
| TraceParser.ExpansionPreservesEventsIff | ns-3.35/netanim-3.108/animxmlparser.cpp:758-778 | the timed events are the same if and only if no emitted packet comes from a `wpr` without last-bit but with first-bit time |
| TraceParser.MissingLastBitShows | ns-3.35/netanim-3.108/animxmlparser.cpp:631-643 | a `pr` and a `wpr` without last-bit time whose expansion emits another event |
| TraceParser.WiredPacketUpdates | ns-3.35/netanim-3.108/animxmlparser.cpp:249-260 | a wired packet between different nodes emits itself and exactly four equally spaced updates, the last at its first-bit reception |
| NodeVector.NodeVectorToString | ns-3.35/netanim-3.108/packetsmode.cpp:312-321 | the loop prints every number followed by a colon |
| NodeVector.StringToNodeVector | ns-3.35/netanim-3.108/packetsmode.cpp:299-309 | the loop parses the nonempty pieces between colons, decimal 32-bit numbers as such and anything else as the library decides |
| NodeVector.NumberRoundTrip | ns-3.35/netanim-3.108/packetsmode.cpp:318 | reading a printed decimal gives the number back |
| NodeVector.NoLeadingZero | ns-3.35/netanim-3.108/packetsmode.cpp:318 | only 0 is printed with a leading zero, and with one digit |
| NodeVector.ZerosInFront | ns-3.35/netanim-3.108/packetsmode.cpp:306 | leading zeros do not change the number read |
| NodeVector.SplitAtColon | ns-3.35/netanim-3.108/packetsmode.cpp:302 | a colon anywhere splits the text into the pieces of its two sides |
| NodeVector.UnterminatedIsRead | ns-3.35/netanim-3.108/packetsmode.cpp:299-309 | a printed vector followed by a number without its colon parses to the vector and that number |
| NodeVector.RoundTrip | ns-3.35/netanim-3.108/packetsmode.cpp:299-321 | parsing the printed form of any vector of 32-bit ids, the empty one included, gives it back |
| NodeVector.ParseIsStable | ns-3.35/netanim-3.108/packetsmode.cpp:299-321 | whatever text was parsed, its result prints and parses to itself |

## Left out

- Exact reals stand for floating point everywhere, including the 32-bit floats sent to the server; rounding and NaN norms are not modelled.
- TensorFlow, gRPC, protobuf, sockets, subprocesses and Flower's own sampling and aggregation: a training step ends in arbitrary weights, the selection and the simulator's answers are inputs.
- Randomness: every draw, choice and shuffle is an arbitrary parameter of the right kind.
- Spurious wakeups, failed calls, timeouts and a client that dies inside the barrier.
- The barrier's size is read before the lock is taken (geom/server/metric_server.py:62); the model reads it inside, which differs only if it changes while calls are on their way. Calls of clients that are not participants are not modelled either.
- MetricServer.MetricService.SendMetric: the call is split at its wait into two methods, since a method here runs without interruption; a step is atomic under the lock.
- MetricServer.MetricService.ResetRoundState: does not take the lock in the source; it is one atomic event here, together with the hand-out of the next clients (ending a round with nobody handed out and handing out later is the same event, `EndThenHandOut`). The `round` field it stores is never read and is left out.
- BarrierLiveness.PassesForeverIffNeverStranded: for one fixed set of clients over the whole run.
- Training.CustomModel.Fit: a call that trains requires that some batch is answered "stop", since the loop over an endless stream never ends otherwise; a step ends in arbitrary weights of the model's shapes; losses, validation, printed output and computation time are left out.
- Training.FlexibleClient.Fit: the endless repeated stream of samples is taken as fixed, although the source reshuffles its buffer on each iteration.
- Campaign.EveryRoundInLockstep: for rounds in which every participant is told to stop before the reset; `CutOffIff` says when a reset during a round still leaves a fresh barrier, and the liveness boundary what follows when it does not.
- Strategy.FedAvgWithGeometric.ConfigureFit: requires registered clients, since the client manager registers each client before it can be sampled.
- RoundBookkeeping.ReportedTimeIff: for rounds in which every client handed out returns a result, and for answers listed by ascending id, as the simulator lists them.
- Partition.PartitionWithBias: requires nonempty classes, which splitting by class guarantees, and shares as the generators yield them; the random and medium bias generators and the validation split are left out.
- Percentages.HighBias: the choice of one to three focus classes and the bounds 0.25 and 0.45 on the draws are generalised to any distinct classes and any nonnegative draws, so that a case the code cannot draw, every class in focus, appears in the contract.
- WorkerPool.AlwaysInv: the pool is a transition system on values, not threads sharing objects; exceptions in a worker, output formats and elapsed times are left out.
- TraceParser.Animxmlparser.DoParse: requires each `wpr` to follow a `pr` with its uid, since otherwise the source reads uninitialised fields; node, link, background and counter elements and the older packet formats are left out.
- The client-side evaluation, the configuration builders, and asynchronous network requests.
