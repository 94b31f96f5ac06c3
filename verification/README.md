# A verified model of freqtrade-operator

freqtrade-operator runs freqtrade trading bots, backtests and the FreqUI front end on Kubernetes. Its control loops share
stored objects with each other and with users, read through caches that lag, and are cut short by conflicts, errors and
crashes. This project models those loops in Dafny and proves what they keep over whole runs.

The API server is a versioned store, the clock a number, and the outcome of every Get, Update and Apply an input chosen
by the environment. Each protocol is a datatype of states with a step function; a run is a fold of the step over any
sequence of events, and the main results quantify over all runs. The code that works by changing things step by step is
also written as classes and methods with loops, each proved to be one of those steps.

| file | what it models |
|---|---|
| `PatchStatus.dfy`, `StatusStore.dfy` | the optimistic read-mutate-compare-write loop every status goes through |
| `TradeBotStatus.dfy`, `TradeBotReconciler.dfy` | what reconciler and poller write into a TradeBot's status, and the reconcile that decides it |
| `BotPoller.dfy`, `BotPollerService.dfy` | the poll scheduler: locked map, bounded queue, workers, backoff |
| `StateReconciliation.dfy` | start/stop calls that keep a bot in `spec.state` |
| `DesiredState.dfy`, `TradeBotConversion.dfy` | `spec.state` across two API versions, the admission webhook, the conversion |
| `Backtest.dfy`, `BacktestReconciler.dfy` | the one-shot backtest and its recorded outcome |
| `SidecarWait.dfy` | the results sidecar waiting for the main container |
| `Exposure.dfy`, `ExposureReconciler.dfy`, `FreqUIStatus.dfy` | FreqUI's Ingress and HTTPRoutes, and its status |
| `ConfigSections.dfy`, `ConfigRender.dfy`, `CorsHosts.dfy` | the section builders with their keys, rendering config.json, and CORS hosts |
| `ConfigRollout.dfy` | rolling a config out: Secret, pod template, pods, ConfigDrift |
| `GoJson.dfy`, `TradeBotConfigConversion.dfy` | the JSON pass with `omitempty`, and the TradeBotConfig conversion |
| `Finalizer.dfy` | deleting a TradeBot |
| `Conditions.dfy`, `Wrappers.dfy` | status conditions; Option and Result |

## Where the code falls short of what is said about it

The model follows the code. Each of these is a lemma with the input that shows it, next to the exact condition under
which the intended property holds.

- A Backtest's record of a finished run lives in the condition that a failed or outdated read of the Job overwrites, so
  one such read, then TTL reaping, runs the whole Backtest again (`Backtest.RecordSurvivesExactly`,
  `Backtest.LostRecordRunsAgain`).
- Pruning and deleting go by name without a precondition, so a lagging cache can make FreqUI delete an HTTPRoute or an
  Ingress that now belongs to somebody else (`Exposure.PruneSparesForeignExactly`, `Exposure.StaleListingDeletesForeign`,
  `Exposure.IngressSparedExactly`, `Exposure.StaleReadDeletesForeignIngress`); and Gateway mode without Gateway API leaves
  the old Ingress standing (`Exposure.WithoutGatewayAPI`).
- A bot forgotten while its poll runs and tracked again is polled twice at once (`BotPoller.ForgottenInFlightIsPolledTwice`,
  `BotPoller.TwoPollsExactly`), and a poll overtaken that way can re-open a settled start or stop
  (`StateReconciliation.OvertakenPollCallsAgain`; settled for good exactly when no such poll is under way,
  `StateReconciliation.NeverCallsExactly`).
- `PatchStatus` says a repeated mutate is a no-op; a repeated poll never is (`TradeBotStatus.RepeatedMutateIsNoOp`).
- `StateReconciled=True` speaks of the last poll, not of the bot (`StateReconciliation.VerdictExactly`,
  `StateReconciliation.VerdictOutlivesEdit`), and a call is repeated by every reconcile until the next poll, so it
  is issued once exactly when there is one reconcile in between (`StateReconciliation.CallsRepeatUntilPolled`).
- The v1alpha1 guard against resetting a Stopped bot does not run for an object being deleted, nor when its own read fails
  (`DesiredState.AlphaWriteResetsExactly`); a v1alpha1-typed status update is never guarded (`DesiredState.AlphaStatusWriteResets`).
- After a config failure, a later failure to apply resources is still reported in the phase of the config failure
  (`TradeBotReconciler.PhaseBlames`).
- A stake amount that parses as NaN or an infinity makes the config impossible to marshal, and the render fails
  (`ConfigRender.BuildConfig`).
- The JWT key read back is not length-checked, and a lagging read that misses the Secret rotates the key
  (`ConfigRender.RenderedLengthExactly`, `ConfigRender.KeyRotatesExactly`).
- Under Manual the pod template is said to be left untouched; only its config hash is. An edited image or argument, a
  renamed Strategy or a new default image still rolls the pods, onto whatever config is in the Secret by then, while
  ConfigDrift goes on saying that they do not run it (`ConfigRollout.ManualKeepsPodsExactly`,
  `ConfigRollout.ImageEditRollsOntoNewConfig`).
- The ConfigDrift message offers `kubectl rollout restart`; under Manual that never clears the condition
  (`ConfigRollout.RestartsNeverClearDrift`). A reconcile cut short can leave the report wrong about the template
  (`ConfigRollout.DriftIsRightExactly`), and even under Auto one cut between Secret and StatefulSet can leave the pods
  behind with no drift reported (`ConfigRollout.CutAutoReconcileLeavesPodsBehind`), exactly when the last restart since
  the template changed found the Secret ahead of it (`ConfigRollout.AutoIsInStepExactly`).
- A conflict on the final finalizer update is an error, unlike one on the scale-down (`Finalizer.FinalConflictIsNotTolerated`),
  a lagging read can take the finalizer off a bot that is up (`Finalizer.RemovedWhileUpExactly`), and a failed PVC
  preservation does not hold it back (`Finalizer.PreservedExactly`).
- TradeBot's v1alpha1 round trip drops arguments and data cache, and a poll time's parts of a second
  (`TradeBotConversion.AlphaRoundTrip`, `TradeBotConversion.OwnPartsSurvive`); TradeBotConfig's drops a pointer to a nil
  slice (`TradeBotConfigConversion.StartupCandleDecides`).
- FreqUI's "Initializing" phase is never stored, and a failed reconcile keeps the published URL
  (`FreqUIStatus.StoredStatusIsHonest`, `FreqUIStatus.FailureKeepsURL`).

## Model

| member | source | states |
|---|---|---|
| PatchStatus.NoLostUpdate | controllers/shared/utils.go:55-68 | for every interleaving of any number of calls, stale reads, conflicts, lost replies and spec edits, the stored status is the fold, in commit order, of exactly the mutates that wrote |
| PatchStatus.ResultTellsTheTruth | controllers/shared/utils.go:55-68 | what each return value entitles the caller to conclude: nil means committed exactly once on top of all before, or a no-op on a version that was stored; conflict or read error means never committed |
| PatchStatus.AcceptedSendExactly | controllers/shared/utils.go:55-68 | in every run, a call about to send: nothing is sent exactly when the mutate leaves its copy as it is; otherwise an accepted request commits on top of the latest version exactly when the copy is that version; otherwise it reads again, or reports the conflict exactly after its last attempt |
| PatchStatus.UndisturbedCallSucceeds | controllers/shared/utils.go:55-68 | from any state a call that still has to read and reads the latest version undisturbed returns nil and its mutate is what the stored status went through |
| PatchStatus.ObservedGenerationIsSafe | controllers/shared/utils.go:55-68 | observedGeneration never exceeds the generation and never decreases over the stored history |
| PatchStatus.RunKeepsInv | controllers/shared/utils.go:55-68 | the inductive invariant: the history is the sequential replay of the log, and every call has written at most once |
| PatchStatus.VersionsAreKept | controllers/shared/utils.go:55-68 | over any run every stored version stays as it was stored |
| StatusStore.Store.Update | controllers/shared/utils.go:64-66 | the conditional write commits on the version that was read and on no other |
| StatusStore.Store.Try | controllers/shared/utils.go:56-66 | one turn: each ending exactly when it should come, from the read, the version read, what came in between and the reply; with the latest version, nobody in between and an accepted reply it writes unless the mutate is a no-op |
| StatusStore.Store.PatchStatus | controllers/shared/utils.go:55-68 | the retry loop amid other writers: own writes at most one and exactly when reported; it ends in nil if all attempts before the first quiet one are answered, in a conflict only after interference or a stale read on every attempt, and in another error only after one |
| TradeBotStatus.StoredStatusIsConsistent | controllers/tradebot/main.go:389-411 | in every interleaving of reconciler and poller patches the stored phase is the one derived from the stored conditions and Ready is True exactly when it is Running |
| TradeBotStatus.WritersDoNotInterfere | controllers/tradebot/poller.go:306-309 | BotReachable and status.bot are what the poller's committed patches alone would leave, everything else what the reconciler's would |
| TradeBotStatus.StoredBotIsLastGood | controllers/tradebot/poller.go:306-334 | in every interleaving the stored status.bot is the report of the last successful poll committed, with the time, and the error if it failed, of the last poll committed |
| TradeBotStatus.PollKeepsLastGood | controllers/tradebot/poller.go:306-334 | a successful poll replaces all of status.bot, a failed one moves only time and error, and BotReachable says which, with its reason |
| TradeBotStatus.ReportIsStored | controllers/tradebot/main.go:389-411 | a workload report stores phase, message, hash, image, and all four conditions with status and reason, ConfigDrift included, and leaves status.bot |
| TradeBotStatus.RepeatedMutateIsNoOp | controllers/shared/utils.go:36-68 | a closure of this operator repeated at another instant changes nothing exactly when it is not a poll |
| TradeBotStatus.ApplyKeepsConsistent | controllers/tradebot/main.go:654-708 | each single patch keeps phase, conditions and Ready together |
| TradeBotStatus.AfterMutate | controllers/tradebot/main.go:389-411 | the last condition of a type that a patch sets decides, and types it does not set are untouched |
| TradeBotReconciler.ReadyExactly | controllers/tradebot/main.go:270-411 | after a reconcile whose status write went through, Ready and phase Running hold exactly when every step succeeded and a replica is ready |
| TradeBotReconciler.PhaseBlames | controllers/tradebot/main.go:270-411 | which phase each failing step leaves, and exactly when a resource failure is masked by an earlier config failure |
| TradeBotReconciler.FailureSays | controllers/tradebot/main.go:270-388 | each way to fail has its own condition and reason, the first that applies, and leaves hash, image and status.bot |
| TradeBotReconciler.SuccessSays | controllers/tradebot/main.go:389-411 | a reconcile that got as far as the workload stores its hash and image, drift exactly as found, and the CORS warning as message if there is one |
| TradeBotReconciler.TradeBot.Reconcile | controllers/tradebot/main.go:270-411 | the checks in order, ending in the one status write the outcomes call for |
| TradeBotReconciler.TradeBot.FailReconcile | controllers/tradebot/main.go:685-708 | the two conditions set in place are the failure patch |
| TradeBotReconciler.TradeBot.ReportWorkload | controllers/tradebot/main.go:389-415 | the four conditions set in place are the workload patch |
| TradeBotReconciler.TradeBot.RecordPoll | controllers/tradebot/poller.go:306-334 | in place: a successful poll replaces status.bot, a failed one keeps every other field of the one that is there |
| BotPoller.PollsAreBounded | controllers/tradebot/poller.go:134-193 | in every interleaving of ticks, workers, full queues, failed Gets and panics: polls of a bot at most its forgets plus one if in flight, in flight implies a poll, and at most three polls per worker |
| BotPoller.NeverForgottenHasOnePoll | controllers/tradebot/poller.go:134-193 | a bot never forgotten is in flight exactly while its one poll exists |
| BotPoller.NotOrphanedHasOnePoll | controllers/tradebot/poller.go:134-193 | in every run, unless a bot was forgotten while polled and polled ever since, its one poll and its in-flight mark come and go together |
| BotPoller.SecondPollExactly | controllers/tradebot/poller.go:134-193 | an enqueued poll is a second one exactly when the bot was forgotten while polled and polled ever since |
| BotPoller.TwoPollsExactly | controllers/tradebot/poller.go:134-193 | a run has a moment with two polls of a bot exactly when such a bot is enqueued again in it |
| BotPoller.ForgottenInFlightIsPolledTwice | controllers/tradebot/poller.go:176-189 | the bound is met: forgotten in flight and tracked again, a bot has two polls |
| BotPoller.DelayIsCappedDoubling | controllers/tradebot/poller.go:336-362 | the clamped shift with 64-bit products equals interval times min(2^n, 10) for every n exactly when sixteen intervals fit in an int64 |
| BotPoller.DelayIsMonotone | controllers/tradebot/poller.go:336-362 | the delay never decreases with n and stays between one and ten intervals |
| BotPoller.BackoffIsHonoured | controllers/tradebot/poller.go:166-174 | over every run the counter is the failures since the last success or re-tracking, the deadline the capped doubling of it, and no poll is enqueued before its deadline |
| BotPoller.TickPollsExactlyDue | controllers/tradebot/poller.go:134-193 | a tick with room gives a bot one more poll exactly when it is listed, wanted, not in flight, and new or past its deadline; it remembers exactly the wanted bots and changes nothing else about them, whatever workers receive meanwhile |
| BotPoller.DueBotIsPolled | controllers/tradebot/poller.go:134-193 | over every run, a wanted bot without a poll is enqueued by the next tick with room exactly when the deadline its history gives it has come or it is new |
| BotPoller.TickIsNoted | controllers/tradebot/poller.go:157-188 | the history the other results speak of is right: tracked, enqueued and forgotten are exactly the bots a tick with room newly tracked, found due, and did not see |
| BotPoller.OutcomeIsRemembered | controllers/tradebot/poller.go:336-362 | a success leaves no failures and one interval, the n-th failure 2, 4, 8 and then 10 intervals, and a forgotten bot nothing |
| BotPoller.TakesStartOldest | controllers/tradebot/poller.go:94-121 | workers take the oldest keys of the queue, in order |
| BotPollerService.Service.ScheduleDue | controllers/tradebot/poller.go:134-193 | the loop under the lock and the sweep are one scheduler step, and exactly the trade bots with introspection off and not yet marked are returned for marking |
| BotPollerService.Service.VisitOne | controllers/tradebot/poller.go:157-180 | one bot's turn: track, check in-flight and due time, enqueue or give the mark back when the queue is full |
| BotPollerService.Service.Sweep | controllers/tradebot/poller.go:181-188 | exactly the bots not seen are forgotten, in any map order |
| BotPollerService.Service.UpdateBackoff | controllers/tradebot/poller.go:336-362 | the critical section is the backoff step, nothing when the bot was forgotten |
| BotPollerService.Service.Release | controllers/tradebot/poller.go:282-288 | the deferred release clears in-flight if the bot is still tracked |
| StateReconciliation.Converges | controllers/tradebot/main.go:464-575 | from any state, with polls under way or not, a quiet stretch of overlapping polls that contains a whole poll, a reconcile, a whole poll and a reconcile in that order, each of these polls asking while no other is under way, ends with the bot in the desired state and StateReconciled True |
| StateReconciliation.NeverCallsExactly | controllers/tradebot/main.go:472-575 | from any state, no quiet continuation with any overlapping polls ever issues a call exactly when neither the bot (if reachable), nor a stored status showing it reachable, nor any poll under way says that it is elsewhere; once settled, exactly when no poll under way does |
| StateReconciliation.NoFurtherCalls | controllers/tradebot/main.go:472-575 | once the second poll of that pattern has stored what it saw no call is issued, however long the quiet goes on and however polls overlap in it |
| StateReconciliation.OvertakenPollCallsAgain | controllers/tradebot/poller.go:281-312 | a poll that saw the bot elsewhere and stores after everything settled causes another call |
| StateReconciliation.EveryCallWasCalledFor | controllers/tradebot/main.go:472-575 | in every run, with crashes, lagging reads and edits, each call went in the direction a stored spec asked, to a bot a stored status showed reachable and not there yet |
| StateReconciliation.VerdictExactly | controllers/tradebot/main.go:482-510 | StateReconciled becomes True exactly when the copies read show a reachable bot in the desired state |
| StateReconciliation.ReconcileExactly | controllers/tradebot/main.go:472-575 | one reconcile calls exactly when the copies it read show a reachable bot in another state than asked and it has credentials; the call goes to the target state; and the reason of the verdict tells its endings apart |
| StateReconciliation.VerdictOutlivesEdit | controllers/tradebot/main.go:497-510 | after an edit it can be True of a bot in the other state |
| StateReconciliation.CallsRepeatUntilPolled | controllers/tradebot/main.go:535-575 | over any quiet stretch in which no poll stores, no call is issued if the stored status shows the bot as desired, and otherwise as many as there are reconciles |
| StateReconciliation.Controller.ReconcileState | controllers/tradebot/main.go:472-522 | the method is the reconcile step; a positive requeue exactly after an answered call, longer than a poll interval |
| StateReconciliation.Controller.ReconcileStateChange | controllers/tradebot/main.go:535-575 | exactly one call in the desired direction and its verdict |
| StateReconciliation.Requeue | controllers/tradebot/main.go:447-462 | the sooner of the two delays, zero only if neither was asked for |
| DesiredState.OnlyBetaClientsDecide | api/v1alpha1/tradebot_webhook.go:101-163 | while not being deleted, the effective spec.state is what v1beta1 clients last asked for, through any run of v1alpha1 writes the webhook could judge, status patches, finalizer writes, deletions and re-creations |
| DesiredState.AlphaWriteResetsExactly | api/v1alpha1/tradebot_webhook.go:79-86 | a v1alpha1 write changes the effective state exactly when the bot was Stopped and the guard did not run; it makes the object go exactly when it is being deleted and written without finalizers |
| DesiredState.ClientWritesExactly | api/v1alpha1/tradebot_webhook.go:79-86 | what each client write leaves: the spec that was sent, under v1beta1 names, with stored status and deletion mark, or nothing exactly when it was not admitted or took the last finalizer of an object being deleted |
| DesiredState.OperatorWritesExactly | controllers/tradebot/status.go:14-47 | status patches, finalizer writes and deletion never touch the effective spec, and what they do instead |
| DesiredState.AlphaStatusWriteResets | controllers/tradebot/status.go:14-47 | a v1alpha1-typed status update would reset a Stopped bot, which is why the operator's goes through v1beta1 |
| DesiredState.Validate | api/v1alpha1/tradebot_webhook.go:101-163 | admitted exactly when all checks hold; each denial implies its cause and that the checks before it held |
| TradeBotConversion.AlphaRoundTrip | api/v1alpha1/tradebot_conversion.go:21-130 | v1alpha1 there and back is the same object exactly without arguments, data cache and lossy JSON parts |
| TradeBotConversion.BetaRoundTrip | api/v1alpha1/tradebot_conversion.go:21-130 | v1beta1 there and back always converts, and is the same object exactly when effectively Running with lossless JSON parts |
| TradeBotConversion.FieldsArrive | api/v1alpha1/tradebot_conversion.go:21-130 | both directions field by field: each field under its name in the other version, spec.state and the one-shot-run fields kept by the destination |
| TradeBotConversion.PollTimeDecides | api/v1beta1/tradebot_types.go:155-166 | of a bot status only a poll time with parts of a second, or zero, is not carried |
| TradeBotConversion.OwnPartsSurvive | api/v1alpha1/tradebot_conversion.go:132-148 | for the operator's own types the JSON parts survive exactly when spec.app's do and the poll time is whole |
| TradeBotConversion.AlphaTradeBot.ConvertTo | api/v1alpha1/tradebot_conversion.go:21-69 | fails, leaving the destination alone, exactly for a command other than trade; never touches spec.state |
| TradeBotConversion.AlphaTradeBot.ConvertFrom | api/v1alpha1/tradebot_conversion.go:75-130 | never fails; writes what v1beta1 has and keeps the receiver's one-shot fields |
| TradeBotConversion.CopyStatusFromBeta | controllers/tradebot/status.go:58-75 | field by field, the whole status |
| TradeBotConversion.CopyStatusToBeta | controllers/tradebot/status.go:77-94 | field by field, the whole status |
| TradeBotConversion.MutateThroughBeta | controllers/tradebot/status.go:38-47 | the wrapped mutate acts on the v1beta1 status exactly as it would directly and leaves metadata, spec and spec.state alone |
| Backtest.OutcomeIsFinal | controllers/backtest/resources.go:65-75 | once an outcome is recorded, in every clean run nothing is applied again, not after the Job was reaped either, and the outcome only moves from Failed to Succeeded |
| Backtest.CleanRunsAgree | controllers/backtest/main.go:208-262 | in every clean run of a new Backtest the record never claims more than the Job shows |
| Backtest.RunAppliesExactly | controllers/backtest/resources.go:59-116 | over any run, with any lagging reads, something is applied exactly when at some step a reconcile comes that is shown no Job, whose own copy records no outcome, and whose references and render succeed |
| Backtest.RecordSurvivesExactly | controllers/backtest/main.go:208-234 | the record outlives a reconcile exactly when that one does not report a Job read error or an older, unfinished Job |
| Backtest.LostRecordRunsAgain | controllers/backtest/main.go:287-310 | a lost record and a reaped Job run the whole Backtest a second time |
| Backtest.JobIsCommitRecord | controllers/backtest/resources.go:59-141 | in every run with failures and crashes after any apply, an existing Job implies everything before it was applied |
| Backtest.RerunCompletes | controllers/backtest/resources.go:59-141 | from any partial state one undisturbed reconcile completes the same set |
| Backtest.ReadyIffSucceeded | controllers/backtest/main.go:125-164 | in every run, stale reads included, Ready is True exactly when phase is Succeeded |
| Backtest.PhaseIsOutcome | controllers/backtest/main.go:243-277 | in every run, phase Succeeded or Failed means that this very outcome is on record, Running or Pending that none is |
| Backtest.JobDecidesReport | controllers/backtest/main.go:193-277 | a report of Job j: Succeeded, Failed, Running or Pending exactly by its counts, its times kept once known |
| Backtest.ResultsAreHarvested | controllers/backtest/results.go:36-99 | the first report of success stores the sidecar's results exactly when they are there and parse, and takes its ConfigMap over after the owners it had |
| Backtest.ReapedReportStands | controllers/backtest/main.go:208-262 | after the Job is reaped, a clean reconcile reports the recorded outcome word for word |
| Backtest.FailureSays | controllers/backtest/main.go:287-310 | each failure leaves phase Error, its message, and the condition and reason of its step |
| Backtest.ExistingJobIsKept | controllers/backtest/resources.go:59-116 | no step starts an existing Job anew |
| Backtest.ResultsIffAvailable | controllers/backtest/results.go:36-82 | in every run with current reads, results are present exactly when ResultsAvailable is True |
| Backtest.ResultsAreWriteOnce | controllers/backtest/main.go:125-164 | stored results are never replaced or dropped |
| BacktestReconciler.Cluster.Reconcile | controllers/backtest/main.go:68-174 | the straight-line reconcile is the model's step |
| BacktestReconciler.Cluster.ReconcileResources | controllers/backtest/resources.go:59-116 | ordered applies with the Job last, stopping where one fails |
| BacktestReconciler.Cluster.ComputeWorkloadStatus | controllers/backtest/main.go:208-234 | the Job if present, the recorded outcome if reaped, an error otherwise |
| BacktestReconciler.Cluster.EnsureOwned | controllers/backtest/results.go:89-99 | appends the controller reference unless owned already; fails if another controls it |
| BacktestReconciler.Cluster.PatchReport | controllers/backtest/main.go:125-164 | the report's conditions and fields, results only if newly parsed |
| BacktestReconciler.Cluster.FailReconcile | controllers/backtest/main.go:287-310 | the failure's two conditions and phase Error |
| SidecarWait.WaitForMainContainerExit | controllers/backtest/collectresults/collectresults.go:136-178 | returns in every case; Exited only on a look that shows the container terminated; the first signal found waiting is acted on there and then, one at most, with its own look and no tick before it; ticks bounded by the day |
| SidecarWait.MainContainerExited | controllers/backtest/collectresults/collectresults.go:140-151 | true exactly when the named container is reported terminated |
| Exposure.ExposureFollowsSpec | controllers/frequi/main.go:345-438 | after a clean reconcile with Gateway API available, the Ingress and HTTPRoutes a FreqUI controls are exactly those of its current spec and API routes |
| Exposure.HistoryDoesNotMatter | controllers/frequi/main.go:345-438 | two namespaces with any pasts agree after one clean reconcile of the same spec each |
| Exposure.IngressServesEveryHost | controllers/frequi/resources/ingress.go:59-83 | after a clean reconcile in Ingress mode the one Ingress it controls sends the main host to the UI on port 80, the host of each API route to that route's service on port 8080, and nothing else anywhere |
| Exposure.RoutesServeEveryHost | controllers/frequi/resources/httproute.go:36-116 | after a clean reconcile in Gateway mode it controls its own route, with the spec's hostnames or the main host, and exactly one for each API route with a valid name, with that host, service and port, the spec's gateways, annotations and labels, and the operator's labels |
| Exposure.GatewayEndsExactly | controllers/frequi/main.go:345-400 | with reads and deletes that go through, Gateway mode fails exactly when a route is refused other than as somebody else's, and otherwise reports exactly the names held by others and the TradeBots without a valid name |
| Exposure.OtherwiseEndsExactly | controllers/frequi/main.go:345-438 | with reads and deletes that go through, None mode always ends exposed, Ingress mode exactly when the name is free or its own and accepted, and Gateway mode without Gateway API says just that |
| Exposure.PruneDeletesExactly | controllers/frequi/main.go:528-558 | exactly the routes shown with this FreqUI's label and as its own that are not wanted are deleted |
| Exposure.ForeignObjectsAreSafe | controllers/frequi/main.go:528-581 | with current reads no reconcile, however it ends, deletes or changes an object another UID controls |
| Exposure.PruneSparesForeignExactly | controllers/frequi/main.go:528-558 | a prune spares foreign routes exactly when no name it is about to delete belongs to one by now |
| Exposure.StaleListingDeletesForeign | controllers/frequi/main.go:528-558 | a lagging listing deletes somebody else's route |
| Exposure.IngressSparedExactly | controllers/frequi/main.go:563-581 | deleting the Ingress spares foreign objects exactly when it was not shown as owned while it is somebody else's by now |
| Exposure.StaleReadDeletesForeignIngress | controllers/frequi/main.go:563-581 | a lagging read deletes somebody else's Ingress |
| Exposure.PruneLeavesWantedExactly | controllers/frequi/main.go:528-558 | a prune leaves only wanted routes exactly when every other owned route was listed as owned |
| Exposure.WithoutGatewayAPI | controllers/frequi/main.go:351-359 | without Gateway API the owned Ingress is as the spec wants it exactly when it is not Gateway mode with an owned Ingress left from before; routes are untouched |
| Exposure.RunKeepsLabelled | controllers/frequi/resources/httproute.go:44-58 | in every run each owned route carries the label pruning selects on |
| Exposure.RoutesExactly | controllers/frequi/resources/httproute.go:36-77 | the UI's route and one per TradeBot with a valid name; every TradeBot is routed or named as skipped, never both |
| Exposure.UIRouteSurvives | controllers/frequi/resources/httproute.go:60-74 | no TradeBot's route can take the UI route's name |
| ExposureReconciler.BuildHTTPRoutes | controllers/frequi/resources/httproute.go:36-77 | the loop builds exactly the route list and the skipped names |
| ExposureReconciler.Namespace.ReconcileExposure | controllers/frequi/main.go:345-438 | the three modes, step by step, are the model's reconcile |
| ExposureReconciler.Namespace.ApplyHTTPRoutes | controllers/frequi/main.go:362-379 | conflicts collected and skipped, any other refusal ends the loop |
| ExposureReconciler.Namespace.PruneHTTPRoutes | controllers/frequi/main.go:528-558 | deletes listed, unwanted, owned routes until one delete fails |
| ExposureReconciler.Namespace.DeleteOwnedIngress | controllers/frequi/main.go:563-581 | deletes the named Ingress only if it was shown as owned; a missing one is success |
| ExposureReconciler.DeriveGatewayExposureCondition | controllers/frequi/main.go:449-518 | True exactly when every route has a Gateway that accepted it and resolved its references; otherwise RoutePending exactly when some route has no parent status; the failing routes in order |
| ExposureReconciler.FailureSaysWhy | controllers/frequi/main.go:449-518 | a failing route is reported with the reason of the first Gateway that refuses it with one |
| FreqUIStatus.StoredStatusIsHonest | controllers/frequi/main.go:105-121 | in every interleaving, Ready is True exactly when phase is Running, exactly when workload and exposure are; each phase has its conditions and reasons |
| FreqUIStatus.EveryWriteIsHonest | controllers/frequi/main.go:138-189 | each patch leaves such a status whatever was stored before |
| FreqUIStatus.ReportSaysExactly | controllers/frequi/main.go:105-232 | phase, URL, message and each condition of a report follow from what was observed, unresolvable references included |
| FreqUIStatus.FailureKeepsURL | controllers/frequi/main.go:237-262 | a failed reconcile keeps URL and exposure verdict, and Ready is False |
| ConfigRender.EveryKeyIsStrong | controllers/tradebotconfig/configbuilder/build_config.go:188-264 | in every run from a Secret without a weak key, every config rendered with the API server enabled has a key of at least 32 characters |
| ConfigRender.RenderedLengthExactly | controllers/tradebotconfig/configbuilder/build_config.go:212-253 | without a user key the rendered key is long enough exactly when the key read back is empty or long enough |
| ConfigRender.KeyNeverRotates | controllers/tradebotconfig/configbuilder/build_config.go:188-253 | once a key is stored every steady render carries the same one |
| ConfigRender.KeyRotatesExactly | controllers/tradebotconfig/configbuilder/build_config.go:229-253 | one applied render rotates it exactly when its read did not return it |
| ConfigRender.NoSectionIsOverwritten | controllers/tradebotconfig/configbuilder/build_config.go:67-158 | in every config rendered, every entry every builder contributed is there and nothing else is: no two builders write the same key |
| ConfigRender.NamedSectionsSay | controllers/tradebotconfig/configbuilder/build_config.go:67-158 | each section with a name of its own is under that name as its builder made it |
| ConfigRender.SecretSectionsSay | controllers/tradebotconfig/configbuilder/build_config.go:36-158 | exchange, telegram and API server get the data of the Secret their own section names |
| ConfigRender.SpreadSectionsSay | controllers/tradebotconfig/configbuilder/build_config.go:67-158 | the entries of the spread sections are all there, and nothing is there that no section put there |
| ConfigRender.KeyPrecedence | controllers/tradebotconfig/configbuilder/build_config.go:188-253 | the rendered key is the first non-empty of the Secret's, the plaintext, the stored and the generated one |
| ConfigRender.ErrorNamesCause | controllers/tradebotconfig/configbuilder/build_config.go:36-220 | each error implies its cause |
| ConfigSections.KeyInSection | controllers/tradebotconfig/configbuilder/bot.go:472-539 | the key passed in is the one under jwt_secret_key, whatever else the section holds |
| ConfigSections.SecretWins | controllers/tradebotconfig/configbuilder/bot.go:496-515 | the Secret's user and password win over the plaintext ones, which stand where it has none |
| ConfigSections.APIServerSays | controllers/tradebotconfig/configbuilder/bot.go:472-539 | every other entry of the section, and exactly the user's and the collected origins |
| ConfigSections.RiskSays | controllers/tradebotconfig/configbuilder/riskmanagement.go:8-88 | all eighteen entries, each with its own value, switches only when on |
| ConfigSections.BotSays | controllers/tradebotconfig/configbuilder/bot.go:84-150 | all twelve entries; a stake amount is "unlimited", a number, or passed on as it is |
| ConfigSections.BuildAPIServerConfig | controllers/tradebotconfig/configbuilder/bot.go:472-539 | the section filled key by key, the Secret's credentials over the plaintext ones, the CORS list last |
| ConfigRender.ReadBackIsResolved | controllers/tradebotconfig/configbuilder/build_config.go:67-158 | in every config rendered the key read back is the key that was resolved |
| ConfigRender.SecondRenderIsFixpoint | controllers/tradebotconfig/configbuilder/build_config.go:36-158 | same inputs, FreqUIs in another order and another random draw give the same config and hash |
| ConfigRender.MergeKeeps | controllers/tradebotconfig/configbuilder/build_config.go:67-158 | parts whose keys are told apart by a function all survive a merge, in any order |
| ConfigRender.BuildConfig | controllers/tradebotconfig/configbuilder/build_config.go:36-158 | the section loops produce the merge of all contributions; fails exactly without an exchange, when one of the three named Secrets cannot be read, when no key can be had, or for a stake amount that is not finite |
| ConfigRender.CopyInto | controllers/tradebotconfig/configbuilder/build_config.go:71-73 | the map copy loop, in any key order |
| ConfigRender.ResolveAPIServerJWTSecretKey | controllers/tradebotconfig/configbuilder/build_config.go:188-220 | Secret over plaintext, short user keys refused, stored key reused, else generated; the result long enough if what is read back is |
| CorsHosts.ListingOrderDoesNotShow | controllers/tradebot/main.go:84-119 | any two listings of the same FreqUIs give the same host list |
| CorsHosts.CollectCORSHosts | controllers/tradebot/main.go:84-119 | sorted, duplicate-free, and exactly the origins of the FreqUIs that reference the bot |
| CorsHosts.HostsCollectedExactly | controllers/tradebot/main.go:84-119 | which origins those are: in-cluster address and local port without a host, else the host with its own scheme, http for localhost, https otherwise |
| CorsHosts.CanonicalListing | controllers/tradebot/main.go:117-118 | a set of strings has one sorted duplicate-free listing |
| CorsHosts.MergeCORSOrigins | controllers/tradebotconfig/configbuilder/bot.go:521-536 | the user's list unchanged, followed by exactly the missing extras, once each |
| CorsHosts.CollectedHostsAreValid | controllers/tradebot/main.go:141-148 | a collected host always passes validateCORSHosts, so that warning never appears |
| ConfigRollout.ManualKeepsTemplate | controllers/tradebot/resources.go:209-229 | over any run of Manual reconciles with current reads a non-empty config hash never changes, whatever is rendered |
| ConfigRollout.OneReconcileExactly | controllers/tradebot/resources.go:88-144 | what one reconcile leaves in Secret, template, pods and report, by how far it gets |
| ConfigRollout.ManualKeepsHashExactly | controllers/tradebot/resources.go:209-229 | with any lagging reads the hash stays at every moment exactly when each reconcile that reached the StatefulSet had been shown it, or had been shown none and rendered it |
| ConfigRollout.ManualKeepsPodsExactly | controllers/tradebot/resources.go:124-139 | over a Manual run without restarts the pods keep what they loaded exactly when each reconcile that changed the rest of the template rendered what they run |
| ConfigRollout.ImageEditRollsOntoNewConfig | controllers/tradebot/resources/statefulset.go:28-72 | under Manual an edit of the rest of the template restarts the bot onto the new config with drift still reported |
| ConfigRollout.StatusIsLastCompleted | controllers/tradebot/resources.go:128-161 | in every run the StatefulSet has the template last written, and drift and appliedConfigHash are those of the last completed reconcile |
| ConfigRollout.DriftIsRightExactly | controllers/tradebot/resources.go:128-144 | in every run the report is right about the template exactly when the hash last written agrees with the rendered one just if the last completed one did; a report of no drift exactly until another hash is written or the StatefulSet goes |
| ConfigRollout.PodsInStepExactly | controllers/tradebot/resources.go:88-144 | in every run, Manual and Auto mixed, cut anywhere, with restarts and deletions, the Secret holds the last render and the pods run the config the template names exactly when what last loaded them (a template change or a restart) was in step |
| ConfigRollout.CompletedAutoReconcile | controllers/tradebot/resources.go:209-229 | after any run, a completed Auto reconcile leaves template hash, Secret and status at what it rendered, without drift, and the pods on it exactly when it changed the template or they were in step |
| ConfigRollout.AutoIsInStepExactly | controllers/tradebot/resources.go:209-229 | in every run of Auto reconciles, cut anywhere, no drift is reported, and the pods run the config the template names exactly unless the last restart since it changed came while the Secret held another render |
| ConfigRollout.AutoKeepsPodsCurrent | controllers/tradebot/resources.go:209-229 | so without a cut between Secret and StatefulSet, pods, template and Secret always agree |
| ConfigRollout.CutAutoReconcileLeavesPodsBehind | controllers/tradebot/resources.go:101-144 | cut there once, it can settle on the wrong pods |
| ConfigRollout.RestartsNeverClearDrift | controllers/tradebot/resources.go:170-190 | under Manual no sequence of restarts and reconciles clears drift, though the pods run the rendered config after the first |
| ConfigRollout.Rollout.ReconcileResources | controllers/tradebot/resources.go:88-161 | the applies in order, cut short anywhere, are the model's step |
| GoJson.DecodeEncode | api/v1alpha1/tradebot_conversion.go:142-148 | for every schema the pass never fails and yields the canonical form |
| GoJson.PassKeepsExactly | api/v1alpha1/tradebot_conversion.go:132-148 | it is the identity up to nil and empty exactly on values without a pointer to something null and without parts of a second |
| GoJson.CanonIsIdempotent | api/v1alpha1/tradebot_conversion.go:132-148 | a second pass changes nothing at all |
| GoJson.PlainLosesNothing | api/v1alpha1/tradebot_conversion.go:132-148 | types without pointers to nilable things or instants lose nothing |
| GoJson.WhatComesOut | api/v1alpha1/tradebot_conversion.go:132-148 | what the pass makes of the values it does not keep: empty under omitempty becomes nil, a pointer to null nil, an instant whole seconds |
| TradeBotConfigConversion.AlphaRoundTrip | api/v1alpha1/tradebotconfig_conversion.go:19-119 | v1alpha1 there and back is the identity up to nil and empty exactly when no credential is set and the JSON parts are lossless |
| TradeBotConfigConversion.BetaRoundTrip | api/v1alpha1/tradebotconfig_conversion.go:77-119 | v1beta1 there and back always converts back, and is the identity exactly when lossless |
| TradeBotConfigConversion.StartupCandleDecides | api/v1alpha1/tradebotconfig_types.go:384-404 | of the risk management section only startup_candle is lost, exactly when it points to a nil slice |
| TradeBotConfigConversion.BareHasNoSetPath | api/v1alpha1/tradebotconfig_webhook.go:103-134 | none of the nine credentials is set exactly when no path is reported |
| TradeBotConfigConversion.PathReportedExactly | api/v1alpha1/tradebotconfig_webhook.go:103-134 | a path is reported exactly when the very credential it stands for is set |
| TradeBotConfigConversion.FieldsArriveInBeta | api/v1alpha1/tradebotconfig_conversion.go:19-69 | field by field, every section the source has arrives under its v1beta1 names, and any other stays the destination's |
| TradeBotConfigConversion.FieldsArriveInAlpha | api/v1alpha1/tradebotconfig_conversion.go:77-119 | the same the other way round, with no credential set |
| TradeBotConfigConversion.AlphaConfig.PlaintextCredentialFields | api/v1alpha1/tradebotconfig_webhook.go:103-134 | exactly the paths of the credentials that are set, in order |
| TradeBotConfigConversion.AlphaConfig.ConvertTo | api/v1alpha1/tradebotconfig_conversion.go:19-69 | succeeds exactly when no credential is set; otherwise names them and leaves the destination alone |
| TradeBotConfigConversion.AlphaConfig.ConvertFrom | api/v1alpha1/tradebotconfig_conversion.go:77-119 | never fails; absent sections leave the receiver's |
| TradeBotConfigConversion.AlphaConfig.Validate | api/v1alpha1/tradebotconfig_webhook.go:60-93 | denied exactly for credentials without annotation or deletion exemption |
| TradeBotConfigConversion.Store | api/v1alpha1/tradebotconfig_webhook.go:77-93 | what reaches storage is decided by the credentials alone; no annotation persists one |
| Finalizer.RemovedOverRunExactly | controllers/tradebot/main.go:198-246 | over any run the finalizer is off at the end exactly when at some moment a reconcile found the workload gone, at zero or out of time and got a good answer to every call it needed |
| Finalizer.CurrentReadsRemoveSafely | controllers/tradebot/finalizers.go:28-93 | over any run with current reads, when it came off the workload really was gone, at zero, or past its grace period |
| Finalizer.LateReconcileEnds | controllers/tradebot/finalizers.go:102-108 | any run with a reconcile after the grace period that meets no error ends without the finalizer, conflicts on the scale-down notwithstanding |
| Finalizer.PreservedExactly | controllers/tradebot/finalizers.go:111-158 | the PVC loses exactly this owner exactly when both calls on it succeed; otherwise deletion goes on without |
| Finalizer.PVCIsLeftAlone | controllers/tradebot/finalizers.go:111-118 | without the annotation, and before the workload may go, the PVC is left alone |
| Finalizer.ScaleDownExactly | controllers/tradebot/finalizers.go:76-93 | zero replicas are asked for exactly when the read shows another request, is current, and the update goes through |
| Finalizer.EndsExactly | controllers/tradebot/main.go:198-246 | how a reconcile ends, from its reads, the clock and the replies |
| Finalizer.ReplicasNeverRaised | controllers/tradebot/finalizers.go:76-93 | over any run the requested replicas never rise |
| Finalizer.RetriesAreBounded | controllers/tradebot/main.go:204-215 | at most floor(grace / 5) + 1 reconciles five seconds apart are sent away, under any interference |
| Finalizer.RetriesReachTheBound | controllers/tradebot/finalizers.go:76-93 | endless conflicts reach that bound |
| Finalizer.Deletion.ReconcileDeletion | controllers/tradebot/main.go:198-246 | the deletion branch is the model's step |
| Finalizer.Deletion.FinalizeTradeBot | controllers/tradebot/finalizers.go:28-69 | done only when the workload may go; an error changes nothing |
| Finalizer.Deletion.EnsureStatefulSetScaledDown | controllers/tradebot/finalizers.go:76-93 | requests zero replicas once; conflicts are not errors; reports down only when fully at zero |
| Finalizer.Deletion.HandlePVCPreservation | controllers/tradebot/finalizers.go:111-158 | the owner-filtering loop, all or nothing |
| Conditions.FindAfterSet | controllers/frequi/main.go:105-121 | the library upsert changes the entry of its own type and no other |
| Conditions.TransitionMovesExactly | controllers/frequi/main.go:105-121 | the transition time moves exactly when the status was another one or the entry is new, and the list keeps its order |

## Left out

- The HTTP client, service discovery, certificates, flags, manager wiring, logging, Events and Prometheus metrics; a bot is
  an actual state, a reachability flag and two calls.
- sha256, random bytes, float and URL parsing, DNS name checks, the shell-metacharacter pattern: parameters or arbitrary values.
- The inside of the nested config sections (freqai, timeouts, exchange, pricing, orders, pairlists, telegram, webhook,
  discord) and the Pod, Service, PVC and Deployment builders; a pod template is its config hash and one value for the rest.
- The field lists of the plain TradeBotConfig sections other than risk management, and of spec.app: the conversions are proved for every
  well-formed schema, and the fourteen branches are one map from section to value.
- TradeBotConfigConversion.AlphaConfig.ConvertTo: slices and pointers assigned directly are values here, so sharing them
  between source and destination is not modelled, and nil and empty CORS origins or authorized users are not told apart.
- GoJson.DecodeEncode: custom marshalers other than metav1.Time are taken as lossless text or numbers, and keys are matched
  exactly, not case-insensitively.
- DesiredState.OnlyBetaClientsDecide: admission and the write it admits are one step, as the API server re-admits on a
  concurrent change; a read by the webhook that succeeds is current.
- Exposure.ExposureFollowsSpec: Deployment and Service are left out, and of an Ingress only host, service and port.
- Backtest.OutcomeIsFinal: requires the Backtest read to be current and the second Job read to be current or fail with
  NotFound (the first may lag); the lemmas beside it show these are needed.
- BacktestReconciler.Cluster.Reconcile: the finalizer and deletion branch before it and the requeue delay after it are left
  out.
- Exposure.RunKeepsLabelled: supposes that nobody else edits the label of a route this operator controls; without the label
  a route is not listed, and then `Exposure.PruneLeavesWantedExactly` says what a prune leaves.
- ConfigRollout.Rollout.ReconcileResources: Secret and strategy ConfigMap are one object, the PVC, Service and NetworkPolicy
  are points where it may stop, and a changed template replaces the pods at once.
- ConfigSections.BuildAPIServerConfig: a string stands for its bytes, one char each; text that is not valid UTF-8 would be
  altered by the JSON encoder, which is not modelled.
- StateReconciliation.Converges: a poll asks the bot at one instant and stores later; a call takes effect at once.
- TradeBotReconciler.TradeBot.Reconcile: the finalizer step before it and the state reconciliation after it are in other
  modules, and Events are left out.
- ConfigRender.KeyRotatesExactly: assumes the fresh random key differs from the stored one.
- SidecarWait.WaitForMainContainerExit: the clock advances by at least the poll interval on each tick, and reads end.
