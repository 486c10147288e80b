# Verification of the tournament domain

A Dafny model of the tournament backend's domain layer, of two of its concurrent runtime components, and of the
puzzle encoders of the test importer, with proofs of what they promise.

| file | models |
|---|---|
| `RevisionGraph.dfy`, `RevisionSearch.dfy`, `RevisionPaths.dfy` | the immutable graph of derived revisions: sorting, indexing, chain checks, three-colour cycle detection, transitive queries |
| `RuntimeWorkers.dfy`, `SupervisorOutcomes.dfy`, `SupervisorLaws.dfy`, `SupervisorLiveness.dfy` | the worker supervisor, one atomic step per critical section, channel operation or wait-group operation; what it reports in the end, what its goroutines may do, and its shutdown under fair scheduling |
| `EventDispatcher.dfy`, `DispatcherLiveness.dfy` | the bounded event queue with many producers and one consumer, panics and recovers included; delivery under fair scheduling |
| `Transposition.dfy`, `Substitution.dfy`, `Puzzles.dfy`, `CipherLaws.dfy` | the ciphers of the puzzle generator, their decoders, the composed puzzles, and what each does to a text |
| `DecisionEvidence.dfy` | normalised, length-prefixed, replayable decisions |
| `Wave.dfy`, `WaveCommands.dfy` | execution waves and lineages of replacements |
| `Draft.dfy`, `DraftAnswers.dfy`, `Content.dfy`, `ContentOrder.dfy`, `Series.dfy` | category drafts, content revisions, and the slot limit that ties them together |
| `Assignment.dfy`, `AssignmentAnswers.dfy` | assignments with hidden reserves over one shared history |
| `Golden.dfy`, `GoldenAnswers.dfy` | Golden groups and their chain of attempts |
| `GoldenMatching.dfy` | the exact plan of the Golden stage, by augmenting paths |
| `SwissMatching.dfy`, `AutomaticPairing.dfy` | the pairing of a Swiss round, by backtracking, and its generation from a replayable decision record |
| `TaskHealth.dfy` | the contiguous-revision check of health attestations |
| `Foundation.dfy`, `Ordering.dfy`, `Numbering.dfy`, `Runs.dfy` | shared vocabulary: times and results, sorting, numberings 1 to n, runs of state machines |

Objects that the source updates in place are classes whose methods answer like a function of the old value; the theorems
are about those functions and about runs of them. Beside each component stand theorems that tell what its functions compute
by the fields of their arguments alone (`...Exactly`, `...Laws`, `...Answers`). The concurrent components are state machines, and their theorems hold
for every interleaving. `dafny verify dfyconfig.toml` checks the whole project.

Reading conventions. Identities are numbers with 0 for the nil identity, and order like their fixed-width text. A time is
an instant, 0 being the zero time, and a flag for the UTC location; `ToUtc` keeps the instant. A Go string is a sequence of
bytes. SHA-256, the keyed digest (HMAC, RFC 2104), the name-based identity (section 4.3 of RFC 4122), trimming, the UTF-8
test, the formatters, the reader of identity texts and Python's lower-casing are function parameters of which nothing is
assumed, except, where stated, that trimming twice is trimming once, and that identity texts are read back, hold no colon
and are left alone by trimming. Clocks, random seeds, readiness probes and the behaviour of worker and observer code are
inputs. `sort.Slice` is a method that promises a sorted permutation and leaves ties open.

## What the proofs found

- A draft accepts an action that carries the zero time, and the recorded draft then fails its own validation
  (`Drafts.ZeroTimeBreaksDraft`). An accepted action leaves a valid draft exactly when its time is not zero
  (`Drafts.ActionKeepsDraftValid`).
- A new decision record passes its own validation exactly when its digest is not all zero; construction does not check it
  (`DecisionEvidence.NewDecisionEvidence`).
- Bacon's cipher returns a text exactly when it has no space (`Substitution.BaconInverse`); the rail fence fails exactly
  with fewer than two rails and a text longer than the rails (`Transposition.RailFence`).
- A replacement wave must differ in its identities from the wave it replaces, and from no earlier one
  (`Waves.GrandparentIdentitiesMayReturn`). Along a run the identities stay different exactly when every granted request
  brings one that no wave of the lineage has had (`Waves.DistinctAlongRunsExactly`).
- The generated Python checker drops characters outside ASCII before it compares, so it accepts lines that are not the
  answer (`Puzzles.PythonCheckerAcceptsMore`); it accepts a line exactly when what is left of it is the answer
  (`Puzzles.PythonCheckerAcceptsExactly`).
- A panic of an observer never shows outside its call (`EventDispatch.PanicsLeaveNoTrace`). A panic of the clock in the
  consumer takes the dispatcher down: Run ends by it, the worker supervisor that runs it recovers the panic
  (backend/internal/bootstrap/runtime_workers.go:306-314), and the producers go on. The observation that was about to be
  dispatched is then lost without being counted, and this is the only way to lose one (`EventDispatch.OnlyTheClockLoses`).
- A worker that ends before the cancellation sends its error exactly if it also looks at the context before it; one that
  looks too late keeps silent and is recorded as stopped (`SupervisorOutcomes.EndedBeforeMayBeSilent`,
  `SupervisorOutcomes.SendsExactly`).
- Revision numbers identify the content of a pool, its identity does not: the identity before the last may come back
  (`Content.PoolIdentityMayReturn`). Identities tell the pools of a slot apart exactly when every change brings one the
  slot has never had (`Content.PoolIdentitiesTellExactly`).
- A wave whose members are all ready but which was not started before its deadline can neither start nor expire; of its own
  operations only replacement is left (`Waves.LateWaveOnlyExpires`).
- A draft whose turn deadline has passed accepts no action with a later time (`Drafts.AcceptsExactlyInTime`).
- In every reachable system the shared history alone decides whether a delivery repeats an earlier one
  (`Assignments.DeliverableExactly`).
- The early exits of `DependsOn` for nil and equal identities never change an answer on an accepted graph.
- A Golden attempt can be retained only while it is the last one, since every earlier attempt is over.

## Model

| member | source | states |
|---|---|---|
| `RevisionGraphs.RevisionGraph.New` | backend/internal/domain/projection.go:197-222 | Construction succeeds exactly when the evidence meets the order-free acceptance condition (valid distinct projections, well-formed dependencies, unbroken predecessor chains, no cycle); the projections of the result ascend by kind in dictionary order, then by entity, then by number, and the dependencies by source, then by derived revision; a failure comes from the earliest phase whose condition is broken, and its error speaks of something that is in the evidence |
| `RevisionGraphs.RevisionGraph.SortEvidence` | backend/internal/domain/projection.go:265-283 | Both lists end up sorted and keep their elements, whatever the unstable sort does with ties |
| `RevisionGraphs.SortedIsCanonical` | backend/internal/domain/projection.go:265-283 | Sorted sound evidence ascends strictly: at the first differing byte of the kinds, or where one has ended, the first is smaller; with equal kinds the entity is smaller, or equal with a smaller number; dependencies ascend by source, then by derived revision |
| `Ordering.LexLessIsDictionary` | backend/internal/domain/projection.go:269-271 | The comparison of strings is the order of a dictionary: a proper prefix, or the smaller byte at the first difference |
| `RevisionGraphs.ProjectionValidExactly` | backend/internal/domain/projection.go:90-185 | A projection is valid exactly when identities, kind, number, predecessor, time and payload digest are as required |
| `RevisionGraphs.ExplainsInAnyOrder` | backend/internal/domain/projection.go:285-351 | What an error speaks of does not depend on the order in which the evidence is listed |
| `RevisionGraphs.FailureTells` | backend/internal/domain/projection.go:197-222 | Each group of errors stands for exactly one failing phase |
| `RevisionGraphs.RevisionGraph.IndexProjections` | backend/internal/domain/projection.go:285-304 | Accepts exactly a non-empty list of valid projections with distinct identities; then the identity index is complete and exact and every artifact maps to its revision with the highest number |
| `RevisionGraphs.RevisionGraph.IndexDependencies` | backend/internal/domain/projection.go:306-328 | Accepts exactly distinct dependencies between two different known revisions of one tournament, the derived one not created earlier; then the adjacency lists represent exactly these edges |
| `RevisionGraphs.EdgeCheckIsExact` | backend/internal/domain/projection.go:310-321 | Looking the two ends up in the index decides the order-free edge condition, both ways |
| `RevisionGraphs.RevisionGraph.ValidateRevisionChains` | backend/internal/domain/projection.go:330-351 | One pass over the sorted list decides, for all artifacts at once, whether no two revisions share a number and every later revision follows its direct predecessor with a recorded dependency |
| `RevisionGraphs.FirstOfArtifactMustBeOne` | backend/internal/domain/projection.go:334-340 | In sorted order an artifact that does not start at number one without a predecessor cannot belong to any accepted set of chains |
| `RevisionGraphs.MustFollowNewest` | backend/internal/domain/projection.go:341-347 | In sorted order a revision that does not follow the newest one seen of its artifact cannot belong to any accepted set of chains |
| `RevisionGraphs.RevisionGraph.HasDirectDependency` | backend/internal/domain/projection.go:353-360 | Finds an edge exactly when the adjacency list of the derived revision names the source |
| `RevisionGraphs.RevisionGraph.CurrentRevision` | backend/internal/domain/projection.go:232-239 | Answers exactly for the artifacts that occur, with their highest-numbered revision |
| `RevisionGraphs.RevisionGraph.DependsOn` | backend/internal/domain/projection.go:241-263 | On an accepted graph the answer is yes exactly when a non-empty path leads from the derived to the source revision; the guards for nil and equal identities hide no path |
| `RevisionSearch.Search` | backend/internal/domain/projection.go:247-262 | The worklist decides reachability although the pending stack may hold repeats, and terminates |
| `RevisionSearch.HasCycle` | backend/internal/domain/projection.go:362-392 | Reports a cycle exactly when some node reaches itself over a non-empty path, for every order in which the map is walked |
| `RevisionSearch.Visit` | backend/internal/domain/projection.go:370-384 | One recursive visit from any legal colouring: a hit proves a cycle; otherwise every finished node has all its sources finished before it, the stack is restored, and uncoloured nodes become fewer at every nested call |
| `RevisionPaths.FinishOrderAcyclic` | backend/internal/domain/projection.go:362-392 | A finish order, in which sources precede what derives from them, exists only for acyclic edges |
| `RevisionPaths.ClosedSetKeepsPaths` | backend/internal/domain/projection.go:247-262 | No path leaves a set closed under sources, which makes a fruitless worklist search conclusive |
| `RevisionGraphs.PermutationInvariant` | backend/internal/domain/projection.go:197-351 | Permuting projections and dependencies changes neither acceptance nor the phase that fails |
| `RevisionGraphs.AcceptedIsTieFree` | backend/internal/domain/projection.go:265-283 | In an accepted graph no two projections compare equal, so the unstable sort has no freedom |
| `RevisionGraphs.IndexUnique` | backend/internal/domain/projection.go:285-304 | The indexes are determined by the set of projections |
| `RevisionGraphs.OrderIndependence` | backend/internal/domain/projection.go:197-222 | Graphs built from permutations of the same evidence agree in both lists and in all three indexes |
| `RevisionGraphs.DependencyIsStrictOrder` | backend/internal/domain/projection.go:241-263 | Transitive dependency in an accepted graph is irreflexive, asymmetric and transitive |
| `RevisionGraphs.DependencyKeepsTournamentAndTime` | backend/internal/domain/projection.go:306-328 | Along every dependency path the tournament is constant and creation time never runs backwards |
| `RevisionGraphs.RevisionsAreContiguous` | backend/internal/domain/projection.go:330-351 | Below revision n of an artifact there is exactly one revision for each number from 1, in the same tournament, and n depends on it |
| `RevisionGraphs.CurrentDependsOnAllEarlier` | backend/internal/domain/projection.go:232-239 | The current revision of an artifact has the strictly highest number and depends on every other revision of it |
| `RevisionGraphs.EndsAreRevisions` | backend/internal/domain/projection.go:241-246 | The ends of a dependency path are non-nil and different |
| `Ordering.SortSlice` | backend/internal/domain/projection.go:265-283 | The contract assumed of sorting: a sorted permutation, with ties in any order |
| `WorkerSupervision.StepKeepsInv` | backend/internal/bootstrap/runtime_workers.go:114-411 | Every atomic step of every goroutine keeps the protocol invariant (launch order, marks, error origins, wait-group counts, closing discipline) |
| `WorkerSupervision.RunKeepsInv` | backend/internal/bootstrap/runtime_workers.go:114-411 | The invariant holds in every state of every interleaving, for any number of workers |
| `WorkerSupervision.StepAdvances` | backend/internal/bootstrap/runtime_workers.go:377-399 | One step moves the health of a worker forward or leaves it, and makes it healthy only out of starting |
| `WorkerSupervision.HealthNeverMovesBack` | backend/internal/bootstrap/runtime_workers.go:377-399 | Over whole runs health only advances through created, starting, healthy, and failed or stopped, and a worker is marked healthy at most once |
| `WorkerSupervision.LaunchOrder` | backend/internal/bootstrap/runtime_workers.go:138-159 | Worker k+1 is launched and worker k gets a heartbeat only after worker k was marked healthy; a successful start has marked every worker exactly once |
| `WorkerSupervision.SendsNeverBlock` | backend/internal/bootstrap/runtime_workers.go:130-132 | In every reachable state at most 2n errors of different origins were sent into the 2n slots, so a pending send always finds room |
| `WorkerSupervision.AtMostTwoEach` | backend/internal/bootstrap/runtime_workers.go:130-132 | n workers and n heartbeats have at most 2n different errors between them |
| `WorkerSupervision.ClosedMeansQuiet` | backend/internal/bootstrap/runtime_workers.go:164-170 | done is closed at most once, and only when every launched goroutine has exited and every launched worker is recorded as failed or stopped; which of the two is told by SupervisorOutcomes.OutcomeIsReported |
| `SupervisorOutcomes.OutcomeIsReported` | backend/internal/bootstrap/runtime_workers.go:293-324 | When done is closed a launched worker is recorded as stopped if neither it nor its heartbeat has sent an error and Start has not blamed it, and as stopped only after the cancellation; it has sent exactly one error if it found the context alive after its Run had ended, and none otherwise |
| `SupervisorOutcomes.SendsExactly` | backend/internal/bootstrap/runtime_workers.go:310-322 | In every state of every run a worker is sending or has sent its error exactly when it has found the context alive after its Run had ended |
| `SupervisorOutcomes.EndedAfterCancel` | backend/internal/bootstrap/runtime_workers.go:313-318 | A worker whose Run ends after the cancellation never sends an error |
| `SupervisorOutcomes.EndedBeforeMayBeSilent` | backend/internal/bootstrap/runtime_workers.go:313-318 | A run in which a worker ends before the cancellation, looks at the context after it, sends nothing and is recorded as stopped |
| `SupervisorOutcomes.FailedHasReason` | backend/internal/bootstrap/runtime_workers.go:293-324 | A worker is recorded as failed only because it, its heartbeat or Start has recorded it so |
| `SupervisorLaws.RunIsLawful` | backend/internal/bootstrap/runtime_workers.go:114-211 | Every step of every run obeys the laws of heartbeats (tick, recorded health, report, failure, error), of Start (giving up, draining, succeeding) and of the error channel (one at a time, by whom) |
| `SupervisorLaws.StartFailsForAReason` | backend/internal/bootstrap/runtime_workers.go:138-159 | Start fails only after giving up on a launched entry: waiting for it, finding it stopped, or its first heartbeat having failed and been recorded |
| `SupervisorLaws.BeatErrorHasReason` | backend/internal/bootstrap/runtime_workers.go:184-211 | A heartbeat error is preceded by a tick, by the worker being seen recorded healthy, and by its being recorded as failed |
| `SupervisorLaws.CallerReceivesExactly` | backend/internal/bootstrap/runtime_workers.go:130-162 | After a successful Start the caller can take an error exactly when one waits |
| `WorkerSupervision.NothingPanics` | backend/internal/bootstrap/runtime_workers.go:164-170 | No goroutine leaves a wait group that does not count it, and done is open when it is closed |
| `WorkerSupervision.ShutdownStep` | backend/internal/bootstrap/runtime_workers.go:164-211 | After cancellation some goroutine can always move strictly closer to its exit |
| `WorkerSupervision.CanShutDown` | backend/internal/bootstrap/runtime_workers.go:114-170 | From every state of a called Start that meets the invariant, before or after the closer is launched and with or without entries, cancellation leaves a run that ends with done closed, once |
| `WorkerSupervision.EveryRunCanShutDown` | backend/internal/bootstrap/runtime_workers.go:114-170 | Every run in which Start was called can be continued to one that ends with done closed, once |
| `WorkerSupervision.ReturnedMeansClosing` | backend/internal/bootstrap/runtime_workers.go:130-161 | Whenever Start has returned, on whichever path, the closer has been launched, or there were no entries and done is closed; a finished closer has closed done exactly once |
| `WorkerSupervision.WaitMeansQuiet` | backend/internal/bootstrap/runtime_workers.go:413-433 | When Wait reports the end, no goroutine of a worker or heartbeat is left, in every run |
| `WorkerSupervision.RuntimeWorkers.Wait` | backend/internal/bootstrap/runtime_workers.go:413-433 | Ends at once before Start, blocks exactly while done is open and the context lives, and otherwise reports what has happened |
| `SupervisorLiveness.StartReturns` | backend/internal/bootstrap/runtime_workers.go:114-162 | In every weakly fair infinite run a called Start returns once the context is cancelled |
| `SupervisorLiveness.WorkerExits` | backend/internal/bootstrap/runtime_workers.go:293-324 | In every such run every worker goroutine exits |
| `SupervisorLiveness.BeatExits` | backend/internal/bootstrap/runtime_workers.go:172-211 | In every such run in which no select prefers its ticker for ever, every heartbeat goroutine exits |
| `SupervisorLiveness.FairRunsShutDown` | backend/internal/bootstrap/runtime_workers.go:114-211 | Every fair infinite run in which Start was called and the context is cancelled reaches a state with done closed exactly once, Start returned and every goroutine gone |
| `WorkerSupervision.RuntimeWorkers.New` | backend/internal/bootstrap/runtime_workers.go:90-112 | Accepts exactly entries with non-empty distinct names and a worker; the recorded states are those of the initial protocol state |
| `WorkerSupervision.RuntimeWorkers.Begin` | backend/internal/bootstrap/runtime_workers.go:121-128 | Only the first call of Start gets through and opens done |
| `WorkerSupervision.RuntimeWorkers.SetState` | backend/internal/bootstrap/runtime_workers.go:377-386 | Writes the health of a known name only, in step with the protocol state |
| `WorkerSupervision.RuntimeWorkers.MarkHealthy` | backend/internal/bootstrap/runtime_workers.go:388-399 | Succeeds exactly from starting and performs the marking step of the protocol |
| `WorkerSupervision.RuntimeWorkers.WorkerHealth` | backend/internal/bootstrap/runtime_workers.go:354-375 | Healthy only when recorded healthy and ready; stale, failed and the recorded states otherwise |
| `SupervisorLiveness.FairRunsExist` | backend/internal/bootstrap/runtime_workers.go:114-211 | For every number of workers there is an infinite run that is cancelled while Start has everything still to do, with done open, and is fair from then on |
| `EventDispatch.NothingLostNothingRepeated` | backend/internal/observability/tournament_dispatcher.go:91-206 | In every interleaving, whichever calls panic: every observation offered is dispatched, in flight, queued, being dropped, dropped, or the at most one lost; the queue is bounded; dispatch order is accepted order; each observer has been called in that order; every counted drop was notified once |
| `EventDispatch.EveryObserverIsCalled` | backend/internal/observability/tournament_dispatcher.go:162-176 | Between dispatches every observer has been called with every event as often as it was dispatched, and with every lag measurement as often if it takes lags and never otherwise |
| `EventDispatch.HistoryOnlyGrows` | backend/internal/observability/tournament_dispatcher.go:91-110 | Accepted and dispatched histories only grow, the consumer is admitted once, a lost observation stays lost, and after Run has returned or failed it reports not ready, nothing is dispatched any more and the queue only fills up |
| `EventDispatch.CancelledForGood` | backend/internal/observability/tournament_dispatcher.go:102-106 | A cancellation lasts, and Run returns only after one |
| `EventDispatch.ProducerExactly` | backend/internal/observability/tournament_dispatcher.go:153-160 | What an offer and the counting of a drop change, told by the fields alone |
| `EventDispatch.StepKeepsInv` | backend/internal/observability/tournament_dispatcher.go:91-206 | Every atomic step of producers and consumer, unwinding and recovering included, keeps the conservation invariant and one deferred recover above every call of an observer |
| `EventDispatch.PanicsLeaveNoTrace` | backend/internal/observability/tournament_dispatcher.go:178-206 | For every run there is one in which no observer and no queue observer panics and which ends in the same state, up to calls still in progress: queue, histories, drops, logs, lags and readiness are those of a run without such panics |
| `EventDispatch.OnlyTheClockLoses` | backend/internal/observability/tournament_dispatcher.go:100-206 | In every run no panic of an observer or queue observer leaves the dispatcher; an observation is lost without being counted exactly in the runs in which the clock has panicked inside the consumer, and only such a panic ends Run by a panic |
| `DispatcherLiveness.FairRunsDispatch` | backend/internal/observability/tournament_dispatcher.go:91-176 | In every infinite run in which the consumer is not passed over for ever, every accepted observation is eventually dispatched and in the log of every observer that takes it, however many more are offered, unless Run ends before |
| `DispatcherLiveness.EverythingIsDelivered` | backend/internal/observability/tournament_dispatcher.go:91-176 | Without cancellation and without a panic of the consumer clock, fair scheduling delivers every accepted observation |
| `DispatcherLiveness.EveryRunCanEnd` | backend/internal/observability/tournament_dispatcher.go:91-110 | Every run in which Run was called can be cancelled and then goes on to its end by steps of the consumer alone |
| `DispatcherLiveness.StepSinks` | backend/internal/observability/tournament_dispatcher.go:91-176 | No step of anybody moves the consumer further from an observation in the queue, and each of its own steps brings it closer |
| `DispatcherLiveness.FairDispatchExists` | backend/internal/observability/tournament_dispatcher.go:91-176 | For every configuration with room in its queue there is such a fair run, at a time when nothing has been dispatched |
| `EventDispatch.ExpectedCounts` | backend/internal/observability/tournament_dispatcher.go:166-175 | An observer has to see an observation as often as it was dispatched if it takes it, and never otherwise |
| `EventDispatch.EffectiveCapacity` | backend/internal/observability/tournament_dispatcher.go:61-69 | Zero selects the default; the capacity in force lies within the permitted range; everything outside is refused |
| `EventDispatch.OneRound` | backend/internal/observability/tournament_dispatcher.go:166-175 | One round of the observer loop ends at the loop head with one more log extended, whether its call panics or not |
| `EventDispatch.RoundsRecord` | backend/internal/observability/tournament_dispatcher.go:166-175 | After n rounds exactly the first n observers have recorded the observation, whichever of their calls panic |
| `EventDispatch.DispatchRecords` | backend/internal/observability/tournament_dispatcher.go:162-176 | A whole dispatch reports a lag that is not negative to a watched queue and offers the observation to every observer |
| `EventDispatch.TournamentEventDispatcher.New` | backend/internal/observability/tournament_dispatcher.go:56-89 | A dispatcher exists exactly for a usable capacity and at least one observer; it keeps the observers that are there in their order, and the queue is watched by the configured observer or else by the first kept one that can |
| `EventDispatch.TournamentEventDispatcher.Begin` | backend/internal/observability/tournament_dispatcher.go:96-98 | The first call of Run wins the flag, every other call fails |
| `EventDispatch.TournamentEventDispatcher.Enqueue` | backend/internal/observability/tournament_dispatcher.go:153-160 | Appends while there is room and otherwise counts and reports a drop, in step with the protocol state, and never panics |
| `EventDispatch.TournamentEventDispatcher.ObserveDropSafely` | backend/internal/observability/tournament_dispatcher.go:178-184 | Notifies the queue observer where there is one, and returns even when that panics |
| `EventDispatch.TournamentEventDispatcher.ObserveQueueLagSafely` | backend/internal/observability/tournament_dispatcher.go:186-192 | Reports the lag where the queue is watched, and returns even when that panics |
| `EventDispatch.TournamentEventDispatcher.ObserveSafely` | backend/internal/observability/tournament_dispatcher.go:194-206 | Calls the observer and returns even when it panics |
| `EventDispatch.TournamentEventDispatcher.Dispatch` | backend/internal/observability/tournament_dispatcher.go:162-176 | Panics exactly when the clock does, and then changes nothing; otherwise every observer is called once with an event, and every observer that takes lags once with a lag measurement, although each panic would end the loop if it came through; the fields match the steps of the protocol |
| `Transposition.RailFence` | test-data/importer/easy_tasks.py:135-146 | Succeeds exactly for at least two rails or a text no longer than the rails; the code holds each character once, ordered by rail and then by place, where place k lies on the rail that a bounce between first and last rail reaches after k steps |
| `Transposition.ZigzagBounces` | test-data/importer/easy_tasks.py:138-145 | The row after k steps is k modulo twice the rails less two, counted back from the far end beyond the last rail |
| `Transposition.ColumnarIsArranged` | test-data/importer/easy_tasks.py:149-153 | The columnar code holds each character once, ordered by the key character of its column, then by column, then by row |
| `Transposition.OneArrangement` | test-data/importer/easy_tasks.py:135-153 | An order of the places determines the code |
| `Transposition.UnrailFence` | test-data/importer/test_easy_tasks.py:103-127 | Recovers every text from its rail-fence code for every number of rails from two up |
| `Transposition.ZigzagStaysOnRails` | test-data/importer/easy_tasks.py:135-146 | With at least two rails the zigzag never leaves the fence |
| `Transposition.RailAt` | test-data/importer/easy_tasks.py:139-145 | Character k sits on its rail behind exactly the earlier characters of that rail |
| `Transposition.ColumnOrderIsPermutation` | test-data/importer/easy_tasks.py:149-153 | The key order visits every column exactly once, repeated key letters included |
| `Transposition.ColumnAt` | test-data/importer/easy_tasks.py:149-153 | Row r of column c holds character r*width+c, and a column ends where the text does, ragged last row included |
| `Transposition.Uncolumnar` | test-data/importer/test_easy_tasks.py:130-148 | Recovers every text from its columnar code, the key and its length, for every non-empty key |
| `Transposition.CutColumns` | test-data/importer/test_easy_tasks.py:130-142 | Cutting the code by computed column lengths in key order returns the columns |
| `Transposition.ColumnLength` | test-data/importer/test_easy_tasks.py:133-141 | Counting the rows that reach a column gives the length of that column |
| `Substitution.Caesar` | test-data/importer/easy_tasks.py:74-83 | Every letter is shifted in its alphabet, case kept, everything else copied |
| `Substitution.ShiftInverse` | test-data/importer/test_easy_tasks.py:53-62 | Shifting back restores every character for every shift, and letters stay letters of the same case |
| `CipherLaws.ShiftGoesOn` | test-data/importer/easy_tasks.py:74-83 | A shifted letter keeps its case and lies that many places further, going round |
| `Substitution.Atbash` | test-data/importer/easy_tasks.py:86-95 | Every letter is mirrored in its alphabet |
| `Substitution.MirrorInvolution` | test-data/importer/easy_tasks.py:86-95 | Mirroring twice is the identity |
| `CipherLaws.MirrorIsOpposite` | test-data/importer/easy_tasks.py:86-95 | A mirrored letter is as far from the end of its alphabet as the letter is from its beginning |
| `Substitution.Rot47Involution` | test-data/importer/easy_tasks.py:98-102 | Rotating twice by 47 is the identity |
| `CipherLaws.RotationIsHalfTurn` | test-data/importer/easy_tasks.py:98-102 | A printable character moves by 47 places within the printable range, any other stays |
| `Substitution.Affine` | test-data/importer/easy_tasks.py:119-128 | Every letter at place p moves to place 5p+8 |
| `Substitution.AffineInverse` | test-data/importer/test_easy_tasks.py:79-89 | Multiplying by 21 after subtracting 8 undoes the affine cipher on every character |
| `CipherLaws.AffineGoesOn` | test-data/importer/easy_tasks.py:119-128 | A letter at place p moves to place 5p+8, going round, in its case |
| `Substitution.Vigenere` | test-data/importer/easy_tasks.py:105-116 | Fails exactly where a letter meets an empty key or a key character that lower-cases to anything but one character; otherwise the key letter is counted by the letters before, and other characters do not advance the key |
| `Substitution.VigenereInverse` | test-data/importer/test_easy_tasks.py:65-76 | Deciphering undoes enciphering for every text, key and lower-casing function, and fails exactly when enciphering does |
| `CipherLaws.VigenereIsKeyed` | test-data/importer/easy_tasks.py:105-116 | Each letter moves by the place of the key letter due, where the key is repeated along the letters alone |
| `Substitution.XorInvolution` | test-data/importer/easy_tasks.py:131-132 | Applying the repeating key twice restores the data |
| `CipherLaws.XorTells` | test-data/importer/easy_tasks.py:131-132 | A bit of the code is one exactly where data and repeated key differ |
| `Substitution.Bacon` | test-data/importer/easy_tasks.py:156-165 | The code is the five-digit group of every letter and every other character itself, separated by spaces |
| `Substitution.BaconDropsSpaces` | test-data/importer/test_easy_tasks.py:151-160 | Decoding returns the text without its spaces, for every text |
| `Substitution.BaconInverse` | test-data/importer/test_easy_tasks.py:151-160 | A text survives Bacon's cipher exactly when it has no space |
| `Substitution.TokenInverse` | test-data/importer/easy_tasks.py:156-165 | The group of a letter decodes to that letter in its case |
| `CipherLaws.BaconSpells` | test-data/importer/easy_tasks.py:156-165 | A letter is spelled by the five bits of its place, most significant first, in its case |
| `Puzzles.MakePuzzle` | test-data/importer/easy_tasks.py:168-322 | The puzzle text of each text kind, made by the loops above, is its cipher and a line end; answers outside ASCII are refused |
| `CipherLaws.PuzzleIsDescribed` | test-data/importer/easy_tasks.py:168-322 | Every puzzle of a text kind is a line whose content is as the kind describes it: by distances in the alphabet, key letters due, order of places or spelled bits |
| `Puzzles.CipherHasNoLineEnd` | test-data/importer/easy_tasks.py:168-322 | No cipher introduces a line end, so the one that was added can be stripped |
| `Puzzles.Solve` | test-data/importer/test_easy_tasks.py:181-276 | For every text kind, composed ones included, the answer is recovered from the kind, the puzzle text and the length alone |
| `Puzzles.RailCodeLength` | test-data/importer/easy_tasks.py:135-146 | A rail-fence code is as long as its text |
| `Puzzles.PythonCheckerAcceptsExactly` | test-data/importer/easy_tasks.py:333-344 | The generated Python checker accepts a typed line exactly when the line without its characters outside ASCII is the answer |
| `Puzzles.PythonCheckerAcceptsMore` | test-data/importer/easy_tasks.py:338 | For every answer a longer line, with one accented letter in front, that the Python checker accepts |
| `Puzzles.PythonComparisonIsExact` | test-data/importer/easy_tasks.py:333-342 | The comparison inside the Python checker accepts the bytes it was made from and nothing else |
| `Puzzles.JavaScriptCheckerIsExact` | test-data/importer/easy_tasks.py:346-357 | The generated JavaScript checker accepts the bytes of its answer and nothing else |
| `CipherLaws.PythonMasks` | test-data/importer/easy_tasks.py:333-342 | The Python checker holds each byte with the bits of 29+7i flipped |
| `CipherLaws.JavaScriptOffsets` | test-data/importer/easy_tasks.py:346-357 | The JavaScript checker holds each byte with 3i added modulo 256 |
| `Puzzles.GeneratedAnswersAreCarried` | test-data/importer/easy_tasks.py:362-369 | The answers the generator makes satisfy the premise of every text puzzle |
| `DecisionEvidence.NormalizeDecisionInputs` | backend/internal/domain/decision.go:104-123 | Succeeds exactly for non-empty inputs whose trimmed forms are present, valid and distinct, and returns them sorted |
| `DecisionEvidence.NormalizationUnique` | backend/internal/domain/decision.go:104-123 | Order and padding of the inputs change neither acceptance nor the normalised list |
| `DecisionEvidence.NormalizationIdempotent` | backend/internal/domain/decision.go:104-123 | A normalised list is accepted again and normalises to itself |
| `DecisionEvidence.EncodeStrings` | backend/internal/domain/decision.go:248-254 | The loop of length-prefixed fields computes the list encoding |
| `DecisionEvidence.EncodeInjective` | backend/internal/domain/decision.go:241-254 | Different lists of strings have different encodings |
| `DecisionEvidence.FieldLayout` | backend/internal/domain/decision.go:241-246 | A field is eight bytes whose positional value is the length, most significant first, and then the value |
| `DecisionEvidence.MessageLayout` | backend/internal/domain/decision.go:190-223 | The ranked message is algorithm, purpose, owner, time, inputs and value, in this order, each as a field |
| `DecisionEvidence.ReplayResult` | backend/internal/domain/decision.go:186-211 | Computes the order that the keyed digests determine, ties broken by value, independent of how the sort treats ties |
| `DecisionEvidence.ReplayedIsPermutation` | backend/internal/domain/decision.go:186-211 | The replayed order holds exactly the inputs, for any keyed digest |
| `DecisionEvidence.ReplayedAscends` | backend/internal/domain/decision.go:186-211 | The replayed order ascends by keyed digest in dictionary order, and where digests agree by value |
| `DecisionEvidence.RankMessagesAreDistinct` | backend/internal/domain/decision.go:194-223 | Equal ranking messages mean equal algorithm, purpose, owner, time, inputs and value |
| `DecisionEvidence.DigestMessageIsNoRankMessage` | backend/internal/domain/decision.go:225-235 | Within one decision the message of the record digest never coincides with a ranking message |
| `DecisionEvidence.SameStringSet` | backend/internal/domain/decision.go:268-274 | Comparing sorted copies decides equality of multisets |
| `DecisionEvidence.Validate` | backend/internal/domain/decision.go:125-151 | Accepts exactly records with proper metadata, normalised inputs, the replayed result and the replayed non-zero digest; reports invalid evidence exactly when the record is not well-formed, and a replay mismatch otherwise |
| `DecisionEvidence.MetadataExactly` | backend/internal/domain/decision.go:167-184 | Metadata are proper exactly when record, owner, purpose, algorithm, time and seed are as required |
| `DecisionEvidence.NewDecisionEvidence` | backend/internal/domain/decision.go:70-102 | Succeeds exactly for usable inputs, an available seed and proper metadata; the result is a permutation of the trimmed inputs; the record passes validation exactly when its digest is not all zero |
| `DecisionEvidence.SameDecisionSameReplay` | backend/internal/domain/decision.go:186-235 | Result and digest depend on metadata, seed and inputs only |
| `DecisionEvidence.AcceptedEvidenceIsReplayable` | backend/internal/domain/decision.go:125-158 | Two accepted records with equal metadata, seed and inputs agree in result and digest |
| `DecisionEvidence.OrderAndPaddingDoNotMatter` | backend/internal/domain/decision.go:70-102 | Records made from permuted or padded inputs hold the same inputs, result and digest |
| `Waves.CommandKeepsWave` | backend/internal/domain/wave.go:136-352 | Every successful command on a valid wave leaves it valid and keeps participants, tournament and an existing shared start; only a start sets it, and only when it was absent |
| `Waves.SupersededIsFinal` | backend/internal/domain/wave.go:354-369 | No command and no replacement is possible on a superseded wave |
| `WaveCommands.ValidExactly` | backend/internal/domain/wave.go:114-238 | A wave is valid exactly when identities are present, members are present and different, and window, times and readiness fit its state |
| `WaveCommands.OpenExactly` | backend/internal/domain/wave.go:240-257 | When a valid wave opens a window, what it answers otherwise, and what changes |
| `WaveCommands.ReadyExactly` | backend/internal/domain/wave.go:259-286 | Which ready marks a valid wave takes, what it answers otherwise, and which flag and state change |
| `WaveCommands.StartExactly` | backend/internal/domain/wave.go:288-309 | A valid wave starts exactly when it is ready, the window is its own and the time lies inside; each refusal has its own condition; one instant is written to wave and window |
| `WaveCommands.PauseExactly` | backend/internal/domain/wave.go:311-321 | A valid wave is paused exactly while active and not before its start |
| `WaveCommands.ResumeExactly` | backend/internal/domain/wave.go:323-333 | A valid wave is resumed exactly while paused |
| `WaveCommands.ExpireExactly` | backend/internal/domain/wave.go:335-352 | A valid wave expires exactly while members are unready, for its own window, after the deadline, and nobody stays ready |
| `WaveCommands.CompleteExactly` | backend/internal/usecase/tournament/admin/execution/workflow.go:937-947 | A valid wave completes exactly while active and with a new revision |
| `WaveCommands.ReplaceExactly` | backend/internal/domain/wave.go:354-397 | When a valid wave is replaced, which refusal it gives otherwise, and what both waves look like afterwards |
| `Waves.ReplacementIsSound` | backend/internal/domain/wave.go:354-397 | Both the superseded wave and its replacement are valid, conserve participants and tournament, and have different identities; nobody is ready |
| `Waves.ReplaceableExactly` | backend/internal/domain/wave.go:354-397 | A valid wave can be replaced exactly when it has a window, is neither completed nor superseded, and the new identities are present, different from its own and span a proper window |
| `Waves.GrandparentIdentitiesMayReturn` | backend/internal/domain/wave.go:365-369 | Freshness is demanded against the direct predecessor only: the wave after next may take back all its identities |
| `Waves.DistinctExactly` | backend/internal/domain/wave.go:354-397 | For a lineage with pairwise different identities of a kind (wave, revision, window or window revision), a granted request leaves them pairwise different exactly when the one it brings occurs nowhere in the lineage |
| `Waves.DistinctAlongRunsExactly` | backend/internal/domain/wave.go:240-397 | Over every run of requests the identities of a kind are pairwise different at every point exactly when every granted request brings an unused one |
| `Waves.FinalLineageTells` | backend/internal/domain/wave.go:240-397 | For wave, window and window revision identities the final lineage decides it |
| `Waves.StepIdentities` | backend/internal/domain/wave.go:240-397 | A granted request reaches the newest wave only, and changes or appends exactly the identity it brings |
| `Waves.PauseThenResume` | backend/internal/domain/wave.go:311-333 | Resuming undoes pausing |
| `Waves.ReadyMarksOne` | backend/internal/domain/wave.go:259-286 | A ready mark sets the flag of that participant alone, tells whether it changed anything, makes the wave ready exactly when it was the last one missing, and is repeated without effect |
| `Waves.LateWaveOnlyExpires` | backend/internal/domain/wave.go:259-352 | After the deadline of its open window a wave accepts exactly the expiry of that window, and that only while some member is not ready |
| `Waves.LineageInvariant` | backend/internal/domain/wave.go:136-397 | Over every lineage of commands and replacements from a planned wave: all waves are valid, all but the newest are superseded, each was started at most once and, if it ran, at the instant its window was consumed, inside the window and with every member ready; participants and tournament never change |
| `Waves.LineageIsMonotone` | backend/internal/domain/wave.go:240-397 | Over every lineage superseded waves stay as they are and shared starts never move |
| `Waves.ValidateMembers` | backend/internal/domain/wave.go:157-172 | Accepts exactly two or more present, distinct participants |
| `Waves.HasUnreadyMember` | backend/internal/domain/wave.go:403-410 | Finds a member that is not ready exactly when there is one |
| `Waves.AnyMemberReady` | backend/internal/domain/wave.go:412-419 | Finds a ready member exactly when there is one |
| `Waves.ExecutionWave.OpenReadyWindow` | backend/internal/domain/wave.go:240-257 | Performs the opening command on the stored wave, or fails and changes nothing |
| `Waves.ExecutionWave.MarkReady` | backend/internal/domain/wave.go:259-286 | Performs the ready command, telling a change from a repetition, or fails and changes nothing |
| `Waves.ExecutionWave.Start` | backend/internal/domain/wave.go:288-309 | Performs the shared start, or fails and changes nothing |
| `Waves.ExecutionWave.Pause` | backend/internal/domain/wave.go:311-321 | Performs the pause, or fails and changes nothing |
| `Waves.ExecutionWave.Resume` | backend/internal/domain/wave.go:323-333 | Performs the resumption, or fails and changes nothing |
| `Waves.ExecutionWave.ExpireReadyWindow` | backend/internal/domain/wave.go:335-352 | Performs the expiry after the deadline, or fails and changes nothing |
| `Waves.ExecutionWave.SupersedeWithReplacement` | backend/internal/domain/wave.go:354-397 | Supersedes the stored wave and returns its replacement, or fails and changes nothing |
| `Waves.ExecutionWave.ClearReadiness` | backend/internal/domain/wave.go:421-425 | Withdraws the readiness of every member and nothing else |
| `Series.ValidateSlots` | backend/internal/domain/series.go:213-247 | Accepts exactly at most 2*wins-1 slots that fit the series, with distinct identities and positions numbered 1 to n in some order |
| `Series.ScoreFitsSlots` | backend/internal/domain/series.go:106-137 | A valid score counts at most as many games as there are slots; it is undecided exactly when either side may still win a game, and then a slot is left; otherwise the winner is ahead |
| `Series.ScoreValidExactly` | backend/internal/domain/series.go:106-122 | The valid scores of both formats, one by one |
| `TaskHealth.CurrentTaskVersionHealth` | backend/internal/domain/task.go:268-303 | Accepts a non-empty list exactly when all attestations are valid for the version and their revisions are 1 to n in some order, and then returns the health of revision n; an error speaks of something that is in the list |
| `TaskHealth.OrderIsIrrelevant` | backend/internal/domain/task.go:268-303 | Permuted attestations are accepted alike and have the same current health |
| `TaskHealth.HasAll` | backend/internal/domain/task.go:297-301 | Checks that every number up to the latest occurs |
| `TaskHealth.AttestationValidExactly` | backend/internal/domain/task.go:252-260 | An attestation is valid exactly when task, version, revision, source and server time are as required |
| `Drafts.ActionKeepsDraftValid` | backend/internal/domain/draft.go:195-271 | An accepted action leaves a valid draft exactly when its time is not zero, and appends exactly its own record |
| `Drafts.ZeroTimeBreaksDraft` | backend/internal/domain/draft.go:235-292 | A valid draft and an accepted action with the zero time after which validation fails |
| `Drafts.SomeCategoryIsLegal` | backend/internal/domain/draft.go:195-271 | A valid active draft is never stuck: in time and with a proper next deadline some category is accepted |
| `Drafts.AcceptsExactlyInTime` | backend/internal/domain/draft.go:235-271 | At a given time a valid active draft accepts some action exactly when the turn deadline has not passed |
| `DraftAnswers.AnswersExactly` | backend/internal/domain/draft.go:195-271 | What a valid active draft answers to a request, check by check: turn, actor and action of the plan, deadline, pool, repeats, next deadline; and what an accepted action changes |
| `DraftAnswers.RefusesExactly` | backend/internal/domain/draft.go:195-205 | An invalid draft and a completed one refuse every request as such |
| `DraftAnswers.ValidExactly` | backend/internal/domain/draft.go:115-178 | A draft is valid exactly when identities, pool, turns, categories and state fit: participants alternate, first they ban, then they pick, and the picks and the one category left over are selected |
| `Drafts.RunCountsActions` | backend/internal/domain/draft.go:195-233 | In every run every state is valid, action k is recorded as number k, and the draft is complete exactly after as many actions as its plan has turns |
| `Drafts.CompletedDraftPartitionsPool` | backend/internal/domain/draft.go:294-309 | A completed draft has banned two categories and selected as many as the series has slots; bans and selections are the pool without overlap or repeats |
| `Drafts.DeriveSelectedCategories` | backend/internal/domain/draft.go:294-309 | The two loops return the picks in order and then the unused categories in pool order |
| `Drafts.ValidateActions` | backend/internal/domain/draft.go:273-292 | Accepts exactly histories that follow the plan turn by turn with unused categories of the pool and ordered times |
| `Drafts.ValidateDraftPool` | backend/internal/domain/draft.go:346-358 | Accepts exactly distinct known categories |
| `Drafts.DraftBoard.New` | backend/internal/domain/draft.go:89-113 | A draft is opened exactly for present, different participants and a legal pool with a deadline, and starts valid, active and empty |
| `Drafts.DraftBoard.Validate` | backend/internal/domain/draft.go:115-178 | Decides the declarative validity of a draft |
| `Drafts.DraftBoard.ApplyAction` | backend/internal/domain/draft.go:195-233 | Performs the action on the stored draft, or reports the first failing check and changes nothing |
| `Content.NormalizeCategories` | backend/internal/domain/content.go:244-260 | Accepts exactly the right number of distinct known categories for the format and returns them sorted |
| `Content.NormalizeTaskPool` | backend/internal/domain/content.go:262-280 | Accepts exactly non-empty pools of the wanted kind that list every task once, and returns them sorted |
| `Content.EachTaskOnce` | backend/internal/domain/content.go:268-277 | On a sorted list comparing neighbours decides that no task occurs twice |
| `Content.TaskPoolsOverlap` | backend/internal/domain/content.go:282-293 | Finds a common task exactly when there is one |
| `Content.NormalizeCategoryPools` | backend/internal/domain/content.go:213-242 | Accepts exactly two valid pools of different identity and format and returns them canonically |
| `Content.NormalizeStageDefaults` | backend/internal/domain/content.go:295-353 | Accepts exactly four defaults, one for each stage, that name an offered pool of the prescribed format and task kind, and returns them in stage order |
| `Content.NormalizeInput` | backend/internal/domain/content.go:177-211 | Accepts exactly inputs that meet the declarative condition and returns their canonical form |
| `ContentOrder.NormalizedContent` | backend/internal/domain/content.go:177-311 | Normalising keeps every pool and default with its content, puts the BO1 pool before the BO3 pool, and orders categories by name and versions by task |
| `ContentOrder.SortedByName` | backend/internal/domain/content.go:244-252 | The order of categories is the dictionary order of their names |
| `Content.NormalizationIgnoresOrder` | backend/internal/domain/content.go:177-211 | Inputs that list the same content in any order at any level are accepted alike and normalise to one value |
| `Content.NormalizationIdempotent` | backend/internal/domain/content.go:177-211 | A canonical form is accepted and is its own canonical form |
| `Content.NormalizedShape` | backend/internal/domain/content.go:213-353 | Every accepted input has one BO1 and one BO3 pool and each of the four stages once, the final on the BO3 pool and the others on the BO1 pool |
| `Content.PoolIsLegal` | backend/internal/domain/content.go:244-260 | Every category list that content accepts may open a draft of its format |
| `Content.Create` | backend/internal/domain/content.go:109-115 | Creates revision one of the canonical form exactly for acceptable inputs, and the result is valid |
| `Content.Validate` | backend/internal/domain/content.go:159-175 | Accepts exactly configurations with proper numbers and derived identities whose content is already canonical |
| `Content.ValidateRevisionAdvance` | backend/internal/domain/content.go:355-398 | Accepts exactly when every changed pool has a new identity and the next number |
| `Content.Revise` | backend/internal/domain/content.go:117-142 | Succeeds exactly for an acceptable advance from a valid configuration, and tells whether the content changed |
| `Content.RevisionKeepsConfiguration` | backend/internal/domain/content.go:117-142 | A revision keeps validity and tournament and raises the number by one exactly when the canonical content changed, withdrawing derived revisions |
| `Content.StepIsLater` | backend/internal/domain/content.go:117-157 | One revision or derivation keeps validity, and every pool either stays or gets a higher number |
| `Content.RevisionNumbersIdentifyContent` | backend/internal/domain/content.go:355-398 | Over every run all states are valid, and equal revision numbers at any two points mean identical content, for the whole and for each pool |
| `Content.PoolIdentitiesTellExactly` | backend/internal/domain/content.go:355-398 | Over every run of revisions the identities of a pool slot tell its pools apart exactly when every change brings an identity the slot has never had; the check compares with the direct predecessor only |
| `Content.RevisionTellsExactly` | backend/internal/domain/content.go:355-398 | The same for one accepted revision, as a condition on its input and the history so far |
| `Content.PoolIdentityMayReturn` | backend/internal/domain/content.go:355-398 | From every configuration two accepted revisions lead back to the first identity of the normal task pool on a different pool |
| `Assignments.InterleavingsAreSafe` | backend/internal/domain/assignment.go:221-313 | Over every interleaving of deliveries and promotions on assignments that share a history: all stay valid, receipts refer to disclosed snapshots only, disclosed plus undisclosed reserves are constant, and the history holds exactly the earlier receipts and those delivered |
| `Assignments.NoTaskTwice` | backend/internal/domain/assignment.go:275-313 | In every reachable system no participant holds two receipts for one task, not even in different assignments or from before |
| `Assignments.DeliverableExactly` | backend/internal/domain/assignment.go:275-313 | In every reachable system a delivery succeeds exactly for a participant who never received the disclosed content, given proper identities and a time, and delivers the snapshot disclosed last; the check of the own receipts is implied by the history |
| `AssignmentAnswers.DeliversExactly` | backend/internal/domain/assignment.go:275-313 | What a delivery on a valid assignment and history answers: foreign participant, repeat, missing identity or time, or the one receipt it makes |
| `AssignmentAnswers.PromotesExactly` | backend/internal/domain/assignment.go:264-273 | A promotion discloses the next snapshot while there is one |
| `AssignmentAnswers.AssignmentValidExactly` | backend/internal/domain/assignment.go:221-262 | An assignment is valid exactly when identities, participants, active index, snapshots and receipts are as required |
| `AssignmentAnswers.ReceiptValidExactly` | backend/internal/domain/assignment.go:158-188 | A receipt is valid exactly when its identities are present, its instance is derived from assignment and participant, and its time is a server time |
| `AssignmentAnswers.SnapshotFaultAt` | backend/internal/domain/assignment.go:322-342 | A validation of snapshots tells what is wrong with the first faulty one |
| `AssignmentAnswers.ReceiptFaultAt` | backend/internal/domain/assignment.go:130-143 | A validation of receipts tells what is wrong with the first faulty one |
| `Assignments.DeliveryKeepsAssignment` | backend/internal/domain/assignment.go:275-313 | A delivery keeps assignment and history valid and adds a receipt of the disclosed snapshot |
| `Assignments.PromotionKeepsAssignment` | backend/internal/domain/assignment.go:264-273 | A promotion keeps the assignment valid and discloses one more reserve |
| `Assignments.ReceiptsAfter` | backend/internal/domain/assignment.go:275-313 | The receipts of all assignments together grow by exactly the delivered one |
| `Assignments.ValidateHistory` | backend/internal/domain/assignment.go:130-143 | Accepts exactly valid receipts with no participant and task twice, and reports the first fault: an invalid receipt or a repeat |
| `Assignments.FaultStays` | backend/internal/domain/assignment.go:130-143 | The first fault of a list of receipts is the first fault of every longer one |
| `Assignments.HasReceipt` | backend/internal/domain/assignment.go:145-152 | Finds a receipt exactly when the participant received that task |
| `Assignments.ValidateSnapshots` | backend/internal/domain/assignment.go:322-342 | Accepts exactly one to three valid snapshots with distinct identities and tasks, and reports the first fault: an invalid snapshot, a clash, or the wrong number |
| `Assignments.ValidateAssignment` | backend/internal/domain/assignment.go:221-235 | Decides the declarative validity of an assignment and reports the first fault in the order of the checks |
| `Assignments.TaskAssignment.New` | backend/internal/domain/assignment.go:190-219 | An assignment is made exactly for a permitted number of reserves that were all given and a valid result, discloses none of them, and otherwise reports the first fault |
| `Assignments.TaskAssignment.PromoteNextReserve` | backend/internal/domain/assignment.go:264-273 | Discloses the next reserve, or fails at the last one and changes nothing |
| `Assignments.TaskAssignment.DeliverTo` | backend/internal/domain/assignment.go:275-313 | Appends one and the same receipt to assignment and history, or fails and changes neither |
| `GoldenGroups.LaterAttemptsShrink` | backend/internal/domain/golden.go:282-325 | The participants of a later attempt are among those of every earlier one and are never more than the members |
| `GoldenGroups.OnlyLastIsOpen` | backend/internal/domain/golden.go:300-303 | Every attempt but the last is over |
| `GoldenGroups.ChainHoldsGlobally` | backend/internal/domain/golden.go:282-312 | The checks between neighbours hold exactly when every earlier attempt is over, contains every later one and is named as predecessor by its direct successor alone |
| `GoldenGroups.CallKeepsGroup` | backend/internal/domain/golden.go:187-246 | Each of the three changes keeps the group valid; identities, members and all attempts but the last stay, exclusions and participation are never withdrawn, and no reported change means none happened |
| `GoldenGroups.RetainingTouchesLast` | backend/internal/domain/golden.go:221-246 | Marking an attempt as retained can only touch the last attempt |
| `GoldenGroups.ChangesAreSpent` | backend/internal/domain/golden.go:187-246 | A call that reports a change uses up exactly one of the changes left, and repeating it reports none |
| `GoldenGroups.RunsAreBounded` | backend/internal/domain/golden.go:187-246 | Any sequence of calls, failing ones included, keeps the group valid and grown from where it began, and reports exactly as many changes as were used up, at most one per member and two more |
| `GoldenGroups.ExclusionRemovesOne` | backend/internal/domain/golden.go:177-185 | Excluding a participant takes exactly that one out of play |
| `GoldenAnswers.AttemptValidExactly` | backend/internal/domain/golden.go:81-142 | An attempt is valid exactly when identities, predecessor, participants and the times of its state are as required |
| `GoldenAnswers.RetainExactly` | backend/internal/domain/golden.go:221-246 | What retaining an attempt answers: only one that has not started can be retained, it is the last, and it keeps its first time |
| `GoldenAnswers.ExcludeExactly` | backend/internal/domain/golden.go:201-219 | Excluding a member sets its mark alone, once |
| `GoldenGroups.ParticipantsAreValid` | backend/internal/domain/golden.go:248-280 | Accepts exactly two or more present, distinct participants |
| `GoldenGroups.ParticipantsAreSubset` | backend/internal/domain/golden.go:314-325 | Decides inclusion |
| `GoldenGroups.ValidateAttempt` | backend/internal/domain/golden.go:81-142 | Decides the declarative validity of one attempt |
| `GoldenGroups.ValidateAttempts` | backend/internal/domain/golden.go:282-312 | Accepts exactly chains of attempts that are well placed, linked to their predecessor and distinct |
| `GoldenGroups.HasExecutionEvidence` | backend/internal/domain/golden.go:327-334 | Finds an attempt that has run exactly when there is one |
| `GoldenGroups.Validate` | backend/internal/domain/golden.go:152-171 | Reports a broken group before a broken attempt, and nothing exactly for valid groups |
| `GoldenGroups.GoldenGroup.New` | backend/internal/domain/golden.go:144-150 | Accepts exactly valid states |
| `GoldenGroups.GoldenGroup.ActiveParticipants` | backend/internal/domain/golden.go:177-185 | Lists the members still in play in their order |
| `GoldenGroups.GoldenGroup.EstablishParticipation` | backend/internal/domain/golden.go:187-199 | Performs the change on the stored group or reports why not, changing nothing |
| `GoldenGroups.GoldenGroup.ExcludeParticipant` | backend/internal/domain/golden.go:201-219 | Excludes every occurrence of the participant, which is one, or reports why not, changing nothing |
| `GoldenGroups.GoldenGroup.RetainAttemptBeforeStart` | backend/internal/domain/golden.go:221-246 | Marks the attempt as retained or reports why not, changing nothing |
| `GoldenMatching.ExactMatching` | backend/internal/usecase/golden/plan/matching.go:11-52 | Succeeds exactly when the reserve count is permitted and some plan serves every demand of every group; the result gives every group its chain of eligible candidates, no candidate twice, and no plan gives the last demand a smaller candidate |
| `GoldenMatching.LeastCandidate` | backend/internal/usecase/golden/plan/matching.go:27-43 | A demand just served holds the least candidate that it holds in any plan for the demands up to it |
| `GoldenMatching.GoldenMatcher.Assign` | backend/internal/usecase/golden/plan/matching.go:27-43 | Trying candidates from the first on, with everything ahead of the chosen one hopeless, the augmenting search either serves the demand from a candidate not seen before while every served demand stays served, or changes nothing and has seen only taken candidates whose demands have no other choice; it terminates |
| `GoldenMatching.NoPlan` | backend/internal/usecase/golden/plan/matching.go:44-48 | When the search for a demand fails no plan exists: that demand and those of the candidates it saw are one more than the candidates that fit any of them |
| `GoldenMatching.TakesOver` | backend/internal/usecase/golden/plan/matching.go:34-39 | Handing over a candidate after its former demand has moved keeps the two arrays one matching |
| `GoldenMatching.SaturatedNext` | backend/internal/usecase/golden/plan/matching.go:29-42 | A failed search from the former demand keeps the outer search conclusive |
| `GoldenMatching.EligibleForGroup` | backend/internal/usecase/golden/plan/matching.go:54-79 | Decides eligibility: usable, not reserved, and new to every active participant of the group |
| `SwissMatching.FindMatching` | backend/internal/usecase/swiss/matching.go:20-37 | Invalid exactly for an improper field or improper meetings; otherwise a complete round without repeated meetings is found exactly when there is one |
| `SwissMatching.Search` | backend/internal/usecase/swiss/matching.go:89-114 | Finds a matching exactly when there is one, and the one whose choices of opponents come first |
| `SwissMatching.MatchingIsChosen` | backend/internal/usecase/swiss/matching.go:89-114 | Every matching, however its pairs are ordered and oriented, is what some choices of opponents lead to |
| `SwissMatching.MatchingPeels` | backend/internal/usecase/swiss/matching.go:94-104 | Every matching pairs the first participant with somebody later and matches the rest |
| `SwissMatching.FirstExtends` | backend/internal/usecase/swiss/matching.go:95-110 | The first choices for the rest extend to the first choices, once every earlier opponent is a dead end |
| `SwissMatching.ValidateEligible` | backend/internal/usecase/swiss/matching.go:39-58 | Accepts exactly an even number of present, distinct participants within the bounds |
| `SwissMatching.PreviousMeetingSet` | backend/internal/usecase/swiss/matching.go:76-87 | Accepts exactly proper meetings, and holds a pair exactly when it has met, in either order |
| `SwissMatching.FirstRoundIsRound` | backend/internal/usecase/swiss/matching.go:89-114 | The first round is a round, and there is one whenever there is any round |
| `SwissMatching.FirstIsUnique` | backend/internal/usecase/swiss/matching.go:89-114 | First choices, and the matching they lead to, are determined by the field and the earlier meetings |
| `AutomaticPairings.BuildInputs` | backend/internal/usecase/swiss/automatic.go:70-103 | Accepts exactly a proper field whose meetings are between different participants of it and not repeated in either orientation, and returns one line for each participant and meeting |
| `AutomaticPairings.ReadLine` | backend/internal/usecase/swiss/automatic.go:115-132 | Reading a line gives back the participant or the meeting it was written for |
| `AutomaticPairings.ReadBack` | backend/internal/usecase/swiss/automatic.go:113-135 | Whatever order the lines of a field come back in, what is read from them is the same field again |
| `AutomaticPairings.ReplayEvidence` | backend/internal/usecase/swiss/automatic.go:105-141 | Any record yields exactly the pairing it determines or the error of the first check it fails |
| `AutomaticPairings.Replay` | backend/internal/usecase/swiss/automatic.go:59-68 | Succeeds exactly when the record determines the recorded pairing; otherwise the mismatch or the error of the record is reported |
| `AutomaticPairings.RefusalTells` | backend/internal/usecase/swiss/automatic.go:105-141 | Each refusal of a record has its own condition: wrong purpose or field, invalid record, record that does not replay, field without a round |
| `AutomaticPairings.EqualPairs` | backend/internal/usecase/swiss/automatic.go:156-167 | Decides equality of two lists of pairs, order and orientation included |
| `AutomaticPairings.Generate` | backend/internal/usecase/swiss/automatic.go:27-57 | The outcome is the function of field, metadata and seed of which the theorems below speak |
| `AutomaticPairings.RecordedIsAccepted` | backend/internal/usecase/swiss/automatic.go:38-49 | The record made of a proper field validates exactly when its metadata is proper and its digest is not all zero |
| `AutomaticPairings.GeneratedExactly` | backend/internal/usecase/swiss/automatic.go:27-57 | For proper metadata and a digest that is not all zero a pairing is generated exactly when the field is proper and has a round without repeated meetings; an impossible round and a bad field are told apart |
| `AutomaticPairings.GeneratedReplays` | backend/internal/usecase/swiss/automatic.go:27-68 | A generated pairing is a round of the given field, and its record alone replays to it |
| `AutomaticPairings.GenerationIgnoresOrder` | backend/internal/usecase/swiss/automatic.go:27-57 | For a fixed seed the outcome depends neither on the order of participants and meetings nor on the orientation of a meeting |
| `AutomaticPairings.CanonicalTextsAreOk` | backend/internal/usecase/swiss/automatic.go:78-100 | The canonical text of an identity is read back and contains no colon, so the assumptions about texts can be met |

## Left out

- Puzzles.Solve: the thirteen kinds that are text ciphers; the kinds built on base64, base32, base85, hex, zlib, gzip, quoted-printable or uuencode rest on library codecs, and the byte-list kinds (binary, decimal, octal, percent, bit and nibble swaps) format each byte by itself.
- Puzzles.MakePuzzle: the prose description and the file name that come with a puzzle are not modelled.
- Transposition.ColumnOrderIsPermutation: an empty key, for which the source raises an error on every text, has no columnar code here.
- Transposition.Uncolumnar: the decoder is specified for codes of some text, given as a ghost; what it does with other input is not stated. The same holds for the other decoders.
- SupervisorLiveness.FairRunsShutDown: fairness asks of a running worker that its code returns once the context is cancelled, and of a heartbeat that its reporter returns.
- WorkerSupervision.RuntimeWorkers.WorkerHealth: nil receivers, panicking readiness probes and reconfiguring the heartbeat reporter while running are not modelled; a probe is an input that answers yes or no.
- EventDispatch.TournamentEventDispatcher.Enqueue: whether an offered event is valid is an input, and the clock that a producer reads belongs to its caller; the readiness flag is part of the protocol state, not of the object.
- EventDispatch.OnlyTheClockLoses: what becomes of a panic once it has left Run is up to its caller; the recovery of the supervised caller is not part of this model.
- DispatcherLiveness.FairRunsDispatch: fairness asks of every observer that its calls end.
- WorkerSupervision.NothingPanics: a reporter or a ticker factory that panics is not modelled; both are called without a deferred recover (backend/internal/bootstrap/runtime_workers.go:218-226 and 269).
- Waves.CommandKeepsWave: completing comes from the execution workflow (backend/internal/usecase/tournament/admin/execution/workflow.go:937-947); the closure revision it derives by hashing is taken to be non-nil; the cancelling workflow command, and the graph conditions of the workflow, are not modelled.
- Waves.ExecutionWave.SupersedeWithReplacement: memory that two waves might share is not modelled; every wave owns its members and window.
- Assignments.ValidateAssignment: the content of a snapshot is one flag; the constructor with a fixed number of reserves is the general one with two.
- Series.ValidateSlots: the content of a slot is one flag; the winner and revision evidence of a series are left out.
- RevisionGraphs.RevisionGraph.New: the payload bytes matter through their digest only. As in the other validators with a single error value, the wording of a message is not modelled.
- GoldenMatching.ExactMatching: which of several plans is returned is stated for the demand that each search serves, and so for the last demand of the result; later searches may move the candidates of earlier demands.
- GoldenMatching.ExactMatching: the plan that is built around the matching, with its snapshots, digests and proof hash, is left out.
- SwissMatching.FindMatching: byes, manual and overriding pairings and the points of a round are left out.
- AutomaticPairings.ReplayEvidence: the errors wrapped in an invalid pairing are modelled by their cause; how the reader of identity texts treats other spellings of an identity is left open.
- Copies that the source makes of slices on the way in and out are values here, so aliasing between callers and aggregates is not captured.
- Storage, transport, mail, the web frontend, configuration and migrations: outside the domain logic.
- Rosters, stage transitions, hint schedules, task titles and addresses: checks of single values against fixed tables, with no property that spans operations.
