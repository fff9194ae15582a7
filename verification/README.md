# Verification of teploy-ship's stateful cores

A Dafny model of the parts of the repository that keep real state under concurrency, crashes or partial failure, and of
its two text algorithms. Each core has a specification module of values and steps, a module of theorems about every run,
and, where the source changes things in place, a class or methods proved against the specification.

- `Common.dfy`: options, sums over maps, sizes of sets.
- `Ledger.dfy`, `LedgerTheorems.dfy`: the budget reservation ledger, a growing tree of capped scopes.
- `Coordination.dfy`, `CoordinationTheorems.dfy`, `CoordinationRefusals.dfy`, `CoordinationReuse.dfy`,
  `CoordinationVerdicts.dfy`, `CoordinationAnswers.dfy`, `CoordinationObject.dfy`: two-repository coordination, with any
  number of callers part-way through a launch; what every run keeps however late a refusal is, exactly when a late one
  does harm, and what each call decides and answers.
- `CodeIndex.dfy`, `CodeIndexTheorems.dfy`, `CodeIndexProgress.dfy`, `CodeIndexObject.dfy`, `Ordering.dfy`,
  `Chunks.dfy`: the incremental code index, the order its sweep visits files in, and the windows a file is cut into.
- `Admission.dfy`, `AdmissionTheorems.dfy`, `AdmissionCeiling.dfy`, `AdmissionAnswers.dfy`,
  `AdmissionObjects.dfy`: fleet admission as steps over a store, what a stale release does to its ceiling, and the proof
  that the two implementations answer alike.
- `Spend.dfy`: attributed spend as interleaved reads and writes.
- `Glob.dfy`, `GlobTheorems.dfy`: the glob compiler, the expressions it emits, and the dialect it documents.
- `Delivery.dfy`: delivery records moved by compare-and-swap.
- `EditBlock.dfy`, `ApplyEdits.dfy`: parsing an edit block and applying it.
- `Artifacts.dfy`: chunked artifacts and base64 (section 4 of RFC 4648).
- `DeliveryLog.dfy`, `Outbox.dfy`, `OutboxSweep.dfy`: the ledger of seen deliveries, and the outbox sweep as interleaved
  steps and as one worker's loop.
- `FinishGate.dfy`: the agent loop's finish gate.

`dafny verify dfyconfig.toml` checks the whole project.

Where the code and what it says of itself differ, the model follows the code:

- A glob holding a double star, the word SLASHSTAR and another double star matches nothing, because a placeholder is read out
  of place; and a run of three stars is not read longest first (`src/change-class.ts:157-179`).
- A stale slot release can free another worker's slot when both hold the same run, which the comment at
  `src/admission.ts:97-99` rules out; and the two admissions differ once a ceiling is lowered.
- A refused launch is written back whatever the record has become, so a refusal that arrives after a repair and a relaunch can
  set a merged API back to pending under a running client, restart a failed API without a person, make a person's retry
  take a used run id, or let an acceptance of one verdict cover the next (`src/coordination.ts:1120-1129`, `1182-1196`).
- A file cut by the chunk cap is recorded under the hash of the whole file, so it is not attempted again
  (`src/code-index.ts:830-840`); and after one unaffordable file the sweep ends with the next one it records
  (`src/code-index.ts:846-861`).
- A single replacement works out dollar patterns in the replacement text, replace-all does not (`src/agent.ts:725`).
- Finishing a rollback is fenced on one being in flight, not on which claim is reporting (`src/delivery.ts:1424-1435`).
- The outbox cursor can pass a row that was skipped because another worker was on it (`src/akiroo.ts:642-703`). The file's
  cursor never goes back, as its comment says; the one the workers share is read, compared and then updated without looking
  again, so two overlapping sweeps can take it back, and two first writers leave two rows (`src/akiroo.ts:379-392`).

## Model

| member | source | states |
|---|---|---|
| LedgerTheorems.HoldsNeverExceedCap | src/budget-reservation.ts:184-321 | after any history of the seven operations, on a tree of scopes that grows, live and unpriced holds of a scope and all its descendants stay within its cap; committed exceeds the cap by recorded overruns at most; the chain always resolves and repeats nothing |
| LedgerTheorems.Acyclic | src/budget-reservation.ts:184-201 | a scope stands on its own chain once, at the head, so the parent graph has no cycle |
| LedgerTheorems.RootedGrows | src/budget-reservation.ts:184-261 | defining a scope under a defined parent keeps every chain resolvable and moves no existing one |
| LedgerTheorems.ReserveAdmittedIff | src/budget-reservation.ts:263-293 | a reservation is admitted if and only if its fence is current, its amount valid, its id new, its scope defined and every ancestor has room |
| LedgerTheorems.ReserveCountsOnChain | src/budget-reservation.ts:263-293 | an admitted amount moves the committed figure of exactly the scopes on its chain, by exactly the amount |
| LedgerTheorems.RefusedChangesNothing | src/budget-reservation.ts:263-321 | a refused call and an idempotent replay leave the whole ledger as it was |
| LedgerTheorems.SnapshotAddsUp | src/budget-reservation.ts:323-355 | in every reachable ledger a snapshot's committed figure is held plus settled plus unpriced holds plus late overruns, all non-negative, and remaining is what is left of the cap |
| LedgerTheorems.CommittedIsOwnPlusChildren | src/budget-reservation.ts:203-224 | a scope's committed figure is what is reserved directly under it plus its children's committed figures |
| LedgerTheorems.NothingBilledIsDropped | src/budget-reservation.ts:295-321 | over every history the sum of accepted prices equals settled actuals plus the overruns of released reservations |
| LedgerTheorems.UnpricedHoldStays | src/budget-reservation.ts:376-402 | an unpriced hold keeps its record through every operation that does not resolve it |
| LedgerTheorems.EpochsOnlyRise | src/budget-reservation.ts:131-147 | takeover epochs never fall |
| LedgerTheorems.TakeoverFencesOldWriter | src/budget-reservation.ts:131-147 | after a takeover every reserve, settle and release presented under an older epoch is refused, for the rest of the history |
| LedgerTheorems.FenceAcceptedIff | src/budget-reservation.ts:131-142 | over every history a token is good if and only if its epoch is the number of takeovers of its resource so far, none older and none never issued; otherwise the refusal names resource, epoch and the current one |
| LedgerTheorems.MicroIsNearest | src/budget-reservation.ts:176 | the micro-dollar amount recorded is within half a micro-dollar of the dollars given |
| LedgerTheorems.UnpricedUsageHolds | src/budget-reservation.ts:312-315 | in every reachable ledger usage of a hold without a price leaves the whole hold in place, marked unpriced: held falls and unpriced-held rises by its amount, one more unpriced use is counted, committed does not move |
| LedgerTheorems.PricedUsageSpends | src/budget-reservation.ts:316-321 | a valid price leaves the hold settled at that actual, its overrun what exceeds the hold; committed moves by actual less reserved |
| LedgerTheorems.LateUsageCounts | src/budget-reservation.ts:301-311 | usage after release raises overrun and committed by its whole price, or without a price is flagged and counted, and the record stays released |
| LedgerTheorems.SettleRefusedIff | src/budget-reservation.ts:295-300 | a settlement is refused for a stale fence, an unknown id, an invalid price or a reservation settled already, each if and only if it stands and none before it does |
| LedgerTheorems.ReleaseFrees | src/budget-reservation.ts:376-390 | a release turns a plain hold into a released one and takes its amount off held and committed |
| LedgerTheorems.ReleaseOnlySees | src/budget-reservation.ts:376-390 | a release of anything else changes nothing and says whether it was released before |
| LedgerTheorems.ResolveCharges | src/budget-reservation.ts:391-402 | an operator's price turns an unpriced hold into spend: unpriced-held falls by its amount, settled rises by the price, one unpriced use less is counted |
| LedgerTheorems.ResolveRefusedIff | src/budget-reservation.ts:391-402 | any other resolution is refused, with its reason |
| LedgerTheorems.ReserveHolds | src/budget-reservation.ts:263-293 | an admitted reservation of a new id is a plain hold of its whole amount in held and committed |
| LedgerTheorems.ReserveAnswers | src/budget-reservation.ts:268-281 | a known id is answered with what it reserved, in its own scope only; an invalid amount, another scope and an unknown scope are refused with their reasons |
| LedgerTheorems.OverCapNamesTheNearest | src/budget-reservation.ts:283-289 | a reservation without room is refused naming the nearest scope of the chain that lacks it, with its cap and committed figure |
| LedgerTheorems.DefineOnce | src/budget-reservation.ts:243-261 | a scope is defined if and only if its cap is positive, its parent named where one is needed and defined, and what it says agrees with any earlier definition; a new one records kind, cap and parent, a repeated one changes nothing |
| LedgerTheorems.FigureMoves | src/budget-reservation.ts:203-224 | a record written moves each of the six figures on exactly the scopes of its chain, by what it weighs more than the one before it |
| LedgerTheorems.SnapshotShows | src/budget-reservation.ts:323-355 | a snapshot shows the cap and each figure in its own place |
| LedgerTheorems.UnpricedUsageIsCounted | src/budget-reservation.ts:295-402 | over every history the unpriced uses counted are the answers that flagged one less those an operator priced since |
| LedgerObject.Ledger.ChainOf | src/budget-reservation.ts:184-201 | the ancestor walk, in place, is the chain of the specification, or nothing when it is broken or repeats |
| LedgerObject.Ledger.DefineScope | src/budget-reservation.ts:243-261 | the in-place definition leaves the state and answer of the specification step |
| LedgerObject.Ledger.ReserveAmount | src/budget-reservation.ts:263-293 | the in-place reserve, with its ancestor loop, leaves the state and answer of the specification step |
| LedgerObject.Ledger.SettleUsage | src/budget-reservation.ts:295-321 | the in-place settlement, late usage included, leaves the state and answer of the specification step |
| LedgerObject.Ledger.ReleaseHold | src/budget-reservation.ts:376-390 | only a plain hold is released, in place |
| LedgerObject.Ledger.ResolveUnpriced | src/budget-reservation.ts:391-402 | only an unpriced hold is resolved, in place |
| LedgerObject.Ledger.TakeOverResource | src/budget-reservation.ts:406-412 | a takeover raises one resource's epoch |
| LedgerObject.Ledger.TakeSnapshot | src/budget-reservation.ts:323-355 | the accumulator loop gives the sums of the specification |
| CoordinationTheorems.ClientFollowsApi | src/coordination.ts:321-411 | in every run whose refusals are timely a client that is running, merged or delivered means the API landed with a recorded anchor, and every client run was built on exactly that anchor |
| CoordinationRefusals.OrderedUnlessHarmed | src/coordination.ts:362-411 | a launched client means a landed API in every run whose API refusals are timely or come before any client is launched or decided on; everything else may be late |
| CoordinationTheorems.AnchorIsFixed | src/coordination.ts:362-411 | with timely refusals a landed API stays landed on the same anchor |
| CoordinationRefusals.AnchorIsFixedIff | src/coordination.ts:362-411 | from any state a landed API stays landed on its anchor in every continuation, people and late refusals included, if and only if no caller stands between a claim of the API and its enqueue |
| CoordinationTheorems.FailedApiOnlyHolds | src/coordination.ts:373-382 | with timely refusals a failed API with a client not started leads to a held client and nothing else until a person acts |
| CoordinationRefusals.FailedApiOnlyHoldsIff | src/coordination.ts:373-382 | from any state this holds in every continuation without a person if and only if no caller holds a claim of the API or can still start the client it had decided on |
| CoordinationReuse.LateRefusalRestartsFailedApi | src/coordination.ts:1182-1196 | a run from creation in which a late refusal restarts a failed API with no human step |
| CoordinationRefusals.IdsAreDerived | src/coordination.ts:770-805 | in every run, late refusals included, attempt counters and run ids match by derivation for both children and the check |
| CoordinationRefusals.SameIdAgain | src/coordination.ts:1061-1248 | after a launch is refused or repaired, whatever happens short of a person and of a refusal giving back another attempt, the next claim of that child or of the check takes the very same run id |
| CoordinationRefusals.AttemptKeptIff | src/coordination.ts:1061-1248 | without a person the attempt due stays the same all along a run if and only if no refusal of that child or of the check gives back another |
| CoordinationRefusals.TimelyOnlyBackTo | src/coordination.ts:1061-1248 | timely refusals never give back another attempt |
| CoordinationReuse.RetryIsNew | src/coordination.ts:417-438 | in every run whose refusals of that child come while no newer attempt of it exists, a human retry after a failure takes an id no journal entry, run or launch in progress has used |
| CoordinationReuse.RetryIsNewIff | src/coordination.ts:1182-1196 | in any state a run can reach, a refused launch of attempt k leaves every later human retry an id of its own, in every such continuation, if and only if no attempt after k was started or is being started |
| CoordinationReuse.LateRefusalReusesAnId | src/coordination.ts:1182-1196 | a run from creation in which a late refusal makes a human retry take a used id |
| CoordinationReuse.CheckRerunIsNew | src/coordination.ts:446-464 | a human re-run of the check, a parked one included, takes an unused id in every run whose child refusals are timely and whose check refusals come while no newer check exists |
| CoordinationReuse.CheckRerunIsNewIff | src/coordination.ts:1120-1129 | with the pair checkable, a refused check launch of attempt k leaves every later re-run an id of its own if and only if no newer check was started or is being started |
| CoordinationReuse.LateRefusalReusesACheckId | src/coordination.ts:1120-1129 | a run from creation in which a late check refusal makes a re-run take a used id |
| CoordinationRefusals.AtMostThreeStarts | src/coordination.ts:362-411 | between human actions at most three distinct runs are started, at most one of each child and one check, in every run there is: refusals and crashes at any time |
| CoordinationTheorems.AcceptanceCoversOneVerdict | src/coordination.ts:446-495 | in every run an accepted risk does not survive a human re-run: until a person accepts again the pair is unaccepted |
| CoordinationReuse.RefusedCheckAcceptanceIff | src/coordination.ts:1120-1129 | a refused check launch, which makes the check run again, leaves no way for a bad new verdict to pass without a person if and only if no acceptance stood on the old one |
| CoordinationReuse.LateRefusalKeepsAnAcceptance | src/coordination.ts:1120-1129 | a run in which a late check refusal lets a second bad verdict pass on the acceptance of the first |
| CoordinationTheorems.CompleteMeans | src/coordination.ts:552-563 | with timely refusals a complete pair landed on both sides, its client built on the API's anchor, with a good verdict or an accepted bad one |
| CoordinationVerdicts.VerdictWasSeen | src/coordination.ts:945-955 | in every run a verdict on record is the one seen of the current check run while it was in flight on a landed client, or uncertain because the pair was parked for want of a commit, and it stood since |
| CoordinationVerdicts.CompleteWasEarned | src/coordination.ts:552-563 | in every run a complete pair landed on both sides, on a verdict so seen that is compatible, or together with a person's acceptance of an incompatible or uncertain one that still stands |
| CoordinationVerdicts.LandingWasSeen | src/coordination.ts:321-343 | in every run a child is on record as landed because its run was last seen merged while running, at the very commit recorded |
| CoordinationVerdicts.FailureWasSeen | src/coordination.ts:334-341 | in every run a child is on record as failed because its run was last seen to fail while running |
| CoordinationVerdicts.DeliveryWasConfirmed | src/coordination.ts:326-350 | in every run a child is on record as delivered because its delivery was confirmed, once merged or with the merge |
| CoordinationVerdicts.HeldForAReason | src/coordination.ts:373-390 | in every run a client is held only before it started, because the API failed or landed on no known commit |
| CoordinationVerdicts.SeenIsRecorded | src/coordination.ts:321-352 | what is seen of a live run is recorded at once: failed, merged or delivered, at the commit seen |
| CoordinationVerdicts.VerdictIsRecorded | src/coordination.ts:945-955 | a verdict seen of a check in flight on a landed client is recorded as it was seen |
| CoordinationAnswers.DecidedIff | src/coordination.ts:362-411 | each thing a call may start, hold or park is decided on if and only if it is due, with the client always sent to the API's own commit |
| CoordinationAnswers.LookGoes | src/coordination.ts:362-411 | a call goes on to claim exactly what is due, and a look by itself writes nothing |
| CoordinationAnswers.ChildClaimIff | src/coordination.ts:1150-1162 | a claim of a child goes through if and only if the child still waits, under the next attempt and its id, noting the client's anchor; otherwise the caller leaves and nothing is written |
| CoordinationAnswers.CheckClaimIff | src/coordination.ts:1061-1107 | the check is claimed if and only if it was never started or waits to be run again |
| CoordinationAnswers.SecondClaimLeaves | src/coordination.ts:1150-1162 | of two callers on their way to the same start the second finds it claimed, writes nothing and leaves |
| CoordinationAnswers.EnqueuedIff | src/coordination.ts:1164-1198 | an enqueue puts exactly the run of the claim in the journal, a client run that is new there on the commit its caller was sent to |
| CoordinationAnswers.RefusalUndoesClaim | src/coordination.ts:1120-1198 | a refused launch undoes its claim: attempt count, run id and everything else are as before, but for the anchor the client noted and a check that is now due |
| CoordinationAnswers.RepairUndoesLostClaim | src/coordination.ts:1207-1248 | a claim lost in a crash is undone in the same way by the repair that finds it |
| CoordinationAnswers.CrashOnlyForgets | src/coordination.ts:1200-1206 | a crash part-way through a launch leaves record, journal and runs as they are |
| CoordinationAnswers.RepairedIff | src/coordination.ts:1207-1248 | a launch is given back by repair if and only if it was claimed and its run was neither accepted nor ever appeared |
| CoordinationAnswers.HoldAndPark | src/coordination.ts:373-390 | a client is held, and a pair parked, exactly when due, and nothing else on record changes |
| CoordinationAnswers.RetriedIff | src/coordination.ts:417-438 | a child can be retried if and only if it failed or is held; it waits again with the rest of its record kept, and only with the API is a held client released |
| CoordinationAnswers.RecheckedIff | src/coordination.ts:446-464 | the check can be re-run if and only if its verdict is incompatible or uncertain, and an acceptance is then gone |
| CoordinationAnswers.AcceptedIff | src/coordination.ts:472-495 | a risk can be accepted if and only if the verdict is incompatible or uncertain and not yet accepted |
| CoordinationAnswers.DecisionsTakeHold | src/coordination.ts:413-495 | a retried side or check is what is due next, and a pair landed on both sides is complete once its risk is accepted |
| CoordinationAnswers.CallAnswers | src/coordination.ts:362-411 | what a whole call answers: the run due started under the next id of its line, its enqueue refused, the client held, the check parked, or nothing to do |
| CoordinationAnswers.CallWrites | src/coordination.ts:362-411 | what a whole call leaves on record and in the journal for each answer |
| CoordinationAnswers.CallWritesChild | src/coordination.ts:1150-1198 | a child started by a call runs under the id accepted, the client on the API's commit, and the other side is untouched |
| CoordinationAnswers.SweptIs | src/coordination.ts:1207-1226 | before it acts a call gives back exactly the children whose launch was lost, with one attempt fewer |
| CoordinationAnswers.SweptCheckIs | src/coordination.ts:1224-1247 | and exactly a check whose launch was lost |
| CoordinationRefusals.RefusalSafeIff | src/coordination.ts:1182-1196 | an API launch written back at any moment, in any state, leaves the ordering standing in every continuation with mild refusals if and only if no client has been launched and no caller is about to launch one |
| CoordinationReuse.DecidedClientStartsAnyway | src/coordination.ts:1182-1196 | a run in which the client is not launched yet when the late refusal arrives, and the caller that had decided on it starts it nonetheless |
| CoordinationTheorems.LateRefusalBreaksOrdering | src/coordination.ts:1182-1196 | a concrete run in which a stalled caller's refusal lands after repair and relaunch, and the ordering fails |
| CoordinationObject.MovesUnlessResting | src/coordination.ts:362-411 | in every run there is, late refusals included, and for every honest observation one `launchNext` leaves things alone if and only if everything running is alive and the pair waits on it, is parked on a person, or is complete but for the integration gate |
| CoordinationObject.Coordinator.LaunchNext | src/coordination.ts:362-411 | the in-place call observes, repairs and acts as specified, keeps every invariant by extending a legal history, and rests exactly when the pair rests |
| CoordinationObject.Coordinator.ObserveAll | src/coordination.ts:321-352 | observation writes what the logs admit, as three steps of the state machine |
| CoordinationObject.Coordinator.RepairLostLaunches | src/coordination.ts:1207-1248 | repair gives back exactly the claims whose run exists nowhere and republishes the accepted ones |
| CoordinationObject.Coordinator.LaunchChild | src/coordination.ts:1150-1198 | claim, enqueue and write-back of one child |
| CoordinationObject.Coordinator.LaunchCheck | src/coordination.ts:1061-1132 | claim, enqueue and write-back of the check |
| CoordinationObject.Coordinator.RetryChildOf | src/coordination.ts:417-438 | the human retry of a child, releasing a held client with the API |
| CoordinationObject.Coordinator.RetryTheCheck | src/coordination.ts:446-464 | an imperfect verdict is re-run once asked, clearing the verdict and any acceptance |
| CoordinationObject.Coordinator.AcceptCheckRisk | src/coordination.ts:472-495 | a risk is accepted once, on an imperfect verdict only |
| GlobMeaning.ExactUnlessTrapped | src/change-class.ts:166-179 | the compiled expression accepts exactly what the wildcards stand for, on every one-line path, if and only if the glob holds no double star, SLASHSTAR, double star in a row |
| GlobMeaning.DocumentedDialect | src/change-class.ts:157-179 | without a run of three stars and without that word the glob means what the documentation says: stars and question marks keep within a segment, a double star crosses, a slash-free pattern is matched on the basename, without regard to case |
| GlobMeaning.CompiledMeaning | src/change-class.ts:166-179 | the six textual passes compile to an expression for the wildcards read |
| GlobMeaning.TrapRefusesAll | src/change-class.ts:170-178 | a glob with that word matches no path at all |
| GlobMeaning.TrapExample | src/change-class.ts:170-178 | a concrete glob whose mark is read out of place |
| GlobMeaning.TripleStarExample | src/change-class.ts:170-178 | a run of three stars is read otherwise than the dialect describes |
| GlobMeaning.GreedyReading | src/change-class.ts:170-178 | without a run of three stars the passes read wildcards longest first |
| CodeIndexTheorems.RefreshSound | src/code-index.ts:681-886 | whatever the cap, deadline and embedder did: every chunk row is accounted for, every ledger path tracked, every unchanged tracked file keeps its row and chunks, every new row describes its file, at most the cap was written, and ledger size is old plus added minus removed |
| CodeIndexTheorems.CoverageIsTrue | src/code-index.ts:531-572 | the recorded file count is the ledger's size, never above the tracked count, and a row that is not partial covers every tracked file |
| CodeIndexTheorems.RecordedWholeIff | src/code-index.ts:770-840 | a recorded file is recorded whole if and only if it fits what the cap has left; cut or not, it reads as unchanged from then on |
| CodeIndexTheorems.AtMostOneMore | src/code-index.ts:846-861 | once a file has run out of time the sweep records at most one more file |
| CodeIndexProgress.RefreshComplete | src/code-index.ts:681-886 | without a deadline, with full answers, a listing without repeats and room for every changed file, every tracked text file with something in it ends in the ledger under its present hash, every changed one with all its chunks in the table, whatever unreadable, unfit or unchanged files stand before it |
| CodeIndexProgress.SweepEndsOnly | src/code-index.ts:731-862 | in any world a sweep ends before its last path only at the cap, out of time, or after a visit that halts it, with everything its visits did |
| CodeIndexProgress.VisitStopsIff | src/code-index.ts:755-862 | a visit ends the sweep if and only if it embedded a changed text file and the clock ran out by then, or nothing ran out and the sweep was short of room |
| CodeIndexProgress.VisitCursor | src/code-index.ts:745-764 | the cursor moves to a file that was recorded or found unchanged and stays otherwise |
| CodeIndexProgress.VisitFlags | src/code-index.ts:775-866 | a sweep is marked short of room if and only if a file was cut or ran out, and timed out if and only if one ran out |
| CodeIndexProgress.TakeAffordable | src/code-index.ts:611-655 | an embedding call takes one to four chunks before a rate is known, and then no more than sixty-four, than are left and than the time left pays for |
| CodeIndexProgress.RateLearned | src/code-index.ts:611-655 | a call that comes back sets the rate to its time a chunk, to the nearest millisecond; one that fails never lowers it |
| CodeIndexProgress.CoverageSays | src/code-index.ts:531-572 | a coverage row is partial if and only if the sweep was short of room or time or fewer files are indexed than tracked; it hands on cursor and rate |
| CodeIndexTheorems.EmbedsInOrder | src/code-index.ts:783-834 | embedding a file batch by batch leaves exactly its first chunks, in order, and touches no other file's rows |
| CodeIndexTheorems.OrphanFreeIff | src/code-index.ts:783-834 | whatever vectors come back for a whole file, in however many batches, the rows written all stand under the count if and only if, through all its batches in order, no vector that is not empty comes after an empty one |
| CodeIndexTheorems.VisitOrphanFreeIff | src/code-index.ts:770-861 | a visit to a changed file ends with every row under the count it recorded, or with no row left when it recorded none, if and only if the vectors of the whole visit leave no such gap |
| CodeIndexTheorems.EmptyVectorOrphansARow | src/code-index.ts:797-818 | a whole visit in which one empty vector leaves a row no ledger row accounts for |
| CodeIndexTheorems.ListedTwiceCountsTwice | src/code-index.ts:531-534 | a path listed twice makes the recorded count wrong |
| CodeIndexTheorems.RepeatedListingIff | src/code-index.ts:836-848 | for a path listed twice the files counted as added are the ledger rows added if and only if the path was in the ledger before the sweep or one of the two visits did not record it |
| CodeIndexTheorems.RepeatedRowsIff | src/code-index.ts:770-861 | after a second visit to a path the first one recorded, its chunk rows are exactly those its ledger row counts if and only if the second recorded no fewer, or the deletion of the old rows covers the first, or it recorded nothing, deleting and writing nothing |
| CodeIndexObject.NucleusCodeIndex.Refresh | src/code-index.ts:681-886 | the in-place refresh, loops and all, keeps these promises on the stored table, ledger and coverage row |
| CodeIndexObject.NucleusCodeIndex.SweepFiles | src/code-index.ts:731-862 | the sweep loop is the sweep of the specification |
| CodeIndexObject.NucleusCodeIndex.EmbedFile | src/code-index.ts:783-834 | the batch loop is the embedding of the specification |
| CodeIndexObject.NucleusCodeIndex.EmbedBatch | src/code-index.ts:611-655 | one budgeted call and its inserts are one batch of the specification |
| CodeIndexObject.NucleusCodeIndex.SettleFile | src/code-index.ts:836-861 | a finished file is recorded, an unfinished one dropped |
| CodeIndexObject.NucleusCodeIndex.Purge | src/code-index.ts:867-872 | files that left the tree lose their rows and ledger rows |
| CodeIndexObject.NucleusCodeIndex.DeleteFileChunks | src/code-index.ts:595-599 | deleting by index removes exactly the first rows of one path |
| OrderingTheorems.OrderedIsPermutation | src/code-index.ts:226-280 | the sweep order contains every listed path exactly as often as it was listed |
| OrderingTheorems.RelevantFirst | src/code-index.ts:242-243 | task-relevant paths come first, by score and then by name |
| OrderingTheorems.FairPrefix | src/code-index.ts:246-267 | in every prefix of the round-robin part a directory is at most one file ahead of any other that still has files |
| OrderingTheorems.TurnsInOrder | src/code-index.ts:253-264 | in each round the directories take their turns in the plain order of their names |
| OrderingTheorems.TopIs | src/code-index.ts:249-252 | a file is grouped by what stands before its first slash, or under a dot |
| OrderingTheorems.GroupsKept | src/code-index.ts:246-267 | the interleaving keeps each directory's files, all of them, in listing order |
| OrderingTheorems.ResumesAfterCursor | src/code-index.ts:272-278 | a cursor makes the round-robin part start right after it, go round once and end with it |
| CodeIndexObject.OrderPaths | src/code-index.ts:226-280 | the grouping and interleaving loops compute that order |
| Chunking.ChunkText | src/code-index.ts:320-334 | every line with something in it falls in a window; the windows are exactly those of sixty lines or what is left that begin at the first line, or fifty on while more than ten are left, and are not blank, in order |
| AdmissionTheorems.AtMostLimit | src/admission.ts:89-108 | over every interleaving of workers, crashes and expiries at most `limit` runs hold a slot that is still theirs |
| AdmissionTheorems.OneRunPerRepo | src/admission.ts:116-131 | one repository's lock is in force for at most one run |
| AdmissionTheorems.OtherRunsUntouched | src/admission.ts:101-114 | in every reachable fleet no release or renewal by a run ends or extends an acquisition in force of another run |
| AdmissionTheorems.EvictsIff | src/admission.ts:101-108 | a release takes away a live acquisition, admitted or granted and not yet noted, if and only if the same run has since been granted the same key again |
| AdmissionCeiling.SparedCeiling | src/admission.ts:89-114 | over every interleaving whose releases spare the live acquisitions of their run, at most `limit` admitted runs have a slot that never expired; no lease is needed |
| AdmissionCeiling.CeilingKeptIff | src/admission.ts:97-108 | a release of a slot leaves that ceiling standing in every sparing continuation if and only if no live acquisition of the same run, admitted or granted, stands under the slot |
| AdmissionAnswers.TryIff | src/admission.ts:89-131 | a look at a key takes it, for five minutes and under a ticket of its own, if and only if it is free; the call gives up if and only if it was taken and the last |
| AdmissionAnswers.FreeSlotNotRefused | src/admission.ts:89-99 | while some slot under the limit stays free no call for a slot is refused, whoever else comes and goes |
| AdmissionAnswers.UnexpiredStays | src/admission.ts:79-131 | until its time is up a slot or lock stays with the acquisition that took it unless a release that matches takes it away; renewals only put the end off |
| AdmissionAnswers.DeleteIff | src/admission.ts:101-108 | a release removes its key if and only if it still holds the run's value, and no other |
| AdmissionAnswers.RenewIff | src/admission.ts:110-114 | a renewal gives the key five more minutes if and only if it still holds the run's value |
| AdmissionAnswers.LaunchIff | src/admission.ts:139-158 | a launch is counted and its marker taken for two days if and only if the marker is in range and free |
| AdmissionAnswers.NextScanStartsBehind | src/admission.ts:139-158 | after a granted launch the worker's next scan for that day and source starts right behind the marker taken |
| AdmissionTheorems.LeasedCeiling | src/admission.ts:89-114 | when a run is admitted by one worker at a time no release ever takes a slot away, and at most `limit` admitted runs have an unexpired slot |
| AdmissionTheorems.StaleReleaseBreaksCeiling | src/admission.ts:97-108 | a concrete run in which two workers hold one run and a ceiling of one admits two unexpired runs |
| AdmissionTheorems.DailyCap | src/admission.ts:139-158 | within the markers' life a source's launches of a day never pass the cap under any interleaving, and a call refused found that many granted |
| AdmissionTheorems.RescanFindsNothing | src/admission.ts:150-156 | in every run within the markers' life every marker behind a cursor is taken, so the second scan grants nothing |
| AdmissionSequential.SameAnswers | src/admission.ts:71-208 | one process over the store answers every sequence of calls as the in-memory admission does, while no ceiling is lowered |
| AdmissionSequential.DisagreeIff | src/admission.ts:89-177 | from equal states the two answer a slot request differently if and only if the limit is reached while a slot below it is free |
| AdmissionSequential.LoweredCeilingDiffers | src/admission.ts:89-177 | a concrete lowered ceiling on which they differ |
| AdmissionSequential.CursorScan | src/admission.ts:139-158 | the scan from the cursor finds the marker a full scan finds |
| AdmissionObjects.NucleusAdmission.AcquireSlot | src/admission.ts:89-99 | the slot scan, in place, is the step of the specification |
| AdmissionObjects.NucleusAdmission.TakeDailyLaunch | src/admission.ts:139-158 | the cursor scan and the rescan, in place, are the step of the specification |
| AdmissionObjects.LocalAdmission.AcquireSlot | src/admission.ts:172-177 | the local slot count, in place |
| AdmissionObjects.LocalAdmission.AcquireRepo | src/admission.ts:194-201 | the holder scan, in place |
| SpendTheorems.NeverMoreThanAdded | src/attributed-spend.ts:119-170 | under every interleaving whose inserts land within their guard a bucket has at most one row, its value is the sum of distinct adds, and the list never reports more than was added |
| SpendTheorems.InsertSafeIff | src/attributed-spend.ts:150-161 | an insert, on time or not, leaves every on-time continuation with at most one row and a list that reports no more than was added if and only if it lands in an empty bucket while nobody else stands before an insert under the guard |
| SpendTheorems.LateInsertInvents | src/attributed-spend.ts:150-161 | a concrete run with a lapsed guard: seven added, twelve listed |
| SpendTheorems.AddIsCountedUnlessLost | src/attributed-spend.ts:136-170 | in any run an add is still going or part of a row's total unless at some step its worker stopped, it lost the guard and found no row, or another wrote a total worked out without it |
| SpendTheorems.LostIff | src/attributed-spend.ts:136-170 | a step loses an add that is going or counted if and only if it is one of those three |
| SpendTheorems.WriteCounts | src/attributed-spend.ts:127-134 | a write puts into every row of the bucket what it read plus its own amount |
| SpendObject.AttributedSpend.Add | src/attributed-spend.ts:136-170 | run one after another each add raises its bucket by exactly its amount |
| SpendObject.AttributedSpend.List | src/attributed-spend.ts:173-195 | the list loop sums the rows of each bucket, which after sequential adds is exactly what was added |
| DeliveryTheorems.HistoriesAreLegal | src/delivery.ts:105-176 | under any number of compare-and-swap movers each record's committed history is a path of the transition table, carries its required fields, enters executing only on approvals of its own and has at most one rollback in flight |
| DeliveryTheorems.PathOnTable | src/delivery.ts:105-120 | each write of a committed history is one of the fourteen moves of the table, spelled out, or a rollback's, which leaves a confirmed delivery as it is |
| DeliveryTheorems.RecordsCarry | src/delivery.ts:163-176 | in every run an approved record has a non-empty destination, recovery version and actor, and a confirmed one a non-empty artifact digest and health |
| DeliveryTheorems.TransitionIff | src/delivery.ts:332-357 | a transition goes through if and only if it is on the table, the record is where it starts and then carries the fields its new state needs; it writes state, fields and time and nothing else; elsewhere the record stands |
| DeliveryTheorems.ConfirmedIff | src/delivery.ts:163-176 | a delivery is confirmed if and only if it is executing or unknown, as the mover says, and has an artifact digest and a word on health |
| DeliveryTheorems.RollbackIff | src/delivery.ts:367-414 | when a rollback request, claim and outcome go through, and exactly what each writes beside the untouched delivery |
| DeliveryTheorems.ApprovalReasonIs | src/delivery.ts:142-166 | an approval records the operator's reason, or why a held or failed delivery was approved again with the reason it had, or leaves it as it was |
| DeliveryTheorems.OwnApproval | src/delivery.ts:105-120 | along every committed history entries to executing never outnumber approvals, and an approved record has one to spare |
| DeliveryTheorems.OneRollback | src/delivery.ts:418-427 | claims, outcomes and requests of rollbacks balance: one in flight at most, done at most once |
| DeliveryTheorems.ConfirmedForGood | src/delivery.ts:105-120 | a confirmed delivery keeps its state and fields for ever, and a finished rollback settles the record |
| DeliveryTheorems.SwapIsAtomic | src/delivery.ts:1343-1369 | in every run a swap that goes through does to the record stored at that moment what its move makes of it, and nothing to any other |
| DeliveryTheorems.OneWinner | src/delivery.ts:1380-1400 | of two movers that read the same record one wins |
| DeliveryTheorems.MissedOnlyByAnother | src/delivery.ts:1343-1369 | a swap misses only if another mover's went through since the read, so some mover on the record always gets on |
| DeliveryTheorems.ThreeTries | src/delivery.ts:1343-1400 | whatever the others do a call swaps three times at most |
| DeliveryTheorems.SwapEndsOrRetries | src/delivery.ts:1343-1369 | a swap that goes through stores its record and ends the call; a first or second miss changes nothing and looks again, a third ends it |
| DeliveryTheorems.ApprovedIff | src/delivery.ts:142-166 | an approval computed from the record read goes through if and only if the record is still in that state and destination, recovery version and actor are named; it records those, whether it was the first, and always a reason when it was not |
| DeliveryTheorems.FinishEndsOwnIff | src/delivery.ts:1410-1435 | along every committed history a finish ends the rollback its worker claimed if and only if no outcome was recorded in between |
| DeliveryTheorems.LateReportEndsTheNextRollback | src/delivery.ts:1424-1435 | a run from the empty store in which a late report ends another worker's rollback as its own |
| DeliveryObject.FileDeliveryStore.TransitionTo | src/delivery.ts:332-357 | the locked transition moves the record as specified and keeps every history legal |
| DeliveryObject.FileDeliveryStore.Propose | src/delivery.ts:307-321 | a second proposal reads back the first |
| DeliveryObject.FileDeliveryStore.ApproveDelivery | src/delivery.ts:142-166 | an approval reads, then moves fenced on the state it read; a record that cannot be approved is returned as it is |
| DeliveryObject.FileDeliveryStore.RequestRollback | src/delivery.ts:367-382 | a rollback is requested only of a confirmed delivery with a recovery version and no live rollback |
| DeliveryObject.FileDeliveryStore.ClaimRollback | src/delivery.ts:384-398 | only a requested rollback is claimed |
| DeliveryObject.FileDeliveryStore.FinishRollback | src/delivery.ts:400-414 | only an executing rollback is finished |
| EditBlockTheorems.OneFileRoundTrip | src/actions.ts:99-136 | printed hunks of complete lines are parsed back in order for the file on the fence |
| EditBlockTheorems.HunkComesBackIff | src/actions.ts:80-136 | a printed hunk of complete lines comes back if and only if its search holds no separator line and its replacement no end line |
| EditBlockTheorems.ManyFilesRoundTrip | src/actions.ts:99-131 | printed files are parsed back hunk for hunk, provided no line after a file's first hunk looks like a header |
| EditBlockTheorems.FencedBlockRefusedIff | src/actions.ts:99-110 | a block with a path on the fence is refused for that path, or because it holds no hunk, and is edits otherwise |
| EditBlockTheorems.HeadedBlockRefusedIff | src/actions.ts:112-131 | one without is refused for want of a header if and only if no header names a file |
| EditBlockTheorems.SectionsRefusedIff | src/actions.ts:119-131 | its sections are refused for the first of them whose path is not allowed or which holds no hunk, and are edits if and only if there is none |
| EditBlockParser.ReadSections | src/actions.ts:325-345 | the section loop is the splitting of the specification |
| EditBlockParser.Parse | src/actions.ts:99-131 | the parser's loops compute the parsed action |
| ApplyEditsTheorems.AppliedInOrder | src/agent.ts:696-731 | on success each touched file holds its hunks, in order, folded over its original; every hunk met its text once unless it asked for all; counts are replacements made |
| ApplyEditsTheorems.LengthLaw | src/agent.ts:710-726 | the length changes by the count times the difference, for every replace-all and for single replacements without a dollar pattern |
| ApplyEditsTheorems.VerbatimIff | src/agent.ts:725 | a single replacement is put in as written, whatever the file and the search, if and only if it holds no dollar pattern |
| ApplyEditsTheorems.RefusedIff | src/agent.ts:700-724 | a block is refused if and only if some hunk does not fit what its file has become by then, and then for the first such: no such file, its text nowhere, or at so many places without asking for all |
| ApplyEditsTheorems.DollarMeans | src/agent.ts:725 | one dollar pattern in a single replacement puts in a dollar, the text found, what was before it or what was after, at the first place |
| ApplyEditsTheorems.CountsOneIff | src/agent.ts:710-724 | one occurrence is counted if and only if the text stands somewhere and nowhere past the end of its first place |
| ApplyEditsTheorems.OverlapCountsOnce | src/agent.ts:710-724 | overlapping places are taken for one |
| ApplyEditsObject.Worktree.Apply | src/agent.ts:696-731 | the loop over copies and the write loop: a refusal writes nothing |
| Base64.RoundTrip | src/artifacts.ts:78-98 | the stored text decodes to the bytes it was made from |
| ArtifactTheorems.ReadsAreWhole | src/artifacts.ts:201-253 | in every run of concurrent puts, reads, prunes and crashes a read ends with nothing, with exactly the stored bytes, or, if a prune touched the id, with a broken report; never with other bytes |
| ArtifactTheorems.BoundIsExact | src/artifacts.ts:78-98 | everything the writer accepts has between one and 683 chunks, and the largest has 683 |
| ArtifactTheorems.ChunksAreFull | src/artifacts.ts:201-207 | all chunks but the last hold 8192 characters of the text in its order, and the last is not empty |
| ArtifactTheorems.CheckedIff | src/artifacts.ts:243-251 | a read ends with the bytes if and only if they have the recorded length and digest, the id where no digest is recorded, and otherwise broken |
| ArtifactTheorems.GetAnswers | src/artifacts.ts:231-240 | a read ends at once with nothing if and only if there is no manifest or it has expired, broken if and only if the manifest names no chunk or more than 683, and otherwise begins |
| ArtifactTheorems.PruneBegins | src/artifacts.ts:218-226 | only a temporary artifact whose time has passed is pruned |
| ArtifactTheorems.PruneRemovesAll | src/artifacts.ts:226-230 | left alone a prune takes one delete a chunk and one more, and removes exactly its chunks, manifest and index row |
| ArtifactTheorems.NothingBeforeManifest | src/artifacts.ts:201-209 | in every run until an id's manifest is written, however many chunks are, a read of it yields nothing |
| ArtifactTheorems.ReadableAfterManifest | src/artifacts.ts:201-253 | once the manifest is written a read of an unexpired artifact begins |
| ArtifactTheorems.ReaderWholeIff | src/artifacts.ts:218-253 | a reader never ends broken, in every continuation that deletes nothing more of the artifact, if and only if every chunk it has still to read is there |
| ArtifactTheorems.OvertakenIff | src/artifacts.ts:218-253 | a prune's next delete can break a reader that had everything before if and only if the index it deletes is one the reader has still to read |
| ArtifactTheorems.OvertakenReaderBreaks | src/artifacts.ts:218-253 | a run from the empty store in which a prune overtakes a reader and the read ends broken |
| ArtifactObject.NucleusArtifacts.StoreArtifact | src/artifacts.ts:201-209 | the write loop leaves every chunk and the manifest, and no other id changed |
| ArtifactObject.NucleusArtifacts.GetArtifact | src/artifacts.ts:231-253 | the read loop returns nothing without a manifest and the exact bytes of a whole artifact |
| OutboxTheorems.AtMostOnce | src/akiroo.ts:624-707 | across workers, re-deliveries and stops, on either cursor, each row's handler starts at most once; a receipt or acknowledgement that says succeeded means it returned, one that says rejected means it refused |
| OutboxTheorems.CursorRises | src/akiroo.ts:335-341 | the file's cursor, raised under a lock, never goes back in any run |
| OutboxTheorems.NeverFallsIff | src/akiroo.ts:379-392 | the cursor the workers share never goes back, in any continuation in which a worker starts writing it only while no other is, if and only if all who stand before the update now carry one top, not below the cursor nor, while the table has no row, below what anybody stands before inserting |
| OutboxTheorems.WritesOnlyHigher | src/akiroo.ts:379-382 | a worker goes on to write the shared cursor if and only if its top is above it |
| OutboxTheorems.CursorFalls | src/akiroo.ts:379-392 | a run from the empty store in which two overlapping sweeps set the shared cursor to ten and then back to five |
| OutboxTheorems.SkippedRowPassedIff | src/akiroo.ts:642-703 | after a sweep that skipped a row writes the cursor, nobody works on that row again in any continuation if and only if a later row of the batch was reported, no other worker still has it, and none stands before writing the shared cursor to a position below it |
| OutboxTheorems.AckedIff | src/akiroo.ts:693-706 | an accepted acknowledgement covers exactly the reports of its batch; a failed one ends the sweep and changes nothing |
| OutboxTheorems.NeverAgainIff | src/akiroo.ts:624-707 | a row is in nobody's batch in any continuation if and only if it is behind the cursor, in nobody's batch now, and no worker stands before writing the shared cursor to a position below it |
| OutboxTheorems.RowLost | src/akiroo.ts:642-703 | a run from the empty store in which the cursor passes a row begun by a worker that stopped: its receipt says processing for ever and it is never acknowledged, whatever follows |
| OutboxTheorems.RowFoundWithoutTheCursor | src/akiroo.ts:657-664 | up to the cursor the same run, with the worker stopped there: the row is pulled again, found stale, and acknowledged as unknown |
| OutboxSweepTheorems.ResentWithoutActing | src/akiroo.ts:617-707 | a batch whose acknowledgement was lost, delivered again at any later time to handlers that might behave otherwise, starts no handler, takes no claim, and reports every row reported before with the very same status |
| OutboxSweepTheorems.EachRowOnItsOwn | src/akiroo.ts:655-689 | what is reported of a row depends only on what the stores held about it before the batch and on its own handler, whatever else the batch holds, repeats included |
| OutboxSweepTheorems.PassedOverIff | src/akiroo.ts:658-668 | a row is passed over if and only if another worker may still be on it: its action began less than ten minutes ago, or it is fenced with nothing written |
| OutboxSweepTheorems.SuccessIff | src/akiroo.ts:669-688 | success is reported if and only if the receipt said so already, or the row was neither fenced nor claimed and its handler returned |
| OutboxSweepTheorems.RejectedIff | src/akiroo.ts:669-684 | rejected is reported if and only if the receipt said so already, or the row was neither fenced nor claimed and its handler refused it |
| OutboxSweepTheorems.UnknownIff | src/akiroo.ts:657-684 | unknown is reported if and only if the receipt said so, or its action began ten minutes ago or more, or the row was claimed before with nothing written, or its handler ran now and threw |
| OutboxSweepTheorems.RowEndsAs | src/akiroo.ts:653-686 | what a batch leaves of each of its rows in the fences, claims and receipts, and that a handler starts if and only if nothing at all stood there about the row |
| OutboxSweepTheorems.OtherRowsStay | src/akiroo.ts:653-686 | of rows not in the batch the stores say what they said |
| OutboxObject.AkirooSweeper.SweepAkiroo | src/akiroo.ts:624-707 | the loop over the batch, with its receipts, claims, acknowledgement and cursor, computes the batch of the specification and is a run of the interleaved protocol |
| OutboxObject.AkirooSweeper.DealWithAll | src/akiroo.ts:653-689 | the loop pushes exactly the specified reports and counts the handlers that returned |
| OutboxObject.AkirooSweeper.Act | src/akiroo.ts:665-686 | a row without a receipt is fenced, claimed, begun, handled and closed, in that order |
| OutboxObject.AkirooSweeper.Recall | src/akiroo.ts:657-664 | a row with a receipt is answered from it; a stale beginning becomes unknown |
| OutboxObject.AkirooSweeper.SetCursor | src/akiroo.ts:335-392 | with nobody in between, setting the cursor leaves it at the higher of its position and the highest reported row, on the file and on the shared table, an empty one included, as steps of the protocol |
| OutboxObject.AkirooSweeper.Conclude | src/akiroo.ts:693-706 | only an accepted acknowledgement moves the cursor, to the highest reported row if that is higher |
| DeliveryLogTheorems.GrantedOnceBetweenReleases | src/deliveries.ts:63-121 | two grants of a key on the same or consecutive days have a release of it between them |
| DeliveryLogTheorems.RememberedUntilIff | src/deliveries.ts:63-106 | in any history of plain keys, while a granted claim is the last word on its key, the key is granted again if and only if two days have passed |
| DeliveryLogTheorems.DashedKeyReleases | src/deliveries.ts:78-84 | claiming a key with a dash in front reads as a release of the key |
| DeliveryLogObject.FileDeliveryLog.ReadSeen | src/deliveries.ts:63-86 | the scan of two days' lines is the last word about the key |
| DeliveryLogObject.FileDeliveryLog.ClaimDelivery | src/deliveries.ts:88-107 | a claim appends and answers as the history says |
| DeliveryLogObject.FileDeliveryLog.ReleaseDelivery | src/deliveries.ts:109-121 | a release appends its line |
| FinishGateLoop.RunAgent | src/agent.ts:287-612 | every run is the run of the specification and ends within its steps with at most seven holds; each claim put to the gate is held exactly when the record calls for it, and for the first reason that does, the critic asked once when it is on; a finish honoured before the last step was earned; how each run ended says why; a settled summary is never a claim whose latest hold rejected it |
| FinishGateLoop.TakeClaim | src/agent.ts:330-403 | one claim is held for a reason on record or honoured |
| FinishGateLoop.SevenHolds | src/agent.ts:337-399 | the bound is met by a run of the loop: seven holds, and the eighth claim finishes it |

## Left out

- CoordinationTheorems.ClientFollowsApi: asks that a refusal be written back while the record still shows its claim; `RefusalSafeIff` says exactly when another does harm to the ordering, `LateRefusalBreaksOrdering` and `DecidedClientStartsAnyway` show it.
- CoordinationTheorems.AnchorIsFixed: asks for timely refusals; `AnchorIsFixedIff` asks for nothing and is exact.
- CoordinationTheorems.FailedApiOnlyHolds: asks for timely refusals; `FailedApiOnlyHoldsIff` asks for nothing and is exact.
- CoordinationTheorems.CompleteMeans: asks for timely refusals; `RefusedCheckAcceptanceIff` says what a late check refusal does to an acceptance.
- CoordinationReuse.RetryIsNewIff: for the client it is stated where the API stands landed on a named commit, as it does for every caller that holds a client claim unless an API refusal was late; without that the launch cannot be repeated.
- CoordinationReuse.CheckRerunIsNew: asks that the children's refusals are timely; a late one can make a checkable pair uncheckable.
- CoordinationObject.Coordinator.LaunchNext: one caller with nobody in between; interleaved callers are the steps of `CoordinationSpec`, where reading and patching a child is one step, as is holding or parking the client, and as is a repair, which in the source reads the run's log and the journal before its unconditional patch (`src/coordination.ts:1207-1248`). A repair that patches late writes the fields a late refusal of the same attempt writes, so what is proved of those says what it does to the record.
- CoordinationAnswers.RefusalUndoesClaim: the refusal comes right after the claim; what a late one does is the subject of `CoordinationRefusals` and `CoordinationReuse`.
- AdmissionAnswers.UnexpiredStays: asks that no release that arrives takes the key away; `AdmissionTheorems.EvictsIff` is exact about which does.
- AdmissionTheorems.LeasedCeiling: asks that a run be admitted by one worker at a time; `SparedCeiling` asks only that releases are not too late, and `CeilingKeptIff` is exact for each release.
- AdmissionSequential.SameAnswers: asks that ceilings are not lowered and nothing expires; `DisagreeIff` is exact for one request.
- AdmissionTheorems.DailyCap: holds within the two days the markers live.
- CodeIndexTheorems.RefreshSound: asks for a listing without repeats and an embedder that returns no empty vector and no more vectors than asked for; both are shown to be needed. Failed deletes, which the code ignores, are not modelled.
- CodeIndexProgress.RefreshComplete: asks for no deadline, an embedder that answers in full, a listing without repeats and room for all its chunks; `SweepEndsOnly` asks for nothing and says what else ends a sweep.
- CodeIndexTheorems.OrphanFreeIff: asks that no more vectors come back than were asked for; empty ones may.
- CodeIndexTheorems.RepeatedRowsIff: two visits to one path, nothing in between, and an embedder that returns no empty vector.
- SpendTheorems.NeverMoreThanAdded: asks that inserts land within their guard; `InsertSafeIff` is exact for one insert that does not, `LateInsertInvents` shows one.
- DeliveryTheorems.HistoriesAreLegal: asks that a worker reports a rollback done or failed, as the interface says; record text and record are taken as the same thing when swapped.
- EditBlockTheorems.ManyFilesRoundTrip: lines end in a line feed only; a carriage return or Unicode separator inside a line, which the expression also takes for a line start, is not modelled. Path rules are a parameter.
- DeliveryTheorems.SwapIsAtomic: the conditional-update store's retry loops are the steps `Look` and `Swap` with their attempt count, not a method, because what matters is what others do between the read and the swap.
- OutboxObject.AkirooSweeper.SweepAkiroo: the clock stands still during the call and nobody comes in between, others may be part-way through; interleaved workers are the steps of `OutboxSpec`. The details of receipts and a failed poll are left out.
- OutboxTheorems.NeverFallsIff: rows of the shared table are read in the order they were inserted, which the query leaves open; taking the cursor away when a connection is made anew (`src/akiroo.ts:343-349`, `396-399`) is not modelled.
- OutboxTheorems.AtMostOnce: claims are never forgotten; the seven-day expiry of the store's claims is not modelled here.
- DeliveryLogTheorems.GrantedOnceBetweenReleases: asks for a clock that does not run backwards and keys that do not start with a dash; the second is shown to be needed. Several processes on one file are out, as in the source.
- ArtifactTheorems.ReadsAreWhole: asks that an id stands for one sequence of bytes, which the digest or a random id gives; each write is one step.
- ApplyEditsObject.Worktree.Apply: every write of the final loop succeeds, and file contents are text.
- OrderingTheorems.RelevantFirst: the word score and the collation order are parameters.
- Floating-point behaviour of amounts: the ledger uses reals with the source's rounding to micro-dollars, the spend store whole micro-dollars.
- Network, SQL, files, processes, clocks and models: parameters, oracles or steps of their own.
- Effects of a delivery, health read-back and the adapter path: long scripts whose guards read off one branch each.
- Budget gate, connect requests, bulletin, audit, eval, command line and discovery: weaker copies of the properties above or plumbing.
- Reply parsing other than the edit block, redaction and injection framing: regular expressions with single-branch properties.
- The recovery tracker behind the agent loop: its signals are inputs of the run.
