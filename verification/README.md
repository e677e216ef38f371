# Battalion: a verified model

Battalion drives a ticket through a graph of roles (Architect, Driver, Reviewer, Refactorer) and keeps
everything it needs to survive a crash in one durable run document. This project models its protocols in
Dafny and proves what they promise over every run, every input, or every interleaving. Paths and lines
below refer to the Battalion repository.

## What is modelled

**The crash-safe run engine.** `RunModel` is the run document. `Engine` is the step machine: one document
on disk, at most one process in memory, and each durable save as one atomic step, so a crash can fall
between any two saves. Role runners, the interrupt trigger and fresh ids are oracles supplied with the
events. `RunRecords`, `Phases`, `Transparency`, `Decisions`, `Replays`, `Deliveries`, `DriverGate`, `HandoffRuns`,
`ChangeRuns` and `RetainedEvidence` prove facts of all runs; `MisdirectedReplay` and `RepeatedReviews` reach two
runs step by step. `Handoffs` holds the artifact-target policy, its
history validator and the gate before a Driver attempt; `HandoffChanges`, `GateOutcomes` and `ResumeOutcomes` say
in terms of the document and the request alone when a human change, a gate, a seal or a resume is accepted and
what it saves.
`RunDirectors` is the same engine as a class that overwrites the run file, loops over attempts and follows the
edges of the graph; every save it makes is a step of the machine. An exception that leaves a node is a crash of
its process.

**Evidence algebra.** `Reconciliations` is the assessment of a contract with its loops, last-writer
dictionaries and growing reason set; `ReconciliationOrder` gives readiness without any order, and `Assessments`
shows that the assessment recorded inside a run has the same reasons.
`SourceEvidence` folds write receipts and compares source snapshots; `SourceEvolution` relates that to
workspaces that change by writes.

**Cartography.** `Cartography`, `ShortestPath` and `Neighborhoods` are the two breadth-first queries;
`NeighborhoodOrder` shows that the latter's answer does not depend on any listing order.
`Identities` assigns durable identities to extracted candidates. `MapRevisions` and `MapStores` are
canonical documents, refresh assembly, and immutable publication.

**Supervision and read models.** `Workers` is the launch lock and worker record as a step protocol.
`Observations` and `Reconnects` are the live event publisher, the bounded buffer and the reconnect barrier.
`Money`, `CostTotals` and `HistoryIndexes` are exact cost sums, grouped totals, and the history index.

`Options` and `Sorting` are shared helpers.

## Where the code falls short of its promise

Four promises do not hold on all inputs. For each, the exact condition is proved, for all inputs.

- *A pending authorization resumes at the same node.* A typed blocked Driver result is resumed without a
  cursor, so once the gate has saved (admitted or refused) the replay falls back to an older interrupt or
  rejection: `MisdirectedReplay.BlockedReplayIsMisdirected` reaches a run whose replay goes to the Architect.
  `Replays.ReplayReturnsIff` gives the condition over whole runs, for every resume under a pending authorization
  whose process is lost before an attempt is created. `Transparency.TurnIsLostIff` says at which events a run
  loses its turn: a crash after such a gate save and before the created save, or a refusal by that gate.
  `tests/test_crash_recovery.py` describes a typed block as winning over an older interrupt; that is so only
  until that save.
- *One worker at a time.* The failure record of a launcher (`battalion/workers.py:208-211`) is written outside
  the lock from the launcher's own old copy. If its process died and was replaced meanwhile, the new worker's
  record is overwritten and a third may start: `Workers.LateFailureBreaksExclusion`. `Workers.FailureBreaksIff`
  gives the condition: two processes can get inside afterwards exactly when, at that moment, another worker is
  reserved, spawned or inside. The launcher cannot see this, but it can check `Workers.Harmless`, which is enough.
  The first process must be observed as gone while its launcher still runs, which the Windows branch of
  `_pid_exists` allows.
- *A refresh can always be read back.* `assemble_generated_refresh` copies without validating. When a protected
  record of one category has the id of a generated record of another category, the result is published and the
  store can no longer be decoded, nor published to: `MapStores.CollidingRefreshBreaksStore`,
  `MapStores.UnreadableStaysUnreadable`. `MapRevisions.AssembledValidIff` gives the condition, and
  `MapRevisions.ReclassifiedRefreshIsInvalid` a pair of revisions that fails it.
- *Publishing the same revision again is harmless.* After any accepted publication, into any store, only when the
  revision is valid and was written in canonical order: `MapStores.RepublishIff`, with
  `MapStores.UnorderedIsRefusedAgain` as an example.

Each accepted review has its counterpart in the record, but a review does not always *directly* follow the role it
reviews: a review that violated its contract or failed is called again, and a typed block that is resumed may lead
through the misdirected replay above. `RepeatedReviews.ReviewFollowsItself` reaches the first case.
`Phases.PhasesInOrder` states what a review may directly follow in any run, and `Phases.OutcomesLeadOn`, for runs
that keep their turns, which attempt follows which outcome.

The order of evidence never matters for the outcome of a reconciliation, but it does for the reasons recorded:
`ReconciliationOrder.ReasonsKeepOrder`. An approved correction that asks for a new authorization while an automatic
correction is pending costs the run that correction: `Transparency.ApprovalDropsCorrection`.

## Model

| member | source | states |
|---|---|---|
| RunRecords.ReachableOk | battalion/graph.py:360-629 | every world reachable by any events keeps the record, process and visit invariants |
| RunRecords.AttemptRecordInvariant | battalion/graph.py:442-495 | at every save attempt ids are unique, an attempt is in progress exactly when the created or started cursor names it, and the budget spent equals the number of role entries |
| RunRecords.AtMostOnceExecution | battalion/graph.py:441-516 | across any crashes and resumes no execution id enters its role runner twice |
| RunRecords.VisitRunsRoleAtMostTwice | battalion/graph.py:399-568 | one node visit calls its role at most twice, however many crashes and budget pauses fall between |
| RunRecords.ResumeRefusesStarted | battalion/recovery.py:19-28 | a resume of a run saved as started without an outcome changes nothing |
| RunRecords.StartedIsAbsorbing | battalion/application.py:1104-1107 | once a run is left started, nothing ever enters a role or touches its attempts, cursor or budget again |
| Phases.PhasesInOrder | battalion/graph.py:142-155 | in every run no DriverGreen attempt comes before an accepted ReviewerRed, no Refactorer before an accepted ReviewerGreen, each review directly follows the role it reviews, itself, or a typed block, and a finished run has the three reviews accepted in order |
| Phases.OutcomesLeadOn | battalion/graph.py:1159-1186 | in every run that keeps its turns the attempt after another is the one its outcome leads to: an accepted review goes on, a rejected one goes back to the role it reviewed |
| RepeatedReviews.ReviewFollowsItself | battalion/graph.py:522-553 | a reachable run in which a review that violated its contract is followed by itself, not by the role it reviews |
| Transparency.CrashTransparency | battalion/graph.py:1159-1186 | whatever crashes, recursion stops, refusals, resumes and turn-keeping handoff changes happen, the recorded attempts are those of the uninterrupted run fed the same outcomes, and the saved document resumes at its next turn unless the live process stands between a gate save that does not name its node and the created save |
| Transparency.TurnIsLostIff | battalion/graph.py:399-475 | after any such run one more event leaves a document that resumes elsewhere if and only if it is a crash in that gap, or a refusal by a gate whose state does not name its node |
| Transparency.ChangeStaysIff | battalion/application.py:2309-2408 | a handoff change leaves the run at its turn, now and after the next decision, exactly when its guard holds: an approval that asks for no authorization or for one at the current node with no correction pending, a return while at the Architect; never a cancel |
| Transparency.ApprovalDropsCorrection | battalion/application.py:1108-1135 | after an approval that asks for a new authorization, whatever decision follows drops a pending automatic correction |
| Transparency.CrashesNeverShow | battalion/graph.py:142-155 | two runs fed the same outcomes agree on every attempt both have and on where to go on |
| Transparency.CompletedRunsAgree | battalion/graph.py:1276-1311 | two completed runs fed the same outcomes have identical attempt sequences |
| Decisions.DecisionsAreUnique | battalion/application.py:2333-2339 | action ids are unique across the human action log and the handoff corrections in every run |
| Decisions.EverySaveValidates | battalion/state/models.py:737-762 | every saved document passes the recovery-evidence validation of the run document |
| Decisions.PreparedAppends | battalion/application.py:1080-1136 | preparing a resume appends exactly one authorization, under an unused id, or changes nothing |
| Decisions.CompletedReplayIsSilent | battalion/application.py:1250-1255 | replaying a completed authorization neither runs a role nor writes state |
| Decisions.PendingReplayAddsNothing | battalion/application.py:1097-1103 | replaying a pending authorization adds no decision, must repeat it exactly, changes at most the handoff, and enters the node that the saved document names |
| Replays.ReplayReturnsIff | battalion/graph.py:1159-1186 | in any run, when a resume under a pending authorization loses its process before an attempt is created, the replay enters the same node if and only if it is not a typed block that an older interrupt or rejection outranks and that a gate saved over |
| Replays.OnlyTypedBlocksAreMisdirected | battalion/graph.py:1168-1182 | at any gate of a run that keeps its turn the state fails to name its node exactly over a saved typed block whose last interrupt, or else last rejection, names another node |
| MisdirectedReplay.BlockedReplayIsMisdirected | battalion/graph.py:1173-1177 | a reachable run whose replayed authorization for a Driver goes to the Architect instead |
| Deliveries.OnlyDecisionsAuthorize | battalion/application.py:1132-1136 | only a resume makes an authorization pending, and it is the decision that resume just appended |
| Deliveries.ProcessNeverAuthorizes | battalion/graph.py:390-393 | no step of a process makes an authorization pending; finishing an attempt spends it |
| Deliveries.StepHands | battalion/graph.py:158-200 | a step leaves an intervention alone, or hands a queued one to the unfinished attempt of its target role |
| Deliveries.DeliveredForGood | battalion/graph.py:467-475 | over any run an intervention that was delivered stays with that one attempt |
| Handoffs.ValidateHistory | battalion/artifact_target_state.py:106-173 | the length limits and three passes accept exactly the histories within the limits with one supersession chain, ordered unique records and unique approvals |
| Handoffs.IndexContracts | battalion/artifact_target_state.py:121-131 | the first pass accepts exactly the single chains whose end is the only possible active contract, and indexes them |
| Handoffs.ValidateReconciliations | battalion/artifact_target_state.py:133-150 | the second pass accepts exactly unique, chronological records of known contracts whose readiness has the contract's source |
| Handoffs.ValidateCorrections | battalion/artifact_target_state.py:152-173 | the third pass accepts exactly unique, chronological corrections over known contracts with at most one approval each |
| Handoffs.LastDriverCheckpoint | battalion/artifact_target_runtime.py:150-154 | the checkpoint the gate looks at is the last manual one that hands off to a Driver |
| HandoffRuns.ReachableHistoryOk | battalion/artifact_target_runtime.py:104-120 | every reachable handoff history is valid and each record continues the one before it |
| HandoffRuns.RecordsAreOrdered | battalion/application.py:2351-2372 | of any two records the later is of the same contract after a ready one with the same evidence snapshot, or of a contract approved further down the chain |
| HandoffRuns.ClarificationIsSticky | battalion/artifact_target_runtime.py:110-113 | a contract reads ready any number of times, on one snapshot, then at most one clarification; readiness after a clarification belongs to a newly approved later contract |
| DriverGate.EveryDriverStartIsAuthorized | battalion/artifact_target_runtime.py:123-168 | every Driver attempt that starts carries the contract active at that moment, ready, admitting the phase, naming the last Architect execution if it names any, and the one the latest checkpoint was resolved for |
| RetainedEvidence.EverySaveRetainsEvidence | battalion/state/models.py:768-797 | in every run each contract-bound action is the resolution of the Driver checkpoint it names, for a retained contract with ready evidence, and each attempt's contract is retained, admits its phase, and had ready evidence before it started |
| RetainedEvidence.EvidenceComesFirst | battalion/state/models.py:780-783 | an authorization for a contract is only appended to a document that already holds that contract's ready evidence as its latest record |
| DriverGate.NoDriverAfterReturn | battalion/application.py:2384-2406 | after a return to the Architect or a cancel no Driver starts until a correction is approved |
| DriverGate.CancelIsFinal | battalion/graph.py:361-363 | after a cancel no role is ever entered again, whatever happens |
| HandoffChanges.AcceptedIff | battalion/application.py:2309-2408 | a human change is accepted if and only if it repeats one already made, or document and command meet the listed conditions: admitted, not over or cancelled, between attempts, the expected tip, a return only with an Architect, an approval only with ready evidence of its own source, after any return was answered, and for the last Architect execution |
| ChangeRuns.ReturnsAreAnswered | battalion/application.py:2358-2361 | in every run an Architect attempt started strictly after a return and no later than any correction approved after it |
| ChangeRuns.ApprovedContractNamesLast | battalion/application.py:2362-2365 | in every run an approved contract that names an Architect execution names the one that was last when it was approved |
| ChangeRuns.HistoryOnlyGrows | battalion/artifact_target_runtime.py:114-120 | over any continuation of a run contracts, records and corrections are only appended |
| GateOutcomes.GateOutcome | battalion/artifact_target_runtime.py:123-174 | the gate admits if and only if the run, the evidence, the active contract, its checkpoint and the phase meet the listed conditions, and it leaves exactly the described document whether it admits or refuses |
| GateOutcomes.ClarificationIsSaved | battalion/artifact_target_runtime.py:147-149 | an assessment with reasons is refused and saved: the history is the old one and that one record |
| GateOutcomes.NoDriverAfterClarification | battalion/artifact_target_runtime.py:112-113 | once a record of a contract asks for clarification, in no continuation of the run does a gate admit that contract or a Driver start under it |
| GateOutcomes.ArchitectSealOutcome | battalion/artifact_target_sealing.py:36-108 | an Architect's contract is sealed if and only if it is of the latest Architect attempt that handed off, before any Driver, correction or end, and the first contract or the active one again |
| GateOutcomes.CompactSealOutcome | battalion/application.py:2271-2306 | without an Architect stage a contract is assessed exactly before any Driver, correction or end, and leaves exactly that record |
| ResumeOutcomes.ResumeOutcome | battalion/application.py:1080-1136 | a resume goes on if and only if there is a document to go on with that may enter; the decision it records, the interrupt it resolves, the correction it keeps, and the node the graph enters follow from the saved document |
| ResumeOutcomes.PreparedIff | battalion/application.py:1080-1136 | what a resume prepares is exactly a repeated pending decision, the document as it is when nothing needs a decision, or one decision about the latest open interrupt or typed block |
| RunDirectors.RunDirector.Resume | battalion/application.py:1221-1328 | a resume invokes the graph exactly when the document and the command allow it, with the decision and at the node they settle; it appends at most one decision, as commanded, under an unused id and pending, leaves attempts, budget, interventions and corrections alone, enters no role, and leaves the file alone when it invokes nothing |
| RunDirectors.RunDirector.Change | battalion/application.py:2309-2408 | a change is accepted if and only if document and command meet the listed conditions; a new one appends exactly one correction over finished attempts under an id neither log knew and leaves exactly the described document: the approved contract active with its ready record and a checkpoint where the run stood, a restart at the Architect, or a cancelled run; a replay or a refusal leaves the file as it was |
| RunDirectors.RunDirector.Queue | battalion/application.py:2597-2653 | a request is accepted if and only if it repeats a recorded one, or has a text and goes to a role that writes under an id neither log knew; it appends exactly one queued intervention and its action; a replay or a refusal leaves the file as it was |
| RunDirectors.RunDirector.Gate | battalion/graph.py:400-412 | the gate admits if and only if the described conditions hold, and saves exactly the described document: its assessment, also when it refuses, unless only the phase is not admitted |
| RunDirectors.RunDirector.Create | battalion/graph.py:440-475 | exactly when the cursor names no created attempt, or an unfinished one of this node, the saved cursor names the last attempt, new or taken over; every intervention waiting for this writing role is bound to it and its action marked, and nothing else changes |
| RunDirectors.RunDirector.Start | battalion/graph.py:477-495 | the started save charges the budget by one, changes nothing else but the cursor, and precedes exactly one role entry, of the attempt the cursor names |
| RunDirectors.RunDirector.Finish | battalion/graph.py:374-397 | one save finishes the last attempt with its label and leaves exactly the document that node and outcome lead to: the next node, interrupt, status, phase and rejection, no attempt unfinished and no authorization pending; only a first contract violation goes round again |
| RunDirectors.RunDirector.Attempt | battalion/graph.py:399-629 | one round enters the role exactly once, unless the gate refuses a Driver, a created attempt does not fit, or a correction has no budget and no decision behind it; only a first contract violation is followed by another round |
| RunDirectors.RunDirector.Node | battalion/graph.py:360-629 | the whole loop follows steps of the machine and enters the role at most twice, never for a started or cancelled document |
| RunDirectors.RunDirector.Pause | battalion/graph.py:422-437 | an exhausted budget leaves the run waiting for a human at this node, with that interrupt and nothing else changed |
| RunDirectors.RunDirector.Checkpoint | battalion/graph.py:980-995 | the wrapper saves the node's result with its cursor marked as checkpointed and nothing else changed |
| RunDirectors.RunDirector.Terminal | battalion/graph.py:853-881 | the terminal nodes only label the run done, waiting or blocked, and save nothing |
| RunDirectors.RunDirector.Follow | battalion/graph.py:142-155 | a paused or blocked run goes to its waiting node, a review to the next role or back to the one it reviewed as the phase says, any other role onward |
| RunDirectors.RunDirector.StopAtLimit | battalion/graph.py:1303-1311 | the recursion limit blocks a run unless it waits, is blocked or is done |
| RunDirectors.RunDirector.Seal | battalion/application.py:2225-2306 | a seal is accepted exactly when there is a contract to assess and room to record it, and saves exactly that assessment |
| Reconciliations.Reconcile | battalion/artifact_target_reconciliation.py:67-228 | the reasons collected by the loops, pass by pass, are exactly those stated without loops, and the outcome is ready exactly when there are none |
| Reconciliations.CheckTargets | battalion/artifact_target_reconciliation.py:125-154 | the checks of a contract against its path inspection and recipe find exactly the stated reasons, and every retained reference |
| ReconciliationOrder.ContractSilentIff | battalion/artifact_target_reconciliation.py:125-154 | they find none if and only if exactly this contract's targets were inspected, its stages are the recipe's, it rests on the pinned work item and specification, and a Driver is assigned and each Driver stage of the recipe taken |
| Reconciliations.IndexReferences | battalion/artifact_target_reconciliation.py:91-95 | the dictionary holds the last observation of each evidence, and repetition is noticed exactly when there is one |
| Reconciliations.CheckRetained | battalion/artifact_target_reconciliation.py:97-111 | the reasons of the retained references are collected, whatever order they are read in |
| Reconciliations.RepeatsInside | battalion/artifact_target_reconciliation.py:181-191 | a source is ambiguous exactly when two of its targets share an id or a path key |
| Reconciliations.ClashOneMore | battalion/artifact_target_reconciliation.py:192-195 | comparing each target with the last writer only still notices every disagreement among all that were read |
| Reconciliations.ReadExactSources | battalion/artifact_target_reconciliation.py:162-195 | reading the exact sources yields their reasons, the last-writer dictionary, and whether any two descriptions clash |
| Reconciliations.CompareTargets | battalion/artifact_target_reconciliation.py:196-207 | the last pass reports exactly the contradictions, extra, shared and absent targets |
| ReconciliationOrder.ReadyIff | battalion/artifact_target_reconciliation.py:84-217 | the outcome is ready if and only if an account over sets and multisets holds that mentions no order |
| ReconciliationOrder.OutcomeIgnoresOrder | battalion/artifact_target_reconciliation.py:91-205 | permuting references, exact sources or targets inside a source never changes the outcome |
| ReconciliationOrder.PermutedSources | battalion/artifact_target_reconciliation.py:162-195 | permuting the sources and the targets inside each leaves what readiness depends on unchanged |
| Assessments.AssessmentIsReconciliation | battalion/artifact_target_runtime.py:86-109 | the assessment a run records against its previous record has exactly the reasons of the reconciliation of the same evidence against that authorization |
| ReconciliationOrder.ReasonsKeepOrder | battalion/artifact_target_reconciliation.py:91-110 | two orders of the same evidence whose reasons differ |
| SourceEvidence.VerifiedWrites | battalion/artifact_target_sources.py:9-28 | the dictionary has a digest for a path exactly when the last recorded write to it belongs to this run and its attempt completed |
| SourceEvidence.RecordWrites | battalion/artifact_target_sources.py:22-27 | one more attempt sets or removes exactly the paths it wrote |
| SourceEvidence.IsCompleted | battalion/artifact_target_sources.py:13-21 | an attempt's writes count exactly when it succeeded or every one of its interrupts was its own checkpoint or budget pause |
| SourceEvidence.Revalidate | battalion/project_source.py:71-106 | accepts exactly when every difference is explained; a refusal names the least path at fault, or an output that is not in place |
| SourceEvidence.CurrentRevision | battalion/artifact_target_sources.py:31-46 | the baseline revision is kept exactly for an explained snapshot with no unfinished attempt other than one unstarted one |
| SourceEvolution.EvolutionAcceptedIff | battalion/project_source.py:86-106 | a workspace changed only by the run's own writes is accepted if and only if each observed path was last written by a completed attempt, or holds again what the baseline saw |
| SourceEvolution.CompletedWritesRevalidate | battalion/project_source.py:77-85 | plain writes of completed attempts never lose the baseline revision |
| SourceEvolution.AcceptedIsExplained | battalion/project_source.py:94-105 | an accepted snapshot has no deletions, explains every change and new file by the last counted write, moved no metadata, and keeps every counted write in place |
| SourceEvolution.UnfinishedOverwriteRejects | battalion/artifact_target_sources.py:25-27 | a later attempt that does not complete forfeits the receipt of the file it changed |
| SourceEvolution.ReceiptsOfAll | battalion/execution.py:344-352 | the receipts of a run say what was last written to each path and whether its attempt completed |
| Cartography.Outgoing | battalion/cartography/queries.py:255-259 | each entity gets exactly the relationships leaving it, in id order |
| Cartography.Undirected | battalion/cartography/queries.py:262-267 | each entity gets exactly the relationships touching it, in id order |
| ShortestPath.FindPath | battalion/cartography/queries.py:171-204 | no path exactly when no walk fits the depth; otherwise the shortest simple chain, least by relationship ids, with its entities; errors exactly for bad depth and unknown entities |
| ShortestPath.Expand | battalion/cartography/queries.py:187-203 | one queue entry either hits the target with the best walk, or is fully accounted for |
| ShortestPath.Exhausted | battalion/cartography/queries.py:187-204 | an empty queue means no walk within the depth reaches the target |
| ShortestPath.FirstHitIsBest | battalion/cartography/queries.py:191-201 | the first relationship that hits the target ends the least walk of all |
| ShortestPath.BestIsUnique | battalion/cartography/queries.py:193-201 | there is only one least walk |
| ShortestPath.AnswerIgnoresOrder | battalion/cartography/queries.py:255-259 | existence and the least walk do not depend on the order in which a revision lists relationships |
| Neighborhoods.Neighborhood | battalion/cartography/queries.py:116-164 | entities of the ball, at most the limit or exactly the seeds, the nearest and within a distance the first by queue position and relationship id; truncated exactly when some of the ball is missing, and then no fewer than the limit; exactly the relationships between returned entities with an end nearer than the depth; errors exactly as checked |
| Neighborhoods.BallDiscovered | battalion/cartography/queries.py:133-150 | as long as nothing was cut off, every ball up to the depth of the queue's front has been discovered |
| Neighborhoods.NearSelected | battalion/cartography/queries.py:138-156 | every relationship near enough between discovered entities was selected |
| NeighborhoodOrder.AnswerIgnoresOrder | battalion/cartography/queries.py:130-136 | the same seeds and relationships listed in any order give the same answer, also when it is cut at the limit |
| Identities.Reconcile | battalion/cartography/reconciliation.py:115-197 | decisions, deletions and errors are those stated candidate by candidate |
| Identities.CountClaims | battalion/cartography/reconciliation.py:147-150 | the dictionary counts how many candidates claim each identity |
| Identities.IdentitiesAreDistinct | battalion/cartography/reconciliation.py:152-193 | given fresh numbers, no two candidates end up with one identity |
| Identities.EveryPriorAccounted | battalion/cartography/reconciliation.py:158-196 | every earlier identity is deleted, carried on by its only claimant, or linked from every claimant, and exactly one of these |
| Identities.DecisionsIgnoreOrder | battalion/cartography/reconciliation.py:153 | the same candidates in another order get the same decisions |
| MapRevisions.CanonicalValid | battalion/cartography/repository.py:230-245 | canonical order neither makes nor breaks validity |
| MapRevisions.CanonicalTwice | battalion/cartography/repository.py:233-244 | ordering an ordered revision changes nothing |
| MapRevisions.Validate | battalion/cartography/models.py:190-212 | the validators accept exactly the revisions with unique entity and relationship ids whose references stay inside |
| MapRevisions.Adjacency | battalion/cartography/repository.py:284-295 | the loop gives each source its relationship ids in order |
| MapRevisions.AdjacencyCanonical | battalion/cartography/repository.py:284-295 | the adjacency does not depend on the order of the relationships |
| MapRevisions.PreserveMembers | battalion/cartography/refresh.py:87-102 | a category holds exactly the protected records as they were and the generated ones that do not reuse their ids |
| MapRevisions.AssembledValidIff | battalion/cartography/refresh.py:76-80 | an assembled refresh is valid if and only if no protected id is reused in another category |
| MapRevisions.ReclassifiedRefreshIsInvalid | battalion/cartography/refresh.py:76-80 | two concrete valid revisions whose assembled refresh is invalid |
| MapStores.RoundTrip | battalion/cartography/repository.py:207-281 | an encoded store decodes exactly when its revisions are valid, and then to the same revisions in canonical order |
| MapStores.Read | battalion/cartography/repository.py:248-281 | reading validates every revision and compares its adjacency with one computed afresh, in both schemas |
| MapStores.EncodeTwice | battalion/cartography/repository.py:207-227 | encoding what was decoded gives the same document |
| MapStores.CartographyRepository.Publish | battalion/cartography/repository.py:89-126 | publication answers and stores as specified, and every refusal leaves the stored document as it was |
| MapStores.RepublishIff | battalion/cartography/repository.py:100-113 | after any accepted publication the same one changes nothing when the revision is valid and in canonical order, is refused as already published when it is valid but not, and finds an unreadable store otherwise |
| MapStores.UnorderedIsRefusedAgain | battalion/cartography/repository.py:104-110 | a concrete valid revision that is refused when it is published again |
| MapStores.HistoryIsImmutable | battalion/cartography/repository.py:100-113 | over any publications and refreshes every stored revision stays as it was |
| MapStores.ReadableIff | battalion/cartography/repository.py:266-281 | the store can be read exactly when every revision in it is valid |
| MapStores.SoundRunsStayReadable | battalion/cartography/repository.py:89-126 | valid publications and refreshes without collision keep the store readable for ever |
| MapStores.CollidingRefreshBreaksStore | battalion/cartography/refresh.py:76-85 | a new refresh is published in any case, and the store stays readable if and only if it does not collide |
| MapStores.UnreadableStaysUnreadable | battalion/cartography/repository.py:100-103 | an unreadable store refuses every later publication and refresh |
| MapStores.RefreshesCarryAuthority | battalion/cartography/refresh.py:41-85 | over any run of refreshes no attributed or governing record is lost or changed |
| Workers.RunsKeep | battalion/workers.py:119-213 | every run whose failing launchers are harmless keeps the lock, process and history facts, and the record naming whoever holds the run |
| Workers.WorkersExcludeEachOther | battalion/workers.py:309-369 | in every run whose failing launchers are safe at most one process is between accepting and its terminal record, and none while a guarded human action goes on |
| Workers.CancelledNeverSucceeds | battalion/workers.py:248-271 | in every such run a worker whose cancellation was recorded never ends as succeeded |
| Workers.CancelTakesEffect | battalion/workers.py:248-271 | a cancellation marks the worker of an active record whose process is there, records the end of one whose process is gone, and leaves any other record alone |
| Workers.FinishTakesEffect | battalion/workers.py:352-369 | a worker that ends is recorded as cancelled exactly when that was asked of its record, else as succeeded or failed |
| Workers.FailureBreaksIff | battalion/workers.py:208-211 | from any such run a launcher's failure record can be followed by two workers inside at once if and only if another worker is reserved, spawned or inside when it is written |
| Workers.HarmlessIsSafe | battalion/workers.py:208-211 | a launcher that finds its own record, or an inactive one, gives up safely |
| Workers.LateFailureBreaksExclusion | battalion/workers.py:198-213 | a concrete run with a late failure record that has two workers inside at once |
| Observations.ObservationBuffer.Publish | battalion/observation.py:238-257 | the next event is accepted, an old one ignored, and a conflict reported exactly when a retained event with its id differs |
| Observations.ObservationBuffer.Barrier | battalion/observation.py:259-264 | the cursor is the newest accepted sequence number |
| Observations.ObservationBuffer.After | battalion/observation.py:266-271 | exactly the accepted events after the cursor among the last ones kept |
| Observations.RunObservationPublisher.Handle | battalion/observation.py:149-218 | which callbacks emit, what they emit, the numbering, and that text, failures and finishes belong to the attempt that is open |
| Observations.NothingMissed | battalion/observation.py:221-236 | eviction loses nothing for a client not further behind than the capacity |
| Reconnects.ReconnectMissesNothing | battalion/application.py:2697-2712 | in every interleaving each announced save that the loaded snapshot lacks is after the cursor, and delivered unless evicted |
| Reconnects.SilentSaveIsUnheard | battalion/application.py:1319 | the save that ends a run is never announced: no event of the stream, then or later, tells of it |
| Reconnects.LoadingFirstMisses | battalion/application.py:2705-2707 | loading before taking the cursor would miss a save |
| Reconnects.OrderedUnique | battalion/observation.py:274-290 | one of each event in order, or a conflict exactly when two events with one id differ |
| Reconnects.OrderIsUnique | battalion/observation.py:285-290 | redelivery and reordering do not change the ordered result |
| Money.PartialSumsAreExact | battalion/history.py:102-108 | with the chosen precision no partial sum of non-negative amounts loses value, even when every exponent is positive |
| Money.SmallMultipleIsExact | battalion/history.py:106-108 | rounding keeps any small enough multiple of the lowest unit, whatever exponent it carries |
| Money.ExactSum | battalion/history.py:102-108 | the loop returns the true sum |
| CostTotals.Totals | battalion/history.py:92-99 | one line per currency and source with a known cost, in order, each with the exact sum and its number of observations |
| CostTotals.GroupAttempts | battalion/history.py:218-225 | every attempt falls in exactly the group of its key, in order |
| CostTotals.Aggregate | battalion/history.py:214-259 | one report per group of attempts, with its number of attempts and its exact cost lines |
| CostTotals.ReadingIsTotal | battalion/history.py:92-99 | what a report says of a currency and source is the exact sum of its known costs, or nothing when there are none |
| CostTotals.GroupsAddUp | battalion/history.py:214-259 | over any list of keys that covers the attempts, group totals and observation counts add up to those of all attempts |
| CostTotals.ReportsAddUp | battalion/history.py:226-257 | for each currency and source the reported group totals add up to the exact total over all attempts |
| HistoryIndexes.Build | battalion/history_store.py:89-120 | the tables describe the rows: every start, facet value and cost, and nothing else |
| HistoryIndexes.Search | battalion/history_store.py:130-159 | the search answers exactly what a scan of the rows keeps, in order; the count ignores paging |
| HistoryIndexes.PagesGiveEverything | battalion/history_store.py:153-156 | successive pages concatenate to the full answer |
| HistoryIndexes.StampOrder | battalion/history.py:85-89 | comparing the fixed-width texts compares the instants |
| HistoryIndexes.LessIff | battalion/history_store.py:144-149 | texts compare at the first place where they differ, a proper prefix first |

## Left out

- RunModel: identifiers and free text are compared only for equality; times are ticks of one clock; the execution ids inside interrupt entries, prompts, model configuration, costs and summaries of an attempt are not in the run document.
- Engine: process, Git and file I/O, Pydantic validation, LangGraph itself beyond nodes and edges, write-scope checks, cost policy, observation callbacks, and the evidence an `ExecutionCapture` gathers besides the attempt record and its write receipts; an exception that leaves a node counts as a crash.
- Engine: `start_run` with overwrite, and several runs or several live processes on one document; the worker protocol that excludes the latter is modelled by itself.
- Transparency.CrashTransparency: does not speak of runs with a handoff change that moves the turn, nor of what follows once a turn is lost; exactly which changes and events these are is proved.
- Transparency: role outcomes are fed in order of role entries; that a role would return the same outcome when called again is not modelled.
- RetainedEvidence: actions carry no time in the model, so that their evidence is older is stated of the step that appends them; the rest of that validator, which compares contracts with admission, project and Architect identities, is not modelled.
- Handoffs: sealing a contract from a plan or from exact evidence (`artifact_target_sealing.py`) appears as the candidate contract an observation supplies; that it is for the latest Architect attempt that handed off, and when it may be sealed, is modelled, its remaining checks and content digest are not. The assessment inside a run takes the reasons found in the evidence as given; `Reconciliations` models how they are found.
- Reconciliations: path inspection and workflow recipes are inputs; the reconciliation record's own id, time and sorted evidence list are not modelled.
- SourceEvidence: collecting fingerprints from Git and the file system; which of several missing outputs is reported first is left open.
- SourceEvolution.EvolutionAcceptedIff: assumes writes through the scoped-write tool reach the resolved file and that no ignore rule uncovers an unwritten file between the two captures.
- Cartography: text ids are numbers with the same order; entity contents, path bindings, `get`, `diff` and result freshness are lookups or comparisons and are not modelled.
- Neighborhoods.Neighborhood: returns entities and relationships as sets; the source lists both in id order.
- Identities.Reconcile: which of several faulty candidates an error names is left open.
- MapStores: JSON text, Actor registry lookups and the Markdown projection; a file replacement is one atomic step.
- Workers: process ids are never reused, ending a process works or finds none, and each read-then-write of the record is one step; with finer steps a stale observer could overwrite a newer record. The branch that records a failure when ending a process is refused is left out; a launcher that stops silently simply takes no further step.
- Observations: clocks, payload contents and the derivation of categories; run ids and stream ids are numbers.
- Money: signs, exponent limits and overflow of decimals, and the trailing zeros a sum is written with; only values are stated.
- CostTotals.Aggregate: token, duration, outcome and time-range columns; the group key of a row is given, and groups are in order of appearance.
- HistoryIndexes: SQLite itself, the receipt file and replacement confirmation, case folding, and projecting runs to rows.
- Specification lifecycle, admission and recipe policies, notifications, desktop, CLI, configuration and release scripts are not modelled.
