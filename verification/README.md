# Switchstand: verified models of its fail-closed protocols

This project models the parts of Switchstand that must stay right across crashes, retries and
concurrent callers, and proves what they promise. `dafny verify dfyconfig.toml` checks all of it.

| Part | Modules | Source |
|---|---|---|
| Hierarchical resource broker | `Budgets`, `AgentLedger`, `LedgerSafety`, `LedgerRuns`, `LedgerExact`, `BrokerService`, `CanaryRelease` | `agent_broker.py`, `agent_canary.py` |
| Edge maintenance transaction | `EdgeHost`, `EdgeDeploy`, `EdgeProtocol`, `EdgeUnprepared`, `EdgeRuns`, `EdgeTruth`, `EdgeTorn`, `EdgeVerdicts`, `EdgeTearless`, `EdgeCorners`, `EdgeHealing`, `EdgeRoute`, `EdgeAnswers`, `EdgeProof`, `EdgeMaintenance` | `edge_maintenance.py` |
| Activation continuity | `Continuity`, `ContinuityStore`, `ContinuityRuns`, `ContinuityTruth`, `ContinuityProvenance`, `ContinuityExact` | `activation_continuity.py`, `activation_continuity_store.py`, migration 0023 |
| Graphs and worklists | `ImportGraph`, `AffectedTests`, `SelectionExact`, `Inventory` | `affected_tests.py`, `certification.py` |
| Smaller effect protocols | `WakeWorker`, `WakeExact`, `CoordinatorSync`, `PackageSize` | `worker.js`, `coordinator_sync.py`, `package-size.py` |

## How the models are built

* **Broker.** A ledger is the content of `state.json`. Each call is a function from ledger and
  observations to ledger and answer (`AgentLedger`); `BrokerService.Broker` is the class with the
  mutable state, whose methods are proved equal to those functions. Time, the host sample, the boot
  id, the fresh reservation id and the inbox check are parameters. The code only ever compares one
  request with its direct parent. The host-wide bounds come from summing over the tree.
* **Edge maintenance.** A host is gate, service, launcher, backup, snapshot, database revision and a
  count of upgrade invocations. Every `Operations` call and every receipt write consumes one *fate*
  from a script: it succeeds, raises `Failed`, raises `Unknown`, or the process dies, and a call that
  does not return may have taken effect, partly taken effect, or not. A probe may miss what is there,
  but never reports what is not. The durable receipt and the value in memory are separate, so a write
  may land and still raise. `EdgeDeploy` gives one run as a function of host, receipt and script;
  `EdgeMaintenance.Maintenance` is the object that runs it step by step.
* **Continuity.** A digest is a constructor applied to the whole record it seals, so it is injective
  by construction. The table is a list of rows with the two uniqueness constraints. A transition
  is a read step and a later insert step; any other events may lie between, the insert may be lost, and
  a landed insert may go unheard. A log of the calls that made each row is carried along to state
  provenance.
* **Worker.** One step per await. The worker may be killed at any of them, which loses its memory and
  its fences and keeps what was saved.
* **Exactly when.** The invariants say what no call may do. `LedgerExact`, `EdgeRoute`, `EdgeAnswers`,
  `ContinuityExact`, `SelectionExact` and `WakeExact` say when each call does what it is for: as if-and-only-ifs over
  the fields of its arguments, in words of their own rather than the predicates the calls are built from.
  `EdgeRoute.Route` reads a whole maintenance run as one list of needs, in order, and
  `EdgeRoute.PassExactly` shows that the run tells PASS if and only if all of them are met.

## What turned out false of the code

Each of these has its exact condition and, where the failing state is not reached at once, a history
from the start that reaches it.

* *A FAIL verdict can leave the attempt's own gate in place.* A PREFLIGHT receipt found behind an
  applied gate, with a definite failure while reconciling, is rolled back as if nothing had been
  touched. From a true receipt this is the only way a returned verdict is untrue
  (`EdgeVerdicts.VerdictsExactly`); `EdgeCorners.MisledReachable` gets there from the start. In
  `HostOperations.reconcile_phase` such a failure at PREFLIGHT can only come from the unguarded
  `runtime.resolve(strict=True)` (src/switchstand/edge_maintenance.py:482-483).
* *A durable PASS or FAIL can be false.* A terminal write may raise although it landed. The handler then
  works on under a receipt that already tells the end. The receipt is untrue in the end exactly when
  the handler puts the gate back and dies before a receipt of its own lands
  (`EdgeTorn.CompleteExactly`, `EdgeTorn.AbortExactly`; for whole runs `EdgeVerdicts.ReceiptExactly`).
  `EdgeCorners.TornPassLies` and `EdgeCorners.TornFailLies` show one run of each kind. If whatever
  raises has not landed, it cannot happen (`EdgeTearless.TearlessRunsTellTheTruth`).
* *A receipt can become unreadable.* A run records a phase that no later run accepts exactly when it finds
  the edge stopped behind an applied gate, with the old launcher alone in place, under a GATED receipt
  without a prepared image and not marked GateAbortUnknown (`EdgeUnprepared.ReceiptsBreakExactly`,
  reached in `EdgeCorners.BreaksReachable`). The upgrade still never runs twice
  (`EdgeRuns.UpgradeNeverTwice`).
* *A BLOCK can destroy an obligation.* Blocking an accepted and adopted obligation while its technical
  basis is true is answered APPLIED, delivers it with the blocker still set, and makes its whole chain
  unreadable for ever. `Continuity.AdvanceKeepsGuarded` and `ContinuityTruth.UnreadableExactly` show
  that nothing else does, `ContinuityTruth.BrokenReachable` that three calls on an empty table do. DEFER
  and RETIRE can end in DELIVERED too (`Continuity.LifecycleDelivers`).
* *A truncated rename is not always rejected.* Output of `git diff --numstat -z` cut inside a rename is
  rejected exactly when fewer than two NULs of the record are left. Cut later, it is read as a rename
  to what is left of the new name, down to the empty name. A record that is no rename is likewise read
  under a cut path unless the cut comes before its path (`PackageSize.Truncated`).

## Model

| member | source | states |
|---|---|---|
| LedgerSafety.ClosedSetFits | src/switchstand/agent_broker.py:525-570 | Any set of leases closed towards an anchor uses, in all, no more than what its direct children were charged to that anchor |
| LedgerSafety.HostFits | src/switchstand/agent_broker.py:525-570 | From direct-parent checks alone: everything active fits what is charged to the root, and so the root budget |
| LedgerSafety.WorkerCounts | src/switchstand/agent_broker.py:50-62 | Active leases never outnumber `root.workers`, heavy ones never `root.heavy` |
| LedgerSafety.SubtreeFits | src/switchstand/agent_broker.py:525-570 | Everything active below an active lease fits the children budget delegated to it |
| LedgerSafety.NotBelowItself | src/switchstand/agent_broker.py:525-545 | Parent links never form a cycle |
| LedgerSafety.ReservePreserves | src/switchstand/agent_broker.py:288-318 | Admission keeps the ledger invariant: shape, per-parent conservation, acyclicity |
| LedgerSafety.RestatePreserves | src/switchstand/agent_broker.py:372-412 | Moving one lease on keeps the invariant, provided a release leaves no active child behind |
| LedgerSafety.AdmissionMemory | src/switchstand/agent_broker.py:299-315 | A grant leaves room in the admitting sample for all active memory plus the host floor, nested requests included though they are charged no candidate memory |
| LedgerSafety.LiveGrantIsCalm | src/switchstand/agent_broker.py:148-242 | A grant on a live reading rests on two samples at most a minute apart with no swap traffic between them, a reading at most five seconds old, and pressure under the limit of the class |
| LedgerRuns.StepKeeps | src/switchstand/agent_broker.py:288-318 | Every call keeps the invariant, keeps grants and leases in one-to-one correspondence, and only ages leases |
| LedgerRuns.EvolvesTransitive | src/switchstand/agent_broker.py:390-402 | Aging composes: identities bound once stay bound over any number of steps |
| LedgerRuns.RunKeeps | src/switchstand/agent_broker.py:446-518 | The same over whole runs: leases move only reserved to active to ended, ids are never reused, replies never change |
| LedgerRuns.ReachableLedgersFit | src/switchstand/agent_broker.py:525-570 | In every reachable ledger the host budget, every delegated subtree budget and both counted limits hold |
| LedgerRuns.ReachableAdmissionsLeaveRoom | src/switchstand/agent_broker.py:585-595 | In every reachable ledger, an admission leaves `max(2048, total//5)` MiB beyond all active memory |
| LedgerRuns.ReplayIsStable | src/switchstand/agent_broker.py:288-298 | A recorded request answers the same after any run, whatever the pressure, and changes nothing |
| LedgerRuns.AnswersAreExact | src/switchstand/agent_broker.py:372-518 | A call that raises or answers unknown changed nothing, except an attachment whose receipt file is blocked, which raises with the lease already bound; an attachment or release that changed nothing says so |
| LedgerExact.SumIsTotal | src/switchstand/agent_broker.py:33-62 | The recursive budget sum is, in each of its seven dimensions, the plain sum over the leases |
| LedgerExact.ReachableTotalsFit | src/switchstand/agent_broker.py:525-570 | In every reachable ledger, all that runs anywhere stays within the host budget, dimension by dimension |
| LedgerExact.RefusalExactly | src/switchstand/agent_broker.py:185-242 | A sample admits a request if and only if it is sound, recent, measured, without swap traffic, roomy enough and under the pressure limit of the class; each refusal names the first of these that fails |
| LedgerExact.ReadingExactly | src/switchstand/agent_broker.py:148-175 | A live reading vouches for the traffic since the sample before it if and only if there is one, it is older, and the counters did not run back |
| LedgerExact.GrantsExactly | src/switchstand/agent_broker.py:288-318 | A new request is granted if and only if its worker is new, its parent runs and covers it in all seven dimensions, its sample admits it and its inbox is safe; the ledger then holds exactly this lease more |
| LedgerExact.RaisesExactly | src/switchstand/agent_broker.py:525-570 | Which error a new request raises, and that an unusable root budget is found before the sample is judged |
| LedgerExact.RepeatsExactly | src/switchstand/agent_broker.py:288-298 | A repeated request gets its first reply, or a collision under another parent |
| LedgerExact.SamplesExactly | src/switchstand/agent_broker.py:299-315 | Which sample is judged and which counters are kept; without any sample nothing is granted |
| LedgerExact.RefusesForBudget | src/switchstand/agent_broker.py:536-545 | A request that is otherwise admissible is refused for its budget if and only if its parent cannot cover it |
| LedgerExact.IdentifiersExactly | src/switchstand/agent_broker.py:372-388 | An identifier is one to eighty letters, digits, dots, dashes or underscores, the first a letter or digit |
| LedgerExact.AttachesExactly | src/switchstand/agent_broker.py:372-412 | An execution is attached if and only if both identifiers and the claim time are well formed, the receipts agree, and the named reservation is held and unclaimed; the lease then carries exactly this claim |
| LedgerExact.ReleasesExecutionExactly | src/switchstand/agent_broker.py:429-478 | A release needs the active childless lease, all three identities and both boots to match, and one of two proofs: never started with an expired claim, or unit ended and cgroup empty; the answer, the state and every refusal are determined |
| LedgerExact.ReleasesReservationExactly | src/switchstand/agent_broker.py:480-518 | The same for a reservation: unlaunched, of this boot, proved absent, past its time where that is asked for |
| BrokerService.Broker.Initialize | src/switchstand/agent_broker.py:259-274 | A new broker holds the empty ledger and satisfies the invariant |
| BrokerService.Broker.SumCharges | src/switchstand/agent_broker.py:536-539 | The loop over leases computes exactly the sum charged to a parent by its active direct children |
| BrokerService.Broker.Reserve | src/switchstand/agent_broker.py:288-318 | Refines `AgentLedger.Reserve` on the mutable state and keeps the invariant |
| BrokerService.Broker.AttachExecution | src/switchstand/agent_broker.py:372-412 | Refines `AgentLedger.Attach`; the lease is bound even when the receipt is then blocked |
| BrokerService.Broker.ReconcileExecution | src/switchstand/agent_broker.py:429-478 | Refines `AgentLedger.ReconcileExecution` |
| BrokerService.Broker.ReconcileReservation | src/switchstand/agent_broker.py:480-518 | Refines `AgentLedger.ReconcileReservation` |
| BrokerService.Broker.End | src/switchstand/agent_broker.py:510-518 | The common tail of both releases: refused while anything active hangs below, otherwise ends this lease alone |
| CanaryRelease.ListSubtree | src/switchstand/agent_canary.py:153-165 | The stack walk terminates and lists each reserved lease below the root once, after its parent |
| CanaryRelease.WalkIsSubtree | src/switchstand/agent_canary.py:153-165 | If everything active below is reserved, the walk is exactly the subtree |
| CanaryRelease.EntryReleases | src/switchstand/agent_canary.py:166-178 | In a releasable tree, reverse order never meets `active_children` |
| CanaryRelease.ReleaseReversed | src/switchstand/agent_canary.py:166-178 | The second loop ends exactly the listed leases, or some of them and nothing else |
| CanaryRelease.ReleaseUnlaunched | src/switchstand/agent_canary.py:153-178 | Succeeds exactly when the root and everything active below it is an unlaunched reservation of this boot; ends precisely that subtree; nothing outside it ever changes |
| EdgeProtocol.WriteKeeps | src/switchstand/edge_maintenance.py:1301-1308 | A receipt write keeps the protocol whether it returns, raises or dies, and whether or not it lands |
| EdgeProtocol.ClassifyFacts | src/switchstand/edge_maintenance.py:551-643 | Reconciliation proves the durable phase or its one successor, and never an ambiguous upgrade |
| EdgeProtocol.AbortKeeps | src/switchstand/edge_maintenance.py:1322-1343 | Giving up a gate keeps the protocol, and the verdict agrees with the receipt |
| EdgeProtocol.UpgradeKeeps | src/switchstand/edge_maintenance.py:1419-1428 | The upgrade is invoked only while none was, and never before its intent is durable |
| EdgeProtocol.BodyKeeps | src/switchstand/edge_maintenance.py:1370-1462 | Every way out of the body leaves a receipt later runs accept |
| EdgeProtocol.RollBackFacts | src/switchstand/edge_maintenance.py:1474-1498 | A rollback never touches the upgrade, never runs while one is pending, and when it returns the old edge is public again |
| EdgeProtocol.DeployKeeps | src/switchstand/edge_maintenance.py:1346-1509 | One run keeps the protocol, and a returned verdict is the status of the durable receipt |
| EdgeProtocol.PendingStays | src/switchstand/edge_maintenance.py:1390-1391 | A durable UPGRADE_PENDING leads to UNKNOWN: no second invocation, no rollback, at most the gate is put back |
| EdgeUnprepared.UnpreparedRun | src/switchstand/edge_maintenance.py:1407-1424 | An attempt without a prepared image never reaches the upgrade |
| EdgeUnprepared.RunKeepsAccount | src/switchstand/edge_maintenance.py:1245-1308 | A run that does not meet the breaking state leaves an accepted receipt that bounds the upgrades |
| EdgeUnprepared.BreakingRun | src/switchstand/edge_maintenance.py:1407-1424 | Every undisturbed run that meets it records a receipt no later run accepts |
| EdgeUnprepared.ReceiptsBreakExactly | src/switchstand/edge_maintenance.py:1245-1308 | Whatever a run meets, it leaves a readable receipt, if and only if it does not start in the breaking state |
| EdgeRuns.RecoverKeeps | src/switchstand/edge_maintenance.py:1512-1554 | The manual recovery keeps receipts accepted and never touches the host or a terminal receipt |
| EdgeRuns.UpgradeAtMostOnce | src/switchstand/edge_maintenance.py:1245-1308 | Over any history in which no run meets the breaking state, every durable receipt is accepted by a later run and the upgrade ran at most once |
| EdgeRuns.TerminalIsFinal | src/switchstand/edge_maintenance.py:1362-1363 | A terminal receipt is never written again, over any history |
| EdgeRuns.PendingIsHeld | src/switchstand/edge_maintenance.py:1390-1391 | Without a recovery, a durable upgrade intent and the upgrade count stay as they are over any history |
| EdgeRuns.UpgradeNeverTwice | src/switchstand/edge_maintenance.py:1419-1428 | Over any history at all, outside changes and unreadable receipts included, the upgrade is never invoked twice |
| EdgeTruth.WriteSound | src/switchstand/edge_maintenance.py:1301-1308 | A write of a true record leaves a true receipt, except when a terminal record lands although the write raised |
| EdgeTruth.AbortSound | src/switchstand/edge_maintenance.py:1322-1343 | An aborted gate ends with a true verdict and a true receipt |
| EdgeTruth.ReplaceSound | src/switchstand/edge_maintenance.py:1419-1462 | From a stopped edge on, PASS means the candidate serves, and every way out leaves a true receipt |
| EdgeTruth.BodySound | src/switchstand/edge_maintenance.py:1370-1462 | The same for the whole body, from any true receipt |
| EdgeTruth.OnUnknownSound | src/switchstand/edge_maintenance.py:1463-1472 | After `Unknown` the gate is retained, or the receipt names why not, or this run moved nothing |
| EdgeTruth.OnFailedSound | src/switchstand/edge_maintenance.py:1473-1509 | After a definite failure, FAIL means the host is as before, and anything less is reported as UNKNOWN |
| EdgeTorn.BodyTorn | src/switchstand/edge_maintenance.py:1370-1462 | A body tears its receipt at its last write only, and that receipt is true when it does |
| EdgeTorn.RollBackMoves | src/switchstand/edge_maintenance.py:1474-1498 | A rollback undoes the serving of a candidate exactly when its first step, the gate, takes effect |
| EdgeTorn.CompleteExactly | src/switchstand/edge_maintenance.py:1461-1509 | The COMPLETE write leaves an untrue receipt if and only if it raises although it lands, and the handler puts the gate back and dies before a receipt of its own lands |
| EdgeTorn.AbortExactly | src/switchstand/edge_maintenance.py:1338-1343 | The same for the ROLLED_BACK write of an abort, unless the gate stood before the attempt |
| EdgeVerdicts.VerdictsExactly | src/switchstand/edge_maintenance.py:1346-1509 | PASS: candidate serving, gate gone. FAIL: host as before, upgrade not pending. UNKNOWN: excused. From a true receipt, a returned verdict is true if and only if the run was not misled |
| EdgeVerdicts.ReceiptExactly | src/switchstand/edge_maintenance.py:1346-1509 | From a true receipt, the receipt a run leaves, however it ends, is true if and only if the run neither recorded a misled FAIL nor died regated under a torn terminal write |
| EdgeVerdicts.ResumedExactly | src/switchstand/edge_maintenance.py:1616-1625 | Both equivalences for a resume: only one that passed validation can be misled or leave a lie |
| EdgeVerdicts.ResumeRechecks | src/switchstand/edge_maintenance.py:503-522 | Resuming a settled attempt repeats PASS only if the candidate serves now, FAIL only if the old edge is public now |
| EdgeVerdicts.RecoveryTellsTheTruth | src/switchstand/edge_maintenance.py:1512-1554 | A recovery answers FAIL only with the old edge whole and public, and leaves a true receipt |
| EdgeVerdicts.ReceiptsTellTheTruth | src/switchstand/edge_maintenance.py:1346-1554 | Over any history of readable runs, resumes and recoveries none of which makes a lie of it, the durable receipt stays true |
| EdgeTearless.TearlessRunsTellTheTruth | src/switchstand/edge_maintenance.py:1346-1509 | If whatever raises has not taken effect, a run that is not misled leaves a true receipt, wherever it crashes |
| EdgeCorners.MisledLies | src/switchstand/edge_maintenance.py:1473-1509 | Every misled run without further trouble returns FAIL with the attempt's own gate in place |
| EdgeCorners.MisledReachable | src/switchstand/edge_maintenance.py:1395-1402 | From the start of an attempt, a lost PREPARED write and a crash lead to a misled run whose verdict is untrue |
| EdgeCorners.TornPassLies | src/switchstand/edge_maintenance.py:1461-1498 | A run that leaves a durable PASS and a gated edge |
| EdgeCorners.TornFailLies | src/switchstand/edge_maintenance.py:1338-1343 | A run that leaves a durable FAIL and the attempt's own gate in place |
| EdgeCorners.BreaksReachable | src/switchstand/edge_maintenance.py:1383-1386 | Two interrupted runs and an outside stop lead from the start to the breaking state |
| EdgeHealing.ClassifySurvivable | src/switchstand/edge_maintenance.py:551-643 | Every state a crash can leave outside the upgrade window is classified, never ambiguous |
| EdgeHealing.RunHeals | src/switchstand/edge_maintenance.py:1346-1472 | One run under crashes leaves a survivable state, and what it answers is decided by the state it found |
| EdgeHealing.CrashesSurvive | src/switchstand/edge_maintenance.py:1346-1472 | Any number of interrupted runs and resumes leaves a survivable state |
| EdgeHealing.UninterruptedPasses | src/switchstand/edge_maintenance.py:1370-1462 | An uninterrupted run passes with the candidate serving |
| EdgeHealing.AtMostTwoRunsHeal | src/switchstand/edge_maintenance.py:1377-1462 | Outside the upgrade window the second undisturbed run passes on the host of an uninterrupted run; the first already does exactly when no re-gate detour is due |
| EdgeHealing.CalmResumeIsRun | src/switchstand/edge_maintenance.py:1616-1625 | Resuming such a state from the command line does exactly what a run does |
| EdgeRoute.ReconcilesExactly | src/switchstand/edge_maintenance.py:551-643 | Phase by phase, the hosts that prove a receipt, written out as host records |
| EdgeRoute.BodyFollowsRoute | src/switchstand/edge_maintenance.py:1370-1462 | Every body, fresh or resumed, from any host and under any fates, ends exactly as its list of needs says: in PASS, in the abort, or raising what the first unmet need raises |
| EdgeRoute.PassExactly | src/switchstand/edge_maintenance.py:1346-1462 | A run tells PASS if and only if every need on its route is met, and then on that host under that receipt |
| EdgeAnswers.RetainExactly | src/switchstand/edge_maintenance.py:1311-1319 | A gate is retained if and only if it is or gets up and is then seen from both sides |
| EdgeAnswers.BlindExactly | src/switchstand/edge_maintenance.py:1353-1361 | With an unreadable receipt the gate is put and kept up exactly if it can be, nothing else moves and the answer is UNKNOWN |
| EdgeAnswers.AbortTryExactly | src/switchstand/edge_maintenance.py:1322-1333 | The old route is given back only while the upgrade was never started and the old edge is seen to serve |
| EdgeAnswers.AbortExactly | src/switchstand/edge_maintenance.py:1322-1343 | An abort answers FAIL if and only if it gave the old route back and recorded that; otherwise UNKNOWN, naming the abort |
| EdgeAnswers.RollBackExactly | src/switchstand/edge_maintenance.py:1474-1498 | A rollback returns if and only if its needs are met, phase by phase; the old edge is then public |
| EdgeAnswers.UnknownExactly | src/switchstand/edge_maintenance.py:1463-1472 | After `Unknown` the gate is kept exactly if this attempt reached for it, and the receipt names what happened |
| EdgeAnswers.FailedExactly | src/switchstand/edge_maintenance.py:1473-1509 | FAIL is told exactly for a rollback that returned and was recorded |
| EdgeAnswers.YieldingAnswers | src/switchstand/edge_maintenance.py:1407-1418 | A run that gives its gate up answers as the abort does |
| EdgeAnswers.AcceptedExactly | src/switchstand/edge_maintenance.py:1245-1299 | A receipt is accepted if and only if it agrees with a table of what its phase allows |
| EdgeAnswers.RecoverExactly | src/switchstand/edge_maintenance.py:1512-1554 | A recovery answers FAIL if and only if the receipt was closed before, or is the ambiguous one and the old edge is seen whole: gate absent, old service and launcher, no backup, no snapshot, the database at its checkpoint |
| EdgeAnswers.ClosesExactly | src/switchstand/edge_maintenance.py:1124-1198 | The receipt is closed exactly then, and left alone otherwise |
| EdgeAnswers.ValidatesExactly | src/switchstand/edge_maintenance.py:503-522 | A resume goes on exactly if validation sees what the receipt claims; a resumed NO_EFFECT_PROVEN needs the same whole host |
| EdgeAnswers.ResumesExactly | src/switchstand/edge_maintenance.py:1616-1625 | A resume that validated is a run on what is left of the script; one that did not changes nothing and settles nothing |
| EdgeAnswers.UpgradesExactly | src/switchstand/edge_maintenance.py:815-834 | The upgrade is invoked only on a stopped edge behind its gate, and what its call can leave |
| EdgeAnswers.SnapshotsExactly | src/switchstand/edge_maintenance.py:933-958 | What a snapshot call can leave |
| EdgeProof.FirstProofStays | src/switchstand/edge_maintenance.py:1444-1453 | The first semantic proof recorded stays the recorded one over any run |
| EdgeProof.ChangedProofNeverPasses | src/switchstand/edge_maintenance.py:1444-1453 | Once a semantic proof is recorded and the upgrade had no effect, a run that reads another never tells PASS and never records COMPLETE, whatever else it meets |
| EdgeMaintenance.Maintenance.constructor | src/switchstand/edge_maintenance.py:1364-1369 | Memory starts as what the receipt says, or as a new attempt |
| EdgeMaintenance.Maintenance.Write | src/switchstand/edge_maintenance.py:1301-1308 | Memory changes first, the file after, as the fate of the write decides |
| EdgeMaintenance.Maintenance.RetainGate | src/switchstand/edge_maintenance.py:1311-1319 | Refines the specification of retaining the gate |
| EdgeMaintenance.Maintenance.Abort | src/switchstand/edge_maintenance.py:1322-1343 | Refines the specification of giving up an unproved gate |
| EdgeMaintenance.Maintenance.Body | src/switchstand/edge_maintenance.py:1370-1462 | Refines the specification of the body, stage by stage |
| EdgeMaintenance.Maintenance.OnUnknown | src/switchstand/edge_maintenance.py:1463-1472 | Refines the `Unknown` handler |
| EdgeMaintenance.Maintenance.OnFailed | src/switchstand/edge_maintenance.py:1473-1509 | Refines the failure handler with its rollback |
| EdgeMaintenance.Maintenance.Deploy | src/switchstand/edge_maintenance.py:1346-1509 | Step by step the object does what the specified run does, keeps the protocol, and tells the truth unless misled |
| EdgeMaintenance.Maintenance.DeployBlind | src/switchstand/edge_maintenance.py:1353-1361 | With an unreadable receipt only the gate may change and the answer is UNKNOWN |
| EdgeMaintenance.Maintenance.Recover | src/switchstand/edge_maintenance.py:1512-1554 | Refines the manual recovery, locks included |
| Continuity.OpeningIsGuarded | src/switchstand/activation_continuity.py:286-311 | An opened obligation is coherent, sealed and in VERIFY_NOW |
| Continuity.AdvanceKeepsGuarded | src/switchstand/activation_continuity.py:314-427 | An applied step is incoherent exactly when delivery overtook its BLOCK, and otherwise keeps the strengthened invariant; WAITING_ACTIVATION is unreachable |
| Continuity.AdvanceLinks | src/switchstand/activation_continuity.py:323-335 | An applied step stamps and links onto the observed, non-terminal head; any other answer hands the record back unchanged |
| Continuity.LifecycleDelivers | src/switchstand/activation_continuity.py:387-427 | Exactly when a DEFER or RETIRE ends DELIVERED instead |
| Continuity.SealIsInjective | src/switchstand/activation_continuity.py:203-205 | Sealed records with equal digests are equal |
| ContinuityStore.Revisions.ReadChain | src/switchstand/activation_continuity_store.py:54-75 | The loop accepts exactly the rows that form one numbered, linked, sealed and coherent chain |
| ContinuityStore.Revisions.ReadHead | src/switchstand/activation_continuity_store.py:77-86 | Refines `get` |
| ContinuityStore.Revisions.Begin | src/switchstand/activation_continuity_store.py:118-168 | Refines the read half of a transition |
| ContinuityStore.Revisions.Finish | src/switchstand/activation_continuity_store.py:161-192 | The insert only appends, under both constraints; an error is answered from a fresh read |
| ContinuityRuns.OnlyNextLands | migrations/versions/0023_activation_continuity.py:18-25 | The primary key lets in only the generation after the last, so a stale decision cannot fork a chain |
| ContinuityRuns.StepKeeps | src/switchstand/activation_continuity_store.py:131-192 | Every step of every interleaving keeps the invariant; rows are only added |
| ContinuityRuns.HistoryKeeps | src/switchstand/activation_continuity_store.py:131-192 | The same over whole histories; no APPLIED row is ever lost |
| ContinuityTruth.ChainsNeverFork | src/switchstand/activation_continuity_store.py:131-192 | In every reachable table each obligation is one numbered, linked, sealed chain and no operation is stored twice |
| ContinuityTruth.AppliedIsDurable | src/switchstand/activation_continuity_store.py:161-178 | APPLIED is about a row that is there and stays |
| ContinuityTruth.ReplayedIsStored | src/switchstand/activation_continuity_store.py:178-192 | REPLAYED is about a stored row of that operation and intent |
| ContinuityTruth.EqualHeadsEqualChains | src/switchstand/activation_continuity_store.py:55-75 | Two readable chains with equal head digests are equal throughout |
| ContinuityTruth.UnreadableExactly | src/switchstand/activation_continuity_store.py:77-86 | In every reachable table a chain is unreadable if and only if delivery overtook its last BLOCK |
| ContinuityTruth.BrokenForever | src/switchstand/activation_continuity_store.py:146-148 | An unreadable chain is never added to and never read again |
| ContinuityTruth.BlockingBreaks | src/switchstand/activation_continuity.py:353-427 | The call that breaks a chain is answered APPLIED |
| ContinuityTruth.BrokenReachable | src/switchstand/activation_continuity.py:286-427 | From the empty table an activation, an acceptance and a BLOCK, each undisturbed, make an obligation unreadable |
| ContinuityProvenance.StepEarns | src/switchstand/activation_continuity.py:375-427 | What one applied step proves about acceptance, adoption and delivery |
| ContinuityProvenance.DeliveryHasProvenance | src/switchstand/activation_continuity.py:223-272 | Every DELIVERED head has a last acceptance that passed on a matching proof, a proved adoption unless none is required, a technical basis true at delivery, authorized actors throughout, and no earlier terminal revision |
| ContinuityExact.CountsExactly | src/switchstand/activation_continuity.py:223-272 | When a proof, a technical basis and an actor count, field by field |
| ContinuityExact.CoherentExactly | src/switchstand/activation_continuity.py:159-170 | A record is coherent if and only if its state carries what it should and no more |
| ContinuityExact.OpensExactly | src/switchstand/activation_continuity.py:286-311 | An obligation opens if and only if it is activated as missing on a founded basis, and then as exactly this record |
| ContinuityExact.AdvancesExactly | src/switchstand/activation_continuity.py:314-427 | Every answer of a call on a record; it applies if and only if the record is open, the head observed and its transition asks no more than is there, and then the whole record is as written out |
| ContinuityExact.WaitingExactly | src/switchstand/activation_continuity.py:342-353 | A record waiting for its activation, which no run produces, is activated on a founded basis only |
| ContinuityExact.AdmitsExactly | src/switchstand/activation_continuity_store.py:109-130 | A call is admitted on an installed contract, under its own grant and runtime, by an entitled actor |
| ContinuityExact.DecidesExactly | src/switchstand/activation_continuity_store.py:131-168 | What a call decides, from what a read of its obligation shows |
| ContinuityExact.AfterErrorExactly | src/switchstand/activation_continuity_store.py:178-192 | After an error the answer is about the head a fresh read shows, and about this very intent only |
| ContinuityExact.WritesExactly | src/switchstand/activation_continuity_store.py:161-176 | An insert lands unless its operation is stored already, or its obligation has that generation |
| ContinuityExact.FinishesExactly | src/switchstand/activation_continuity_store.py:161-192 | APPLIED is told for exactly the inserts that landed and were heard; any other is answered from a fresh read |
| ContinuityExact.OrderedExactly | src/switchstand/activation_continuity_store.py:37-52 | Rows are read in the order of their generations, each once |
| ContinuityExact.EndsWrite | src/switchstand/activation_continuity_store.py:131-192 | The steps of a history write what the store writes, and log as applied exactly what it tells so |
| ContinuityExact.ChainsAreTamperEvident | src/switchstand/activation_continuity_store.py:54-75 | In a readable chain no row but the last can be exchanged, neither its record nor its operation |
| ContinuityExact.EveryStepRests | src/switchstand/activation_continuity_store.py:131-192 | In every reachable table each row rests on the one before it and on the call that made it, the first on a founded activation |
| ContinuityExact.UnblockingHasProof | src/switchstand/activation_continuity.py:361-374 | Every unblocking in a reachable chain carries a fresh clearing proof of this obligation, product, revision, phase and both contract fields for the stored event, and returns to the phase that was blocked |
| ContinuityExact.DeliveryIsBorneOut | src/switchstand/activation_continuity.py:375-427 | What bore out every DELIVERED head, in fields |
| ImportGraph.ImportedChanges | src/switchstand/affected_tests.py:304-317 | The worklist terminates and finds exactly the changed modules a test imports, directly or through others |
| AffectedTests.BuildGraph | src/switchstand/affected_tests.py:274-282 | The graph is whole exactly when every Python file can be read; the last file of a module stands for it |
| AffectedTests.GraphReasons | src/switchstand/affected_tests.py:284-321 | The recorded reasons are exactly those that hold, and no test is selected without one |
| AffectedTests.CollectFaults | src/switchstand/affected_tests.py:256-333 | No fallback reason arises exactly when every changed path is clean and covered |
| AffectedTests.MakePlan | src/switchstand/affected_tests.py:244-355 | Exactly when a plan selects; a plan that does not runs every test there is |
| AffectedTests.SelectsExactly | src/switchstand/affected_tests.py:284-355 | A selected plan runs exactly the tests the changes, rules, names and import paths call for |
| AffectedTests.ChangesAreCovered | src/switchstand/affected_tests.py:322-333 | Each changed Python file is a selected test, or imported by one, or named by its rule |
| AffectedTests.DirectEditsSelectThemselves | src/switchstand/affected_tests.py:269-282 | When only test modules changed, a selected plan runs those and no other |
| AffectedTests.PromotionIsSafe | src/switchstand/affected_tests.py:112-150 | A promoted plan is untouched by tree validation, names only tests that exist there, and selects exactly what the changes call for |
| SelectionExact.FallbackExactly | src/switchstand/affected_tests.py:17-33 | The shared inputs whose change runs every test, without patterns |
| SelectionExact.RulesExactly | src/switchstand/affected_tests.py:34-40 | No path falls under two explicit rules, and what its one rule asks for |
| SelectionExact.DirectTestsExactly | src/switchstand/affected_tests.py:42 | Which paths are direct test modules |
| SelectionExact.ModulesExactly | src/switchstand/affected_tests.py:200-209 | The module of a Python file, from its directories and its name |
| SelectionExact.SameNamesExactly | src/switchstand/affected_tests.py:318-321 | A source file shares its name with the test of the same stem, wherever it lies |
| SelectionExact.SelectionExactly | src/switchstand/affected_tests.py:244-355 | A plan selects if and only if every change is selectable, path by path |
| SelectionExact.AuthorityExactly | src/switchstand/affected_tests.py:112-150 | Exactly which authority a plan gets; a promotion needs every change to be a direct test module or one of the two named paths, every selected path a direct test module, every changed test selected, and neither serial-sensitive module involved |
| SelectionExact.ValidatesExactly | src/switchstand/affected_tests.py:402-436 | What validation against the tree to be run makes of a plan |
| Inventory.TakeInventory | src/switchstand/certification.py:99-127 | The loop ends on every child relation, cyclic or endless, and refuses exactly the trees it must |
| Inventory.MeetsWalks | src/switchstand/certification.py:99-127 | A finished inventory met every walk at its length: each depth is that of the longest walk |
| Inventory.CyclesAreRefused | src/switchstand/certification.py:108-112 | Every reachable cycle is refused |
| Inventory.Listed | src/switchstand/certification.py:124-129 | The sorted list holds exactly the tasks of one ownership, deepest first |
| Inventory.DescendantsGoFirst | src/switchstand/certification.py:124-129 | In the deletion order every descendant precedes each of its ancestors |
| Inventory.DeletionOrder | src/switchstand/certification.py:131-136 | Deletion is refused exactly when the tree is or anything foreign is reachable; otherwise it covers every reachable task once |
| Inventory.OrderExactly | src/switchstand/certification.py:124-129 | The order is by depth, deepest first, and by id among equals |
| WakeWorker.StepKeeps | prototypes/chatgpt-wake/worker.js:155-252 | After a click a binding stays uncertain, in memory and on disk, until it is rearmed |
| WakeWorker.ClicksAreSeparated | prototypes/chatgpt-wake/worker.js:181-202 | Two clicks on one binding are always separated by a rearm, wherever the worker is killed |
| WakeWorker.FenceHolds | prototypes/chatgpt-wake/worker.js:192-193 | Once fenced, a binding's page is not touched until the worker restarts |
| WakeWorker.RemovalIsFinal | prototypes/chatgpt-wake/worker.js:246-262 | Once a removal is saved, that page is never touched again, restarts and rearm-all included |
| WakeWorker.ClearAll | prototypes/chatgpt-wake/worker.js:246-252 | Rearm-all clears exactly the bindings that are neither removed nor fenced |
| WakeWorker.Extension.Compose | prototypes/chatgpt-wake/worker.js:192-198 | Refines the composer step: fenced once more, clicked only for a send, doubt cleared only by an outcome that is no click |
| WakeWorker.Extension.Handle | prototypes/chatgpt-wake/worker.js:155-264 | Each event changes the bindings in place exactly as the step it stands for |
| WakeWorker.Extension.Live | prototypes/chatgpt-wake/worker.js:155-264 | Over a whole life of the worker its clicks are separated by rearms |
| WakeWorker.RemoveMakesGone | prototypes/chatgpt-wake/worker.js:257-262 | The removal handler whose save landed leaves the binding gone |
| WakeWorker.ClicksArePrompted | prototypes/chatgpt-wake/worker.js:181-198 | Over every life of the worker each click ends a composer call that a poll of the same binding, still showing the mail, came right before |
| WakeWorker.EntersExactly | prototypes/chatgpt-wake/worker.js:155-180 | A binding gets a turn on the page if and only if it is armed, live, without doubt and has fresh mail |
| WakeWorker.TicksOnExactly | prototypes/chatgpt-wake/worker.js:181-191 | A turn goes on if and only if it is one of the fifty, unfenced, and a send saw the mail |
| WakeWorker.TouchesExactly | prototypes/chatgpt-wake/worker.js:192-198 | The page is touched exactly by a stored, unfenced turn |
| WakeExact.RestsAlways | prototypes/chatgpt-wake/worker.js:214-264 | Over every life of the worker a job leaves nothing in memory, so the next one starts from what was saved |
| WakeExact.JobsExclude | prototypes/chatgpt-wake/worker.js:31-32 | One job at a time: an alarm or message that finds a job at work waits, and each job starts from what was saved |
| WakeExact.KillsExactly | prototypes/chatgpt-wake/worker.js:214-220 | A kill costs the memory and the fences and nothing else; a fence only adds itself |
| WakeExact.LostMessages | prototypes/chatgpt-wake/worker.js:264 | A message whose save is lost leaves everything saved as it was |
| WakeExact.MessagesExactly | prototypes/chatgpt-wake/worker.js:214-264 | Field by field, what a message whose save landed does to every binding: when it is armed, in doubt, removed and what it shows |
| WakeExact.RearmsAreLogged | prototypes/chatgpt-wake/worker.js:237-252 | A rearm takes doubt from exactly the named binding in doubt, or from all that are neither removed nor fenced |
| WakeExact.TurnsExactly | prototypes/chatgpt-wake/worker.js:155-180 | Every turn that does not go on closes with a status; only a clean poll without mail shows Armed |
| WakeExact.SavesExactly | prototypes/chatgpt-wake/worker.js:191-211 | A save that lands writes all of memory; one that throws ends the turn, or the job |
| WakeExact.CallsExactly | prototypes/chatgpt-wake/worker.js:192-198 | A composer call takes doubt away exactly by an outcome it reports that is no click |
| WakeExact.CalmCheckClicks | prototypes/chatgpt-wake/worker.js:155-211 | An undisturbed check of an armed binding without doubt and with fresh mail clicks exactly once, after any number of looks up to forty-nine, and leaves it in doubt |
| WakeExact.FiftyLooksGiveUp | prototypes/chatgpt-wake/worker.js:181-202 | After fifty looks the check gives up without a click and without doubt |
| CoordinatorSync.Checkout.SyncLocked | src/switchstand/coordinator_sync.py:328-402 | A calm sync of an ancestor applies, and nothing is sent unless every check before the merge held; the effect is exact: applied is HEAD at the target, clean, a descendant; not_sent is HEAD and tree unchanged; merge errors and failed readbacks included |
| CoordinatorSync.Checkout.Reread | src/switchstand/coordinator_sync.py:377-402 | After an error past the merge one more look decides, or nothing is claimed |
| CoordinatorSync.Checkout.MergeAndRead | src/switchstand/coordinator_sync.py:357-402 | What one merge and its readback answer, for every way the merge can end; a calm one applies |
| CoordinatorSync.Checkout.Sync | src/switchstand/coordinator_sync.py:222-255 | Losing the lock on release changes the status and never the effect |
| CoordinatorSync.Checkout.HandOver | src/switchstand/coordinator_sync.py:257-326 | Ready implies the recorded start is an ancestor of the clean resulting HEAD |
| CoordinatorSync.Checkout.Serve | src/switchstand/coordinator_sync.py:222-326 | Over any run of syncs and handoffs HEAD only moves to descendants |
| PackageSize.Changes | scripts/package-size.py:63-84 | The index walk computes the specified parse |
| PackageSize.RoundTrip | scripts/package-size.py:63-84 | Every printable sequence of ordinary and rename records is read back exactly |
| PackageSize.Truncated | scripts/package-size.py:66-84 | Output cut at any point of any record is rejected if and only if the cut comes before the last name begins, for a rename with fewer than two NULs left; otherwise that name is read cut short, and rightly only if nothing but the final NUL is lost |
| PackageSize.DigitsExactly | scripts/package-size.py:142 | A count is read if and only if it is a non-empty string of digits |
| PackageSize.DigitsRoundTrip | scripts/package-size.py:142 | Every number is read back from its decimal digits |
| PackageSize.JudgedExactly | scripts/package-size.py:107-130 | How each change is judged: binary, in production, in support, or unexplained |
| PackageSize.Account | scripts/package-size.py:107-145 | The report is OK exactly when every change is explained; then production plus support is the sum over all non-binary records, each counted once, in its class |

## Left out

* File descriptors, fsync, permissions, locks as files, subprocesses, systemd, docker, Caddy and HTTP: calls are atomic steps with observations.
* SHA-256, JSON and Pydantic parsing, including the length and pattern bounds on text fields.
* Broker: request file ingestion, `record_execution` and `record_canary` files, and the identifier pattern on requests.
* Edge: the third, unclassifiable gate state that a foreign route produces; the host's gate is present or absent.
* Edge: `_normalized_launcher`, `validate_target` and the command-line checks of attempt directories.
* Edge: signals raise `Unknown` at the next step rather than between two statements of one step.
* EdgeHealing.AtMostTwoRunsHeal: crashes fall between the launcher copies of `swap` in the other modules; here `swap` is one step, and what probes and measurements read is stable (every digest reads 0, which stands for its one value).
* EdgeRuns.UpgradeAtMostOnce: acceptance of receipts needs that no run meets the breaking state, the exact condition of `EdgeUnprepared.ReceiptsBreakExactly`; `EdgeRuns.UpgradeNeverTwice` has no condition.
* EdgeVerdicts.VerdictsExactly: truth is promised from a true receipt; after a lie on disk a later run repeats it.
* ContinuityStore.Revisions.Begin: row locks are not modelled, so transitions interleave more freely than `FOR UPDATE` allows; `for_owner` is not modelled.
* ContinuityTruth.AppliedIsDurable: the table is only ever appended to by transitions; the migration's guarded downgrade is not a step.
* AffectedTests.MakePlan: the order of selected tests, git itself, and the parsing of Python imports; a file's imports are a parameter or missing.
* AffectedTests.PromotionIsSafe: subject verification and the planner revision are one flag; `selector_health_clear` and the stack-top classifier are one-step predicates over history.
* Inventory.TakeInventory: pagination, and a task tree that changes between two requests.
* Inventory.DeletionOrder: the delete and readback requests of `clean` that follow.
* WakeWorker.ClicksAreSeparated: calling the composer and the click it makes are one step; the composer's reading of the page, mailbox reports and alerts are outcomes chosen by the environment; `load`'s conversion of the older storage format is not modelled.
* CoordinatorSync.Checkout.SyncLocked: the reason texts, and anyone else moving the checkout while the lock is held.
* PackageSize.Account: pattern matching is a parameter, `int` accepts only digits, and the forecast and cap dimensions are plain arithmetic.
