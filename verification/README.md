# Verified model of the hypervisor provider's protocols

This project models, in Dafny, the parts of a Cluster API provider for Cloud Hypervisor whose
correctness rests on protocols rather than on single functions, and proves what those protocols keep
over every run:

* **Upgrades.** The upgrade-plan controller pauses the workers, moves the topology version and waits
  for the control plane; the control-plane reconciler snapshots etcd, deletes the outdated Machine and
  recreates it from the snapshot; the topology controller, object reclamation and the
  MachineDeployments run beside them. All of it is one transition system (`control_plane.dfy`,
  `upgrade.dfy`) whose moves are single API effects, crashes and torn file writes, so a list of moves
  is an interleaving. `measure.dfy`, `convergence.dfy` and `attainment.dfy` say how and when the control plane reaches
  what its spec asks for, `plan_progress.dfy` and `completion.dfy` when a plan completes. The webhook that admits plans is in `admission.dfy`, the image list in
  `images.dfy`.
* **The host agent.** Every host mutation is journalled, performed on k8netd, systemd or Cloud
  Hypervisor, recorded in inventory tables, and journalled again (`journal.dfy`, `inventory.dfy`,
  `k8netd.dfy`, `host.dfy`, `executor.dfy`, `teardown.dfy`, `ensure_vm.dfy`, `endpoints.dfy`). The journal is proved
  under any interleaving of clients; the handlers run one at a time and may be cut short anywhere.
* **Algorithms** used by both: the ownership ledger, unit-file quoting, the network device string,
  deterministic names.

## How to read the model

* `Runs.Exec` folds a list of moves over a state; a theorem over `Runs.Exec(Next, s, moves)` holds for
  every run. Histories (`drops`, `births`, `writes`, `log`) are fields that no step reads.
* Handlers of the host agent are methods. Every call into the store, k8netd, systemd or Cloud
  Hypervisor may be refused, or take effect and still be reported as failed. A crash is the case in
  which everything after it is refused, so a postcondition that does not mention `calm` holds at every
  crash point. `calm` means that nothing interferes; clauses that mention it say what a call achieves.
* The port handlers are proved in two steps: a method performs a trace of guarded effects
  (`Coupling.Evolves`), and every guarded trace keeps the invariants.

Assumptions, all of them about code outside the model:

* A deleted Machine disappears only after its bootstrap config and its HypervisorMachine are gone (the
  Cluster API Machine finalizer), and garbage collection deletes a HypervisorMachine whose owning Machine is
  gone. API reads are current. Only the plan writes the
  topology version. The set of MachineDeployments is fixed during
  a plan and only the plan changes their pause annotation. Whether the control plane is ready and
  whether replica counters are satisfied is arbitrary; extra Machines with the control-plane label only
  delay the readiness observation.
* Version precedence is an arbitrary total preorder on valid versions (section 11 of Semantic
  Versioning 2.0.0); the hash of a request is injective; the JSON of a port number is its decimal digits.
* SQL statements behave as the query files say: begin inserts or ignores, complete updates only rows
  still in `intent`, upserts replace by primary key and respect the UNIQUE constraints.
* A boot that fails does not write to the disk files, and Cloud Hypervisor refuses to create a VM it already has.

Where a property needs a condition, the project proves it under that condition and shows by a run that it is
needed. Exact, both ways: `UpgradeLimits.RestoresExactly` (a roll in flight), `UpgradeLimits.SkewSafeExactly` (a first
step below the cluster's version),
`Attainment.ConvergesExactly` (doomed Machines), `Completion.CompletesExactly` (plans that never complete),
`Admission.UpdatePassesExactly` (a finished plan beside a running one), `Teardown.DeleteVMWithRetries` (mappings without a row, a stop
completed before a restart; `EnsureVm.RestartedUnitOutlivesItsRow` is such a run),
`Executor.Executor.PublishPort` (answers of a completed key; `PortRuns.ReleasedKeyStillAnswers`),
`Images.PreflightAgrees` (the empty version), `Images.OrderIrrelevantExactly`, `Ledger.Owns` (the empty id on an
empty ledger), `NetConfig.NetConfigRoundTrip` (commas in the socket path). By a guard and runs that violate it:
`Limits.RevivedRecordDeletesAtOnce` and `Limits.VersionDesiredTwiceDeletesUnsnapshotted` (changing the version
back to the recorded target),
`Attainment.SharedIndexAlternates` (drifted Machines sharing an index), `PortRuns.SharedPortBreaksAgreement`
(port names shared across installations).

## Model

| member | source | states |
|---|---|---|
| UpgradeTheorems.SuccessorsRestorePredecessors | controllers/hypervisorupgradeplan_controller.go:277-331 | One replica, one undeleted plan: under every interleaving and crash, a Machine recreated after a drift deletion starts from a config naming the snapshot of exactly its version, non-empty and captured from the Machine it replaces; from every start in which the plan leaves a roll in flight, if there is one, alone |
| UpgradeTheorems.NoWorkerAheadOfControlPlane | controllers/hypervisorupgradeplan_controller.go:277-390 | With a first step not below the current version, or a plan that fails its preflight, no reachable state has a worker above the control-plane Machine's version |
| UpgradeTheorems.StatusFollowsPlan | controllers/hypervisorupgradeplan_controller.go:338-479 | On any control plane, in every reachable state the index is in range, earlier steps are Completed, the current one shows the plan's phase, later ones are untouched |
| UpgradeTheorems.PlanNeverGoesBack | controllers/hypervisorupgradeplan_controller.go:94-155 | On any control plane, between any two moments of a run (current step, phase) only advances, and Completed and Failed are final |
| UpgradeTheorems.TopologyOnlyRises | controllers/hypervisorupgradeplan_controller.go:484-506 | On any control plane, the versions written over a whole run are an in-order selection of the steps, strictly increasing, and the topology holds the last one written |
| UpgradeTheorems.CompletedMeansDone | controllers/hypervisorupgradeplan_controller.go:394-431 | On any control plane, a completed plan left the topology, the control plane object and every MachineDeployment template at the last step, and no MachineDeployment paused |
| UpgradeTheorems.CompletedMeansRolled | controllers/hypervisorupgradeplan_controller.go:300-331 | With one replica, the sole control-plane Machine is then at the last step, or versionless |
| Completion.CompletesExactly | controllers/hypervisorupgradeplan_controller.go:188-431 | From every settled cluster with one replica, some run of the whole system completes the plan exactly when it passes the preflight, the topology may be written or is already at the one step there is, and the control-plane Machine does not lack a version |
| Completion.StepCompletes | controllers/hypervisorupgradeplan_controller.go:277-390 | From every boundary between two steps some run takes the whole step: topology written, control plane rolled, workers phase entered and finished, ending at the next boundary or Completed |
| Completion.BlockedNeverCompletes | controllers/hypervisorcontrolplane_controller.go:732-737 | Beside a versionless control-plane Machine no run ever completes a plan |
| Completion.FrozenNeverCompletes | controllers/hypervisorupgradeplan_controller.go:490-493 | On any control plane, where the topology is not managed by a class and not at the only step, no run ever completes a plan |
| PlanProgress.ObservedStepAdvances | controllers/hypervisorupgradeplan_controller.go:277-331 | Whatever the replicas and wherever the controller stands: with the topology, the control plane object and all Machines at the current step and enough of them, its own moves lead to the workers phase of that step, changing nothing else but pauses |
| PlanProgress.TemplatedStepFinishes | controllers/hypervisorupgradeplan_controller.go:338-431 | Wherever the controller stands: with all templates at the current step, its own moves finish the step, and with the last step the plan |
| PlanProgress.StepIsWritten | controllers/hypervisorupgradeplan_controller.go:484-506 | Its own moves bring a managed topology that is elsewhere to the current step, once |
| PlanProgress.UnwritableFails | controllers/hypervisorupgradeplan_controller.go:490-493 | Its own moves fail the plan when a topology not managed by a class is not at the current step |
| PlanProgress.WaitsForReadiness | controllers/hypervisorupgradeplan_controller.go:306-318 | However the system moves, a phase of a step is not left before readiness is reported: until then the plan stays at that step and phase or fails |
| PlanProgress.LossFails | controllers/hypervisorupgradeplan_controller.go:127-130 | A running plan whose Cluster is gone fails, and nothing else changes |
| PlanProgress.BeginsExactly | controllers/hypervisorupgradeplan_controller.go:188-270 | The first reconcile begins a plan at its first step exactly if it passes the preflight, and fails it otherwise |
| PlanProgress.BegunMeansPreflight | controllers/hypervisorupgradeplan_controller.go:217-239 | In every run, a plan that is neither pending nor failed passed the preflight before it began: one replica, and no step misses an image |
| UpgradeSafety.SystemInvNext | controllers/hypervisorupgradeplan_controller.go:94-155 | Every move of plan, control plane, topology controller and fleet keeps the joint invariant of plan status, topology writes and snapshots |
| UpgradeSafety.PlanOnlyInvNext | controllers/hypervisorupgradeplan_controller.go:94-155 | Every move keeps what holds of a plan whatever the replicas and their state: status, topology writes, pauses, and what it saw of the control plane object and the templates |
| UpgradeSafety.MarkStepHits | controllers/hypervisorupgradeplan_controller.go:468-479 | With distinct step versions, marking by version changes exactly the step meant |
| UpgradeSafety.PatchMoves | controllers/hypervisorupgradeplan_controller.go:283-289 | The plan moves the version only when the control plane is settled at the one before, so no replacement in flight loses its snapshot |
| UpgradeSafety.ReadMachinesMoves | controllers/hypervisorupgradeplan_controller.go:300-331 | Observing the step's version on the control plane object and its Machine means the roll is over |
| UpgradeLimits.DriftedStartLosesSnapshot | controllers/hypervisorcontrolplane_controller.go:253-256 | Started while a roll is in flight, a plan that passes its preflight and takes another first step reaches a recreated Machine without its snapshot |
| UpgradeLimits.RestoresExactly | controllers/hypervisorupgradeplan_controller.go:277-331 | A plan restores every recreated Machine, from every start on the way from one version to the topology's, exactly when no roll is in flight, or its first step is that roll, or it fails its preflight |
| UpgradeLimits.FirstStepBelowOvertakes | controllers/hypervisorupgradeplan_controller.go:225-230 | Preflight compares only the target: a first step below the current version reaches a state with a worker above the control plane |
| UpgradeLimits.SkewSafeExactly | controllers/hypervisorupgradeplan_controller.go:225-230 | An accepted plan is safe for the workers on every settled cluster at a version exactly when its target does not advance on it or its first step is not below it |
| ReplaceInPlace.ReplacingNext | controllers/hypervisorcontrolplane_controller.go:205-286 | Every move but a spec change keeps the replacement between two versions on course, snapshots and restored configs included |
| ReplaceInPlace.ReplacingEnds | controllers/hypervisorcontrolplane_controller.go:706-730 | Once the sole Machine is at the goal version the replacement is over and the next one may start |
| Drift.DeletesOnlyRecorded | controllers/hypervisorcontrolplane_controller.go:658-737 | Any replica count, any version changes, any crashes: the drift path deletes a Machine only when the record names it and the target, its non-empty snapshot is on disk, a version is asked for, and it carries a different one |
| Drift.ReplacesHighestIndexFirst | controllers/hypervisorcontrolplane_controller.go:672-695 | With version and replicas fixed, the indices deleted over a run never increase |
| Survival.UndriftedReplicasSurvive | controllers/hypervisorcontrolplane_controller.go:615-642 | With the spec fixed, a desired replica that is versionless or at the desired version, and with no version desired every one, is never deleted, by drift or scale-down, under any interleaving and crash |
| Survival.UnversionedReplacesNothing | controllers/hypervisorcontrolplane_controller.go:664-666 | With no version desired and the spec fixed, no run deletes a Machine through the drift path or changes the recorded replacement |
| Survival.UnpublishedNeverReplaced | controllers/hypervisorcontrolplane_controller.go:762-775 | Over every run in which a Machine's etcd port is never published, whatever the spec becomes, the drift path neither records nor deletes that Machine |
| Survival.ObjectsAreNeverRewritten | controllers/hypervisorcontrolplane_controller.go:217-286 | Over every run, whatever the spec becomes: until it is reclaimed, a Machine keeps its uid and version, a bootstrap config the snapshot it names, a HypervisorMachine its owner |
| Survival.RecordClearedExactly | controllers/hypervisorcontrolplane_controller.go:706-730 | A reconcile that finds no drift clears the record exactly if the Machine on record exists and needs no replacement |
| Snapshots.DeletedMachineWasSnapshotted | controllers/hypervisorcontrolplane_controller.go:745-845 | As long as the version is not changed back to the target of the replacement on record, every deleted Machine was itself the source of the snapshot on disk, roll-backs, crashes and torn writes included |
| Limits.VersionDesiredTwiceDeletesUnsnapshotted | controllers/hypervisorcontrolplane_controller.go:697-704 | A run that violates that guard reaches the deletion of a Machine whose recorded snapshot is its predecessor's |
| Limits.RevivedRecordDeletesAtOnce | controllers/hypervisorcontrolplane_controller.go:697-704 | In every idle state in which the Machine on record is the next to be replaced, changing the version back to the recorded target deletes it at once, and with its own snapshot exactly when the recorded file is from this very Machine |
| Lineage.OnlyTheLastIsRestored | controllers/hypervisorcontrolplane_controller.go:205-286 | Whatever the replica count, interleaving and crashes: of the Machines recreated after drift deletions exactly the one deleted last, of the lowest index, restores its predecessor's snapshot; all others start without one |
| Measure.MeasureNeverRises | controllers/hypervisorcontrolplane_controller.go:181-290 | With a fixed spec, no move of any run raises the measure (drifted, uncaptured, surplus, leftover, missing): crashes, torn writes, partial teardowns and reconciles during a deletion included |
| Convergence.Progress | controllers/hypervisorcontrolplane_controller.go:203-290 | From every idle state, deletions in progress included: converged, or a drifted Machine is doomed, or taking down one deleted or unfit object or publishing one port lowers the measure, or every uninterrupted reconcile does |
| Convergence.ConvergedIsZero | controllers/hypervisorcontrolplane_controller.go:203-290 | The measure is zero exactly when the canonical Machines are exactly indices 0..r-1, live, at the version or versionless, each with its own HypervisorMachine, and nothing is left over |
| Convergence.ConvergedStays | controllers/hypervisorcontrolplane_controller.go:203-290 | Once converged, every run with a fixed spec stays converged |
| Attainment.ConvergesExactly | controllers/hypervisorcontrolplane_controller.go:203-290 | An idle control plane can reach convergence exactly when no drifted Machine is doomed: live, without a HypervisorMachine, and not on record or below a live drifted one |
| Attainment.DoomedForever | controllers/hypervisorcontrolplane_controller.go:208-215 | A doomed Machine stays doomed under every run: while drift remains the creation loop that would give it a HypervisorMachine is not reached |
| Attainment.AlwaysConvergeable | controllers/hypervisorcontrolplane_controller.go:203-290 | If every live drifted Machine has a fit HypervisorMachine or is the next to go and on record, convergence stays reachable after any moves whatever |
| Attainment.FairRoundLowers | controllers/hypervisorcontrolplane_controller.go:203-290 | Any moves whatever, a crash, and then one lowering run of the environment if there is one or else a whole reconcile, end converged or with a lower measure |
| Attainment.FairSchedulesConverge | controllers/hypervisorcontrolplane_controller.go:203-290 | Every endless list of such rounds converges |
| Attainment.ConvergesExactlyByName | controllers/hypervisorcontrolplane_controller.go:597-612 | The same for the names the reconciler generates and parses |
| Attainment.SharedIndexAlternates | controllers/hypervisorcontrolplane_controller.go:672-695 | Two drifted Machines of one index can be recorded in turn for ever without either being deleted |
| ReconcilePass.EveryPassEnds | controllers/hypervisorcontrolplane_controller.go:181-290 | Every uninterrupted reconcile ends, whatever its loops pick and whatever it captures |
| Names.IndexOfMachineName | controllers/hypervisorcontrolplane_controller.go:597-612 | The index read back from a generated Machine name is its index, exactly within 32 bits |
| Names.MachineNameInjective | controllers/hypervisorcontrolplane_controller.go:218-218 | Different replicas have different names |
| Names.SnapshotFileNameInjective | controllers/hypervisorcontrolplane_controller.go:851-860 | Two snapshots of one control plane share a file only when Machine and version agree |
| ControllerLoops.SelectDrifted | controllers/hypervisorcontrolplane_controller.go:672-695 | The running-maximum loop returns none exactly when nothing drifts, otherwise a drifted Machine of the highest index |
| ControllerLoops.ReconcileVersionDrift | controllers/hypervisorcontrolplane_controller.go:658-730 | With no version desired straight to the creation loop; otherwise what the loop finds sends the reconcile exactly where the transition system's choice does |
| ControllerLoops.MarkStepPhase | controllers/hypervisorupgradeplan_controller.go:468-479 | The in-place loop marks the first status carrying the version, and nothing else |
| ControllerLoops.MarkStepFirst | controllers/hypervisorupgradeplan_controller.go:468-479 | What marking by version does to a list with a first match, or none |
| ControllerLoops.SetMachineDeploymentsPaused | controllers/hypervisorupgradeplan_controller.go:511-550 | A prefix ends as wanted, the rest is untouched, it stops only at one that differs, and needless patches are not sent |
| Admission.Validate | internal/webhook/hypervisorupgradeplan_webhook.go:161-204 | No error exactly for a cluster name, valid versions, pairwise strictly increasing steps and a last step equal in precedence to the target; each step error names a step that is wrong |
| Admission.CheckSteps | internal/webhook/hypervisorupgradeplan_webhook.go:174-188 | The loop reports exactly the invalid steps and the valid ones not above the latest valid step before them |
| Admission.ScanForOther | internal/webhook/hypervisorupgradeplan_webhook.go:209-240 | The scan passes exactly when no other non-terminal plan targets the Cluster |
| Admission.ValidateCreate | internal/webhook/hypervisorupgradeplan_webhook.go:89-107 | A Create passes exactly with an acceptable spec, an existing Cluster and no other active plan for it; under a new name the plan then exists, pending, beside all others, otherwise nothing changes |
| Admission.ValidateUpdate | internal/webhook/hypervisorupgradeplan_webhook.go:114-143 | An Update passes exactly when the spec is unchanged, still acceptable, and no other active plan targets the Cluster |
| Admission.UpdatePassesExactly | internal/webhook/hypervisorupgradeplan_webhook.go:114-143 | In every state that admissions lead to, an update that leaves the spec alone passes exactly if the plan is active itself or none is for its Cluster, so a finished plan beside a running one cannot be updated |
| Admission.OneActivePlanPerCluster | internal/webhook/hypervisorupgradeplan_webhook.go:89-143 | Any run of admissions, controller steps and deletions keeps at most one non-terminal plan per Cluster, all acceptable |
| Admission.PlansAreImmutable | internal/webhook/hypervisorupgradeplan_webhook.go:114-143 | Until deleted, a plan keeps its spec, and a terminal one its status |
| Admission.AcceptedStepsAreDistinctAndRise | internal/webhook/hypervisorupgradeplan_webhook.go:161-204 | Accepted plans have the distinct, non-empty, rising steps the upgrade theorems start from |
| Admission.PrecedenceIsWeakOrder | internal/webhook/hypervisorupgradeplan_webhook.go:176-188 | Lawful precedence is a weak order on the valid versions and compares nothing else |
| Images.PreflightAgrees | controllers/hypervisorupgradeplan_controller.go:667-682 | A Machine at every step version finds its image exactly when nothing but the empty version is missing |
| Images.NothingMissing | controllers/hypervisorupgradeplan_controller.go:232-239 | Nothing is missing exactly when every step is a registered version |
| Images.MissingImageVersions | controllers/hypervisorupgradeplan_controller.go:667-682 | The two loops return the steps without a registered image, in order |
| Images.ResolveBaseImage | controllers/hypervisormachine_controller.go:756-774 | The first image registered for the version, the default without a version, an error otherwise |
| Images.ValidateClusterImages | internal/webhook/hypervisorcluster_webhook.go:171-196 | The errors are exactly the invalid versions, the repeated versions and the missing paths; none exactly for acceptable lists |
| Images.OrderIrrelevantExactly | controllers/hypervisormachine_controller.go:756-774 | The resolved path does not depend on list order exactly when no version has two paths |
| Images.AcceptedOrderIrrelevant | internal/webhook/hypervisorcluster_webhook.go:171-196 | Accepted lists resolve independently of their order |
| Journal.FirstWriterWins | internal/agent/inventory/journal.go:14-113 | Under any interleaving, every Complete that returned nil and every terminal entry a Begin returned is what the journal holds; no two outcomes on a key |
| Journal.TerminalIsForever | internal/agent/inventory/journal.go:70-113 | Entries are never lost and terminal ones never change |
| Journal.ConflictingBeginChangesNothing | internal/agent/inventory/journal.go:44-66 | A Begin is refused exactly when malformed or when another request holds the key, and then changes nothing; otherwise it adds at most its own intent and reports the entry |
| Journal.OnlyFirstUpdateRecords | internal/agent/inventory/journal.go:88-112 | Of completions racing for one key the first UPDATE is recorded and the others are refused |
| Journal.CompletionRecords | internal/agent/inventory/journal.go:70-113 | A completion of an unknown or undecided operation, whatever others do between its transaction and its UPDATE, records and acknowledges exactly its outcome if the entry is still an intent, and otherwise changes neither journal nor acknowledgements |
| Journal.RepeatedCompletion | internal/agent/inventory/journal.go:80-87 | A completion of a decided operation is acknowledged exactly if it asks for the recorded outcome, and changes nothing else |
| Inventory.Store.BeginOperation | internal/agent/inventory/journal.go:14-66 | Insert-or-ignore, load and compare, commit or roll back |
| Inventory.Store.CompleteOperation | internal/agent/inventory/journal.go:70-113 | Success means the recorded outcome is the one asked for |
| PortRuns.Run | internal/agent/executor/executor.go:737-877 | Over every interrupted run: row and mapping agree when both exist; a row alone has an unfinished or failed ReleasePort of exactly that port; a mapping alone an unfinished or failed PublishPort. Without releases all ports reported for one owner and guest port are equal, in 1..65535, whatever the keys. A release reported as done had its row and mapping removed when it was served, or was on record as completed before, and stays on record |
| Coupling.TraceCoupled | internal/agent/executor/executor.go:737-877 | Every sequence of guarded handler effects keeps rows and mappings coupled |
| Coupling.TraceRecorded | internal/agent/executor/executor.go:746-815 | Without a release, rows never change and completed entries keep telling their row's port |
| Coupling.MapCoupled | internal/agent/executor/executor.go:786-797 | k8netd may map a port without a row while its PublishPort is owed |
| Coupling.UnmapCoupled | internal/agent/executor/executor.go:865-869 | A mapping may go before its row while the release of exactly that row is owed |
| Coupling.PublishedCoupled | internal/agent/executor/executor.go:810-813 | PublishPort may complete once its row exists |
| Coupling.ReleasedCoupled | internal/agent/executor/executor.go:871-876 | ReleasePort may complete once its row is gone |
| Executor.Executor.PublishPort | internal/agent/executor/executor.go:737-816 | Performs guarded effects only and touches no other journal entry, row or mapping; an Ok answer is the row's port exactly unless there was no row and the key was already completed; undisturbed, the whole new state and answer for a known row, a completed, failed or unused key |
| Executor.Executor.ReleasePort | internal/agent/executor/executor.go:818-877 | Performs guarded effects only and touches no other journal entry, row or mapping; an Ok answer means that the key already held this release completed, or that the row, which held this port, and the mapping are gone and the outcome is recorded; undisturbed, the whole new state and answer for a differing port, a completed, failed or unused key, and a process that dies between unmapping and the row |
| PortRuns.ReleasedKeyStillAnswers | internal/agent/executor/executor.go:773-780 | A run of the handlers: published under one key and released under another, a port is still what the first key answers, with neither row nor mapping left |
| PortRuns.SharedPortBreaksAgreement | internal/agent/inventory/queries/migrate.sql:30-41 | A run of the handlers: two owners sharing a port name across installations end with a row and a mapping that disagree |
| Endpoints.Reconciles | controllers/hypervisormachine_controller.go:643-693 | Over reconciles interrupted anywhere and status updates lost at will, every host port in a control-plane machine's status is the one its inventory row holds |
| Endpoints.PublishControlPlaneEndpoints | controllers/hypervisormachine_controller.go:643-693 | Agreement of status and inventory is kept, recorded ports keep their value, success means all three ports are recorded; undisturbed it succeeds whenever each port in turn is known or its key unused and its offer recordable |
| Endpoints.UntouchedIsObtainable | controllers/hypervisormachine_controller.go:643-693 | For an owner without published ports that is the case when the next ports of k8netd's counter are in range and free |
| Endpoints.KeysDiffer | controllers/hypervisormachine_controller.go:664-666 | Different ports are asked for under different keys |
| Endpoints.UpsertPublishedPort | controllers/hypervisormachine_controller.go:717-730 | Afterwards the port looks up to the allocation and every other port to what it did before |
| Endpoints.PublishedHostPort | controllers/hypervisormachine_controller.go:705-713 | The first entry for the port |
| K8netd.Network.Publish | internal/k8netd/fake/server.go:394-420 | A known pair keeps its port; a new one gets the next of the 32-bit counter |
| K8netd.LiveMappingsInjective | internal/k8netd/fake/server.go:394-420 | Live mappings are injective until the counter has come round |
| K8netd.Serve | internal/k8netd/fake/server.go:394-442 | Over any calls, newly issued ports never repeat, even after an unpublish, until the counter has come round |
| Teardown.DeleteVMWithRetries | internal/agent/executor/executor.go:451-501 | Interrupted any number of times and repeated once undisturbed: no row, lease or port of the owner, of its mappings exactly those that had no row (without a network row the network is left alone), and the unit stopped exactly unless the key held a StopVM completed before the unit was started again; unless StopUnit failed, which the key refuses for good. No other unit is stopped and no other port detached |
| Teardown.DeleteVM | internal/agent/executor/executor.go:451-501 | At every crash point published rows go before the network row and that before the VM row; orphan mappings do not change; no unit is touched but the one the owner's row names; a recorded StopVM failure is refused without effect |
| Teardown.DeletePort | internal/agent/executor/executor.go:650-701 | At every crash point the network row is intact or the lease, port and all published rows are gone; other owners are untouched |
| Teardown.DropPublished | internal/agent/executor/executor.go:672-682 | The loop drops mapping then row, creates no orphan mapping and touches no other owner |
| Teardown.StopVM | internal/agent/executor/executor.go:401-449 | Success means a completed entry and a stopped unit; a failed entry is refused forever; the units are as before, or less the one the owner's row names |
| EnsureVm.Run | internal/agent/executor/executor.go:186-281 | Over every interrupted run, whatever happens to VMs and files in between: a recorded VM is never removed by the recovery, an unrecorded one is created or booted only from files matching all checksums, and the recorded root disk stays until DeleteVM |
| EnsureVm.EnsureVM | internal/agent/executor/executor.go:85-299 | Keeps the safety of the log and every recorded disk, other VMs and other units; a refused request is an error and starts nothing; an Ok answer under an uncompleted key means the VM runs in its unit and row and outcome are recorded as requested; a completed key repeats, undisturbed, Ok exactly if the row exists on the caller's node; undisturbed, a startable VM ends running, recorded and journalled |
| EnsureVm.Bring | internal/agent/executor/executor.go:122-299 | From the journalled intent on: a request with another root disk or differing files is refused, starts and records nothing; success means running, recorded and journalled |
| EnsureVm.Start | internal/agent/executor/executor.go:215-264 | Creates, boots and recovers at most once, never removing a VM on record |
| EnsureVm.VerifyArtifacts | internal/agent/executor/executor.go:307-337 | Full verification accepts exactly intact files; for a recorded VM everything but the root contents is checked |
| EnsureVm.RestartedUnitOutlivesItsRow | internal/agent/executor/executor.go:415-417 | A run of the handlers: StopVM under one key, EnsureVM under another, DeleteVM under the first ends with the row gone and the unit running |
| Host.Host.Verify | internal/agent/artifact/artifact.go:28-40 | Accepts exactly equally long, non-empty lists whose every file matches |
| Ledger.RegisterAll | internal/agent/ownership/ledger.go:54-80 | Over every sequence of registrations the members are exactly the ids registered successfully, and the ledger stays well-formed |
| Ledger.LedgerFile.Register | internal/agent/ownership/ledger.go:54-80 | A valid id passes exactly when it is not already a predecessor; it becomes current and nothing is forgotten |
| Ledger.Owns | internal/agent/ownership/ledger.go:20-27 | Binary search decides membership |
| Ledger.Validate | internal/agent/ownership/ledger.go:82-110 | Accepts exactly sorted, duplicate-free, valid predecessors without the current id |
| Ledger.UniqueSorted | internal/agent/ownership/ledger.go:120-131 | The in-place compaction leaves the sorted set of the values |
| Strings.SortStrings | internal/agent/systemd/persistent.go:182-188 | A sorted permutation |
| Strings.SearchStrings | internal/agent/ownership/ledger.go:25-26 | The first index whose string is not below the key |
| Strings.SearchFinds | internal/agent/ownership/ledger.go:25-26 | Present exactly when found at that index |
| Quoting.TwoPassesAreOne | internal/agent/systemd/persistent.go:169-171 | The two replacements equal a one-pass escape |
| Quoting.QuotingRoundTrip | internal/agent/systemd/persistent.go:173-180 | A reader of quoted arguments gives back every argument list |
| Quoting.QuotingInjective | internal/agent/systemd/persistent.go:173-180 | Different argument lists render differently |
| Quoting.QuoteExec | internal/agent/systemd/persistent.go:173-180 | The loop renders the line the round trip is about |
| NetConfig.NetConfigRoundTrip | internal/chclient/vhostuser.go:67-110 | Parsing the rendered string gives back socket, normalised MAC, flag and two queues exactly when the socket path has no comma |
| NetConfig.ParsedExactly | internal/ch/netconfig.go:49-91 | Accepted are exactly the strings whose comma-separated fields all are key=value with a known key and a readable flag or number; the last field of each key decides, with no flag and two queues by default and never fewer than two |
| NetConfig.JoinSplit | internal/ch/netconfig.go:52-53 | The fields are exactly what lies between the commas |
| NetConfig.ParseNetConfig | internal/ch/netconfig.go:49-91 | The loop computes that, and every accepted string yields at least two queues |

## Left out

- Deleting an in-flight plan: its finalizer unpauses the workers at once (controllers/hypervisorupgradeplan_controller.go:169-173), so the skew and snapshot theorems are about undeleted plans.
- EnsurePort and EnsureNetwork: creating network resources. Pointing an owner's row at another port name would break the coupling of its published rows, so runs of PublishPort and ReleasePort keep the network rows fixed.
- DeleteNetwork: it names the network by owner UID while EnsureNetwork uses the request name, so there is no create/delete law to state.
- DeleteVM's removal of disk and socket files by name prefix; nothing is claimed about files.
- Concurrency between executor handlers: only the journal is proved under interleaving.
- PrepareRootDisk, PrepareCIDATA, PrepareConfext and the probes: file-system and subprocess work behind the same journal pattern.
- The direct k8netd path of publishControlPlaneEndpoints, used without a host agent, and firstControlPlaneMachine.
- The control-plane IP reservation, PKI, kubeconfig, Kubernetes client plumbing, watches, events and conditions.
- The order of ListPublishedPorts: DropPublished takes the rows in any order, which covers the ascending one.
- Hexadecimal syntax and letter case of checksums, MAC address syntax (the parsed octets are a parameter) and systemd specifier expansion.
- UTF-8: strings are sequences of characters, whose order is that of their encoding.
