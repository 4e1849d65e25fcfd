/** What every run of an upgrade keeps: plan status, topology writes, snapshots and version skew. */
module UpgradeSafety {
  import opened Upgrade
  import opened ReplaceInPlace
  import CP = ControlPlane

  // ---------------------------------------------------------------- the plan

  predicate Distinct(steps: seq<Version>) {
    forall i, j | 0 <= i < j < |steps| :: steps[i] != steps[j]
  }

  predicate NonEmpty(steps: seq<Version>) {
    forall i | 0 <= i < |steps| :: steps[i] != ""
  }

  /** The version before step i: the step before it, or the version the cluster ran when the plan started. */
  function Before(initial: Version, steps: seq<Version>, i: int): Version {
    if 0 < i <= |steps| then steps[i - 1] else initial
  }

  predicate ForControlPlane(pc: PlanPc) {
    pc.Pausing? || pc.Patching? || pc.ReadingCp? || pc.ReadingMachines? || pc.EnteringWorkers?
  }

  predicate ForWorkers(pc: PlanPc) {
    pc.Unpausing? || pc.ReadingDeployments? || pc.FinishingStep? || pc.FinalUnpausing? || pc.FinishingPlan?
  }

  /** Steps before the current one are Completed, the current one shows the plan's phase, later ones are untouched. */
  ghost predicate StatusShows(plan: PlanStatus, steps: seq<Version>) {
    && |plan.steps| == |steps|
    && 0 <= plan.current < |steps|
    && forall j | 0 <= j < |steps| ::
         plan.steps[j] == StepStatus(steps[j],
                                     if j < plan.current then Completed
                                     else if j == plan.current then plan.phase
                                     else RollingControlPlane)
  }

  ghost predicate PlanInv(s: System) {
    var steps := Resolved(s.spec);
    && Distinct(steps) && NonEmpty(steps)
    && (s.plan.phase.Pending? ==> s.pc.Idle? && s.plan.current == 0)
    && (!s.plan.phase.Pending? && !s.plan.phase.Failed? ==> StatusShows(s.plan, steps))
    && (s.plan.phase.Completed? ==> s.plan.current == |steps| - 1)
    && (ForControlPlane(s.pc) ==> s.plan.phase.RollingControlPlane?)
    && (ForWorkers(s.pc) ==> s.plan.phase.RollingWorkers?)
    && (s.pc.FinalUnpausing? || s.pc.FinishingPlan? ==> s.plan.current == |steps| - 1)
  }

  lemma {:induction false} MarkStepHits(steps: seq<StepStatus>, k: int, phase: Phase)
    requires 0 <= k < |steps|
    requires forall i, j | 0 <= i < j < |steps| :: steps[i].version != steps[j].version
    ensures MarkStep(steps, steps[k].version, phase) == steps[k := steps[k].(phase := phase)]
  {
    if k > 0 {
      MarkStepHits(steps[1..], k - 1, phase);
    }
  }

  lemma MarkCurrent(s: System, phase: Phase)
    requires PlanInv(s) && StatusShows(s.plan, Resolved(s.spec))
    ensures MarkStep(s.plan.steps, CurrentStep(s), phase)
            == s.plan.steps[s.plan.current := StepStatus(CurrentStep(s), phase)]
  {
    MarkStepHits(s.plan.steps, s.plan.current, phase);
  }

  lemma PlanInvStarts(s: System, found: bool)
    requires PlanInv(s)
    ensures s.plan.phase.Pending? ==> PlanInv(Begin(s, found))
    ensures s.pc.Idle? && !s.plan.phase.Pending? && !s.plan.phase.Terminal() ==> PlanInv(Fail(s)) && PlanInv(Start(s))
  {
  }

  lemma PlanInvRollsControlPlane(s: System, found: bool, satisfied: bool, pick: Name)
    requires PlanInv(s)
    ensures s.pc.Pausing? ==> PlanInv(PauseOne(s, s.pc.todo, pick))
    ensures s.pc.Patching? ==> PlanInv(Patch(s))
    ensures s.pc.ReadingCp? ==> PlanInv(ReadCp(s, found))
    ensures s.pc.ReadingMachines? ==> PlanInv(ReadMachines(s, s.pc.cpVersion, s.pc.replicas, satisfied))
    ensures s.pc.EnteringWorkers? ==> PlanInv(EnterWorkers(s))
  {
    if s.pc.EnteringWorkers? { MarkCurrent(s, RollingWorkers); }
  }

  lemma PlanInvRollsWorkers(s: System, satisfied: bool, pick: Name)
    requires PlanInv(s)
    ensures s.pc.Unpausing? ==>
      PlanInv(UnpauseOne(s, s.pc.todo, pick, ReadingDeployments, Unpausing(s.pc.todo - {pick})))
    ensures s.pc.ReadingDeployments? ==> PlanInv(ReadDeployments(s, satisfied))
  {
  }

  lemma PlanInvFinishes(s: System, found: bool, pick: Name)
    requires PlanInv(s)
    ensures s.pc.FinishingStep? ==> PlanInv(FinishStep(s, found))
    ensures s.pc.FinalUnpausing? ==>
      PlanInv(UnpauseOne(s, s.pc.todo, pick, FinishingPlan, FinalUnpausing(s.pc.todo - {pick})))
    ensures s.pc.FinishingPlan? ==> PlanInv(FinishPlan(s))
  {
    if s.pc.FinishingStep? || s.pc.FinishingPlan? { MarkCurrent(s, Completed); }
  }

  lemma PlanInvNext(s: System, move: Move)
    requires PlanInv(s)
    ensures PlanInv(Next(s, move))
  {
    if move.Plan? {
      PlanInvStarts(s, move.found);
      PlanInvRollsControlPlane(s, move.found, move.satisfied, move.pick);
      PlanInvRollsWorkers(s, move.satisfied, move.pick);
      PlanInvFinishes(s, move.found, move.pick);
    }
  }

  // ---------------------------------------------------------------- the topology version

  /** Step indices in strictly increasing order, none above the bound. */
  ghost predicate Ascending(writes: seq<int>, bound: int) {
    && (forall a, b | 0 <= a < b < |writes| :: writes[a] < writes[b])
    && (forall a | 0 <= a < |writes| :: 0 <= writes[a] <= bound)
  }

  /** The version the last write left behind. */
  function Written(initial: Version, steps: seq<Version>, writes: seq<int>): Version {
    if writes == [] then initial
    else
      var last := writes[|writes| - 1];
      if 0 <= last < |steps| then steps[last] else ""
  }

  predicate TopologyReached(pc: PlanPc) {
    pc.ReadingCp? || pc.ReadingMachines? || pc.EnteringWorkers?
  }

  /**
    The topology was at `initial` when the plan started, and the control plane last settled at `origin`: the
    same version, unless a roll to the first step was already under way.
  */
  ghost predicate TopologyInv(s: System, initial: Version, origin: Version) {
    var steps := Resolved(s.spec);
    var k := s.plan.current;
    && s.topology == Written(initial, steps, s.writes)
    && (origin == initial || (steps != [] && steps[0] == initial))
    && (s.plan.phase.Pending? ==> s.writes == [] && s.base == origin)
    && (s.plan.phase.RollingControlPlane? ==>
          && s.base == Before(origin, steps, k)
          && (|| (s.topology == CurrentStep(s) && Ascending(s.writes, k))
              || (s.topology == s.base && Ascending(s.writes, k - 1))))
    && (s.plan.phase.RollingWorkers? || s.plan.phase.Completed? ==>
          s.base == CurrentStep(s) && s.topology == CurrentStep(s) && Ascending(s.writes, k))
    && (s.plan.phase.Failed? ==> Ascending(s.writes, |steps| - 1))
    && (TopologyReached(s.pc) ==> s.topology == CurrentStep(s))
  }

  /** Steps of the plan controller that neither write the topology version nor the plan status. */
  ghost predicate SamePlan(s: System, s': System) {
    && s'.spec == s.spec && s'.plan == s.plan && s'.topology == s.topology && s'.base == s.base && s'.writes == s.writes
    && (TopologyReached(s'.pc) ==> TopologyReached(s.pc))
  }

  lemma SamePlanKeepsTopology(s: System, s': System, initial: Version, origin: Version)
    requires PlanInv(s) && TopologyInv(s, initial, origin) && SamePlan(s, s')
    ensures TopologyInv(s', initial, origin)
  {
  }

  lemma SamePlanSteps(s: System, found: bool, satisfied: bool, pick: Name)
    ensures s.pc.Idle? ==> SamePlan(s, Start(s))
    ensures s.pc.Pausing? ==> SamePlan(s, PauseOne(s, s.pc.todo, pick))
    ensures s.pc.ReadingCp? ==> SamePlan(s, ReadCp(s, found))
    ensures s.pc.ReadingMachines? ==> SamePlan(s, ReadMachines(s, s.pc.cpVersion, s.pc.replicas, satisfied))
    ensures s.pc.Unpausing? ==>
      SamePlan(s, UnpauseOne(s, s.pc.todo, pick, ReadingDeployments, Unpausing(s.pc.todo - {pick})))
    ensures s.pc.ReadingDeployments? ==> SamePlan(s, ReadDeployments(s, satisfied))
    ensures s.pc.FinalUnpausing? ==>
      SamePlan(s, UnpauseOne(s, s.pc.todo, pick, FinishingPlan, FinalUnpausing(s.pc.todo - {pick})))
  {
  }

  lemma PatchKeepsTopology(s: System, initial: Version, origin: Version)
    requires PlanInv(s) && TopologyInv(s, initial, origin) && s.pc.Patching?
    ensures TopologyInv(Patch(s), initial, origin)
  {
  }

  lemma StatusStepsKeepTopology(s: System, initial: Version, origin: Version, found: bool)
    requires PlanInv(s) && TopologyInv(s, initial, origin)
    ensures s.plan.phase.Pending? ==> TopologyInv(Begin(s, found), initial, origin)
    ensures !s.plan.phase.Terminal() ==> TopologyInv(Fail(s), initial, origin)
  {
  }

  lemma PhaseStepsKeepTopology(s: System, initial: Version, origin: Version, found: bool)
    requires PlanInv(s) && TopologyInv(s, initial, origin)
    ensures s.pc.EnteringWorkers? ==> TopologyInv(EnterWorkers(s), initial, origin)
    ensures s.pc.FinishingStep? ==> TopologyInv(FinishStep(s, found), initial, origin)
    ensures s.pc.FinishingPlan? ==> TopologyInv(FinishPlan(s), initial, origin)
  {
  }

  lemma TopologyInvNext(s: System, initial: Version, origin: Version, move: Move)
    requires PlanInv(s) && TopologyInv(s, initial, origin)
    ensures TopologyInv(Next(s, move), initial, origin)
  {
    if move.Plan? {
      PlanStepsKeepTopology(s, initial, origin, move.found, move.satisfied, move.pick);
    } else {
      OtherStepsSamePlan(s, move);
      SamePlanKeepsTopology(s, Next(s, move), initial, origin);
    }
  }

  lemma OtherStepsSamePlan(s: System, move: Move)
    requires !move.Plan?
    ensures SamePlan(s, Next(s, move))
  {
  }

  lemma PlanStepsKeepTopology(
    s: System, initial: Version, origin: Version, found: bool, satisfied: bool, pick: Name)
    requires PlanInv(s) && TopologyInv(s, initial, origin)
    ensures TopologyInv(PlanStep(s, found, satisfied, pick), initial, origin)
  {
    if s.pc.Patching? {
      PatchKeepsTopology(s, initial, origin);
    } else if s.pc.EnteringWorkers? || s.pc.FinishingStep? || s.pc.FinishingPlan? {
      PhaseStepsKeepTopology(s, initial, origin, found);
    } else {
      StatusStepsKeepTopology(s, initial, origin, found);
      SamePlanSteps(s, found, satisfied, pick);
      if SamePlan(s, PlanStep(s, found, satisfied, pick)) {
        SamePlanKeepsTopology(s, PlanStep(s, found, satisfied, pick), initial, origin);
      }
    }
  }

  // ---------------------------------------------------------------- paused MachineDeployments

  predicate AllPaused(s: System, paused: bool) {
    forall d | d in s.deployments :: s.deployments[d].paused == paused
  }

  ghost predicate PauseInv(s: System) {
    && (s.base != s.topology ==> AllPaused(s, true))
    && (s.pc.Pausing? ==> forall d | d in s.deployments && d !in s.pc.todo :: s.deployments[d].paused)
    && (ForControlPlane(s.pc) && !s.pc.Pausing? ==> AllPaused(s, true))
    && (s.pc.Unpausing? ==> forall d | d in s.deployments && d !in s.pc.todo :: !s.deployments[d].paused)
    && (ForWorkers(s.pc) && !s.pc.Unpausing? ==> AllPaused(s, false))
    && (s.plan.phase.Completed? ==> AllPaused(s, false))
  }

  lemma PauseStarts(s: System, initial: Version, origin: Version, found: bool)
    requires PlanInv(s) && TopologyInv(s, initial, origin) && PauseInv(s)
    ensures s.plan.phase.Pending? ==> PauseInv(Begin(s, found))
    ensures s.pc.Idle? && !s.plan.phase.Pending? && !s.plan.phase.Terminal() ==> PauseInv(Fail(s)) && PauseInv(Start(s))
  {
  }

  lemma PauseRollsControlPlane(s: System, initial: Version, origin: Version, pick: Name)
    requires PlanInv(s) && TopologyInv(s, initial, origin) && PauseInv(s)
    ensures s.pc.Pausing? ==> PauseInv(PauseOne(s, s.pc.todo, pick))
    ensures s.pc.Patching? ==> PauseInv(Patch(s))
  {
  }

  lemma PauseWaitsForControlPlane(s: System, initial: Version, origin: Version, found: bool, satisfied: bool)
    requires PlanInv(s) && TopologyInv(s, initial, origin) && PauseInv(s)
    ensures s.pc.ReadingCp? ==> PauseInv(ReadCp(s, found))
    ensures s.pc.ReadingMachines? ==> PauseInv(ReadMachines(s, s.pc.cpVersion, s.pc.replicas, satisfied))
    ensures s.pc.EnteringWorkers? ==> PauseInv(EnterWorkers(s))
  {
  }

  lemma PauseRollsWorkers(s: System, initial: Version, origin: Version, satisfied: bool, pick: Name)
    requires PlanInv(s) && TopologyInv(s, initial, origin) && PauseInv(s)
    ensures s.pc.Unpausing? ==>
              PauseInv(UnpauseOne(s, s.pc.todo, pick, ReadingDeployments, Unpausing(s.pc.todo - {pick})))
    ensures s.pc.ReadingDeployments? ==> PauseInv(ReadDeployments(s, satisfied))
  {
  }

  lemma PauseFinishes(s: System, initial: Version, origin: Version, found: bool, pick: Name)
    requires PlanInv(s) && TopologyInv(s, initial, origin) && PauseInv(s)
    ensures s.pc.FinishingStep? ==> PauseInv(FinishStep(s, found))
    ensures s.pc.FinalUnpausing? ==>
              PauseInv(UnpauseOne(s, s.pc.todo, pick, FinishingPlan, FinalUnpausing(s.pc.todo - {pick})))
    ensures s.pc.FinishingPlan? ==> PauseInv(FinishPlan(s))
  {
  }

  lemma PausePlanSteps(s: System, initial: Version, origin: Version, found: bool, satisfied: bool, pick: Name)
    requires PlanInv(s) && TopologyInv(s, initial, origin) && PauseInv(s)
    ensures PauseInv(PlanStep(s, found, satisfied, pick))
  {
    if s.pc.Idle? {
      PauseStarts(s, initial, origin, found);
    } else if s.pc.Pausing? || s.pc.Patching? {
      PauseRollsControlPlane(s, initial, origin, pick);
    } else if ForControlPlane(s.pc) {
      PauseWaitsForControlPlane(s, initial, origin, found, satisfied);
    } else {
      PauseRollsWorkers(s, initial, origin, satisfied, pick);
      PauseFinishes(s, initial, origin, found, pick);
    }
  }

  /** The fleet and the control plane leave the pause annotations alone. */
  lemma PauseOtherSteps(s: System, move: Move)
    requires PauseInv(s) && !move.Plan?
    ensures PauseInv(Next(s, move))
  {
  }

  lemma PauseInvNext(s: System, initial: Version, origin: Version, move: Move)
    requires PlanInv(s) && TopologyInv(s, initial, origin) && PauseInv(s)
    ensures PauseInv(Next(s, move))
  {
    if move.Plan? {
      PausePlanSteps(s, initial, origin, move.found, move.satisfied, move.pick);
    } else {
      PauseOtherSteps(s, move);
    }
  }

  // ---------------------------------------------------------------- what a plan shows, on any control plane

  /** The templates of all MachineDeployments are at the topology version. */
  predicate AllStamped(s: System) {
    forall d | d in s.deployments :: s.deployments[d].template == s.topology
  }

  /** What the plan controller saw of the control plane object and of the templates stays so until the next write. */
  ghost predicate SeenInv(s: System) {
    && (s.pc.ReadingMachines? && s.pc.cpVersion == s.topology ==> s.world.cp.version == s.topology)
    && (s.pc.EnteringWorkers? ==> s.world.cp.version == s.topology)
    && (s.plan.phase.RollingWorkers? || s.plan.phase.Completed? ==> s.world.cp.version == s.topology)
    && (s.pc.FinishingStep? || s.pc.FinalUnpausing? || s.pc.FinishingPlan? || s.plan.phase.Completed? ==> AllStamped(s))
  }

  lemma SeenStarts(s: System, initial: Version, origin: Version, found: bool)
    requires PlanInv(s) && TopologyInv(s, initial, origin) && SeenInv(s)
    ensures s.plan.phase.Pending? ==> SeenInv(Begin(s, found))
    ensures s.pc.Idle? && !s.plan.phase.Pending? && !s.plan.phase.Terminal() ==> SeenInv(Fail(s)) && SeenInv(Start(s))
  {
  }

  lemma SeenRollsControlPlane(
    s: System, initial: Version, origin: Version, found: bool, satisfied: bool, pick: Name)
    requires PlanInv(s) && TopologyInv(s, initial, origin) && SeenInv(s)
    ensures s.pc.Pausing? ==> SeenInv(PauseOne(s, s.pc.todo, pick))
    ensures s.pc.Patching? ==> SeenInv(Patch(s))
    ensures s.pc.ReadingCp? ==> SeenInv(ReadCp(s, found))
    ensures s.pc.ReadingMachines? ==> SeenInv(ReadMachines(s, s.pc.cpVersion, s.pc.replicas, satisfied))
    ensures s.pc.EnteringWorkers? ==> SeenInv(EnterWorkers(s))
  {
  }

  lemma SeenRollsWorkers(s: System, initial: Version, origin: Version, found: bool, satisfied: bool, pick: Name)
    requires PlanInv(s) && TopologyInv(s, initial, origin) && SeenInv(s)
    ensures s.pc.Unpausing? ==>
      SeenInv(UnpauseOne(s, s.pc.todo, pick, ReadingDeployments, Unpausing(s.pc.todo - {pick})))
    ensures s.pc.ReadingDeployments? ==> SeenInv(ReadDeployments(s, satisfied))
    ensures s.pc.FinishingStep? ==> SeenInv(FinishStep(s, found))
    ensures s.pc.FinalUnpausing? ==>
      SeenInv(UnpauseOne(s, s.pc.todo, pick, FinishingPlan, FinalUnpausing(s.pc.todo - {pick})))
    ensures s.pc.FinishingPlan? ==> SeenInv(FinishPlan(s))
  {
  }

  /** The reconciler never changes the spec it is told. */
  lemma VersionKept(w: CP.World, move: CP.Move)
    requires !move.SetSpec?
    ensures var cp := CP.Next(w, move).cp; cp.version == w.cp.version && cp.replicas == w.cp.replicas
  {
    if move.Go? {
      if w.pc.Recording? || w.pc.Clearing? {
        RecordKeepsVersion(w, move.pick, move.data);
      } else {
        StepsThatKeepCp(w, move.pick, move.data);
      }
    }
  }

  lemma RecordKeepsVersion(w: CP.World, pick: Name, data: string)
    requires w.pc.Recording? || w.pc.Clearing?
    ensures var cp := CP.Advance(w, pick, data).cp; cp.version == w.cp.version && cp.replicas == w.cp.replicas
  {
  }

  lemma SeenOtherSteps(s: System, move: Move)
    requires SeenInv(s) && !move.Plan?
    ensures SeenInv(Next(s, move))
  {
    if move.ControlPlane? && !move.move.SetSpec? { VersionKept(s.world, move.move); }
  }

  lemma SeenInvNext(s: System, initial: Version, origin: Version, move: Move)
    requires PlanInv(s) && TopologyInv(s, initial, origin) && SeenInv(s)
    ensures SeenInv(Next(s, move))
  {
    if !move.Plan? {
      SeenOtherSteps(s, move);
    } else if s.pc.Idle? {
      SeenStarts(s, initial, origin, move.found);
    } else if ForControlPlane(s.pc) {
      SeenRollsControlPlane(s, initial, origin, move.found, move.satisfied, move.pick);
    } else {
      SeenRollsWorkers(s, initial, origin, move.found, move.satisfied, move.pick);
    }
  }

  /** What holds of a plan whatever the control plane's replicas and their state. */
  ghost predicate PlanOnlyInv(s: System, initial: Version) {
    PlanInv(s) && TopologyInv(s, initial, initial) && PauseInv(s) && SeenInv(s)
  }

  lemma PlanOnlyInvNext(s: System, initial: Version, move: Move)
    requires PlanOnlyInv(s, initial)
    ensures PlanOnlyInv(Next(s, move), initial)
  {
    PlanInvNext(s, move);
    TopologyInvNext(s, initial, initial, move);
    PauseInvNext(s, initial, initial, move);
    SeenInvNext(s, initial, initial, move);
  }

  // ---------------------------------------------------------------- the control plane

  /** A recorded replacement is for a step already taken, or for the step under way. */
  ghost predicate RecordedForPast(s: System) {
    s.world.cp.replacement.Some? && !s.plan.phase.Failed? ==>
      var target := s.world.cp.replacement.value.target;
      || (exists j :: 0 <= j < s.plan.current && j < |Resolved(s.spec)| && Resolved(s.spec)[j] == target)
      || (target == s.topology && target == CurrentStep(s))
  }

  ghost predicate ControlPlaneInv(s: System) {
    && Replacing(s.world, s.base, s.topology)
    && RecordedForPast(s)
    && (s.pc.ReadingMachines? && s.pc.cpVersion == s.topology ==> s.world.cp.version == s.topology)
    && (s.pc.ReadingMachines? ==> s.pc.replicas == 1)
    && (s.pc.EnteringWorkers? ==> Replacing(s.world, s.topology, s.topology))
  }

  ghost predicate SystemInv(s: System, initial: Version, origin: Version) {
    PlanInv(s) && TopologyInv(s, initial, origin) && ControlPlaneInv(s)
  }

  lemma StepsThatKeepCp(w: CP.World, pick: Name, data: string)
    ensures w.pc.Choosing? ==> CP.Choose(w, w.pc.cp, pick).cp == w.cp
    ensures w.pc.Capturing? ==> CP.Capture(w, w.pc.cp, w.pc.name, data).cp == w.cp
    ensures w.pc.Writing? ==> CP.WriteFile(w, w.pc.cp, w.pc.name, w.pc.snapshot).cp == w.cp
    ensures w.pc.DeletingMachine? ==> CP.DeleteMachine(w, w.pc.cp, w.pc.name).cp == w.cp
    ensures w.pc.DeletingConfig? ==> CP.DeleteConfig(w, w.pc.cp, w.pc.name).cp == w.cp
    ensures w.pc.DeletingInfra? ==> CP.DeleteInfra(w, w.pc.cp, w.pc.name).cp == w.cp
    ensures w.pc.Checking? ==> CP.Check(w, w.pc.cp).cp == w.cp
    ensures w.pc.Creating? ==> CP.CreateNext(w, w.pc.cp, w.pc.index).cp == w.cp
    ensures w.pc.CreatingConfig? ==> CP.CreateConfig(w, w.pc.cp, w.pc.index).cp == w.cp
    ensures w.pc.CreatingMachine? ==> CP.CreateMachine(w, w.pc.cp, w.pc.index).cp == w.cp
    ensures w.pc.EnsuringInfra? ==> CP.EnsureInfra(w, w.pc.cp, w.pc.index, w.pc.uid).cp == w.cp
    ensures w.pc.ScalingDown? ==> CP.ScaleDown(w, w.pc.cp, w.pc.todo, pick).cp == w.cp
  {
  }

  /** A new record is for the version being rolled to, and only while one is being rolled to. */
  lemma RecordsOnlyGoal(w: CP.World, from: Version, goal: Version, move: CP.Move)
    requires Replacing(w, from, goal) && !move.SetSpec?
    ensures var r' := CP.Next(w, move).cp.replacement;
            r' == w.cp.replacement || r'.None? || (from != goal && r'.value.target == goal)
    ensures CP.Next(w, move).cp.version == w.cp.version
  {
    if move.Go? { StepsThatKeepCp(w, move.pick, move.data); }
  }

  /** Records made while a version is rolled out are for the step under way. */
  lemma MovesRecord(s: System, initial: Version, origin: Version, move: CP.Move)
    requires SystemInv(s, initial, origin) && !move.SetSpec?
    ensures RecordedForPast(s.(world := CP.Next(s.world, move)))
      && CP.Next(s.world, move).cp.version == s.world.cp.version
  {
    RecordsOnlyGoal(s.world, s.base, s.topology, move);
  }

  lemma ControlPlaneMoves(s: System, initial: Version, origin: Version, move: CP.Move)
    requires SystemInv(s, initial, origin)
    ensures ControlPlaneInv(ControlPlaneStep(s, move))
  {
    if !move.SetSpec? {
      ReplacingNext(s.world, s.base, s.topology, move);
      MovesRecord(s, initial, origin, move);
      if s.pc.EnteringWorkers? { ReplacingNext(s.world, s.topology, s.topology, move); }
    }
  }

  lemma PropagationMoves(s: System, initial: Version, origin: Version)
    requires SystemInv(s, initial, origin)
    ensures ControlPlaneInv(PropagateVersion(s))
  {
    ReplacingPropagates(s.world, s.base, s.topology);
    if s.pc.EnteringWorkers? { ReplacingPropagates(s.world, s.topology, s.topology); }
  }

  /** The plan moves the version only while the control plane is settled at the previous one. */
  lemma PatchMoves(s: System, initial: Version, origin: Version)
    requires SystemInv(s, initial, origin) && s.pc.Patching?
    ensures ControlPlaneInv(Patch(s))
  {
    if s.topology != CurrentStep(s) && s.classy {
      ReplacingStarts(s.world, s.base, CurrentStep(s));
    }
  }

  /** Observing the step's version on the control plane object and on its Machine means that the roll is over. */
  lemma ReadMachinesMoves(s: System, initial: Version, origin: Version, satisfied: bool)
    requires SystemInv(s, initial, origin) && s.pc.ReadingMachines?
    ensures ControlPlaneInv(ReadMachines(s, s.pc.cpVersion, s.pc.replicas, satisfied))
  {
    if satisfied && ControlPlaneAt(s, s.pc.cpVersion, s.pc.replicas, CurrentStep(s)) {
      assert |s.world.machines.Keys| >= 1;
      ReplacingEnds(s.world, s.base, s.topology);
    }
  }

  lemma EnterWorkersMoves(s: System, initial: Version, origin: Version)
    requires SystemInv(s, initial, origin) && s.pc.EnteringWorkers?
    ensures ControlPlaneInv(EnterWorkers(s))
  {
  }

  lemma FinishStepMoves(s: System, initial: Version, origin: Version, found: bool)
    requires SystemInv(s, initial, origin) && s.pc.FinishingStep?
    ensures ControlPlaneInv(FinishStep(s, found))
  {
  }

  /** Steps after which neither the control plane, nor the versions it rolls between, nor the current step differ. */
  ghost predicate SameControlPlane(s: System, s': System) {
    && s'.spec == s.spec && s'.world == s.world && s'.base == s.base && s'.topology == s.topology
    && (s'.plan.phase.Failed? || (s'.plan.current == s.plan.current && !s.plan.phase.Failed?))
    && !s'.pc.EnteringWorkers?
    && (s'.pc.ReadingMachines? ==> s'.pc == ReadingMachines(s.world.cp.version, s.world.cp.Desired()))
  }

  lemma SameControlPlaneSteps(s: System, initial: Version, origin: Version, found: bool, satisfied: bool, pick: Name)
    requires SystemInv(s, initial, origin)
    ensures s.plan.phase.Pending? ==> SameControlPlane(s, Begin(s, found))
    ensures s.pc.Idle? && !s.plan.phase.Terminal() ==> SameControlPlane(s, Fail(s)) && SameControlPlane(s, Start(s))
    ensures s.pc.Pausing? ==> SameControlPlane(s, PauseOne(s, s.pc.todo, pick))
    ensures s.pc.ReadingCp? ==> SameControlPlane(s, ReadCp(s, found))
    ensures s.pc.Unpausing? ==>
      SameControlPlane(s, UnpauseOne(s, s.pc.todo, pick, ReadingDeployments, Unpausing(s.pc.todo - {pick})))
    ensures s.pc.ReadingDeployments? ==> SameControlPlane(s, ReadDeployments(s, satisfied))
    ensures s.pc.FinalUnpausing? ==>
      SameControlPlane(s, UnpauseOne(s, s.pc.todo, pick, FinishingPlan, FinalUnpausing(s.pc.todo - {pick})))
    ensures s.pc.FinishingPlan? ==> SameControlPlane(s, FinishPlan(s))
  {
  }

  lemma SameControlPlaneKeeps(s: System, s': System, initial: Version, origin: Version)
    requires SystemInv(s, initial, origin) && SameControlPlane(s, s')
    ensures ControlPlaneInv(s')
  {
  }

  lemma PlanStepsKeepControlPlane(
    s: System, initial: Version, origin: Version, found: bool, satisfied: bool, pick: Name)
    requires SystemInv(s, initial, origin)
    ensures ControlPlaneInv(PlanStep(s, found, satisfied, pick))
  {
    SameControlPlaneSteps(s, initial, origin, found, satisfied, pick);
    var s' := PlanStep(s, found, satisfied, pick);
    if s.pc.Patching? {
      PatchMoves(s, initial, origin);
    } else if s.pc.ReadingMachines? {
      ReadMachinesMoves(s, initial, origin, satisfied);
    } else if s.pc.EnteringWorkers? {
      EnterWorkersMoves(s, initial, origin);
    } else if s.pc.FinishingStep? {
      FinishStepMoves(s, initial, origin, found);
    } else if s.pc.Idle? && s.plan.phase.Terminal() {
    } else {
      SameControlPlaneKeeps(s, s', initial, origin);
    }
  }

  lemma SystemInvNext(s: System, initial: Version, origin: Version, move: Move)
    requires SystemInv(s, initial, origin)
    ensures SystemInv(Next(s, move), initial, origin)
  {
    PlanInvNext(s, move);
    TopologyInvNext(s, initial, origin, move);
    match move
    case Plan(found, satisfied, pick) => PlanStepsKeepControlPlane(s, initial, origin, found, satisfied, pick);
    case ControlPlane(m) => ControlPlaneMoves(s, initial, origin, m);
    case Propagate => PropagationMoves(s, initial, origin);
    case PlanCrash =>
    case Template(d) =>
    case Rollout(d) =>
    case Worker(w, d) =>
  }
}
