/**
  An upgrade as one system: the plan controller, the control-plane reconciler, the topology
  controller and the MachineDeployments of one Cluster. Every field is API state except the two
  program counters and the history at the end.
*/
module Upgrade {
  import CP = ControlPlane

  type Version = string
  type Name = string

  datatype Phase = Pending | RollingControlPlane | RollingWorkers | Completed | Failed {
    predicate Terminal() { this.Completed? || this.Failed? }
  }

  datatype StepStatus = StepStatus(version: Version, phase: Phase)

  datatype PlanStatus = PlanStatus(phase: Phase, current: int, steps: seq<StepStatus>)

  /**
    `less` is semver precedence on valid versions (section 11 of Semantic Versioning 2.0.0), false when either
    is invalid.
  */
  datatype PlanSpec = PlanSpec(toVersion: Version, steps: seq<Version>, less: (Version, Version) -> bool)

  /** The declared steps, or the single target version when none is declared. */
  function Resolved(spec: PlanSpec): seq<Version> {
    if spec.steps != [] then spec.steps else [spec.toVersion]
  }

  /** A MachineDeployment: its pause annotation, its template, and the version its current MachineSet stamps. */
  datatype Deployment = Deployment(paused: bool, template: Version, rollout: Version)

  datatype PlanPc =
    | Idle
    | Pausing(todo: set<Name>)
    | Patching
    | ReadingCp
    | ReadingMachines(cpVersion: Version, replicas: int)
    | EnteringWorkers
    | Unpausing(todo: set<Name>)
    | ReadingDeployments
    | FinishingStep
    | FinalUnpausing(todo: set<Name>)
    | FinishingPlan

  datatype System = System(
    spec: PlanSpec,
    images: set<Version>,
    classy: bool,
    plan: PlanStatus,
    pc: PlanPc,
    topology: Version,
    world: CP.World,
    deployments: map<Name, Deployment>,
    workers: map<Name, Version>,
    // history: the version the control plane last settled at, and the step index of every topology write
    base: Version,
    writes: seq<int>)

  datatype Move =
    | Plan(found: bool, satisfied: bool, pick: Name)
    | PlanCrash
    | ControlPlane(move: CP.Move)
    | Propagate
    | Template(deployment: Name)
    | Rollout(deployment: Name)
    | Worker(worker: Name, deployment: Name)

  /** Sets the phase of the first step status that carries the version. */
  function MarkStep(steps: seq<StepStatus>, version: Version, phase: Phase): seq<StepStatus> {
    if steps == [] then []
    else if steps[0].version == version then [steps[0].(phase := phase)] + steps[1..]
    else [steps[0]] + MarkStep(steps[1..], version, phase)
  }

  function InitialSteps(steps: seq<Version>): seq<StepStatus> {
    seq(|steps|, i requires 0 <= i < |steps| => StepStatus(steps[i], RollingControlPlane))
  }

  function CurrentStep(s: System): Version {
    var steps := Resolved(s.spec);
    if 0 <= s.plan.current < |steps| then steps[s.plan.current] else ""
  }

  function CurrentClusterVersion(s: System): Version {
    if s.world.cp.version != "" then s.world.cp.version else s.topology
  }

  /** What beginPlan demands, once the infrastructure and control plane objects are found. */
  predicate Preflight(s: System) {
    var current := CurrentClusterVersion(s);
    && s.world.cp.Desired() == 1
    && (current != "" && s.spec.toVersion != "" ==> s.spec.less(current, s.spec.toVersion))
    && forall step | step in Resolved(s.spec) :: step in s.images
  }

  function Fail(s: System): System {
    s.(plan := s.plan.(phase := Failed), pc := Idle)
  }

  function Begin(s: System, found: bool): System {
    s.(plan := if found && Preflight(s) then PlanStatus(RollingControlPlane, 0, InitialSteps(Resolved(s.spec)))
               else s.plan.(phase := Failed))
  }

  function PausedOnes(s: System, paused: bool): set<Name> {
    set d | d in s.deployments && s.deployments[d].paused == paused
  }

  function Start(s: System): System {
    s.(pc := if s.plan.current >= |Resolved(s.spec)| then FinalUnpausing(PausedOnes(s, true))
             else if s.plan.phase.RollingControlPlane? then Pausing(PausedOnes(s, false))
             else Unpausing(PausedOnes(s, true)))
  }

  function SetPaused(deployments: map<Name, Deployment>, d: Name, paused: bool): map<Name, Deployment> {
    if d in deployments then deployments[d := deployments[d].(paused := paused)] else deployments
  }

  function PauseOne(s: System, todo: set<Name>, pick: Name): System {
    s.(deployments := if pick in todo then SetPaused(s.deployments, pick, true) else s.deployments,
       pc := if todo == {} then Patching else Pausing(todo - {pick}))
  }

  function Patch(s: System): System {
    var writes := s.topology != CurrentStep(s) && s.classy;
    s.(topology := if writes then CurrentStep(s) else s.topology,
       writes := if writes then s.writes + [s.plan.current] else s.writes,
       plan := if s.topology != CurrentStep(s) && !s.classy then s.plan.(phase := Failed) else s.plan,
       pc := if s.topology != CurrentStep(s) then Idle else ReadingCp)
  }

  function ReadCp(s: System, found: bool): System {
    s.(pc := if found then ReadingMachines(s.world.cp.version, s.world.cp.Desired()) else Idle)
  }

  predicate ControlPlaneAt(s: System, cpVersion: Version, replicas: int, step: Version) {
    && cpVersion == step && |s.world.machines| >= replicas
    && forall n | n in s.world.machines :: s.world.machines[n].version == step
  }

  /** `satisfied` stands for the readiness the control plane reports. */
  function ReadMachines(s: System, cpVersion: Version, replicas: int, satisfied: bool): System {
    s.(pc := if satisfied && ControlPlaneAt(s, cpVersion, replicas, CurrentStep(s)) then EnteringWorkers else Idle)
  }

  function EnterWorkers(s: System): System {
    s.(plan := PlanStatus(RollingWorkers, s.plan.current, MarkStep(s.plan.steps, CurrentStep(s), RollingWorkers)),
       base := s.topology,
       pc := Idle)
  }

  function UnpauseOne(s: System, todo: set<Name>, pick: Name, done: PlanPc, more: PlanPc): System {
    s.(deployments := if pick in todo then SetPaused(s.deployments, pick, false) else s.deployments,
       pc := if todo == {} then done else more)
  }

  /** `satisfied` stands for the replica counters of every MachineDeployment. */
  function ReadDeployments(s: System, satisfied: bool): System {
    s.(pc := if satisfied && (forall d | d in s.deployments :: s.deployments[d].template == CurrentStep(s))
             then FinishingStep else Idle)
  }

  function FinishStep(s: System, found: bool): System {
    var last := s.plan.current + 1 >= |Resolved(s.spec)|;
    s.(plan := if last then s.plan
               else PlanStatus(RollingControlPlane, s.plan.current + 1,
                   MarkStep(s.plan.steps, CurrentStep(s), Completed)),
       pc := if !last then Idle else if found then FinalUnpausing(PausedOnes(s, true)) else FinishingPlan)
  }

  function FinishPlan(s: System): System {
    s.(plan := PlanStatus(Completed, s.plan.current, MarkStep(s.plan.steps, CurrentStep(s), Completed)), pc := Idle)
  }

  function PlanStep(s: System, found: bool, satisfied: bool, pick: Name): System {
    match s.pc
    case Idle =>
      if s.plan.phase.Terminal() then s
      else if s.plan.phase.Pending? then Begin(s, found)
      else if !found then Fail(s)
      else Start(s)
    case Pausing(todo) => PauseOne(s, todo, pick)
    case Patching => Patch(s)
    case ReadingCp => ReadCp(s, found)
    case ReadingMachines(cpVersion, replicas) => ReadMachines(s, cpVersion, replicas, satisfied)
    case EnteringWorkers => EnterWorkers(s)
    case Unpausing(todo) => UnpauseOne(s, todo, pick, ReadingDeployments, Unpausing(todo - {pick}))
    case ReadingDeployments => ReadDeployments(s, satisfied)
    case FinishingStep => FinishStep(s, found)
    case FinalUnpausing(todo) => UnpauseOne(s, todo, pick, FinishingPlan, FinalUnpausing(todo - {pick}))
    case FinishingPlan => FinishPlan(s)
  }

  /** The control plane spec follows the topology; nothing else changes it. */
  function ControlPlaneStep(s: System, move: CP.Move): System {
    s.(world := if move.SetSpec? then s.world else CP.Next(s.world, move))
  }

  function PropagateVersion(s: System): System {
    s.(world := CP.ChangeSpec(s.world, s.topology, s.world.cp.replicas))
  }

  /** The topology controller stamps the template, paused or not. */
  function StampTemplate(s: System, d: Name): System {
    s.(deployments :=
         if d in s.deployments then s.deployments[d := s.deployments[d].(template := s.topology)] else s.deployments)
  }

  /** A MachineDeployment starts rolling its template only while it is not paused. */
  function StartRollout(s: System, d: Name): System {
    s.(deployments :=
         if d in s.deployments && !s.deployments[d].paused
         then s.deployments[d := s.deployments[d].(rollout := s.deployments[d].template)] else s.deployments)
  }

  /** Its MachineSet creates worker Machines even after the pause. */
  function CreateWorker(s: System, worker: Name, d: Name): System {
    s.(workers := if d in s.deployments then s.workers[worker := s.deployments[d].rollout] else s.workers)
  }

  function Next(s: System, move: Move): System {
    match move
    case Plan(found, satisfied, pick) => PlanStep(s, found, satisfied, pick)
    case PlanCrash => s.(pc := Idle)
    case ControlPlane(m) => ControlPlaneStep(s, m)
    case Propagate => PropagateVersion(s)
    case Template(d) => StampTemplate(s, d)
    case Rollout(d) => StartRollout(s, d)
    case Worker(w, d) => CreateWorker(s, w, d)
  }
}
