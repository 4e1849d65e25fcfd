/** The guarantees of an upgrade, over every run. */
module UpgradeTheorems {
  import opened Names
  import opened Upgrade
  import opened ReplaceInPlace
  import opened UpgradeSafety
  import Runs
  import CP = ControlPlane

  // ---------------------------------------------------------------- starts

  /** A plan not yet started, with distinct non-empty steps. */
  ghost predicate Unstarted(s: System) {
    && s.plan == PlanStatus(Pending, 0, []) && s.pc.Idle? && s.writes == []
    && Distinct(Resolved(s.spec)) && NonEmpty(Resolved(s.spec))
  }

  /** Such a plan on any control plane, of any number of replicas and in any state. */
  ghost predicate PlanFresh(s: System) {
    Unstarted(s) && s.base == s.topology
  }

  /**
    One replica, between `from` and `to`: the object may still carry the one and the Machine the other, but
    nothing is on record or under deletion and no reconcile is running.
  */
  ghost predicate AtRest(w: CP.World, from: Version, to: Version) {
    && RoundTrips(w.naming) && from != "" && to != ""
    && w.pc.Idle? && (w.cp.version == from || w.cp.version == to) && w.cp.Desired() == 1 && w.cp.replacement.None?
    && w.machines.Keys <= {Sole(w)} && w.configs.Keys <= {Sole(w)} && w.infras.Keys <= {Sole(w)}
    && (Sole(w) in w.machines ==>
          var machine := w.machines[Sole(w)];
          && !machine.deleting && (machine.version == "" || machine.version == from || machine.version == to)
          && (machine.version == to ==> w.cp.version == to))
    && (forall n | n in w.infras :: n in w.machines && w.infras[n].owner == w.machines[n].uid)
    && w.owed == map[] && w.drops == [] && w.births == []
  }

  /** The control plane runs the desired version, or carries none. */
  ghost predicate Settled(w: CP.World, version: Version) {
    AtRest(w, version, version)
  }

  ghost predicate Fresh(s: System) {
    PlanFresh(s) && Settled(s.world, s.topology)
  }

  /**
    A plan not yet started on a cluster whose sole control-plane Machine may be anywhere on the way from `from`
    to the topology version. Only a roll in flight may be on record.
  */
  ghost predicate RollStart(s: System, from: Version) {
    && Unstarted(s) && s.base == from && Replacing(s.world, from, s.topology)
    && (s.world.cp.replacement.Some? ==> from != s.topology && s.world.cp.replacement.value.target == s.topology)
  }

  /** Every state at rest is such a start, and so is what the reconciler makes of it. */
  lemma AtRestReplaces(w: CP.World, from: Version, to: Version)
    requires AtRest(w, from, to)
    ensures Replacing(w, from, to)
  {
  }

  lemma FreshStart(s: System)
    requires Fresh(s)
    ensures RollStart(s, s.topology)
  {
    AtRestReplaces(s.world, s.topology, s.topology);
  }

  lemma RollStartsInvariant(s: System, from: Version)
    requires RollStart(s, from) && (from == s.topology || Resolved(s.spec)[0] == s.topology)
    ensures SystemInv(s, s.topology, from)
  {
  }

  /** Steps that touch neither the spec, nor the versions rolled between, nor any worker or template version. */
  ghost predicate SameFleet(s: System, s': System) {
    && s'.spec == s.spec && s'.base == s.base && s'.topology == s.topology && s'.workers == s.workers
    && s'.deployments.Keys == s.deployments.Keys
    && forall d | d in s.deployments ::
         s'.deployments[d].rollout == s.deployments[d].rollout
           && s'.deployments[d].template == s.deployments[d].template
  }

  lemma SameFleetSteps(s: System, found: bool, satisfied: bool, pick: Name)
    ensures SameFleet(s, Begin(s, found)) && SameFleet(s, Fail(s)) && SameFleet(s, Start(s))
    ensures s.pc.Pausing? ==> SameFleet(s, PauseOne(s, s.pc.todo, pick))
    ensures SameFleet(s, ReadCp(s, found))
    ensures s.pc.ReadingMachines? ==> SameFleet(s, ReadMachines(s, s.pc.cpVersion, s.pc.replicas, satisfied))
  {
  }

  lemma SameFleetWorkerSteps(s: System, found: bool, satisfied: bool, pick: Name)
    ensures s.pc.Unpausing? ==>
      SameFleet(s, UnpauseOne(s, s.pc.todo, pick, ReadingDeployments, Unpausing(s.pc.todo - {pick})))
    ensures SameFleet(s, ReadDeployments(s, satisfied)) && SameFleet(s, FinishStep(s, found))
      && SameFleet(s, FinishPlan(s))
    ensures s.pc.FinalUnpausing? ==>
      SameFleet(s, UnpauseOne(s, s.pc.todo, pick, FinishingPlan, FinalUnpausing(s.pc.todo - {pick})))
  {
  }

  /** All plan steps but the topology write and the entry into the workers phase leave the fleet alone. */
  lemma SameFleetPlanSteps(s: System, found: bool, satisfied: bool, pick: Name)
    requires !s.pc.Patching? && !s.pc.EnteringWorkers?
    ensures SameFleet(s, PlanStep(s, found, satisfied, pick))
  {
    if s.pc.Idle? || ForControlPlane(s.pc) {
      SameFleetSteps(s, found, satisfied, pick);
    } else {
      SameFleetWorkerSteps(s, found, satisfied, pick);
    }
  }

  lemma SpecStays(s: System, move: Move)
    ensures Next(s, move).spec == s.spec
  {
    if move.Plan? && !s.pc.Patching? && !s.pc.EnteringWorkers? {
      SameFleetPlanSteps(s, move.found, move.satisfied, move.pick);
    }
  }

  ghost predicate SystemInvOf(spec: PlanSpec, initial: Version, origin: Version, s: System) {
    SystemInv(s, initial, origin) && s.spec == spec
  }

  lemma SystemInvHolds(s: System, from: Version, moves: seq<Move>)
    requires RollStart(s, from) && (from == s.topology || Resolved(s.spec)[0] == s.topology)
    ensures SystemInvOf(s.spec, s.topology, from, Runs.Exec(Next, s, moves))
  {
    RollStartsInvariant(s, from);
    forall t: System, m: Move | SystemInvOf(s.spec, s.topology, from, t)
      ensures SystemInvOf(s.spec, s.topology, from, Next(t, m))
    {
      SpecStays(t, m);
      SystemInvNext(t, s.topology, from, m);
    }
    Runs.InvariantHolds(Next, t => SystemInvOf(s.spec, s.topology, from, t), s, moves);
  }

  // ---------------------------------------------------------------- snapshots

  /** The preflight rejects the plan for want of an advance on the cluster's version. */
  predicate NoAdvance(spec: PlanSpec, initial: Version) {
    initial != "" && spec.toVersion != "" && !spec.less(initial, spec.toVersion)
  }

  /** Either no roll is in flight, or the plan's first step is that very roll, or the plan fails its preflight. */
  predicate LeavesRollAlone(spec: PlanSpec, from: Version, topology: Version) {
    || from == topology
    || Resolved(spec)[0] == topology
    || (NoAdvance(spec, from) && NoAdvance(spec, topology))
  }

  /** A plan that never gets past its preflight, beside a roll in flight. */
  ghost predicate RefusedRoll(s: System, from: Version, initial: Version) {
    && NoAdvance(s.spec, from) && NoAdvance(s.spec, initial) && s.topology == initial
    && (s.plan.phase.Pending? || s.plan.phase.Failed?) && s.pc.Idle? && Replacing(s.world, from, initial)
  }

  lemma RefusedRollNext(s: System, from: Version, initial: Version, move: Move)
    requires RefusedRoll(s, from, initial)
    ensures RefusedRoll(Next(s, move), from, initial)
  {
    match move
    case Plan(found, satisfied, pick) => assert !Preflight(s);
    case ControlPlane(m) => if !m.SetSpec? { ReplacingNext(s.world, from, initial, m); }
    case Propagate => ReplacingPropagates(s.world, from, initial);
    case _ =>
  }

  ghost predicate AllRestore(s: System) {
    forall b | b in s.world.births :: RestoresPredecessor(b)
  }

  /**
    Under every interleaving of the plan controller, the control-plane reconciler, the topology
    controller and object reclamation, with crashes anywhere: a control-plane Machine created after a
    drift deletion starts from a config that names the snapshot file of exactly its own version, and
    that file is not empty and was captured from the very Machine it replaces. A roll may be in flight when
    the plan starts, as long as the plan leaves it alone.
  */
  lemma SuccessorsRestorePredecessors(s: System, from: Version, moves: seq<Move>)
    requires RollStart(s, from) && LeavesRollAlone(s.spec, from, s.topology)
    ensures AllRestore(Runs.Exec(Next, s, moves))
  {
    if from == s.topology || Resolved(s.spec)[0] == s.topology {
      SystemInvHolds(s, from, moves);
    } else {
      forall t: System, m: Move | RefusedRoll(t, from, s.topology)
        ensures RefusedRoll(Next(t, m), from, s.topology)
      {
        RefusedRollNext(t, from, s.topology, m);
      }
      Runs.InvariantHolds(Next, t => RefusedRoll(t, from, s.topology), s, moves);
    }
  }

  // ---------------------------------------------------------------- the plan's own status

  ghost predicate PlanOnlyInvOf(spec: PlanSpec, initial: Version, s: System) {
    PlanOnlyInv(s, initial) && s.spec == spec
  }

  lemma PlanOnlyInvHolds(s: System, moves: seq<Move>)
    requires PlanFresh(s)
    ensures PlanOnlyInvOf(s.spec, s.topology, Runs.Exec(Next, s, moves))
  {
    forall t: System, m: Move | PlanOnlyInvOf(s.spec, s.topology, t)
      ensures PlanOnlyInvOf(s.spec, s.topology, Next(t, m))
    {
      SpecStays(t, m);
      PlanOnlyInvNext(t, s.topology, m);
    }
    Runs.InvariantHolds(Next, t => PlanOnlyInvOf(s.spec, s.topology, t), s, moves);
  }

  /** In every reachable state the status of a started plan shows exactly how far it is. */
  lemma StatusFollowsPlan(s: System, moves: seq<Move>)
    requires PlanFresh(s)
    ensures var end := Runs.Exec(Next, s, moves);
            end.plan.phase.Pending? || end.plan.phase.Failed? || StatusShows(end.plan, Resolved(s.spec))
  {
    PlanOnlyInvHolds(s, moves);
  }

  function Progress(plan: PlanStatus): int {
    match plan.phase
    case Pending => 0
    case RollingControlPlane => 2 * plan.current + 1
    case RollingWorkers => 2 * plan.current + 2
    case Completed => 2 * plan.current + 3
    case Failed => 0
  }

  predicate Forward(p: PlanStatus, q: PlanStatus) {
    && (p.phase.Terminal() ==> q == p)
    && (q.phase.Failed? || Progress(p) <= Progress(q))
  }

  predicate PlanForward(s: System, t: System) {
    Forward(s.plan, t.plan)
  }

  lemma ForwardNext(s: System, move: Move)
    requires PlanInv(s)
    ensures PlanForward(s, Next(s, move))
  {
    if move.Plan? {
      assert !s.pc.Idle? ==> !s.plan.phase.Terminal();
    }
  }

  /** (current step, phase) only moves forward, and Completed and Failed are final. */
  lemma PlanNeverGoesBack(s: System, before: seq<Move>, after: seq<Move>)
    requires PlanFresh(s)
    ensures Forward(Runs.Exec(Next, s, before).plan, Runs.Exec(Next, s, before + after).plan)
  {
    var middle := Runs.Exec(Next, s, before);
    PlanOnlyInvHolds(s, before);
    forall t: System, m: Move | PlanInv(t)
      ensures PlanInv(Next(t, m)) && PlanForward(t, Next(t, m))
    {
      PlanInvNext(t, m);
      ForwardNext(t, m);
    }
    Runs.RelationHolds(Next, t => PlanInv(t), PlanForward, middle, after);
    Runs.ExecConcat(Next, s, before, after);
  }

  /**
    A completed plan left the topology, the control plane object and the template of every MachineDeployment at
    its last step, and no MachineDeployment paused.
  */
  lemma CompletedMeansDone(s: System, moves: seq<Move>)
    requires PlanFresh(s)
    ensures var end := Runs.Exec(Next, s, moves);
            var steps := Resolved(s.spec);
            end.plan.phase.Completed? ==>
              && |steps| > 0 && end.topology == steps[|steps| - 1] && end.world.cp.version == end.topology
              && forall d | d in end.deployments ::
                   !end.deployments[d].paused && end.deployments[d].template == end.topology
  {
    PlanOnlyInvHolds(s, moves);
  }

  /** With one replica, the sole control-plane Machine is then at the last step too, or versionless. */
  lemma CompletedMeansRolled(s: System, from: Version, moves: seq<Move>)
    requires RollStart(s, from) && (from == s.topology || Resolved(s.spec)[0] == s.topology)
    ensures var end := Runs.Exec(Next, s, moves);
            var steps := Resolved(s.spec);
            end.plan.phase.Completed? ==>
              forall n | n in end.world.machines ::
                var version := end.world.machines[n].version;
                n == Sole(end.world) && (version == "" || version == steps[|steps| - 1])
  {
    SystemInvHolds(s, from, moves);
  }

  // ---------------------------------------------------------------- precedence

  ghost predicate StrictOrder(less: (Version, Version) -> bool) {
    && (forall a :: !less(a, a))
    && (forall a, b, c {:trigger less(a, b), less(b, c)} :: less(a, b) && less(b, c) ==> less(a, c))
  }

  /** Every step is above the one before it. */
  ghost predicate StepsRise(spec: PlanSpec) {
    forall i | 0 < i < |Resolved(spec)| :: spec.less(Resolved(spec)[i - 1], Resolved(spec)[i])
  }

  lemma {:induction false} StepsRiseApart(spec: PlanSpec, i: int, j: int)
    requires StrictOrder(spec.less) && StepsRise(spec) && 0 <= i < j < |Resolved(spec)|
    ensures spec.less(Resolved(spec)[i], Resolved(spec)[j])
    decreases j - i
  {
    if i + 1 < j {
      StepsRiseApart(spec, i, j - 1);
    }
  }

  /**
    Over a whole run the plan writes the topology version in step order, each step at most once, so
    the versions written strictly increase in precedence; the topology version is the last one written.
  */
  lemma TopologyOnlyRises(s: System, moves: seq<Move>)
    requires PlanFresh(s) && StrictOrder(s.spec.less) && StepsRise(s.spec)
    ensures var end := Runs.Exec(Next, s, moves);
            var steps := Resolved(s.spec);
            && Ascending(end.writes, |steps| - 1)
            && (forall a, b | 0 <= a < b < |end.writes| :: s.spec.less(steps[end.writes[a]], steps[end.writes[b]]))
            && end.topology == Written(s.topology, steps, end.writes)
  {
    PlanOnlyInvHolds(s, moves);
    var end := Runs.Exec(Next, s, moves);
    forall a, b | 0 <= a < b < |end.writes|
      ensures s.spec.less(Resolved(s.spec)[end.writes[a]], Resolved(s.spec)[end.writes[b]])
    {
      StepsRiseApart(s.spec, end.writes[a], end.writes[b]);
    }
  }

  // ---------------------------------------------------------------- version skew

  /** Precedence is a weak order on the valid versions, and compares nothing else. */
  ghost predicate WeakOrder(less: (Version, Version) -> bool, valid: Version -> bool) {
    && StrictOrder(less)
    && (forall a, b :: less(a, b) ==> valid(a) && valid(b))
    && (forall a, b, c {:trigger less(a, c), valid(b)} :: less(a, c) && valid(b) ==> less(a, b) || less(b, c))
  }

  ghost predicate AllValid(valid: Version -> bool, steps: seq<Version>) {
    forall i | 0 <= i < |steps| :: valid(steps[i])
  }

  /** Steps that rise from a first one not below the cluster's version. */
  ghost predicate RisesFrom(spec: PlanSpec, initial: Version) {
    StepsRise(spec) && (Resolved(spec) != [] ==> !spec.less(Resolved(spec)[0], initial))
  }

  /** A plan that never gets past its preflight. */
  ghost predicate Refused(s: System, initial: Version) {
    && NoAdvance(s.spec, initial) && s.base == initial && s.topology == initial
    && (s.plan.phase.Pending? || s.plan.phase.Failed?) && s.pc.Idle?
  }

  ghost predicate Underway(s: System, valid: Version -> bool, initial: Version) {
    && RisesFrom(s.spec, initial) && AllValid(valid, Resolved(s.spec)) && !s.spec.less(s.topology, s.base)
    && valid(s.base) && valid(s.topology)
  }

  /** Nothing a MachineDeployment rolls out, and no worker, is above the version the control plane last settled at. */
  ghost predicate SkewInv(s: System, valid: Version -> bool, initial: Version) {
    && WeakOrder(s.spec.less, valid)
    && (Refused(s, initial) || Underway(s, valid, initial))
    && (forall d | d in s.deployments ::
          !s.spec.less(s.base, s.deployments[d].rollout) && !s.spec.less(s.topology, s.deployments[d].template))
    && (forall w | w in s.workers :: !s.spec.less(s.base, s.workers[w]))
  }

  lemma PatchKeepsSkew(s: System, valid: Version -> bool, initial: Version)
    requires SystemInv(s, initial, initial) && PauseInv(s) && SkewInv(s, valid, initial) && s.pc.Patching?
    ensures SkewInv(Patch(s), valid, initial)
  {
    var step := CurrentStep(s);
    if s.topology != step && s.classy {
      assert valid(step) && !s.spec.less(step, s.base);
      forall d | d in s.deployments ensures !s.spec.less(step, s.deployments[d].template) {
        assert valid(s.topology);
      }
    }
  }

  lemma EnterWorkersKeepsSkew(s: System, valid: Version -> bool, initial: Version)
    requires SystemInv(s, initial, initial) && PauseInv(s) && SkewInv(s, valid, initial) && s.pc.EnteringWorkers?
    ensures SkewInv(EnterWorkers(s), valid, initial)
  {
    assert valid(s.base);
  }

  lemma FleetStepsKeepSkew(s: System, valid: Version -> bool, initial: Version, d: Name, w: Name)
    requires SystemInv(s, initial, initial) && PauseInv(s) && SkewInv(s, valid, initial)
    ensures SkewInv(StampTemplate(s, d), valid, initial)
    ensures SkewInv(StartRollout(s, d), valid, initial)
    ensures SkewInv(CreateWorker(s, w, d), valid, initial)
  {
  }

  /** A refused plan stays refused. */
  lemma RefusedStays(s: System, initial: Version, found: bool, satisfied: bool, pick: Name)
    requires SystemInv(s, initial, initial) && PauseInv(s) && Refused(s, initial)
    ensures Refused(PlanStep(s, found, satisfied, pick), initial)
  {
    assert CurrentClusterVersion(s) == initial;
  }

  lemma SameFleetKeepsSkew(s: System, s': System, valid: Version -> bool, initial: Version)
    requires SkewInv(s, valid, initial) && SameFleet(s, s') && (Refused(s, initial) ==> Refused(s', initial))
    ensures SkewInv(s', valid, initial)
  {
  }

  lemma PlanStepsKeepSkew(
    s: System, valid: Version -> bool, initial: Version, found: bool, satisfied: bool, pick: Name)
    requires SystemInv(s, initial, initial) && PauseInv(s) && SkewInv(s, valid, initial)
    ensures SkewInv(PlanStep(s, found, satisfied, pick), valid, initial)
  {
    if s.pc.Patching? {
      PatchKeepsSkew(s, valid, initial);
    } else if s.pc.EnteringWorkers? {
      EnterWorkersKeepsSkew(s, valid, initial);
    } else {
      SameFleetPlanSteps(s, found, satisfied, pick);
      if Refused(s, initial) { RefusedStays(s, initial, found, satisfied, pick); }
      SameFleetKeepsSkew(s, PlanStep(s, found, satisfied, pick), valid, initial);
    }
  }

  lemma SkewInvNext(s: System, valid: Version -> bool, initial: Version, move: Move)
    requires SystemInv(s, initial, initial) && PauseInv(s) && SkewInv(s, valid, initial)
    ensures SkewInv(Next(s, move), valid, initial)
  {
    match move
    case Plan(found, satisfied, pick) => PlanStepsKeepSkew(s, valid, initial, found, satisfied, pick);
    case Template(d) => FleetStepsKeepSkew(s, valid, initial, d, "");
    case Rollout(d) => FleetStepsKeepSkew(s, valid, initial, d, "");
    case Worker(w, d) => FleetStepsKeepSkew(s, valid, initial, d, w);
    case PlanCrash =>
    case ControlPlane(m) =>
    case Propagate =>
  }

  /** No worker, and nothing a MachineDeployment is about to roll out, is above the cluster's version. */
  ghost predicate FleetBelow(s: System, version: Version) {
    && (forall d | d in s.deployments ::
          !s.spec.less(version, s.deployments[d].rollout) && !s.spec.less(version, s.deployments[d].template))
    && (forall w | w in s.workers :: !s.spec.less(version, s.workers[w]))
  }

  ghost predicate SkewInvOf(spec: PlanSpec, valid: Version -> bool, initial: Version, s: System) {
    SystemInvOf(spec, initial, initial, s) && PauseInv(s) && SkewInv(s, valid, initial)
  }

  /** No worker runs a version above a control-plane Machine's. */
  ghost predicate NoneAhead(s: System) {
    forall w, n | w in s.workers && n in s.world.machines && s.world.machines[n].version != "" ::
      !s.spec.less(s.world.machines[n].version, s.workers[w])
  }

  lemma SkewInvMeansNoneAhead(s: System, valid: Version -> bool, initial: Version)
    requires SystemInv(s, initial, initial) && PauseInv(s) && SkewInv(s, valid, initial)
    ensures NoneAhead(s)
  {
    forall w | w in s.workers ensures !s.spec.less(s.topology, s.workers[w]) {
      assert valid(s.base) || s.topology == s.base;
    }
  }

  /** An accepted plan: a target, and valid steps that rise. */
  ghost predicate Accepted(spec: PlanSpec, valid: Version -> bool) {
    WeakOrder(spec.less, valid) && spec.toVersion != "" && StepsRise(spec) && AllValid(valid, Resolved(spec))
  }

  /** An accepted plan not yet started on a settled cluster, with no worker ahead. */
  ghost predicate SkewStart(s: System, valid: Version -> bool) {
    Fresh(s) && Accepted(s.spec, valid) && FleetBelow(s, s.topology)
  }

  /**
    For a plan whose first step is not below the version the cluster runs, or that fails its preflight: in
    every reachable state no worker runs a version above the control-plane Machine's, whatever the
    interleaving and the crashes.
  */
  lemma NoWorkerAheadOfControlPlane(s: System, valid: Version -> bool, moves: seq<Move>)
    requires SkewStart(s, valid)
    requires NoAdvance(s.spec, s.topology) || !s.spec.less(Resolved(s.spec)[0], s.topology)
    ensures NoneAhead(Runs.Exec(Next, s, moves))
  {
    FreshStart(s);
    RollStartsInvariant(s, s.topology);
    forall t: System, m: Move | SkewInvOf(s.spec, valid, s.topology, t)
      ensures SkewInvOf(s.spec, valid, s.topology, Next(t, m))
    {
      SpecStays(t, m);
      SystemInvNext(t, s.topology, s.topology, m);
      PauseInvNext(t, s.topology, s.topology, m);
      SkewInvNext(t, valid, s.topology, m);
    }
    Runs.InvariantHolds(Next, t => SkewInvOf(s.spec, valid, s.topology, t), s, moves);
    SkewInvMeansNoneAhead(Runs.Exec(Next, s, moves), valid, s.topology);
  }
}
