/**
  Which plans can complete, and which never do: on a settled cluster with one replica, exactly those that pass the
  preflight, whose topology may be written or is already at the sole step, and whose Machine carries a version.
*/
module Completion {
  import opened Names
  import opened Upgrade
  import opened Drift
  import opened ReplaceInPlace
  import opened UpgradeSafety
  import opened UpgradeTheorems
  import opened PlanProgress
  import Attainment
  import CP = ControlPlane
  import Convergence
  import Measure
  import Runs
  import Survival
  import UpgradeLimits

  // ---------------------------------------------------------------- the control plane follows

  /** At most the one Machine, and it carries a version. */
  ghost predicate Single(w: CP.World) {
    && w.machines.Keys <= {Sole(w)} && w.cp.Desired() == 1
    && forall n | n in w.machines :: w.machines[n].version != ""
  }

  ghost predicate SingleOf(naming: Naming, version: Version, w: CP.World) {
    Measure.Steady(w) && Single(w) && w.naming == naming && w.cp.version == version
  }

  /** Steps that create no Machine, re-version none and leave the spec alone. */
  ghost predicate NoneNew(w: CP.World, w': CP.World) {
    && w'.naming == w.naming && SameSpec(w'.cp, w.cp) && w'.machines.Keys <= w.machines.Keys
    && forall n | n in w'.machines :: w'.machines[n].version == w.machines[n].version
  }

  lemma NoneNewDriftSteps(w: CP.World, pick: Name, data: string)
    ensures w.pc.Idle? ==> NoneNew(w, w.(pc := CP.Choosing(w.cp)))
    ensures w.pc.Choosing? ==> NoneNew(w, CP.Choose(w, w.pc.cp, pick))
    ensures w.pc.Capturing? ==> NoneNew(w, CP.Capture(w, w.pc.cp, w.pc.name, data))
    ensures w.pc.Writing? ==> NoneNew(w, CP.WriteFile(w, w.pc.cp, w.pc.name, w.pc.snapshot))
    ensures w.pc.Recording? ==> NoneNew(w, CP.RecordReplacement(w, w.pc.cp, w.pc.name))
    ensures w.pc.DeletingMachine? ==> NoneNew(w, CP.DeleteMachine(w, w.pc.cp, w.pc.name))
    ensures w.pc.DeletingConfig? ==> NoneNew(w, CP.DeleteConfig(w, w.pc.cp, w.pc.name))
    ensures w.pc.DeletingInfra? ==> NoneNew(w, CP.DeleteInfra(w, w.pc.cp, w.pc.name))
  {
  }

  lemma NoneNewLaterSteps(w: CP.World, pick: Name)
    ensures w.pc.Checking? ==> NoneNew(w, CP.Check(w, w.pc.cp))
    ensures w.pc.Clearing? ==> NoneNew(w, CP.ClearReplacement(w, w.pc.cp))
    ensures w.pc.Creating? ==> NoneNew(w, CP.CreateNext(w, w.pc.cp, w.pc.index))
    ensures w.pc.CreatingConfig? ==> NoneNew(w, CP.CreateConfig(w, w.pc.cp, w.pc.index))
    ensures w.pc.EnsuringInfra? ==> NoneNew(w, CP.EnsureInfra(w, w.pc.cp, w.pc.index, w.pc.uid))
    ensures w.pc.ScalingDown? ==> NoneNew(w, CP.ScaleDown(w, w.pc.cp, w.pc.todo, pick))
  {
  }

  lemma NoneNewEnvironment(w: CP.World, move: CP.Move)
    requires !move.Go? && !move.SetSpec?
    ensures NoneNew(w, CP.Next(w, move))
  {
  }

  lemma NoneNewKeeps(w: CP.World, w': CP.World)
    requires Single(w) && NoneNew(w, w')
    ensures Single(w')
  {
  }

  /** The one Machine created is the sole replica, at the desired version. */
  lemma CreationKeepsSingle(w: CP.World)
    requires Measure.Steady(w) && Single(w) && w.pc.CreatingMachine?
    ensures var w' := CP.CreateMachine(w, w.pc.cp, w.pc.index);
      Single(w') && w'.naming == w.naming && SameSpec(w'.cp, w.cp)
  {
    assert w.pc.index == 0;
  }

  lemma SingleNext(w: CP.World, move: CP.Move)
    requires Measure.Steady(w) && Single(w)
    ensures SingleOf(w.naming, w.cp.version, NextFixed(w, move))
  {
    Measure.MoveFine(w, move);
    if move.SetSpec? {
    } else if !move.Go? {
      NoneNewEnvironment(w, move);
      NoneNewKeeps(w, CP.Next(w, move));
    } else if w.pc.CreatingMachine? {
      CreationKeepsSingle(w);
    } else {
      NoneNewDriftSteps(w, move.pick, move.data);
      NoneNewLaterSteps(w, move.pick);
      NoneNewKeeps(w, CP.Next(w, move));
    }
  }

  lemma SingleReached(w: CP.World, w': CP.World)
    requires Measure.Steady(w) && Single(w) && Runs.Reaches(NextFixed, w, w')
    ensures SingleOf(w.naming, w.cp.version, w')
  {
    var moves: seq<CP.Move> :| Runs.Exec(NextFixed, w, moves) == w';
    forall u: CP.World, m: CP.Move | SingleOf(w.naming, w.cp.version, u)
      ensures SingleOf(w.naming, w.cp.version, NextFixed(u, m))
    {
      SingleNext(u, m);
    }
    Runs.InvariantHolds(NextFixed, u => SingleOf(w.naming, w.cp.version, u), w, moves);
  }

  /** The sole Machine, idle at the desired version and with its HypervisorMachine. */
  ghost predicate OneUp(w: CP.World) {
    && RoundTrips(w.naming) && Single(w) && w.pc.Idle? && w.cp.version != ""
    && Sole(w) in w.machines && w.machines[Sole(w)].version == w.cp.version && Sole(w) in w.infras
  }

  /** Unless its one Machine is to be replaced and has no HypervisorMachine, the control plane gets there. */
  lemma OneComesUp(w: CP.World) returns (w': CP.World)
    requires RoundTrips(w.naming) && Single(w) && w.pc.Idle? && w.cp.version != ""
    requires Sole(w) in w.infras || (forall n | n in w.machines :: w.machines[n].version == w.cp.version)
    ensures Runs.Reaches(NextFixed, w, w') && OneUp(w') && w'.cp.version == w.cp.version
  {
    assert Measure.Steady(w);
    assert !Convergence.Doomed(w);
    w' := Attainment.ConvergedReachable(w);
    SingleReached(w, w');
    ConvergedIsUp(w');
  }

  lemma ConvergedIsUp(w: CP.World)
    requires Measure.Steady(w) && Single(w) && Convergence.Converged(w) && w.pc.Idle?
    ensures OneUp(w)
  {
    assert w.naming.name(0) in w.machines && w.naming.name(0) in w.infras;
    assert CP.Managed(w.naming, Sole(w), w.cp);
  }

  lemma OneUpIsObserved(s: System, step: Version)
    requires OneUp(s.world) && s.world.cp.version == step
    ensures ControlPlaneAt(s, s.world.cp.version, s.world.cp.Desired(), step)
  {
    assert s.world.machines.Keys == {Sole(s.world)};
    assert |s.world.machines.Keys| == 1;
  }

  // ---------------------------------------------------------------- the templates follow

  predicate StampedBut(s: System, todo: set<Name>) {
    forall d | d in s.deployments && d !in todo :: s.deployments[d].template == s.topology
  }

  lemma {:induction false} StampsAll(s: System, todo: set<Name>) returns (t: System)
    requires StampedBut(s, todo)
    ensures Runs.Reaches(Next, s, t) && t == s.(deployments := t.deployments) && AllStamped(t)
    decreases |todo|
  {
    Runs.ReachesSelf<System, Move>(Next, s);
    if todo == {} {
      t := s;
    } else {
      var d :| d in todo;
      var s' := StampTemplate(s, d);
      Runs.ReachesNext(Next, s, s, Template(d));
      t := StampsAll(s', todo - {d});
      Runs.ReachesTrans<System, Move>(Next, s, s', t);
    }
  }

  // ---------------------------------------------------------------- a plan that can complete, does

  lemma PlanInvReached(s: System, t: System)
    requires PlanInv(s) && Runs.Reaches(Next, s, t)
    ensures PlanInv(t)
  {
    var moves: seq<Move> :| Runs.Exec(Next, s, moves) == t;
    forall u: System, m: Move | PlanInv(u) ensures PlanInv(Next(u, m)) {
      PlanInvNext(u, m);
    }
    Runs.InvariantHolds(Next, u => PlanInv(u), s, moves);
  }

  /** The topology can be at each of the steps from k on: it may be written, or is there already. */
  ghost predicate Writable(s: System, k: int) {
    s.classy || forall j | 0 <= j < |Resolved(s.spec)| && k <= j :: Resolved(s.spec)[j] == s.topology
  }

  /** The boundary between two steps: the control plane is up at the topology version, and the next step begins. */
  ghost predicate AtBoundary(s: System) {
    && PlanInv(s) && s.plan.phase.RollingControlPlane? && s.pc.Idle?
    && OneUp(s.world) && s.world.cp.version == s.topology && Writable(s, s.plan.current)
  }

  lemma Propagates(s: System)
    ensures Runs.Reaches(Next, s, PropagateVersion(s))
  {
    Runs.ReachesSelf<System, Move>(Next, s);
    Runs.ReachesNext(Next, s, s, Propagate);
  }

  /** The control plane rolls to the topology version. */
  lemma Rolls(s: System) returns (t: System)
    requires OneUp(s.world) && s.topology != ""
    ensures Runs.Reaches(Next, s, t) && t == s.(world := t.world)
    ensures OneUp(t.world) && t.world.cp.version == t.topology
  {
    var s' := PropagateVersion(s);
    Propagates(s);
    var w := OneComesUp(s'.world);
    t := s.(world := w);
    UpgradeLimits.Lift(s', w);
    Runs.ReachesTrans<System, Move>(Next, s, s', t);
  }

  /** The topology is brought to the current step, and the control plane with it. */
  lemma TakesStep(s: System) returns (t: System)
    requires AtBoundary(s)
    ensures Runs.Reaches(Next, s, t) && AtBoundary(t) && t.spec == s.spec && t.plan == s.plan
    ensures t.topology == CurrentStep(t)
  {
    if s.topology == CurrentStep(s) {
      t := s;
      Runs.ReachesSelf<System, Move>(Next, s);
    } else {
      var s' := StepIsWritten(s);
      PlanReaches(s, s');
      t := Rolls(s');
      Runs.ReachesTrans<System, Move>(Next, s, s', t);
      PlanInvReached(s, t);
    }
  }

  /** One whole step: the control plane, then the workers. */
  lemma StepCompletes(s: System) returns (t: System)
    requires AtBoundary(s)
    ensures Runs.Reaches(Next, s, t) && t.spec == s.spec
    ensures if LastStep(s) then t.plan.phase.Completed?
            else AtBoundary(t) && t.plan.current == s.plan.current + 1
  {
    var s1 := TakesStep(s);
    OneUpIsObserved(s1, CurrentStep(s1));
    var s2 := ObservedStepAdvances(s1);
    PlanReaches(s1, s2);
    Runs.ReachesTrans<System, Move>(Next, s, s1, s2);
    var s3 := StampsAll(s2, s2.deployments.Keys);
    Runs.ReachesTrans<System, Move>(Next, s, s2, s3);
    PlanInvReached(s, s3);
    t := TemplatedStepFinishes(s3);
    PlanReaches(s3, t);
    Runs.ReachesTrans<System, Move>(Next, s, s3, t);
    PlanInvReached(s, t);
  }

  lemma {:induction false} StepsComplete(s: System) returns (t: System)
    requires AtBoundary(s)
    ensures Runs.Reaches(Next, s, t) && t.plan.phase.Completed?
    decreases |Resolved(s.spec)| - s.plan.current
  {
    t := StepCompletes(s);
    if !LastStep(s) {
      var s' := t;
      t := StepsComplete(s');
      Runs.ReachesTrans<System, Move>(Next, s, s', t);
    }
  }

  /** The sole Machine exists and carries no version, so no roll ever replaces it. */
  predicate Unversioned(w: CP.World) {
    Sole(w) in w.machines && w.machines[Sole(w)].version == ""
  }

  /** The topology may be written, or is at the one step there is. */
  predicate TopologyGoes(s: System) {
    s.classy || Resolved(s.spec) == [s.topology]
  }

  lemma CanComplete(s: System) returns (t: System)
    requires Fresh(s) && Preflight(s) && TopologyGoes(s) && !Unversioned(s.world)
    ensures Runs.Reaches(Next, s, t) && t.plan.phase.Completed?
  {
    var w := OneComesUp(s.world);
    var s1 := s.(world := w);
    UpgradeLimits.Lift(s, w);
    SameClusterReached(s, s1);
    var s2 := UpgradeLimits.Begun(s1);
    UpgradeLimits.ReachesBegun(s1);
    Runs.ReachesTrans<System, Move>(Next, s, s1, s2);
    PlanInvReached(s, s2);
    t := StepsComplete(s2);
    Runs.ReachesTrans<System, Move>(Next, s, s2, t);
  }

  lemma SameClusterReached(s: System, t: System)
    requires Runs.Reaches(Next, s, t)
    ensures SameCluster(s, t)
  {
    var moves: seq<Move> :| Runs.Exec(Next, s, moves) == t;
    SameClusterHolds(s, moves);
  }

  // ---------------------------------------------------------------- and the others never

  /** A plan that fails its preflight, whenever it is tried. */
  ghost predicate Barred(start: System, s: System) {
    && SameCluster(start, s) && NotRunning(s) && s.pc.Idle?
    && s.topology == start.topology && s.world.cp.version == start.topology
  }

  lemma BarredNext(start: System, s: System, move: Move)
    requires Barred(start, s) && !Preflight(start) && start.world.cp.version == start.topology
    ensures Barred(start, Next(s, move))
  {
    SameClusterNext(s, move);
    if move.Plan? {
      assert !Preflight(s);
    } else if move.ControlPlane? && !move.move.SetSpec? {
      VersionKept(s.world, move.move);
    }
  }

  lemma BarredNeverCompletes(s: System, moves: seq<Move>)
    requires Fresh(s) && !Preflight(s)
    ensures !Runs.Exec(Next, s, moves).plan.phase.Completed?
  {
    forall t: System, m: Move | Barred(s, t) ensures Barred(s, Next(t, m)) {
      BarredNext(s, t, m);
    }
    Runs.InvariantHolds(Next, t => Barred(s, t), s, moves);
  }

  /** A topology that nobody may write: only the step it is at can ever be taken. */
  ghost predicate Frozen(start: System, s: System) {
    && PlanOnlyInvOf(start.spec, start.topology, s) && !s.classy
    && s.topology == start.topology && s.base == start.topology
    && (s.plan.phase.RollingWorkers? || s.plan.phase.Completed? ==> s.plan.current == 0)
  }

  lemma FrozenPlanStep(start: System, s: System, found: bool, satisfied: bool, pick: Name)
    requires Frozen(start, s)
    ensures var t := PlanStep(s, found, satisfied, pick);
      && t.topology == s.topology && t.base == s.base
      && (t.plan.phase.RollingWorkers? || t.plan.phase.Completed? ==> t.plan.current == 0)
  {
    assert s.pc.EnteringWorkers? ==> s.plan.current == 0;
    if !s.pc.Patching? && !s.pc.EnteringWorkers? {
      SameFleetPlanSteps(s, found, satisfied, pick);
    }
  }

  lemma FrozenNext(start: System, s: System, move: Move)
    requires Frozen(start, s)
    ensures Frozen(start, Next(s, move))
  {
    SameClusterNext(s, move);
    PlanOnlyInvNext(s, start.topology, move);
    if move.Plan? { FrozenPlanStep(start, s, move.found, move.satisfied, move.pick); }
  }

  lemma FrozenNeverCompletes(s: System, moves: seq<Move>)
    requires PlanFresh(s) && !TopologyGoes(s)
    ensures !Runs.Exec(Next, s, moves).plan.phase.Completed?
  {
    forall t: System, m: Move | Frozen(s, t) ensures Frozen(s, Next(t, m)) {
      FrozenNext(s, t, m);
    }
    Runs.InvariantHolds(Next, t => Frozen(s, t), s, moves);
    var end := Runs.Exec(Next, s, moves);
    assert end.plan.phase.Completed? ==> Resolved(s.spec) == [s.topology];
  }

  /** A versionless Machine stays, and is never seen at a step. */
  ghost predicate Blocked(s: System, n: Name, m: CP.Machine) {
    && PlanInv(s) && Survival.Kept(s.world, n, m) && m.version == ""
    && !s.plan.phase.RollingWorkers? && !s.plan.phase.Completed? && !s.pc.EnteringWorkers?
  }

  lemma BlockedPlanStep(s: System, n: Name, m: CP.Machine, found: bool, satisfied: bool, pick: Name)
    requires Blocked(s, n, m)
    ensures var t := PlanStep(s, found, satisfied, pick);
      t.world == s.world && !t.plan.phase.RollingWorkers? && !t.plan.phase.Completed? && !t.pc.EnteringWorkers?
  {
    assert s.pc.ReadingMachines? ==> !ControlPlaneAt(s, s.pc.cpVersion, s.pc.replicas, CurrentStep(s));
  }

  lemma BlockedNext(s: System, n: Name, m: CP.Machine, move: Move)
    requires Blocked(s, n, m)
    ensures Blocked(Next(s, move), n, m)
  {
    PlanInvNext(s, move);
    match move
    case Plan(found, satisfied, pick) => BlockedPlanStep(s, n, m, found, satisfied, pick);
    case ControlPlane(w) => if !w.SetSpec? { Survival.KeptNext(s.world, n, m, w); }
    case Propagate => Survival.KeptNext(s.world, n, m, CP.SetSpec(s.topology, s.world.cp.replicas));
    case _ =>
  }

  lemma BlockedNeverCompletes(s: System, moves: seq<Move>)
    requires Fresh(s) && Unversioned(s.world)
    ensures !Runs.Exec(Next, s, moves).plan.phase.Completed?
  {
    var n := Sole(s.world);
    var machine := s.world.machines[n];
    forall t: System, m: Move | Blocked(t, n, machine) ensures Blocked(Next(t, m), n, machine) {
      BlockedNext(t, n, machine, m);
    }
    Runs.InvariantHolds(Next, t => Blocked(t, n, machine), s, moves);
  }

  // ---------------------------------------------------------------- exactly when

  ghost predicate MayComplete(s: System) {
    exists moves: seq<Move> :: Runs.Exec(Next, s, moves).plan.phase.Completed?
  }

  /**
    From every settled cluster, some run completes the plan exactly if it passes the preflight, its topology may be
    written or is already at the one step there is, and the control-plane Machine does not lack a version.
  */
  lemma CompletesExactly(s: System)
    requires Fresh(s)
    ensures MayComplete(s) <==> Preflight(s) && TopologyGoes(s) && !Unversioned(s.world)
  {
    if Preflight(s) && TopologyGoes(s) && !Unversioned(s.world) {
      var t := CanComplete(s);
      var moves: seq<Move> :| Runs.Exec(Next, s, moves) == t;
    } else {
      forall moves: seq<Move> ensures !Runs.Exec(Next, s, moves).plan.phase.Completed? {
        if !Preflight(s) {
          BarredNeverCompletes(s, moves);
        } else if !TopologyGoes(s) {
          FrozenNeverCompletes(s, moves);
        } else {
          BlockedNeverCompletes(s, moves);
        }
      }
    }
  }
}
