/**
  What the plan controller gets done by its own moves: it begins exactly the plans that pass the preflight, enters the
  workers phase of a step once the control plane is seen at it, and finishes a step once the templates are.
*/
module PlanProgress {
  import opened Upgrade
  import opened UpgradeSafety
  import opened UpgradeTheorems
  import Images
  import Runs

  // ---------------------------------------------------------------- beginning

  /** The first move of a plan begins it if it passes the preflight, and fails it otherwise. */
  lemma BeginsExactly(s: System, found: bool, satisfied: bool, pick: Name)
    requires Unstarted(s)
    ensures var t := Next(s, Plan(found, satisfied, pick));
      && (found && Preflight(s) ==> t.plan.phase.RollingControlPlane? && StatusShows(t.plan, Resolved(s.spec)))
      && (!(found && Preflight(s)) ==> t.plan.phase.Failed?)
      && t == s.(plan := t.plan)
  {
  }

  predicate NotRunning(s: System) {
    s.plan.phase.Pending? || s.plan.phase.Failed?
  }

  /** A run leads through a state that passes the preflight before its plan is begun. */
  ghost predicate PassedPreflight(s: System, moves: seq<Move>) {
    exists k :: 0 <= k < |moves| && Passes(Runs.Exec(Next, s, moves[..k]))
  }

  predicate Passes(s: System) { s.plan.phase.Pending? && Preflight(s) }

  lemma {:induction false} FailedStays(s: System, moves: seq<Move>)
    requires PlanInv(s) && s.plan.phase.Failed?
    ensures Runs.Exec(Next, s, moves).plan.phase.Failed?
    decreases |moves|
  {
    if moves != [] {
      PlanInvNext(s, moves[0]);
      ForwardNext(s, moves[0]);
      FailedStays(Next(s, moves[0]), moves[1..]);
    }
  }

  lemma {:induction false} RunningPassed(s: System, moves: seq<Move>)
    requires PlanInv(s) && s.plan.phase.Pending? && !NotRunning(Runs.Exec(Next, s, moves))
    ensures PassedPreflight(s, moves)
    decreases |moves|
  {
    if moves != [] {
      PlanInvNext(s, moves[0]);
      var s', rest := Next(s, moves[0]), moves[1..];
      if s'.plan.phase.Pending? {
        RunningPassed(s', rest);
        var k :| 0 <= k < |rest| && Passes(Runs.Exec(Next, s', rest[..k]));
        assert moves[..k + 1][1..] == rest[..k];
        assert Passes(Runs.Exec(Next, s, moves[..k + 1]));
      } else if s'.plan.phase.Failed? {
        FailedStays(s', rest);
      } else {
        assert moves[..0] == [] && Passes(s);
        assert Passes(Runs.Exec(Next, s, moves[..0]));
      }
    }
  }

  /** What no move changes: the replicas, the images and the kind of topology. */
  ghost predicate SameCluster(s: System, t: System) {
    t.spec == s.spec && t.images == s.images && t.classy == s.classy && t.world.cp.replicas == s.world.cp.replicas
  }

  lemma SameClusterSteps(s: System, found: bool, satisfied: bool, pick: Name)
    ensures SameCluster(s, Begin(s, found)) && SameCluster(s, Fail(s)) && SameCluster(s, Start(s))
    ensures s.pc.Pausing? ==> SameCluster(s, PauseOne(s, s.pc.todo, pick))
    ensures SameCluster(s, Patch(s)) && SameCluster(s, ReadCp(s, found))
    ensures s.pc.ReadingMachines? ==> SameCluster(s, ReadMachines(s, s.pc.cpVersion, s.pc.replicas, satisfied))
    ensures SameCluster(s, EnterWorkers(s))
  {
  }

  lemma SameClusterWorkerSteps(s: System, found: bool, satisfied: bool, pick: Name)
    ensures s.pc.Unpausing? ==>
      SameCluster(s, UnpauseOne(s, s.pc.todo, pick, ReadingDeployments, Unpausing(s.pc.todo - {pick})))
    ensures SameCluster(s, ReadDeployments(s, satisfied)) && SameCluster(s, FinishStep(s, found))
      && SameCluster(s, FinishPlan(s))
    ensures s.pc.FinalUnpausing? ==>
      SameCluster(s, UnpauseOne(s, s.pc.todo, pick, FinishingPlan, FinalUnpausing(s.pc.todo - {pick})))
  {
  }

  lemma SameClusterPlanSteps(s: System, found: bool, satisfied: bool, pick: Name)
    ensures SameCluster(s, PlanStep(s, found, satisfied, pick))
  {
    if s.pc.Idle? || ForControlPlane(s.pc) {
      SameClusterSteps(s, found, satisfied, pick);
    } else {
      SameClusterWorkerSteps(s, found, satisfied, pick);
    }
  }

  lemma SameClusterNext(s: System, move: Move)
    ensures SameCluster(s, Next(s, move))
  {
    if move.Plan? {
      SameClusterPlanSteps(s, move.found, move.satisfied, move.pick);
    } else if move.ControlPlane? && !move.move.SetSpec? {
      VersionKept(s.world, move.move);
    }
  }

  lemma SameClusterHolds(s: System, moves: seq<Move>)
    ensures SameCluster(s, Runs.Exec(Next, s, moves))
  {
    forall t: System, m: Move | SameCluster(s, t) ensures SameCluster(s, Next(t, m)) {
      SameClusterNext(t, m);
    }
    Runs.InvariantHolds(Next, t => SameCluster(s, t), s, moves);
  }

  /**
    In every run, a plan that is neither pending nor failed passed the preflight when it began. So its control plane
    has one replica, and the list of images, if these are its versions, misses none of the steps.
  */
  lemma BegunMeansPreflight(s: System, list: seq<Images.Image>, moves: seq<Move>)
    requires PlanFresh(s) && s.images == Images.VersionsOf(list)
    ensures var end := Runs.Exec(Next, s, moves);
      !NotRunning(end) ==>
        && PassedPreflight(s, moves) && end.world.cp.Desired() == 1
        && Images.Unregistered(list, Resolved(s.spec)) == []
  {
    var end := Runs.Exec(Next, s, moves);
    if !NotRunning(end) {
      RunningPassed(s, moves);
      var k :| 0 <= k < |moves| && Passes(Runs.Exec(Next, s, moves[..k]));
      SameClusterHolds(s, moves[..k]);
      SameClusterHolds(s, moves);
      Images.NothingMissing(list, Resolved(s.spec));
    }
  }

  // ---------------------------------------------------------------- runs of the plan controller alone

  function PlanOnly(s: System, move: Move): System {
    if move.Plan? then Next(s, move) else s
  }

  lemma {:induction false} PlanRunIsRun(s: System, moves: seq<Move>)
    ensures Runs.Reaches(Next, s, Runs.Exec(PlanOnly, s, moves))
    decreases |moves|
  {
    Runs.ReachesSelf<System, Move>(Next, s);
    if moves != [] {
      if moves[0].Plan? { Runs.ReachesNext(Next, s, s, moves[0]); }
      var s' := PlanOnly(s, moves[0]);
      PlanRunIsRun(s', moves[1..]);
      Runs.ReachesTrans<System, Move>(Next, s, s', Runs.Exec(PlanOnly, s, moves));
    }
  }

  lemma PlanReaches(s: System, t: System)
    requires Runs.Reaches(PlanOnly, s, t)
    ensures Runs.Reaches(Next, s, t)
  {
    var moves: seq<Move> :| Runs.Exec(PlanOnly, s, moves) == t;
    PlanRunIsRun(s, moves);
  }

  /** One move of the plan controller for which all goes well. */
  function Good(s: System, pick: Name): System { PlanStep(s, true, true, pick) }

  lemma GoodThen(s: System, pick: Name, t: System)
    requires Runs.Reaches(PlanOnly, Good(s, pick), t)
    ensures Runs.Reaches(PlanOnly, s, t)
  {
    Runs.ReachesSelf<System, Move>(PlanOnly, s);
    Runs.ReachesNext(PlanOnly, s, s, Plan(true, true, pick));
    Runs.ReachesTrans<System, Move>(PlanOnly, s, Good(s, pick), t);
  }

  /** Nothing but pause annotations may differ. */
  predicate OnlyPauses(before: map<Name, Deployment>, after: map<Name, Deployment>) {
    && after.Keys == before.Keys
    && forall d | d in before :: after[d] == before[d].(paused := after[d].paused)
  }

  lemma OnlyPausesOn(a: map<Name, Deployment>, b: map<Name, Deployment>, c: map<Name, Deployment>)
    requires OnlyPauses(a, b) && OnlyPauses(b, c)
    ensures OnlyPauses(a, c)
  {
  }

  // ---------------------------------------------------------------- the control plane phase of a step

  lemma {:induction false} PausesAll(s: System) returns (t: System)
    requires s.pc.Pausing?
    ensures Runs.Reaches(PlanOnly, s, t)
    ensures t == s.(pc := Patching, deployments := t.deployments) && OnlyPauses(s.deployments, t.deployments)
    decreases |s.pc.todo|
  {
    var todo := s.pc.todo;
    if todo == {} {
      t := Good(s, "");
      Runs.ReachesSelf<System, Move>(PlanOnly, t);
      GoodThen(s, "", t);
    } else {
      var d :| d in todo;
      var s' := Good(s, d);
      assert s'.pc == Pausing(todo - {d});
      t := PausesAll(s');
      GoodThen(s, d, t);
      OnlyPausesOn(s.deployments, s'.deployments, t.deployments);
    }
  }

  /** The topology, the control plane object and all Machines are at the current step, and enough of them are there. */
  ghost predicate Observable(s: System) {
    && s.plan.phase.RollingControlPlane? && s.plan.current < |Resolved(s.spec)| && s.topology == CurrentStep(s)
    && ControlPlaneAt(s, s.world.cp.version, s.world.cp.Desired(), CurrentStep(s))
  }

  /** The workers phase of the current step, with nothing changed beside the plan but pause annotations. */
  ghost predicate InWorkers(s: System, t: System) {
    && t == s.(plan := t.plan, pc := Idle, base := s.topology, deployments := t.deployments)
    && t.plan == PlanStatus(RollingWorkers, s.plan.current, MarkStep(s.plan.steps, CurrentStep(s), RollingWorkers))
    && OnlyPauses(s.deployments, t.deployments)
  }

  lemma EntersWorkers(s: System) returns (t: System)
    requires s.pc.EnteringWorkers?
    ensures Runs.Reaches(PlanOnly, s, t) && InWorkers(s, t)
  {
    t := Good(s, "");
    Runs.ReachesSelf<System, Move>(PlanOnly, t);
    GoodThen(s, "", t);
  }

  lemma ReadsControlPlane(s: System) returns (t: System)
    requires s.pc.ReadingCp? && Observable(s)
    ensures Runs.Reaches(PlanOnly, s, t) && InWorkers(s, t)
  {
    var s1 := Good(s, "");
    assert s1 == s.(pc := ReadingMachines(s.world.cp.version, s.world.cp.Desired()));
    var s2 := Good(s1, "");
    assert s2 == s.(pc := EnteringWorkers);
    t := EntersWorkers(s2);
    GoodThen(s1, "", t);
    GoodThen(s, "", t);
  }

  lemma PatchesNothing(s: System) returns (t: System)
    requires s.pc.Patching? && Observable(s)
    ensures Runs.Reaches(PlanOnly, s, t) && InWorkers(s, t)
  {
    var s1 := Good(s, "");
    assert s1 == s.(pc := ReadingCp);
    t := ReadsControlPlane(s1);
    GoodThen(s, "", t);
  }

  lemma PausesThenReads(s: System) returns (t: System)
    requires s.pc.Pausing? && Observable(s)
    ensures Runs.Reaches(PlanOnly, s, t) && InWorkers(s, t)
  {
    var s1 := PausesAll(s);
    t := PatchesNothing(s1);
    Runs.ReachesTrans<System, Move>(PlanOnly, s, s1, t);
    OnlyPausesOn(s.deployments, s1.deployments, t.deployments);
  }

  lemma StartsOver(s: System) returns (t: System)
    requires s.pc.Idle? && Observable(s)
    ensures Runs.Reaches(PlanOnly, s, t) && InWorkers(s, t)
  {
    var s1 := Good(s, "");
    assert s1 == s.(pc := Pausing(PausedOnes(s, false)));
    t := PausesThenReads(s1);
    GoodThen(s, "", t);
  }

  /** A reconcile that read the control plane earlier may have to read it again. */
  lemma ReadsMachines(s: System) returns (t: System)
    requires s.pc.ReadingMachines? && Observable(s)
    ensures Runs.Reaches(PlanOnly, s, t) && InWorkers(s, t)
  {
    var s1 := Good(s, "");
    assert s1 == s.(pc := EnteringWorkers) || s1 == s.(pc := Idle);
    if s1.pc.EnteringWorkers? { t := EntersWorkers(s1); } else { t := StartsOver(s1); }
    GoodThen(s, "", t);
  }

  /**
    Whatever the number of replicas and wherever the plan controller stands: once the topology, the control plane
    object and all Machines are at the current step, and enough Machines are there, its own moves lead to the workers
    phase of that step.
  */
  lemma ObservedStepAdvances(s: System) returns (t: System)
    requires PlanInv(s) && Observable(s)
    ensures Runs.Reaches(PlanOnly, s, t) && InWorkers(s, t) && StatusShows(t.plan, Resolved(s.spec))
  {
    MarkCurrent(s, RollingWorkers);
    match s.pc
    case Idle => t := StartsOver(s);
    case Pausing(_) => t := PausesThenReads(s);
    case Patching => t := PatchesNothing(s);
    case ReadingCp => t := ReadsControlPlane(s);
    case ReadingMachines(_, _) => t := ReadsMachines(s);
    case EnteringWorkers => t := EntersWorkers(s);
  }

  /** And if the topology is not at the step yet, but may be written, they write it. */
  lemma StepIsWritten(s: System) returns (t: System)
    requires s.pc.Idle? && s.plan.phase.RollingControlPlane? && s.plan.current < |Resolved(s.spec)|
    requires s.classy && s.topology != CurrentStep(s)
    ensures Runs.Reaches(PlanOnly, s, t) && OnlyPauses(s.deployments, t.deployments)
    ensures t == s.(topology := CurrentStep(s), writes := s.writes + [s.plan.current], deployments := t.deployments)
  {
    var s1 := Good(s, "");
    assert s1 == s.(pc := Pausing(PausedOnes(s, false)));
    var s2 := PausesAll(s1);
    t := Good(s2, "");
    Runs.ReachesSelf<System, Move>(PlanOnly, t);
    GoodThen(s2, "", t);
    Runs.ReachesTrans<System, Move>(PlanOnly, s1, s2, t);
    GoodThen(s, "", t);
  }

  // ---------------------------------------------------------------- the workers phase of a step

  lemma UnpausesNext(s: System, pick: Name)
    ensures s.pc.Unpausing? && pick in s.pc.todo ==>
      Good(s, pick)
      == s.(deployments := SetPaused(s.deployments, pick, false), pc := Unpausing(s.pc.todo - {pick}))
    ensures s.pc.FinalUnpausing? && pick in s.pc.todo ==>
      Good(s, pick)
      == s.(deployments := SetPaused(s.deployments, pick, false), pc := FinalUnpausing(s.pc.todo - {pick}))
    ensures OnlyPauses(s.deployments, SetPaused(s.deployments, pick, false))
  {
  }

  lemma {:induction false} UnpausesAll(s: System) returns (t: System)
    requires s.pc.Unpausing? || s.pc.FinalUnpausing?
    ensures Runs.Reaches(PlanOnly, s, t) && OnlyPauses(s.deployments, t.deployments)
    ensures t == s.(pc := if s.pc.Unpausing? then ReadingDeployments else FinishingPlan, deployments := t.deployments)
    decreases |s.pc.todo|
  {
    var todo := s.pc.todo;
    if todo == {} {
      t := Good(s, "");
      Runs.ReachesSelf<System, Move>(PlanOnly, t);
      GoodThen(s, "", t);
    } else {
      var d :| d in todo;
      var s' := Good(s, d);
      UnpausesNext(s, d);
      t := UnpausesAll(s');
      GoodThen(s, d, t);
      OnlyPausesOn(s.deployments, s'.deployments, t.deployments);
    }
  }

  predicate LastStep(s: System) { s.plan.current + 1 >= |Resolved(s.spec)| }

  /** The plan once the current step is finished. */
  function Finished(s: System): PlanStatus {
    PlanStatus(if LastStep(s) then Completed else RollingControlPlane,
               if LastStep(s) then s.plan.current else s.plan.current + 1,
               MarkStep(s.plan.steps, CurrentStep(s), Completed))
  }

  ghost predicate StepDone(s: System, t: System) {
    t == s.(plan := Finished(s), pc := Idle, deployments := t.deployments) && OnlyPauses(s.deployments, t.deployments)
  }

  lemma PlanFinishes(s: System) returns (t: System)
    requires s.pc.FinishingPlan? && LastStep(s)
    ensures Runs.Reaches(PlanOnly, s, t) && StepDone(s, t)
  {
    t := Good(s, "");
    Runs.ReachesSelf<System, Move>(PlanOnly, t);
    GoodThen(s, "", t);
  }

  lemma UnpausesThenFinishes(s: System) returns (t: System)
    requires s.pc.FinalUnpausing? && LastStep(s)
    ensures Runs.Reaches(PlanOnly, s, t) && StepDone(s, t)
  {
    var s1 := UnpausesAll(s);
    t := PlanFinishes(s1);
    Runs.ReachesTrans<System, Move>(PlanOnly, s, s1, t);
    OnlyPausesOn(s.deployments, s1.deployments, t.deployments);
  }

  lemma StepFinishes(s: System) returns (t: System)
    requires s.pc.FinishingStep?
    ensures Runs.Reaches(PlanOnly, s, t) && StepDone(s, t)
  {
    var s1 := Good(s, "");
    if LastStep(s) {
      assert s1 == s.(pc := FinalUnpausing(PausedOnes(s, true)));
      t := UnpausesThenFinishes(s1);
    } else {
      t := s1;
      Runs.ReachesSelf<System, Move>(PlanOnly, t);
    }
    GoodThen(s, "", t);
  }

  /** The templates are at the current step. */
  ghost predicate Templated(s: System) {
    forall d | d in s.deployments :: s.deployments[d].template == CurrentStep(s)
  }

  lemma ReadsDeployments(s: System) returns (t: System)
    requires s.pc.ReadingDeployments? && Templated(s)
    ensures Runs.Reaches(PlanOnly, s, t) && StepDone(s, t)
  {
    var s1 := Good(s, "");
    assert s1 == s.(pc := FinishingStep);
    t := StepFinishes(s1);
    GoodThen(s, "", t);
  }

  lemma UnpausesThenReads(s: System) returns (t: System)
    requires s.pc.Unpausing? && Templated(s)
    ensures Runs.Reaches(PlanOnly, s, t) && StepDone(s, t)
  {
    var s1 := UnpausesAll(s);
    t := ReadsDeployments(s1);
    Runs.ReachesTrans<System, Move>(PlanOnly, s, s1, t);
    OnlyPausesOn(s.deployments, s1.deployments, t.deployments);
  }

  lemma StartsWorkers(s: System) returns (t: System)
    requires s.pc.Idle? && s.plan.phase.RollingWorkers? && s.plan.current < |Resolved(s.spec)| && Templated(s)
    ensures Runs.Reaches(PlanOnly, s, t) && StepDone(s, t)
  {
    var s1 := Good(s, "");
    assert s1 == s.(pc := Unpausing(PausedOnes(s, true)));
    t := UnpausesThenReads(s1);
    GoodThen(s, "", t);
  }

  /**
    Wherever the plan controller stands: once the templates are at the current step, its own moves finish the step, and
    with the last one the plan.
  */
  lemma TemplatedStepFinishes(s: System) returns (t: System)
    requires PlanInv(s) && s.plan.phase.RollingWorkers? && Templated(s)
    ensures Runs.Reaches(PlanOnly, s, t) && StepDone(s, t) && StatusShows(t.plan, Resolved(s.spec))
  {
    MarkCurrent(s, Completed);
    match s.pc
    case Idle => t := StartsWorkers(s);
    case Unpausing(_) => t := UnpausesThenReads(s);
    case ReadingDeployments => t := ReadsDeployments(s);
    case FinishingStep => t := StepFinishes(s);
    case FinalUnpausing(_) => t := UnpausesThenFinishes(s);
    case FinishingPlan => t := PlanFinishes(s);
  }

  // ---------------------------------------------------------------- waiting, and failing

  /** The controller has not yet seen what lets it leave the phase. */
  predicate Undecided(pc: PlanPc) {
    !pc.EnteringWorkers? && !pc.FinishingStep? && !pc.FinalUnpausing? && !pc.FinishingPlan?
  }

  /** Runs in which neither the control plane nor the MachineDeployments are ever reported ready. */
  function Unready(s: System, move: Move): System {
    if move.Plan? && move.satisfied then s else Next(s, move)
  }

  ghost predicate WaitsAt(s: System, phase: Phase, current: int) {
    && PlanInv(s)
    && (s.plan.phase.Failed? || (s.plan.phase == phase && s.plan.current == current && Undecided(s.pc)))
  }

  lemma WaitingSteps(s: System, found: bool, pick: Name)
    requires PlanInv(s) && !s.plan.phase.Pending? && !s.plan.phase.Failed? && Undecided(s.pc)
    ensures var t := PlanStep(s, found, false, pick);
      t.plan.phase.Failed? || (t.plan == s.plan && Undecided(t.pc))
  {
  }

  lemma WaitsOn(s: System, phase: Phase, current: int, move: Move)
    requires WaitsAt(s, phase, current) && (phase.RollingControlPlane? || phase.RollingWorkers?)
    ensures WaitsAt(Unready(s, move), phase, current)
  {
    PlanInvNext(s, move);
    if move.Plan? && !move.satisfied && !s.plan.phase.Failed? { WaitingSteps(s, move.found, move.pick); }
  }

  /**
    However the system moves, a phase of a step is not left before the readiness it waits for is reported: until
    then the plan stays where it is, or fails.
  */
  lemma WaitsForReadiness(s: System, moves: seq<Move>)
    requires PlanInv(s) && (s.plan.phase.RollingControlPlane? || s.plan.phase.RollingWorkers?) && Undecided(s.pc)
    ensures var end := Runs.Exec(Unready, s, moves);
      end.plan.phase.Failed? || (end.plan.phase == s.plan.phase && end.plan.current == s.plan.current)
  {
    var phase, current := s.plan.phase, s.plan.current;
    forall t: System, m: Move | WaitsAt(t, phase, current) ensures WaitsAt(Unready(t, m), phase, current) {
      WaitsOn(t, phase, current, m);
    }
    Runs.InvariantHolds(Unready, t => WaitsAt(t, phase, current), s, moves);
  }

  /** A running plan whose Cluster is gone fails at the next reconcile, and changes nothing else. */
  lemma LossFails(s: System, satisfied: bool, pick: Name)
    requires PlanInv(s) && s.pc.Idle? && !NotRunning(s) && !s.plan.phase.Completed?
    ensures Next(s, Plan(false, satisfied, pick)) == s.(plan := s.plan.(phase := Failed))
  {
  }

  /** Where the topology may not be written, a step it is not at fails the plan. */
  lemma UnwritableFails(s: System) returns (t: System)
    requires s.pc.Idle? && s.plan.phase.RollingControlPlane? && s.plan.current < |Resolved(s.spec)|
    requires !s.classy && s.topology != CurrentStep(s)
    ensures Runs.Reaches(PlanOnly, s, t) && OnlyPauses(s.deployments, t.deployments)
    ensures t == s.(plan := s.plan.(phase := Failed), deployments := t.deployments)
  {
    var s1 := Good(s, "");
    assert s1 == s.(pc := Pausing(PausedOnes(s, false)));
    var s2 := PausesAll(s1);
    t := Good(s2, "");
    Runs.ReachesSelf<System, Move>(PlanOnly, t);
    GoodThen(s2, "", t);
    Runs.ReachesTrans<System, Move>(PlanOnly, s1, s2, t);
    GoodThen(s, "", t);
  }
}
