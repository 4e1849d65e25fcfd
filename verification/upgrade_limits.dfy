/** What the guarantees of an upgrade do not survive: runs that break them from a start they exclude. */
module UpgradeLimits {
  import opened Names
  import opened Upgrade
  import opened Drift
  import opened ReplaceInPlace
  import opened UpgradeTheorems
  import Limits
  import CP = ControlPlane
  import UpgradeSafety
  import Runs

  /** A plan not yet started on a cluster with one MachineDeployment and one worker, both at version `workers`. */
  function Start(spec: PlanSpec, images: set<Version>, topology: Version, world: CP.World, workers: Version): System {
    System(spec, images, true, PlanStatus(Pending, 0, []), Idle, topology, world,
           map["md" := Deployment(false, workers, workers)], map["worker" := workers], topology, [])
  }

  /** The plan has begun, paused the MachineDeployment and written its first step. */
  function Patched(s: System, step: Version, workers: Version): System {
    s.(plan := PlanStatus(RollingControlPlane, 0, InitialSteps(Resolved(s.spec))), topology := step, writes := [0],
       deployments := map["md" := Deployment(true, workers, workers)])
  }

  /** Runs of the control plane alone are runs of the system. */
  lemma {:induction false} LiftRun(s: System, moves: seq<CP.Move>)
    ensures Runs.Reaches(Next, s, s.(world := Runs.Exec(NextFixed, s.world, moves)))
    decreases |moves|
  {
    Runs.ReachesSelf<System, Move>(Next, s);
    if moves != [] {
      var s' := s.(world := NextFixed(s.world, moves[0]));
      assert s' == Next(s, ControlPlane(moves[0]));
      Runs.ReachesNext(Next, s, s, ControlPlane(moves[0]));
      LiftRun(s', moves[1..]);
      Runs.ReachesTrans<System, Move>(Next, s, s', s.(world := Runs.Exec(NextFixed, s.world, moves)));
    }
  }

  lemma Lift(s: System, world: CP.World)
    requires Runs.Reaches(NextFixed, s.world, world)
    ensures Runs.Reaches(Next, s, s.(world := world))
  {
    var moves: seq<CP.Move> :| Runs.Exec(NextFixed, s.world, moves) == world;
    LiftRun(s, moves);
  }

  lemma Step(start: System, s: System, s': System, move: Move)
    requires Runs.Reaches(Next, start, s) && s' == Next(s, move)
    ensures Runs.Reaches(Next, start, s')
  {
    Runs.ReachesNext(Next, start, s, move);
  }

  function Begun(s: System): System {
    s.(plan := PlanStatus(RollingControlPlane, 0, InitialSteps(Resolved(s.spec))))
  }

  function Paused(s: System, workers: Version): System {
    s.(deployments := map["md" := Deployment(true, workers, workers)], pc := Pausing({}))
  }

  lemma ReachesBegun(s: System)
    requires s.plan == PlanStatus(Pending, 0, []) && s.pc.Idle? && Preflight(s)
    ensures Runs.Reaches(Next, s, Begun(s))
  {
    Runs.ReachesSelf<System, Move>(Next, s);
    Step(s, s, Begun(s), Plan(true, true, "md"));
  }

  /** The plan has begun its first step with the one MachineDeployment still unpaused. */
  ghost predicate FirstStep(s: System, workers: Version) {
    && s == Begun(s) && s.pc.Idle? && s.classy && s.writes == []
    && s.deployments == map["md" := Deployment(false, workers, workers)]
  }

  lemma ReachesPaused(s: System, workers: Version)
    requires FirstStep(s, workers)
    ensures Runs.Reaches(Next, s, Paused(s, workers))
  {
    Runs.ReachesSelf<System, Move>(Next, s);
    assert PausedOnes(s, false) == {"md"};
    var s1 := s.(pc := Pausing({"md"}));
    Step(s, s, s1, Plan(true, true, "md"));
    assert {"md"} - {"md"} == {};
    Step(s, s1, Paused(s, workers), Plan(true, true, "md"));
  }

  lemma ReachesPatched(s: System, workers: Version)
    requires FirstStep(s, workers) && s.topology != Resolved(s.spec)[0]
    ensures Runs.Reaches(Next, s, Patched(s, Resolved(s.spec)[0], workers))
  {
    ReachesPaused(s, workers);
    var s1 := Paused(s, workers);
    var s2 := s1.(pc := Patching);
    Step(s, s1, s2, Plan(true, true, "md"));
    Step(s, s2, Patched(s, Resolved(s.spec)[0], workers), Plan(true, true, "md"));
  }

  // ---------------------------------------------------------------- snapshots

  /** A plan not yet started while the Machine, at a, is to be rolled to b; the object shows a or b. */
  function RollingStart(
    naming: Naming, spec: PlanSpec, images: set<Version>, a: Version, b: Version, seen: Version): System
  {
    Start(spec, images, b, Limits.Start(naming, a, seen), a).(base := a)
  }

  /** The control plane, told b, gets as far as having reclaimed its Machine. */
  lemma ReachesReclaimed(s: System, naming: Naming, a: Version, b: Version, seen: Version)
    requires RoundTrips(naming) && a != "" && b != "" && a != b && (seen == a || seen == b)
    requires s.world == Limits.Start(naming, a, seen) && s.topology == b
    ensures Runs.Reaches(Next, s, s.(world := Limits.Gone(naming, a, b, b)))
  {
    Runs.ReachesSelf<System, Move>(Next, s);
    var s1 := s.(world := Limits.Start(naming, a, b));
    Step(s, s, s1, Propagate);
    Limits.ReachesGone(naming, a, b);
    Lift(s1, Limits.Gone(naming, a, b, b));
    Runs.ReachesTrans<System, Move>(Next, s, s1, s.(world := Limits.Gone(naming, a, b, b)));
  }

  /** Told c in place of b after that, it creates the Machine without the snapshot taken for b. */
  lemma ReachesUnrestored(s: System, naming: Naming, a: Version, b: Version, c: Version)
    requires RoundTrips(naming) && b != "" && c != "" && c != b
    requires s.world == Limits.Gone(naming, a, b, b) && s.topology == c
    ensures var end := s.(world := Limits.Successor(naming, a, b, c)); Runs.Reaches(Next, s, end) && !AllRestore(end)
  {
    Runs.ReachesSelf<System, Move>(Next, s);
    var s1 := s.(world := Limits.Gone(naming, a, b, c));
    Step(s, s, s1, Propagate);
    Limits.ReachesSuccessor(naming, a, b, c);
    var end := s.(world := Limits.Successor(naming, a, b, c));
    Lift(s1, end.world);
    Runs.ReachesTrans<System, Move>(Next, s, s1, end);
    assert end.world.births[0] in end.world.births;
  }

  /**
    SuccessorsRestorePredecessors needs a plan that leaves a roll in flight alone. Started while the Machine
    still is to be rolled to b, a plan that passes its preflight and whose first step is another version can move
    the version between the deletion and the re-creation of that Machine, which then comes up without the snapshot.
  */
  lemma DriftedStartLosesSnapshot(naming: Naming, spec: PlanSpec, a: Version, b: Version, seen: Version)
    requires RoundTrips(naming) && a != "" && b != "" && a != b && (seen == a || seen == b)
    requires !NoAdvance(spec, seen) && Resolved(spec)[0] != "" && Resolved(spec)[0] != b
    ensures exists images, s :: Runs.Reaches(Next, RollingStart(naming, spec, images, a, b, seen), s) && !AllRestore(s)
  {
    var c := Resolved(spec)[0];
    var images := set v | v in Resolved(spec);
    var s0 := RollingStart(naming, spec, images, a, b, seen);
    ReachesBegun(s0);
    var s1 := Begun(s0);
    ReachesReclaimed(s1, naming, a, b, seen);
    var s2 := s1.(world := Limits.Gone(naming, a, b, b));
    Runs.ReachesTrans<System, Move>(Next, s0, s1, s2);
    ReachesPatched(s2, a);
    var s3 := Patched(s2, c, a);
    Runs.ReachesTrans<System, Move>(Next, s0, s2, s3);
    ReachesUnrestored(s3, naming, a, b, c);
    Runs.ReachesTrans<System, Move>(Next, s0, s3, s3.(world := Limits.Successor(naming, a, b, c)));
  }

  /** Every run of the plan, from every start between these versions, restores every recreated Machine. */
  ghost predicate AlwaysRestores(spec: PlanSpec, from: Version, topology: Version) {
    forall s: System, moves: seq<Move> {:trigger Runs.Exec(Next, s, moves)} ::
      RollStart(s, from) && s.spec == spec && s.topology == topology ==> AllRestore(Runs.Exec(Next, s, moves))
  }

  lemma RollingStarts(naming: Naming, spec: PlanSpec, images: set<Version>, a: Version, b: Version, seen: Version)
    requires RoundTrips(naming) && a != "" && b != "" && a != b && (seen == a || seen == b)
    requires UpgradeSafety.Distinct(Resolved(spec)) && UpgradeSafety.NonEmpty(Resolved(spec))
    ensures RollStart(RollingStart(naming, spec, images, a, b, seen), a)
  {
    AtRestReplaces(Limits.Start(naming, a, seen), a, b);
  }

  /**
    Exactly when a plan keeps every snapshot chain intact: if no roll is in flight, or its first step is that roll,
    or it fails its preflight on both versions the control plane may show.
  */
  lemma RestoresExactly(naming: Naming, spec: PlanSpec, from: Version, topology: Version)
    requires RoundTrips(naming) && from != "" && topology != ""
    requires UpgradeSafety.Distinct(Resolved(spec)) && UpgradeSafety.NonEmpty(Resolved(spec))
    ensures AlwaysRestores(spec, from, topology) <==> LeavesRollAlone(spec, from, topology)
  {
    if LeavesRollAlone(spec, from, topology) {
      forall s: System, moves: seq<Move> | RollStart(s, from) && s.spec == spec && s.topology == topology
        ensures AllRestore(Runs.Exec(Next, s, moves))
      {
        SuccessorsRestorePredecessors(s, from, moves);
      }
    } else {
      var seen := if NoAdvance(spec, from) then topology else from;
      DriftedStartLosesSnapshot(naming, spec, from, topology, seen);
      var images, s :|
        Runs.Reaches(Next, RollingStart(naming, spec, images, from, topology, seen), s) && !AllRestore(s);
      RollingStarts(naming, spec, images, from, topology, seen);
    }
  }

  // ---------------------------------------------------------------- version skew

  /**
    NoWorkerAheadOfControlPlane needs a first step not below the cluster's version. The preflight compares
    only the target with it, so a plan whose first step goes down leaves the workers ahead.
  */
  lemma FirstStepBelowOvertakes(naming: Naming, spec: PlanSpec, current: Version)
    requires RoundTrips(naming) && current != ""
    requires spec.less(current, spec.toVersion)
    requires Resolved(spec)[0] != "" && Resolved(spec)[0] != current && spec.less(Resolved(spec)[0], current)
    ensures exists images, s ::
              Runs.Reaches(Next, Start(spec, images, current, SettledWorld(naming, current), current), s)
                && !NoneAhead(s)
    ensures Settled(SettledWorld(naming, current), current)
  {
    var down := Resolved(spec)[0];
    var images := set v | v in Resolved(spec);
    var s0 := Start(spec, images, current, SettledWorld(naming, current), current);
    ReachesBegun(s0);
    ReachesPatched(Begun(s0), current);
    var s1 := Patched(s0, down, current);
    Runs.ReachesTrans<System, Move>(Next, s0, Begun(s0), s1);
    var s2 := s1.(world := Limits.Start(naming, current, down));
    Step(s0, s1, s2, Propagate);
    ReachesRolled(s2, naming, current, down);
    var s4 := s2.(world := Limits.Successor(naming, current, down, down));
    Runs.ReachesTrans<System, Move>(Next, s0, s2, s4);
    var n := naming.name(0);
    assert s4.world.machines[n].version == down && s4.workers["worker"] == current;
    assert !NoneAhead(s4);
  }

  /** The control plane alone rolls its Machine to the version it is told. */
  lemma ReachesRolled(s: System, naming: Naming, current: Version, next: Version)
    requires RoundTrips(naming) && current != "" && next != "" && current != next
    requires s.world == Limits.Start(naming, current, next)
    ensures Runs.Reaches(Next, s, s.(world := Limits.Successor(naming, current, next, next)))
  {
    Limits.ReachesGone(naming, current, next);
    var s1 := s.(world := Limits.Gone(naming, current, next, next));
    Lift(s, s1.world);
    Limits.ReachesSuccessor(naming, current, next, next);
    var s2 := s1.(world := Limits.Successor(naming, current, next, next));
    Lift(s1, s2.world);
    Runs.ReachesTrans<System, Move>(Next, s, s1, s2);
  }

  function SettledWorld(naming: Naming, version: Version): CP.World {
    Limits.Start(naming, version, version)
  }

  /** No run of the plan, from any settled cluster at this version, lets a worker get ahead. */
  ghost predicate SkewSafe(spec: PlanSpec, valid: Version -> bool, current: Version) {
    forall s: System, moves: seq<Move> {:trigger Runs.Exec(Next, s, moves)} ::
      SkewStart(s, valid) && s.spec == spec && s.topology == current ==> NoneAhead(Runs.Exec(Next, s, moves))
  }

  lemma StartIsSkewStart(
    naming: Naming, spec: PlanSpec, images: set<Version>, valid: Version -> bool, current: Version)
    requires RoundTrips(naming) && Accepted(spec, valid) && current != "" && UpgradeSafety.NonEmpty(Resolved(spec))
    ensures SkewStart(Start(spec, images, current, SettledWorld(naming, current), current), valid)
  {
    forall i, j | 0 <= i < j < |Resolved(spec)| ensures Resolved(spec)[i] != Resolved(spec)[j] {
      StepsRiseApart(spec, i, j);
    }
  }

  /**
    Exactly when an accepted plan is safe for the workers: unless it passes its preflight, which only
    compares the target with the cluster's version, and its first step is below that version.
  */
  lemma SkewSafeExactly(naming: Naming, spec: PlanSpec, valid: Version -> bool, current: Version)
    requires RoundTrips(naming) && Accepted(spec, valid) && current != "" && UpgradeSafety.NonEmpty(Resolved(spec))
    ensures SkewSafe(spec, valid, current) <==> NoAdvance(spec, current) || !spec.less(Resolved(spec)[0], current)
  {
    if NoAdvance(spec, current) || !spec.less(Resolved(spec)[0], current) {
      forall s: System, moves: seq<Move> | SkewStart(s, valid) && s.spec == spec && s.topology == current
        ensures NoneAhead(Runs.Exec(Next, s, moves))
      {
        NoWorkerAheadOfControlPlane(s, valid, moves);
      }
    } else {
      FirstStepBelowOvertakes(naming, spec, current);
      var images, s :|
        Runs.Reaches(Next, Start(spec, images, current, SettledWorld(naming, current), current), s) && !NoneAhead(s);
      StartIsSkewStart(naming, spec, images, valid, current);
    }
  }
}
