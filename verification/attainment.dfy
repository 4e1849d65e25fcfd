/**
  Which control planes reach what their spec asks for, and which never do: with a fixed spec, exactly those
  without a doomed Machine. What a doomed Machine lacks, no run supplies.
*/
module Attainment {
  import opened Names
  import opened ControlPlane
  import opened Drift
  import opened Measure
  import opened ReconcilePass
  import opened Convergence
  import Runs

  // ---------------------------------------------------------------- doomed for ever

  lemma DoomOutlivesDrift(w: World, n: Name, pick: Name, data: string)
    requires Steady(w) && DoomedBy(w, n)
    ensures w.pc.Capturing? ==> DoomedBy(Capture(w, w.pc.cp, w.pc.name, data), n)
    ensures w.pc.Writing? ==> DoomedBy(WriteFile(w, w.pc.cp, w.pc.name, w.pc.snapshot), n)
    ensures w.pc.DeletingConfig? ==> DoomedBy(DeleteConfig(w, w.pc.cp, w.pc.name), n)
    ensures w.pc.DeletingInfra? ==> DoomedBy(DeleteInfra(w, w.pc.cp, w.pc.name), n)
  {
  }

  lemma DoomOutlivesChoice(w: World, n: Name, pick: Name)
    requires Steady(w) && DoomedBy(w, n) && w.pc.Choosing?
    ensures DoomedBy(Choose(w, w.pc.cp, pick), n)
  {
    ChoosingChanges(w, pick);
  }

  lemma DoomOutlivesRecord(w: World, n: Name)
    requires Steady(w) && DoomedBy(w, n) && w.pc.Recording?
    ensures DoomedBy(RecordReplacement(w, w.pc.cp, w.pc.name), n)
  {
    var w' := RecordReplacement(w, w.pc.cp, w.pc.name);
    RecordIrrelevant(w.naming, w.machines, w.infras, w.cp, w'.cp);
  }

  /** Another Machine is deleted: it is the one on record, so n is not, and never will be. */
  lemma DoomOutlivesDeletion(w: World, n: Name)
    requires Steady(w) && DoomedBy(w, n) && w.pc.DeletingMachine?
    ensures DoomedBy(DeleteMachine(w, w.pc.cp, w.pc.name), n)
  {
    var w' := DeleteMachine(w, w.pc.cp, w.pc.name);
    assert n in Drifting(w');
  }

  lemma DoomOutlivesEnvironment(w: World, n: Name, move: Move)
    requires Steady(w) && DoomedBy(w, n) && !move.Go? && !move.SetSpec? && !move.ReclaimMachine?
    ensures DoomedBy(Next(w, move), n)
  {
  }

  lemma DoomOutlivesReclaim(w: World, n: Name, other: Name)
    requires Steady(w) && DoomedBy(w, n)
    ensures DoomedBy(DropMachine(w, other), n)
  {
    var w' := DropMachine(w, other);
    assert forall m | m in Drifting(w) && !w.machines[m].deleting ::
             m in Drifting(w') && w'.machines[m] == w.machines[m];
  }

  lemma DoomStays(w: World, n: Name, move: Move)
    requires Steady(w) && DoomedBy(w, n)
    ensures DoomedBy(NextFixed(w, move), n)
  {
    if move.SetSpec? {
    } else if move.ReclaimMachine? {
      DoomOutlivesReclaim(w, n, move.name);
    } else if !move.Go? {
      DoomOutlivesEnvironment(w, n, move);
    } else if w.pc.Choosing? {
      DoomOutlivesChoice(w, n, move.pick);
    } else if w.pc.Recording? {
      DoomOutlivesRecord(w, n);
    } else if w.pc.DeletingMachine? {
      DoomOutlivesDeletion(w, n);
    } else {
      DoomOutlivesDrift(w, n, move.pick, move.data);
    }
  }

  /** No run from a doomed state ever converges. */
  lemma {:induction false} DoomedForever(w: World, n: Name, moves: seq<Move>)
    requires Steady(w) && DoomedBy(w, n)
    ensures DoomedBy(Runs.Exec(NextFixed, w, moves), n) && !Converged(Runs.Exec(NextFixed, w, moves))
    decreases |moves|
  {
    if moves != [] {
      MoveFine(w, moves[0]);
      DoomStays(w, n, moves[0]);
      DoomedForever(NextFixed(w, moves[0]), n, moves[1..]);
    }
  }

  // ---------------------------------------------------------------- otherwise there is a way

  /** Taking down a deleted Machine dooms no other. */
  lemma TeardownKeepsHope(w: World, n: Name)
    requires Steady(w) && w.pc.Idle? && !Doomed(w) && n in w.machines && w.machines[n].deleting
    ensures !Doomed(Runs.Exec(NextFixed, w, Teardown(n)))
  {
    TeardownRun(w, n);
    var w' := Runs.Exec(NextFixed, w, Teardown(n));
    forall m ensures !DoomedBy(w', m) {
      assert !DoomedBy(w, m);
      assert forall k | k in Drifting(w') && !w'.machines[k].deleting :: k in Drifting(w) && !w.machines[k].deleting;
    }
  }

  /** The five steps of a reconcile that is done with h after choosing it. */
  function ReconcileOf(h: Name): seq<Move> {
    [Go(h, "x"), Go(h, "x"), Go(h, "x"), Go(h, "x"), Go(h, "x")]
  }

  /** h marked for deletion, with its config and its HypervisorMachine. */
  function Deleted(w: World, h: Name): World {
    DeleteInfra(DeleteConfig(DeleteMachine(w, w.cp, h), w.cp, h), w.cp, h)
  }

  lemma DeletionBegins(w: World, h: Name)
    requires Steady(w) && w.pc.Idle? && Highest(w, h) && Matches(w.cp.replacement, h, w.cp.version)
    ensures NextFixed(w, Go(h, "x")) == w.(pc := Choosing(w.cp))
    ensures NextFixed(w.(pc := Choosing(w.cp)), Go(h, "x")) == w.(pc := DeletingMachine(w.cp, h))
  {
  }

  lemma DeletionEnds(w: World, h: Name)
    ensures NextFixed(w.(pc := DeletingMachine(w.cp, h)), Go(h, "x")) == DeleteMachine(w, w.cp, h)
    ensures NextFixed(DeleteMachine(w, w.cp, h), Go(h, "x")) == DeleteConfig(DeleteMachine(w, w.cp, h), w.cp, h)
    ensures NextFixed(DeleteConfig(DeleteMachine(w, w.cp, h), w.cp, h), Go(h, "x")) == Deleted(w, h)
  {
  }

  lemma DeletionRuns(w: World, h: Name)
    requires Steady(w) && w.pc.Idle? && Highest(w, h) && Matches(w.cp.replacement, h, w.cp.version)
    ensures Runs.Reaches(NextFixed, w, Deleted(w, h))
  {
    DeletionBegins(w, h);
    DeletionEnds(w, h);
    Runs.ExecFive(NextFixed, Go(h, "x"), w, w.(pc := Choosing(w.cp)), w.(pc := DeletingMachine(w.cp, h)),
                  DeleteMachine(w, w.cp, h), DeleteConfig(DeleteMachine(w, w.cp, h), w.cp, h), Deleted(w, h));
    assert Runs.Exec(NextFixed, w, ReconcileOf(h)) == Deleted(w, h);
  }

  /** What some run reaches is steady and no higher. */
  lemma ReachedFine(w: World, w': World)
    requires Steady(w) && Runs.Reaches(NextFixed, w, w')
    ensures Steady(w') && AtMost(Of(w'), Of(w))
  {
    var moves: seq<Move> :| Runs.Exec(NextFixed, w, moves) == w';
    MeasureNeverRises(w, moves);
  }

  lemma DeletionKeepsHope(w: World, h: Name)
    requires Steady(w) && w.pc.Idle? && !Doomed(w) && Highest(w, h) && Matches(w.cp.replacement, h, w.cp.version)
    ensures !Doomed(Deleted(w, h))
  {
    var w' := Deleted(w, h);
    forall m ensures !DoomedBy(w', m) {
      assert !DoomedBy(w, m);
      assert m in Drifting(w') ==> m in Drifting(w);
    }
  }

  lemma DeletedSteady(w: World, h: Name)
    requires Steady(w) && w.pc.Idle? && Highest(w, h) && Matches(w.cp.replacement, h, w.cp.version)
    ensures Steady(Deleted(w, h))
  {
    DeletionRuns(w, h);
    ReachedFine(w, Deleted(w, h));
  }

  lemma DeletionLowers(w: World, h: Name)
    requires Steady(w) && w.pc.Idle? && Highest(w, h) && Stage(w, h) == 1
    ensures Below(Of(Deleted(w, h)), Of(w))
  {
    var w' := Deleted(w, h);
    DeletedSteady(w, h);
    assert Drifting(w') == Drifting(w);
    UncapturedIs(w, h);
    UncapturedIs(w', h);
  }

  /** The port of h published, its snapshot taken and recorded. */
  function Captured(w: World, h: Name): World {
    var p := Publish(w, h);
    RecordReplacement(p.(disk := p.disk[SnapshotFile(h, w.cp.version) := Snapshot("x", Owner(w, h))]), w.cp, h)
  }

  function Owner(w: World, h: Name): int {
    if h in w.infras then w.infras[h].owner else 0
  }

  lemma CaptureBegins(w: World, h: Name)
    requires w.cp.version != "" && w.pc.Idle? && Highest(w, h) && !Matches(w.cp.replacement, h, w.cp.version)
    ensures NextFixed(w, Go(h, "x")) == w.(pc := Choosing(w.cp))
    ensures NextFixed(w.(pc := Choosing(w.cp)), Go(h, "x")) == w.(pc := Capturing(w.cp, h))
  {
  }

  lemma CaptureEnds(w: World, h: Name)
    requires h in w.infras && w.infras[h].etcd
    ensures var file, snapshot := SnapshotFile(h, w.cp.version), Snapshot("x", w.infras[h].owner);
      && NextFixed(w.(pc := Capturing(w.cp, h)), Go(h, "x")) == w.(pc := Writing(w.cp, h, snapshot))
      && NextFixed(w.(pc := Writing(w.cp, h, snapshot)), Go(h, "x"))
         == w.(disk := w.disk[file := snapshot], pc := Recording(w.cp, h))
      && NextFixed(w.(disk := w.disk[file := snapshot], pc := Recording(w.cp, h)), Go(h, "x"))
         == RecordReplacement(w.(disk := w.disk[file := snapshot]), w.cp, h)
  {
  }

  lemma CaptureOf(p: World, h: Name)
    requires p.cp.version != "" && p.pc.Idle? && Highest(p, h) && !Matches(p.cp.replacement, h, p.cp.version)
    requires h in p.infras && p.infras[h].etcd
    ensures var file, snapshot := SnapshotFile(h, p.cp.version), Snapshot("x", p.infras[h].owner);
      Runs.Exec(NextFixed, p, ReconcileOf(h)) == RecordReplacement(p.(disk := p.disk[file := snapshot]), p.cp, h)
  {
    CaptureBegins(p, h);
    CaptureEnds(p, h);
    var file, snapshot := SnapshotFile(h, p.cp.version), Snapshot("x", p.infras[h].owner);
    Runs.ExecFive(NextFixed, Go(h, "x"), p, p.(pc := Choosing(p.cp)), p.(pc := Capturing(p.cp, h)),
                  p.(pc := Writing(p.cp, h, snapshot)), p.(disk := p.disk[file := snapshot], pc := Recording(p.cp, h)),
                  RecordReplacement(p.(disk := p.disk[file := snapshot]), p.cp, h));
  }

  lemma PublishedCapture(w: World, h: Name)
    requires Steady(w) && w.pc.Idle? && Highest(w, h) && !Matches(w.cp.replacement, h, w.cp.version) && h in w.infras
    ensures Runs.Reaches(NextFixed, Publish(w, h), Captured(w, h))
  {
    PublishFine(w, h);
    CaptureOf(Publish(w, h), h);
    assert Runs.Exec(NextFixed, Publish(w, h), ReconcileOf(h)) == Captured(w, h);
  }

  lemma CaptureRuns(w: World, h: Name)
    requires Steady(w) && w.pc.Idle? && Highest(w, h) && !Matches(w.cp.replacement, h, w.cp.version) && h in w.infras
    ensures Runs.Reaches(NextFixed, w, Captured(w, h))
  {
    Runs.ReachesSelf<World, Move>(NextFixed, w);
    Runs.ReachesNext(NextFixed, w, w, PublishEtcd(h));
    PublishedCapture(w, h);
    Runs.ReachesTrans<World, Move>(NextFixed, w, Publish(w, h), Captured(w, h));
  }

  lemma CaptureKeepsHope(w: World, h: Name)
    requires Steady(w) && w.pc.Idle? && !Doomed(w) && Highest(w, h) && !w.machines[h].deleting && h in w.infras
    ensures !Doomed(Captured(w, h))
  {
    var w' := Captured(w, h);
    RecordIrrelevant(w.naming, w.machines, w.infras, w.cp, w'.cp);
    forall m ensures !DoomedBy(w', m) {
      assert !DoomedBy(w, m);
      assert m in Drifting(w) && m != h ==> Index(w.naming, h) > Index(w.naming, m) by {
        assert m in Drifting(w) && Index(w.naming, m) == Index(w.naming, h) ==> m == h;
      }
    }
  }

  lemma CaptureLowers(w: World, h: Name)
    requires Steady(w) && w.pc.Idle? && Highest(w, h) && !w.machines[h].deleting
    requires !Matches(w.cp.replacement, h, w.cp.version) && h in w.infras
    ensures Below(Of(Captured(w, h)), Of(w))
  {
    var w' := Captured(w, h);
    CaptureRuns(w, h);
    ReachedFine(w, w');
    RecordIrrelevant(w.naming, w.machines, w.infras, w.cp, w'.cp);
    UncapturedIs(w, h);
    UncapturedIs(w', h);
  }

  // ---------------------------------------------------------------- exactly when

  /** Some run leads to an idle state free of doom, with a lower measure. */
  ghost predicate Better(w: World, w': World) {
    Runs.Reaches(NextFixed, w, w') && w'.pc.Idle? && !Doomed(w') && Below(Of(w'), Of(w))
  }

  lemma DriftBetters(w: World, h: Name) returns (w': World)
    requires Steady(w) && w.pc.Idle? && !Doomed(w) && Highest(w, h) && !w.machines[h].deleting
    ensures Better(w, w')
  {
    if Matches(w.cp.replacement, h, w.cp.version) {
      w' := Deleted(w, h);
      DeletionRuns(w, h);
      DeletionKeepsHope(w, h);
      DeletionLowers(w, h);
    } else {
      assert !DoomedBy(w, h);
      w' := Captured(w, h);
      CaptureRuns(w, h);
      CaptureKeepsHope(w, h);
      CaptureLowers(w, h);
    }
  }

  lemma BuildBetters(w: World) returns (end: World)
    requires Buildable(w)
    ensures Better(w, end)
  {
    BuildPassLowers(w);
    var start := w.(pc := Choosing(w.cp));
    var moves;
    moves, end := PassExists(start);
    PassIsRun(start, moves, end);
    assert Runs.Reaches<World, Move>(NextFixed, start, end);
    Runs.ReachesSelf<World, Move>(NextFixed, w);
    Runs.ReachesNext(NextFixed, w, w, Go("", "x"));
    Runs.ReachesTrans<World, Move>(NextFixed, w, start, end);
    ReachedFine(w, end);
    NoDriftNoDoom(end);
  }

  lemma NoDriftNoDoom(w: World)
    requires |Drifting(w)| <= 0
    ensures !Doomed(w)
  {
    assert Drifting(w) == {};
  }

  lemma SweepBetters(w: World, n: Name)
    requires Steady(w) && w.pc.Idle? && Drifting(w) == {} && n in Unfit(w.machines, w.infras)
    ensures Better(w, Runs.Exec(NextFixed, w, Sweep(n)))
  {
    SweepRun(w, n);
    SweepLowers(w, n);
    NoDriftNoDoom(Runs.Exec(NextFixed, w, Sweep(n)));
  }

  lemma TeardownBetters(w: World, n: Name)
    requires Steady(w) && w.pc.Idle? && !Doomed(w) && n in Deleting(w.machines)
    ensures Better(w, Runs.Exec(NextFixed, w, Teardown(n)))
  {
    TeardownRun(w, n);
    TeardownKeepsHope(w, n);
    TeardownLowers(w, n);
  }

  lemma SomethingBetters(w: World) returns (w': World)
    requires Steady(w) && w.pc.Idle? && !Doomed(w) && !Converged(w)
    ensures Better(w, w')
  {
    if Deleting(w.machines) != {} {
      var n :| n in Deleting(w.machines);
      w' := Runs.Exec(NextFixed, w, Teardown(n));
      TeardownBetters(w, n);
    } else if Drifting(w) != {} {
      var h := HighestExists(w, Drifting(w));
      assert h !in Deleting(w.machines);
      w' := DriftBetters(w, h);
    } else if Unfit(w.machines, w.infras) != {} {
      var n :| n in Unfit(w.machines, w.infras);
      w' := Runs.Exec(NextFixed, w, Sweep(n));
      SweepBetters(w, n);
    } else {
      w' := BuildBetters(w);
    }
  }

  lemma MeasureIsNatural(w: World)
    ensures && Of(w).drifted >= 0 && Of(w).uncaptured >= 0 && Of(w).surplus >= 0
            && Of(w).leftover >= 0 && Of(w).missing >= 0
  {
  }

  /** From every idle state without a doomed Machine some run converges. */
  lemma {:induction false} ConvergedReachable(w: World) returns (end: World)
    requires Steady(w) && w.pc.Idle? && !Doomed(w)
    ensures Runs.Reaches(NextFixed, w, end) && Converged(end) && end.pc.Idle?
    decreases Of(w).drifted, Of(w).uncaptured, Of(w).surplus, Of(w).leftover, Of(w).missing
  {
    if Converged(w) {
      Runs.ReachesSelf<World, Move>(NextFixed, w);
      end := w;
    } else {
      var w' := SomethingBetters(w);
      ReachedFine(w, w');
      MeasureIsNatural(w);
      MeasureIsNatural(w');
      end := ConvergedReachable(w');
      Runs.ReachesTrans<World, Move>(NextFixed, w, w', end);
    }
  }

  /** Some run with a fixed spec ends converged. */
  ghost predicate CanConverge(w: World) {
    exists moves: seq<Move> :: Converged(Runs.Exec(NextFixed, w, moves))
  }

  /** With a fixed spec, an idle control plane can reach what its spec asks for exactly when no Machine is doomed. */
  lemma ConvergesExactly(w: World)
    requires Steady(w) && w.pc.Idle?
    ensures CanConverge(w) <==> !Doomed(w)
  {
    if Doomed(w) {
      var n :| DoomedBy(w, n);
      forall moves: seq<Move> ensures !Converged(Runs.Exec(NextFixed, w, moves)) {
        DoomedForever(w, n, moves);
      }
    } else {
      var end := ConvergedReachable(w);
      var moves: seq<Move> :| Runs.Exec(NextFixed, w, moves) == end;
    }
  }

  // ---------------------------------------------------------------- never doomed

  /** Every live drifted Machine has a fit HypervisorMachine, or is the next to go and on record. */
  ghost predicate Rescued(w: World) {
    forall n | n in Drifting(w) && !w.machines[n].deleting ::
      || (n in w.infras && Fits(w.machines[n], w.infras[n]))
      || (Highest(w, n) && Matches(w.cp.replacement, n, w.cp.version) && !Snapshotting(w.pc))
  }

  lemma RescuedByChoice(w: World, pick: Name)
    requires Steady(w) && Rescued(w) && w.pc.Choosing?
    ensures Rescued(Choose(w, w.pc.cp, pick))
  {
    ChoosingChanges(w, pick);
    assert forall g, h | Highest(w, g) && Highest(w, h) :: g == h;
  }

  lemma RescuedByDriftSteps(w: World, data: string)
    requires Steady(w) && Rescued(w)
    ensures w.pc.Capturing? ==> Rescued(Capture(w, w.pc.cp, w.pc.name, data))
    ensures w.pc.Writing? ==> Rescued(WriteFile(w, w.pc.cp, w.pc.name, w.pc.snapshot))
    ensures w.pc.DeletingConfig? ==> Rescued(DeleteConfig(w, w.pc.cp, w.pc.name))
    ensures w.pc.DeletingInfra? ==> Rescued(DeleteInfra(w, w.pc.cp, w.pc.name))
  {
  }

  lemma RescuedByRecord(w: World)
    requires Steady(w) && Rescued(w) && w.pc.Recording?
    ensures Rescued(RecordReplacement(w, w.pc.cp, w.pc.name))
  {
    RecordIrrelevant(w.naming, w.machines, w.infras, w.cp, RecordReplacement(w, w.pc.cp, w.pc.name).cp);
  }

  lemma RescuedByDeletion(w: World)
    requires Steady(w) && Rescued(w) && w.pc.DeletingMachine?
    ensures Rescued(DeleteMachine(w, w.pc.cp, w.pc.name))
  {
    assert Drifting(DeleteMachine(w, w.pc.cp, w.pc.name)) == Drifting(w);
  }

  /** Past drift there is nothing to rescue. */
  lemma RescuedPastDrift(w: World, pick: Name, data: string)
    requires Steady(w) && PastDrift(w.pc)
    ensures Rescued(Advance(w, pick, data))
  {
    CreationStepsFine(w, pick, data);
    assert |Drifting(Advance(w, pick, data))| <= |Drifting(w)|;
    assert Drifting(Advance(w, pick, data)) == {};
  }

  lemma RescuedByEnvironment(w: World, move: Move)
    requires Steady(w) && Rescued(w) && !move.Go? && !move.SetSpec? && !move.ReclaimMachine?
    ensures Rescued(Next(w, move))
  {
  }

  lemma RescuedByReclaim(w: World, n: Name)
    requires Steady(w) && Rescued(w)
    ensures Rescued(DropMachine(w, n))
  {
    DropMachineSteady(w, n);
  }

  lemma RescuedNext(w: World, move: Move)
    requires Steady(w) && Rescued(w)
    ensures Rescued(NextFixed(w, move))
  {
    if move.SetSpec? {
    } else if move.ReclaimMachine? {
      RescuedByReclaim(w, move.name);
    } else if !move.Go? {
      RescuedByEnvironment(w, move);
    } else if PastDrift(w.pc) {
      RescuedPastDrift(w, move.pick, move.data);
    } else if w.pc.Choosing? {
      RescuedByChoice(w, move.pick);
    } else if w.pc.Recording? {
      RescuedByRecord(w);
    } else if w.pc.DeletingMachine? {
      RescuedByDeletion(w);
    } else {
      RescuedByDriftSteps(w, move.data);
    }
  }

  lemma {:induction false} RescuedAlways(w: World, moves: seq<Move>)
    requires Steady(w) && Rescued(w)
    ensures Steady(Runs.Exec(NextFixed, w, moves)) && Rescued(Runs.Exec(NextFixed, w, moves))
    decreases |moves|
  {
    if moves != [] {
      MoveFine(w, moves[0]);
      RescuedNext(w, moves[0]);
      RescuedAlways(NextFixed(w, moves[0]), moves[1..]);
    }
  }

  /**
    If every live drifted Machine has a HypervisorMachine, no run with a fixed spec ever gets stuck: after
    any moves, crashes and partial teardowns, a crash and some further run still converge.
  */
  lemma AlwaysConvergeable(w: World, moves: seq<Move>)
    requires Steady(w) && Rescued(w)
    ensures CanConverge(NextFixed(Runs.Exec(NextFixed, w, moves), Crash))
  {
    RescuedAlways(w, moves + [Crash]);
    Runs.ExecConcat(NextFixed, w, moves, [Crash]);
    Runs.ExecOne(NextFixed, Runs.Exec(NextFixed, w, moves), Crash);
    var end := Runs.Exec(NextFixed, w, moves + [Crash]);
    RescuedMeansHope(end);
    ConvergesExactly(end);
  }

  lemma RescuedMeansHope(w: World)
    requires Steady(w) && Rescued(w) && w.pc.Idle?
    ensures !Doomed(w)
  {
    forall n ensures !DoomedBy(w, n) {
    }
  }

  // ---------------------------------------------------------------- every fair schedule

  /**
    What a fair schedule does sooner or later from an idle state: the environment takes down an object or
    publishes a port if that lowers the measure, and otherwise a reconcile runs to its end.
  */
  ghost predicate FairTurn(mid: World, w': World) {
    if EnvironmentLowers(mid) then
      exists run :: EnvironmentRun(run) && w' == Runs.Exec(NextFixed, mid, run) && Below(Of(w'), Of(mid))
    else
      exists moves :: Pass(mid.(pc := Choosing(mid.cp)), moves, w')
  }

  /** Any moves whatever, a crash, and then a fair turn. */
  ghost predicate FairRound(w: World, w': World) {
    exists moves: seq<Move> :: FairTurn(Runs.Exec(NextFixed, w, moves + [Crash]), w')
  }

  lemma CrashEnds(w: World, moves: seq<Move>)
    ensures Runs.Exec(NextFixed, w, moves + [Crash]).pc.Idle?
  {
    Runs.ExecConcat(NextFixed, w, moves, [Crash]);
    Runs.ExecOne(NextFixed, Runs.Exec(NextFixed, w, moves), Crash);
  }

  /** A pass from an idle state is a run from it. */
  lemma PassReached(mid: World, moves: seq<Move>, w': World)
    requires mid.pc.Idle? && Pass(mid.(pc := Choosing(mid.cp)), moves, w')
    ensures w' == Runs.Exec(NextFixed, mid, [Go("", "x")] + moves)
  {
    PassIsRun(mid.(pc := Choosing(mid.cp)), moves, w');
    Runs.ExecConcat(NextFixed, mid, [Go("", "x")], moves);
    Runs.ExecOne(NextFixed, mid, Go("", "x"));
  }

  lemma FairTurnLowers(mid: World, w': World)
    requires Steady(mid) && Rescued(mid) && mid.pc.Idle? && FairTurn(mid, w')
    ensures Steady(w') && Rescued(w') && (Converged(w') || Below(Of(w'), Of(mid)))
  {
    RescuedMeansHope(mid);
    if EnvironmentLowers(mid) {
      var run :| EnvironmentRun(run) && w' == Runs.Exec(NextFixed, mid, run) && Below(Of(w'), Of(mid));
      RescuedAlways(mid, run);
    } else {
      var moves :| Pass(mid.(pc := Choosing(mid.cp)), moves, w');
      PassReached(mid, moves, w');
      RescuedAlways(mid, [Go("", "x")] + moves);
      Progress(mid);
      if Converged(mid) { ConvergedStays(mid, [Go("", "x")] + moves); }
    }
  }

  /** Every fair round ends converged, or lower and as able to converge as before. */
  lemma FairRoundLowers(w: World, w': World)
    requires Steady(w) && Rescued(w) && FairRound(w, w')
    ensures Steady(w') && Rescued(w') && (Converged(w') || Below(Of(w'), Of(w)))
  {
    var moves: seq<Move> :| FairTurn(Runs.Exec(NextFixed, w, moves + [Crash]), w');
    var mid := Runs.Exec(NextFixed, w, moves + [Crash]);
    CrashEnds(w, moves);
    RescuedAlways(w, moves + [Crash]);
    MeasureNeverRises(w, moves + [Crash]);
    FairTurnLowers(mid, w');
    if Below(Of(w'), Of(mid)) { AtMostTransitive(Of(w'), Of(mid), Of(w)); }
  }

  /**
    Every fair schedule converges: in any endless list of such rounds, whatever else happens in them, some state
    has converged, and by ConvergedStays all later ones have.
  */
  lemma {:induction false} FairSchedulesConverge(rounds: nat -> World, from: nat) returns (k: nat)
    requires Steady(rounds(from)) && Rescued(rounds(from))
    requires forall i: nat {:trigger rounds(i + 1)} :: FairRound(rounds(i), rounds(i + 1))
    ensures from <= k && Converged(rounds(k))
    decreases Of(rounds(from)).drifted, Of(rounds(from)).uncaptured, Of(rounds(from)).surplus,
              Of(rounds(from)).leftover, Of(rounds(from)).missing
  {
    var w, w' := rounds(from), rounds(from + 1);
    assert FairRound(w, w');
    FairRoundLowers(w, w');
    if Converged(w') {
      k := from + 1;
    } else {
      MeasureIsNatural(w);
      MeasureIsNatural(w');
      k := FairSchedulesConverge(rounds, from + 1);
    }
  }

  // ---------------------------------------------------------------- the names of the source, and why they matter

  /** The same for the names the reconciler gives its Machines. */
  lemma ConvergesExactlyByName(cpName: string, w: World)
    requires w.naming == Scheme(cpName) && w.pc.Idle? && w.cp.version != "" && w.cp.Desired() < 0x8000_0000
    requires forall n, m | n in Drifting(w) && m in Drifting(w) ::
               MachineIndex(n, cpName) == MachineIndex(m, cpName) ==> n == m
    ensures CanConverge(w) <==> !Doomed(w)
  {
    SchemeRoundTrips(cpName);
    ConvergesExactly(w);
  }

  /**
    Drifted Machines must not share an index, as "cp-1" and "cp-01" would: the drift path may pick either,
    and two reconciles that pick them in turn record each in place of the other and delete none.
  */
  lemma SharedIndexAlternates(w: World, a: Name, b: Name)
    requires w.pc.Idle? && w.cp.version != "" && a != b && Highest(w, a) && Highest(w, b)
    requires a in w.infras && w.infras[a].etcd && b in w.infras && w.infras[b].etcd
    requires Matches(w.cp.replacement, a, w.cp.version)
    ensures var end := Runs.Exec(NextFixed, w, ReconcileOf(b) + ReconcileOf(a));
      end.machines == w.machines && end.infras == w.infras && Matches(end.cp.replacement, a, w.cp.version)
        && end.pc.Idle?
  {
    CaptureOf(w, b);
    var w1 := Runs.Exec(NextFixed, w, ReconcileOf(b));
    RecordIrrelevant(w.naming, w.machines, w.infras, w.cp, w1.cp);
    CaptureOf(w1, a);
    Runs.ExecConcat(NextFixed, w, ReconcileOf(b), ReconcileOf(a));
  }
}
