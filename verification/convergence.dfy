/**
  Convergence of the control plane while the desired version and replica count stay fixed: over the
  transition system itself, from any idle state, with deletions in progress and crashes anywhere.
*/
module Convergence {
  import opened ControlPlane
  import opened Drift
  import opened Measure
  import opened ReconcilePass
  import Runs

  /**
    The canonically named Machines are exactly indices 0..r-1, each live, at the desired version or
    versionless, with a HypervisorMachine of its own; nothing is under deletion or left over.
  */
  ghost predicate Converged(w: World) {
    && (forall i | 0 <= i < w.cp.Desired() :: w.naming.name(i) in w.machines && w.naming.name(i) in w.infras)
    && (forall n | n in w.machines ::
          && !w.machines[n].deleting && !IsSurplus(w.naming, n, w.cp)
          && !(Drifted(w.machines[n], w.cp.version) && Managed(w.naming, n, w.cp)))
    && (forall n | n in w.infras :: n in w.machines && Fits(w.machines[n], w.infras[n]))
  }

  /** Converged is what the measure counts down to. */
  lemma ConvergedIsZero(w: World)
    requires Steady(w)
    ensures Converged(w) <==> Of(w) == Measure(0, 0, 0, 0, 0)
  {
    if Converged(w) {
      assert Drifting(w) == {};
      assert Surplus(w.naming, w.machines, w.cp) == {};
      assert Deleting(w.machines) == {};
      assert Unfit(w.machines, w.infras) == {};
      assert Absent(w.naming, w.machines, w.cp) == {};
      assert Bare(w.naming, w.machines, w.infras, w.cp) == {};
    } else if Of(w) == Measure(0, 0, 0, 0, 0) {
      ZeroIsConverged(w);
    }
  }

  lemma ZeroMeansEmpty(w: World)
    requires Of(w) == Measure(0, 0, 0, 0, 0)
    ensures Drifting(w) == {} && Surplus(w.naming, w.machines, w.cp) == {} && Deleting(w.machines) == {}
    ensures Unfit(w.machines, w.infras) == {} && Absent(w.naming, w.machines, w.cp) == {}
    ensures Bare(w.naming, w.machines, w.infras, w.cp) == {}
  {
  }

  lemma ZeroIsConverged(w: World)
    requires Steady(w) && Of(w) == Measure(0, 0, 0, 0, 0)
    ensures Converged(w)
  {
    ZeroMeansEmpty(w);
    forall i | 0 <= i < w.cp.Desired() ensures w.naming.name(i) in w.machines && w.naming.name(i) in w.infras {
      var n := w.naming.name(i);
      assert n in Replicas(w.naming, w.cp);
      assert n !in Absent(w.naming, w.machines, w.cp);
      assert n !in Deleting(w.machines) && n !in Bare(w.naming, w.machines, w.infras, w.cp);
    }
    forall n | n in w.machines
      ensures && !w.machines[n].deleting && !IsSurplus(w.naming, n, w.cp)
              && !(Drifted(w.machines[n], w.cp.version) && Managed(w.naming, n, w.cp))
    {
      assert n !in Deleting(w.machines) && n !in Surplus(w.naming, w.machines, w.cp) && n !in Drifting(w);
    }
    forall n | n in w.infras ensures n in w.machines && Fits(w.machines[n], w.infras[n]) {
      assert n !in Unfit(w.machines, w.infras);
    }
  }

  /** Once converged, always converged. */
  lemma ConvergedStays(w: World, moves: seq<Move>)
    requires Steady(w) && Converged(w)
    ensures Converged(Runs.Exec(NextFixed, w, moves))
  {
    ConvergedIsZero(w);
    MeasureNeverRises(w, moves);
    ConvergedIsZero(Runs.Exec(NextFixed, w, moves));
  }

  // ---------------------------------------------------------------- runs of the environment

  /** Cluster API and the providers take down a deleted Machine. */
  function Teardown(n: Name): seq<Move> {
    [Cascade(n), ReclaimConfig(n), ReclaimInfra(n), ReclaimMachine(n)]
  }

  /** Garbage collection and the provider take down a HypervisorMachine that must go. */
  function Sweep(n: Name): seq<Move> {
    [Collect(n), ReclaimInfra(n)]
  }

  ghost predicate EnvironmentRun(moves: seq<Move>) {
    exists n :: moves == Teardown(n) || moves == Sweep(n) || moves == [PublishEtcd(n)]
  }

  ghost predicate EnvironmentLowers(w: World) {
    exists moves :: EnvironmentRun(moves) && Below(Of(Runs.Exec(NextFixed, w, moves)), Of(w))
  }

  lemma TeardownUnhooks(w: World, n: Name)
    requires n in w.machines && w.machines[n].deleting
    ensures NextFixed(NextFixed(NextFixed(w, Cascade(n)), ReclaimConfig(n)), ReclaimInfra(n))
         == w.(configs := w.configs - {n}, infras := w.infras - {n})
  {
    var w2 := NextFixed(NextFixed(w, Cascade(n)), ReclaimConfig(n));
    assert w2.configs == w.configs - {n};
    var w3 := NextFixed(w2, ReclaimInfra(n));
    assert w3.infras == w.infras - {n};
  }

  lemma TeardownRun(w: World, n: Name)
    requires n in w.machines && w.machines[n].deleting
    ensures Runs.Exec(NextFixed, w, Teardown(n))
         == w.(machines := w.machines - {n}, configs := w.configs - {n}, infras := w.infras - {n})
  {
    Runs.ExecFour(NextFixed, w, Cascade(n), ReclaimConfig(n), ReclaimInfra(n), ReclaimMachine(n));
    TeardownUnhooks(w, n);
  }

  lemma LastMoveLowers(w: World, w3: World, n: Name)
    requires Steady(w3) && AtMost(Of(w3), Of(w)) && DropMachine(w3, n) != w3
    ensures Below(Of(DropMachine(w3, n)), Of(w))
  {
    DropMachineFine(w3, n);
    AtMostTransitive(Of(DropMachine(w3, n)), Of(w3), Of(w));
  }

  function Unhooking(n: Name): seq<Move> {
    [Cascade(n), ReclaimConfig(n), ReclaimInfra(n)]
  }

  lemma TeardownSplits(w: World, n: Name)
    ensures Runs.Exec(NextFixed, w, Teardown(n)) == DropMachine(Runs.Exec(NextFixed, w, Unhooking(n)), n)
  {
    assert Teardown(n) == Unhooking(n) + [ReclaimMachine(n)];
    Runs.ExecConcat(NextFixed, w, Unhooking(n), [ReclaimMachine(n)]);
    Runs.ExecOne(NextFixed, Runs.Exec(NextFixed, w, Unhooking(n)), ReclaimMachine(n));
  }

  lemma TeardownLowers(w: World, n: Name)
    requires Steady(w) && n in w.machines && w.machines[n].deleting
    ensures Below(Of(Runs.Exec(NextFixed, w, Teardown(n))), Of(w))
  {
    TeardownSplits(w, n);
    MeasureNeverRises(w, Unhooking(n));
    TeardownBefore(w, n);
    LastMoveLowers(w, Runs.Exec(NextFixed, w, Unhooking(n)), n);
  }

  /** Before its last move, the teardown has left the Machine without its config and its HypervisorMachine. */
  lemma TeardownBefore(w: World, n: Name)
    requires n in w.machines && w.machines[n].deleting
    ensures var w3 := Runs.Exec(NextFixed, w, Unhooking(n));
      n in w3.machines && w3.machines[n].deleting && n !in w3.configs && n !in w3.infras && DropMachine(w3, n) != w3
  {
    Runs.ExecConcat(NextFixed, w, [Cascade(n), ReclaimConfig(n)], [ReclaimInfra(n)]);
    assert [Cascade(n), ReclaimConfig(n)] + [ReclaimInfra(n)] == Unhooking(n);
    Runs.ExecTwo(NextFixed, w, Cascade(n), ReclaimConfig(n));
    var w2 := NextFixed(NextFixed(w, Cascade(n)), ReclaimConfig(n));
    assert Runs.Exec(NextFixed, w2, [ReclaimInfra(n)]) == NextFixed(w2, ReclaimInfra(n));
    var w3 := NextFixed(w2, ReclaimInfra(n));
    assert n !in DropMachine(w3, n).machines;
  }

  lemma SweepRun(w: World, n: Name)
    requires n in Unfit(w.machines, w.infras)
    ensures Runs.Exec(NextFixed, w, Sweep(n)) == w.(infras := w.infras - {n}) == DropInfra(CollectInfra(w, n), n)
    ensures n in CollectInfra(w, n).infras && CollectInfra(w, n).infras[n].deleting
  {
    Runs.ExecTwo(NextFixed, w, Collect(n), ReclaimInfra(n));
    assert CollectInfra(w, n).infras - {n} == w.infras - {n};
  }

  lemma SweepLowers(w: World, n: Name)
    requires Steady(w) && w.pc.Idle? && n in Unfit(w.machines, w.infras)
    ensures Below(Of(Runs.Exec(NextFixed, w, Sweep(n))), Of(w))
  {
    SweepRun(w, n);
    var w1 := CollectInfra(w, n);
    CollectFine(w, n);
    assert n in Unfit(w1.machines, w1.infras);
    DropInfraFine(w1, n);
    AtMostTransitive(Of(DropInfra(w1, n)), Of(w1), Of(w));
  }

  lemma PublishLowers(w: World, h: Name)
    requires Steady(w) && Highest(w, h) && Stage(w, h) == 3 && h in w.infras && Fits(w.machines[h], w.infras[h])
    requires !Snapshotting(w.pc)
    ensures Below(Of(Runs.Exec(NextFixed, w, [PublishEtcd(h)])), Of(w))
  {
    var w' := Publish(w, h);
    assert Runs.Exec(NextFixed, w, [PublishEtcd(h)]) == w';
    PublishFine(w, h);
    UncapturedIs(w, h);
    UncapturedIs(w', h);
  }

  // ---------------------------------------------------------------- passes

  /** Every uninterrupted reconcile from w, however it picks, ends with a lower measure. */
  ghost predicate PassLowers(w: World) {
    forall moves: seq<Move>, end: World {:trigger Pass(w.(pc := Choosing(w.cp)), moves, end)} ::
      Pass(w.(pc := Choosing(w.cp)), moves, end) ==> Below(Of(end), Of(w))
  }

  /** A heading that every pass from w starts on, and leaves only downwards, lowers every pass. */
  lemma HeadingLowers(w: World, heading: World -> bool)
    requires Steady(w) && w.pc.Idle? && heading(w.(pc := Choosing(w.cp)))
    requires forall u :: heading(u) ==> !u.pc.Idle?
    requires forall u: World, pick: Name, data: string {:trigger Advance(u, pick, data)} ::
      Steady(u) && heading(u) && data != "" ==>
        heading(Advance(u, pick, data)) || Below(Of(Advance(u, pick, data)), Of(w))
    ensures PassLowers(w)
  {
    StartingFine(w);
    forall moves: seq<Move>, end: World | Pass(w.(pc := Choosing(w.cp)), moves, end) ensures Below(Of(end), Of(w)) {
      PassFollows(w, heading, w.(pc := Choosing(w.cp)), moves, end);
    }
  }

  /** On the way to deleting the Machine on record. */
  ghost predicate TowardsDeletion(w0: World, h: Name, u: World) {
    u == w0.(pc := u.pc) && (u.pc == Choosing(w0.cp) || u.pc == DeletingMachine(w0.cp, h))
  }

  lemma DeletionStep(w0: World, h: Name, u: World, pick: Name, data: string)
    requires Steady(w0) && Highest(w0, h) && Stage(w0, h) == 1 && w0.pc.Idle? && Steady(u) && TowardsDeletion(w0, h, u)
    ensures TowardsDeletion(w0, h, Advance(u, pick, data)) || Below(Of(Advance(u, pick, data)), Of(w0))
  {
    if u.pc.Choosing? {
      DeletionChoice(w0, h, u, pick);
    } else {
      DeletionLowersHere(w0, h, u, pick, data);
    }
  }

  lemma DeletionLowersHere(w0: World, h: Name, u: World, pick: Name, data: string)
    requires Steady(w0) && Highest(w0, h) && Stage(w0, h) == 1 && w0.pc.Idle?
    requires Steady(u) && u == w0.(pc := DeletingMachine(w0.cp, h))
    ensures Below(Of(Advance(u, pick, data)), Of(w0))
  {
    DeletingFine(u, pick, data);
    UncapturedKept(w0, u);
    PlaceIrrelevant(w0, u);
  }

  lemma DeletionChoice(w0: World, h: Name, u: World, pick: Name)
    requires Steady(w0) && Highest(w0, h) && Stage(w0, h) == 1 && w0.pc.Idle?
    requires Steady(u) && TowardsDeletion(w0, h, u) && u.pc.Choosing?
    ensures TowardsDeletion(w0, h, Choose(u, u.pc.cp, pick))
  {
    ChoosingChanges(u, pick);
    assert forall g | Highest(u, g) :: g == h;
  }

  lemma DeletionPassLowers(w: World, h: Name)
    requires Steady(w) && w.pc.Idle? && Highest(w, h) && Stage(w, h) == 1
    ensures PassLowers(w)
  {
    var heading := u => TowardsDeletion(w, h, u);
    forall u: World, pick: Name, data: string | Steady(u) && heading(u) && data != ""
      ensures heading(Advance(u, pick, data)) || Below(Of(Advance(u, pick, data)), Of(w))
    {
      DeletionStep(w, h, u, pick, data);
    }
    HeadingLowers(w, heading);
  }

  /** On the way to recording the snapshot of the next Machine to be replaced. */
  ghost predicate TowardsRecord(w0: World, h: Name, u: World) {
    && u.naming == w0.naming && u.machines == w0.machines && u.infras == w0.infras && u.cp == w0.cp
    && (u.pc == Choosing(w0.cp) || u.pc == Capturing(w0.cp, h) || (u.pc.Writing? && u.pc.cp == w0.cp && u.pc.name == h)
        || u.pc == Recording(w0.cp, h))
  }

  /** The next Machine to be replaced lives, can be snapshotted, and is not on record. */
  ghost predicate Capturable(w: World, h: Name) {
    && Steady(w) && w.pc.Idle? && Highest(w, h) && !w.machines[h].deleting
      && !Matches(w.cp.replacement, h, w.cp.version)
    && h in w.infras && w.infras[h].etcd
  }

  lemma RecordChoice(w0: World, h: Name, u: World, pick: Name)
    requires Capturable(w0, h) && Steady(u) && TowardsRecord(w0, h, u) && u.pc.Choosing?
    ensures TowardsRecord(w0, h, Choose(u, u.pc.cp, pick))
  {
    ChoosingChanges(u, pick);
    assert forall g | Highest(u, g) :: g == h;
  }

  lemma RecordLowers(w0: World, h: Name, u: World)
    requires Capturable(w0, h) && Steady(u) && TowardsRecord(w0, h, u) && u.pc.Recording?
    ensures Below(Of(RecordReplacement(u, u.pc.cp, u.pc.name)), Of(w0))
  {
    var u' := RecordReplacement(u, u.pc.cp, u.pc.name);
    RecordingSteady(u);
    RecordIrrelevant(u.naming, u.machines, u.infras, u.cp, u'.cp);
    UncapturedIs(w0, h);
    UncapturedIs(u', h);
  }

  lemma RecordStep(w0: World, h: Name, u: World, pick: Name, data: string)
    requires Capturable(w0, h) && Steady(u) && TowardsRecord(w0, h, u) && data != ""
    ensures TowardsRecord(w0, h, Advance(u, pick, data)) || Below(Of(Advance(u, pick, data)), Of(w0))
  {
    if u.pc.Choosing? {
      RecordChoice(w0, h, u, pick);
    } else if u.pc.Recording? {
      RecordLowers(w0, h, u);
    } else {
      RecordCaptures(w0, h, u, pick, data);
    }
  }

  lemma RecordCaptures(w0: World, h: Name, u: World, pick: Name, data: string)
    requires h in w0.infras && w0.infras[h].etcd && TowardsRecord(w0, h, u) && data != ""
    requires u.pc.Capturing? || u.pc.Writing?
    ensures TowardsRecord(w0, h, Advance(u, pick, data))
  {
  }

  lemma CapturePassLowers(w: World, h: Name)
    requires Capturable(w, h)
    ensures PassLowers(w)
  {
    var heading := u => TowardsRecord(w, h, u);
    forall u: World, pick: Name, data: string | Steady(u) && heading(u) && data != ""
      ensures heading(Advance(u, pick, data)) || Below(Of(Advance(u, pick, data)), Of(w))
    {
      RecordStep(w, h, u, pick, data);
    }
    HeadingLowers(w, heading);
  }

  // ---------------------------------------------------------------- a pass without drift

  /** Replicas below i are complete. */
  ghost predicate CompleteUpTo(w: World, i: int) {
    forall j | 0 <= j < i && j < w.cp.Desired() :: w.naming.name(j) in w.machines && w.naming.name(j) in w.infras
  }

  /** A reconcile that has found nothing to do yet. */
  ghost predicate TowardsBuild(w0: World, u: World) {
    && u.naming == w0.naming && u.machines == w0.machines && u.infras == w0.infras && SameSpec(u.cp, w0.cp)
    && (match u.pc
        case Choosing(_) => true
        case Checking(_) => true
        case Clearing(_) => true
        case Creating(_, i) => CompleteUpTo(w0, i)
        case CreatingConfig(_, i) => true
        case CreatingMachine(_, i) => true
        case EnsuringInfra(_, i, _) => CompleteUpTo(w0, i) && w0.naming.name(i) in w0.machines
        case ScalingDown(_, todo) => CompleteUpTo(w0, w0.cp.Desired()) && Surplus(w0.naming, w0.machines, w0.cp) <= todo
        case _ => false)
  }

  /** Nothing drifts, is under deletion or left over, but replicas are missing or too many. */
  ghost predicate Buildable(w: World) {
    Steady(w) && w.pc.Idle? && Drifting(w) == {} && Deleting(w.machines) == {} && Unfit(w.machines, w.infras) == {}
      && !Converged(w)
  }

  /** With all replicas complete there must be too many. */
  lemma MustScaleDown(w: World)
    requires Buildable(w) && CompleteUpTo(w, w.cp.Desired())
    ensures Surplus(w.naming, w.machines, w.cp) != {}
  {
    if Surplus(w.naming, w.machines, w.cp) == {} {
      forall n | n in w.machines
        ensures !w.machines[n].deleting && !IsSurplus(w.naming, n, w.cp)
      {
        assert n !in Deleting(w.machines) && n !in Surplus(w.naming, w.machines, w.cp);
      }
      forall n | n in w.machines ensures !(Drifted(w.machines[n], w.cp.version) && Managed(w.naming, n, w.cp)) {
        assert n !in Drifting(w);
      }
      forall n | n in w.infras ensures n in w.machines && Fits(w.machines[n], w.infras[n]) {
        assert n !in Unfit(w.machines, w.infras);
      }
      assert Converged(w);
    }
  }

  lemma BuildAtMost(w0: World, u: World)
    requires Buildable(w0) && Steady(u) && TowardsBuild(w0, u)
    ensures AtMost(Of(u), Of(w0)) && Drifting(u) == {}
  {
    RecordIrrelevant(w0.naming, w0.machines, w0.infras, w0.cp, u.cp);
    StillMeasure(w0, u);
  }

  ghost predicate Builds(w0: World, w': World) {
    TowardsBuild(w0, w') || Below(Of(w'), Of(w0))
  }

  lemma BuildChooses(w0: World, u: World, pick: Name, data: string)
    requires Buildable(w0) && Steady(u) && TowardsBuild(w0, u) && u.pc.Choosing?
    ensures TowardsBuild(w0, Advance(u, pick, data))
  {
    BuildAtMost(w0, u);
    ChoosingChanges(u, pick);
  }

  lemma BuildPrepares(w0: World, u: World, pick: Name, data: string)
    requires Buildable(w0) && Steady(u) && TowardsBuild(w0, u)
      && (u.pc.Checking? || u.pc.Clearing? || u.pc.CreatingConfig?)
    ensures TowardsBuild(w0, Advance(u, pick, data))
  {
  }

  lemma BuildLoops(w0: World, u: World, pick: Name, data: string)
    requires Buildable(w0) && Steady(u) && TowardsBuild(w0, u) && u.pc.Creating?
    ensures TowardsBuild(w0, Advance(u, pick, data))
  {
    var n := u.naming.name(u.pc.index);
    assert n in u.infras ==> n in u.machines by {
      assert n !in Unfit(w0.machines, w0.infras);
    }
    assert u.pc.index >= w0.cp.Desired() ==> CompleteUpTo(w0, w0.cp.Desired());
  }

  lemma BuildCreates(w0: World, u: World, pick: Name, data: string)
    requires Buildable(w0) && Steady(u) && TowardsBuild(w0, u) && u.pc.CreatingMachine?
    ensures Builds(w0, Advance(u, pick, data))
  {
    BuildAtMost(w0, u);
    CreatingFine(u, pick, data);
    AtMostTransitive(Of(Advance(u, pick, data)), Of(u), Of(w0));
  }

  lemma BuildSkips(w0: World, u: World, pick: Name, data: string)
    requires Buildable(w0) && Steady(u) && TowardsBuild(w0, u) && u.pc.EnsuringInfra?
      && u.naming.name(u.pc.index) in u.infras
    ensures TowardsBuild(w0, Advance(u, pick, data))
  {
  }

  lemma BuildEnsures(w0: World, u: World, pick: Name, data: string)
    requires Buildable(w0) && Steady(u) && TowardsBuild(w0, u) && u.pc.EnsuringInfra?
      && u.naming.name(u.pc.index) !in u.infras
    ensures Below(Of(Advance(u, pick, data)), Of(w0))
  {
    var n := u.naming.name(u.pc.index);
    NameIsManaged(u, u.pc.index);
    assert n !in Deleting(w0.machines);
    assert n in Bare(u.naming, u.machines, u.infras, u.cp);
    BuildAtMost(w0, u);
    EnsuringFine(u, pick, data);
    AtMostTransitive(Of(Advance(u, pick, data)), Of(u), Of(w0));
  }

  lemma BuildScales(w0: World, u: World, pick: Name, data: string)
    requires Buildable(w0) && Steady(u) && TowardsBuild(w0, u) && u.pc.ScalingDown?
    requires pick in u.pc.todo && pick in Surplus(u.naming, u.machines, u.cp)
    ensures Below(Of(Advance(u, pick, data)), Of(w0))
  {
    BuildAtMost(w0, u);
    ScalingFine(u, pick, data);
    AtMostTransitive(Of(Advance(u, pick, data)), Of(u), Of(w0));
  }

  lemma BuildPasses(w0: World, u: World, pick: Name, data: string)
    requires Buildable(w0) && Steady(u) && TowardsBuild(w0, u) && u.pc.ScalingDown?
    requires !(pick in u.pc.todo && pick in Surplus(u.naming, u.machines, u.cp))
    ensures TowardsBuild(w0, Advance(u, pick, data))
  {
    MustScaleDown(w0);
    RecordIrrelevant(w0.naming, w0.machines, w0.infras, w0.cp, u.cp);
    assert ScaleDown(u, u.pc.cp, u.pc.todo, pick).machines == u.machines;
  }

  lemma BuildStep(w0: World, u: World, pick: Name, data: string)
    requires Buildable(w0) && Steady(u) && TowardsBuild(w0, u)
    ensures Builds(w0, Advance(u, pick, data))
  {
    if u.pc.Choosing? {
      BuildChooses(w0, u, pick, data);
    } else if u.pc.Creating? {
      BuildLoops(w0, u, pick, data);
    } else if u.pc.CreatingMachine? {
      BuildCreates(w0, u, pick, data);
    } else if u.pc.EnsuringInfra? {
      if u.naming.name(u.pc.index) in u.infras {
        BuildSkips(w0, u, pick, data);
      } else {
        BuildEnsures(w0, u, pick, data);
      }
    } else if u.pc.ScalingDown? {
      if pick in u.pc.todo && pick in Surplus(u.naming, u.machines, u.cp) {
        BuildScales(w0, u, pick, data);
      } else {
        BuildPasses(w0, u, pick, data);
      }
    } else {
      BuildPrepares(w0, u, pick, data);
    }
  }

  lemma BuildPassLowers(w: World)
    requires Buildable(w)
    ensures PassLowers(w)
  {
    var heading := u => TowardsBuild(w, u);
    forall u: World, pick: Name, data: string | Steady(u) && heading(u) && data != ""
      ensures heading(Advance(u, pick, data)) || Below(Of(Advance(u, pick, data)), Of(w))
    {
      BuildStep(w, u, pick, data);
    }
    HeadingLowers(w, heading);
  }

  // ---------------------------------------------------------------- progress

  /**
    A drifted Machine that can never be replaced: it lives, has no HypervisorMachine to take a snapshot from,
    and is not on record, or will not be any more once a live one above it has been replaced.
  */
  predicate DoomedBy(w: World, n: Name) {
    && n in Drifting(w) && !w.machines[n].deleting && n !in w.infras
    && (w.pc.Writing? || w.pc.Recording? || w.pc.DeletingMachine? ==> w.pc.name != n)
    && (!Matches(w.cp.replacement, n, w.cp.version)
        || exists m :: m in Drifting(w) && !w.machines[m].deleting && Index(w.naming, m) > Index(w.naming, n))
  }

  ghost predicate Doomed(w: World) {
    exists n :: DoomedBy(w, n)
  }

  lemma DriftProgress(w: World, h: Name)
    requires Steady(w) && w.pc.Idle? && Highest(w, h) && !Doomed(w)
    requires Deleting(w.machines) == {} && Unfit(w.machines, w.infras) == {}
    ensures EnvironmentLowers(w) || PassLowers(w)
  {
    assert h !in Deleting(w.machines) && h !in Unfit(w.machines, w.infras);
    if Matches(w.cp.replacement, h, w.cp.version) {
      DeletionPassLowers(w, h);
    } else {
      assert !DoomedBy(w, h);
      if w.infras[h].etcd {
        CapturePassLowers(w, h);
      } else {
        PublishLowers(w, h);
        assert EnvironmentRun([PublishEtcd(h)]);
      }
    }
  }

  /**
    From every idle state of a run with a fixed spec, deletions in progress included: it has converged, or a
    drifted Machine is doomed, or the environment can lower the measure by taking down one deleted or unfit
    object or publishing one port, or every uninterrupted reconcile lowers it.
  */
  lemma Progress(w: World)
    requires Steady(w) && w.pc.Idle?
    ensures Converged(w) || Doomed(w) || EnvironmentLowers(w) || PassLowers(w)
  {
    if Deleting(w.machines) != {} {
      var n :| n in Deleting(w.machines);
      TeardownLowers(w, n);
      assert EnvironmentRun(Teardown(n));
    } else if Unfit(w.machines, w.infras) != {} {
      var n :| n in Unfit(w.machines, w.infras);
      SweepLowers(w, n);
      assert EnvironmentRun(Sweep(n));
    } else if Drifting(w) != {} {
      var h := HighestExists(w, Drifting(w));
      if !Doomed(w) { DriftProgress(w, h); }
    } else if !Converged(w) {
      BuildPassLowers(w);
    }
  }
}
