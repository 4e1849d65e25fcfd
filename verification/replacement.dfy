/**
  Replacing the only control-plane Machine while the desired version moves from `from` to `goal`:
  the deleted Machine's successor starts from the snapshot of the Machine it replaces.
*/
module ReplaceInPlace {
  import opened Common
  import opened ControlPlane
  import opened Names
  import opened Drift

  /** The one Machine of a single-replica control plane. */
  function Sole(w: World): Name { w.naming.name(0) }

  ghost predicate Shape(w: World) {
    && RoundTrips(w.naming)
    && w.cp.Desired() == 1
    && w.machines.Keys <= {Sole(w)} && w.configs.Keys <= {Sole(w)} && w.infras.Keys <= {Sole(w)}
      && w.owed.Keys <= {Sole(w)}
    && (!w.pc.Idle? ==> w.pc.cp.Desired() == 1)
    && (w.pc.Creating? ==> 0 <= w.pc.index <= 1)
    && (w.pc.CreatingConfig? || w.pc.CreatingMachine? || w.pc.EnsuringInfra? ==> w.pc.index == 0)
    && (Snapshotting(w.pc) || w.pc.DeletingMachine? || w.pc.DeletingConfig? || w.pc.DeletingInfra? ==>
        w.pc.name == Sole(w))
    && (w.cp.replacement.Some? ==> w.cp.replacement.value.machine == Sole(w))
    && (forall n | n in w.infras :: n in w.machines && w.infras[n].owner == w.machines[n].uid)
  }

  predicate From(w: World, path: Path, uid: int) {
    path in w.disk && w.disk[path].data != "" && w.disk[path].source == uid
  }

  /** The desired versions a reconcile and the API object can show, and the versions a Machine can carry. */
  ghost predicate VersionsBetween(w: World, from: Version, goal: Version) {
    && from != "" && goal != ""
    && (w.cp.version == from || w.cp.version == goal)
    && (!w.pc.Idle? ==>
          && (w.pc.cp.version == from || w.pc.cp.version == goal)
          && (w.pc.cp.version == goal ==> w.cp.version == goal))
    && (Sole(w) in w.machines ==>
          var machine := w.machines[Sole(w)];
          && (machine.version == "" || machine.version == from || machine.version == goal)
          && (machine.deleting ==> Sole(w) in w.owed)
          && (machine.version == goal && goal != from ==>
              w.cp.version == goal && (!w.pc.Idle? ==> w.pc.cp.version == goal)))
    && (Matches(w.cp.replacement, Sole(w), goal) && goal != from ==>
        w.cp.version == goal && (!w.pc.Idle? ==> w.pc.cp.version == goal))
  }

  /** A snapshot being taken, or recorded, for `goal` is one of the Machine still to be deleted. */
  ghost predicate SnapshotsBetween(w: World, from: Version, goal: Version) {
    && (Snapshotting(w.pc) ==>
          && w.pc.cp.version == goal && goal != from
          && Sole(w) in w.machines && w.machines[Sole(w)].version == from && Sole(w) !in w.owed
          && (w.pc.Writing? ==> w.pc.snapshot.source == w.machines[Sole(w)].uid)
          && (w.pc.Recording? ==> From(w, SnapshotFile(Sole(w), goal), w.machines[Sole(w)].uid)))
    && (Matches(w.cp.replacement, Sole(w), goal) && goal != from && Sole(w) in w.machines
        && w.machines[Sole(w)].version == from ==>
          From(w, SnapshotFile(Sole(w), goal), w.machines[Sole(w)].uid))
  }

  /** Between a drift deletion and the creation of the successor. */
  ghost predicate OwedBetween(w: World, from: Version, goal: Version) {
    Sole(w) in w.owed ==>
      && goal != from && w.cp.version == goal && Matches(w.cp.replacement, Sole(w), goal)
      && (!w.pc.Idle? ==> w.pc.cp.version == goal)
      && From(w, SnapshotFile(Sole(w), goal), w.owed[Sole(w)])
      && (Sole(w) in w.machines ==>
            var machine := w.machines[Sole(w)];
            machine.deleting && machine.version == from && machine.uid == w.owed[Sole(w)])
      && (Sole(w) !in w.machines && Sole(w) in w.configs ==>
            w.configs[Sole(w)] == Config(Some(SnapshotFile(Sole(w), goal)), false))
  }

  ghost predicate ProgressBetween(w: World, from: Version, goal: Version) {
    && (w.pc.DeletingMachine? ==>
          w.pc.cp.version == goal && goal != from
          && (Sole(w) !in w.owed ==> Sole(w) in w.machines && w.machines[Sole(w)].version == from))
    && (w.pc.DeletingConfig? || w.pc.DeletingInfra? ==> Sole(w) in w.owed)
    && (w.pc.DeletingMachine? || w.pc.DeletingConfig? || w.pc.DeletingInfra? ==>
          (Sole(w) !in w.machines ==> Sole(w) !in w.configs))
    && (w.pc.Checking? || w.pc.Creating? || w.pc.CreatingConfig? || w.pc.CreatingMachine? ==>
          (Sole(w) in w.owed ==> Sole(w) !in w.machines))
    && (w.pc.Clearing? || w.pc.EnsuringInfra? || w.pc.ScalingDown? || (w.pc.Creating? && w.pc.index == 1) ==>
        Sole(w) !in w.owed)
    && (w.pc.CreatingConfig? || w.pc.CreatingMachine? ==> Sole(w) !in w.machines)
    && (w.pc.CreatingMachine? && Sole(w) in w.owed ==> Sole(w) in w.configs)
    && (w.pc.EnsuringInfra? ==> Sole(w) in w.machines && w.machines[Sole(w)].uid == w.pc.uid)
  }

  /**
    A successor starts from a config that restores the non-empty snapshot of its own predecessor, taken for
    its own version.
  */
  predicate RestoresPredecessor(b: Birth) {
    b.predecessor.Some? ==>
      && b.restore == Some(SnapshotFile(b.name, b.version))
      && b.saved.Some? && b.saved.value.data != "" && b.saved.value.source == b.predecessor.value
  }

  ghost predicate Rolling(w: World, from: Version, goal: Version) {
    && Shape(w) && VersionsBetween(w, from, goal) && SnapshotsBetween(w, from, goal)
    && OwedBetween(w, from, goal) && ProgressBetween(w, from, goal)
    && (forall b | b in w.births :: RestoresPredecessor(b))
  }

  ghost predicate Replacing(w: World, from: Version, goal: Version) {
    RecordInv(w) && Rolling(w, from, goal)
  }

  lemma StartingSteps(w: World, from: Version, goal: Version, pick: Name, data: string)
    requires Replacing(w, from, goal)
    ensures w.pc.Idle? ==> Rolling(w.(pc := Choosing(w.cp)), from, goal)
    ensures w.pc.Capturing? ==> Rolling(Capture(w, w.pc.cp, w.pc.name, data), from, goal)
  {
  }

  lemma ChoosingStep(w: World, from: Version, goal: Version, pick: Name)
    requires Replacing(w, from, goal) && w.pc.Choosing?
    ensures Rolling(Choose(w, w.pc.cp, pick), from, goal)
  {
    var w' := Choose(w, w.pc.cp, pick);
    assert w' == w.(pc := w'.pc) && w'.pc.cp == w.pc.cp;
    var candidates := Candidates(w.naming, w.machines, w.pc.cp);
    assert w.naming.index(Sole(w)) == Some(0);
    if Sole(w) in w.machines && Drifted(w.machines[Sole(w)], w.pc.cp.version) {
      assert Sole(w) in candidates;
    }
  }

  lemma RecordingSteps(w: World, from: Version, goal: Version)
    requires Replacing(w, from, goal)
    ensures w.pc.Writing? ==> Rolling(WriteFile(w, w.pc.cp, w.pc.name, w.pc.snapshot), from, goal)
    ensures w.pc.Recording? ==> Rolling(RecordReplacement(w, w.pc.cp, w.pc.name), from, goal)
  {
  }

  lemma ClearingStep(w: World, from: Version, goal: Version)
    requires Replacing(w, from, goal)
    ensures w.pc.Clearing? ==> Rolling(ClearReplacement(w, w.pc.cp), from, goal)
  {
  }

  lemma DeletingSteps(w: World, from: Version, goal: Version)
    requires Replacing(w, from, goal)
    ensures w.pc.DeletingMachine? ==> Rolling(DeleteMachine(w, w.pc.cp, w.pc.name), from, goal)
  {
  }

  lemma DeletingOwnedSteps(w: World, from: Version, goal: Version)
    requires Replacing(w, from, goal)
    ensures w.pc.DeletingConfig? ==> Rolling(DeleteConfig(w, w.pc.cp, w.pc.name), from, goal)
    ensures w.pc.DeletingInfra? ==> Rolling(DeleteInfra(w, w.pc.cp, w.pc.name), from, goal)
  {
  }

  lemma InspectingSteps(w: World, from: Version, goal: Version)
    requires Replacing(w, from, goal)
    ensures w.pc.Checking? ==> Rolling(Check(w, w.pc.cp), from, goal)
  {
  }

  lemma LoopingStep(w: World, from: Version, goal: Version)
    requires Replacing(w, from, goal)
    ensures w.pc.Creating? ==> Rolling(CreateNext(w, w.pc.cp, w.pc.index), from, goal)
  {
  }

  lemma ScalingStep(w: World, from: Version, goal: Version, pick: Name)
    requires Replacing(w, from, goal) && w.pc.ScalingDown?
    ensures Rolling(ScaleDown(w, w.pc.cp, w.pc.todo, pick), from, goal)
  {
    assert w.naming.index(Sole(w)) == Some(0);
    assert ScaleDown(w, w.pc.cp, w.pc.todo, pick).machines == w.machines;
  }

  lemma CreatingSteps(w: World, from: Version, goal: Version)
    requires Replacing(w, from, goal)
    ensures w.pc.CreatingConfig? ==> Rolling(CreateConfig(w, w.pc.cp, w.pc.index), from, goal)
    ensures w.pc.EnsuringInfra? ==> Rolling(EnsureInfra(w, w.pc.cp, w.pc.index, w.pc.uid), from, goal)
  {
  }

  lemma CreatingMachineStep(w: World, from: Version, goal: Version)
    requires Replacing(w, from, goal)
    ensures w.pc.CreatingMachine? ==> Rolling(CreateMachine(w, w.pc.cp, w.pc.index), from, goal)
  {
  }

  lemma InterruptingSteps(w: World, from: Version, goal: Version, data: string)
    requires Replacing(w, from, goal)
    ensures Rolling(w.(pc := Idle), from, goal)
    ensures Rolling(Tear(w, data), from, goal)
  {
  }

  lemma ProvisioningSteps(w: World, from: Version, goal: Version, n: Name)
    requires Replacing(w, from, goal)
    ensures Rolling(Publish(w, n), from, goal)
    ensures Rolling(CollectInfra(w, n), from, goal)
  {
  }

  lemma CascadingStep(w: World, from: Version, goal: Version, n: Name)
    requires Replacing(w, from, goal)
    ensures Rolling(CascadeDeletion(w, n), from, goal)
  {
  }

  lemma ReclaimingConfigStep(w: World, from: Version, goal: Version, n: Name)
    requires Replacing(w, from, goal)
    ensures Rolling(DropConfig(w, n), from, goal)
  {
  }

  lemma ReclaimingInfraStep(w: World, from: Version, goal: Version, n: Name)
    requires Replacing(w, from, goal)
    ensures Rolling(DropInfra(w, n), from, goal)
  {
  }

  lemma ReclaimingMachineStep(w: World, from: Version, goal: Version, n: Name)
    requires Replacing(w, from, goal)
    ensures Rolling(DropMachine(w, n), from, goal)
  {
  }

  /** Every move but a change of the spec keeps the replacement between the same two versions. */
  lemma ReplacingNext(w: World, from: Version, goal: Version, move: Move)
    requires Replacing(w, from, goal) && !move.SetSpec?
    ensures Replacing(Next(w, move), from, goal)
  {
    RecordInvNext(w, move);
    match move
    case Go(pick, data) =>
      StartingSteps(w, from, goal, pick, data);
      if w.pc.Choosing? { ChoosingStep(w, from, goal, pick); }
      if w.pc.ScalingDown? { ScalingStep(w, from, goal, pick); }
      RecordingSteps(w, from, goal);
      ClearingStep(w, from, goal);
      DeletingSteps(w, from, goal);
      DeletingOwnedSteps(w, from, goal);
      InspectingSteps(w, from, goal);
      LoopingStep(w, from, goal);
      CreatingSteps(w, from, goal);
      CreatingMachineStep(w, from, goal);
    case Crash => InterruptingSteps(w, from, goal, "");
    case TornWrite(data) => InterruptingSteps(w, from, goal, data);
    case PublishEtcd(n) => ProvisioningSteps(w, from, goal, n);
    case Cascade(n) => CascadingStep(w, from, goal, n);
    case Collect(n) => ProvisioningSteps(w, from, goal, n);
    case ReclaimConfig(n) => ReclaimingConfigStep(w, from, goal, n);
    case ReclaimInfra(n) => ReclaimingInfraStep(w, from, goal, n);
    case ReclaimMachine(n) => ReclaimingMachineStep(w, from, goal, n);
  }

  /** The topology controller may hand the new version to the control plane at any moment. */
  lemma ReplacingPropagates(w: World, from: Version, goal: Version)
    requires Replacing(w, from, goal)
    ensures Replacing(ChangeSpec(w, goal, w.cp.replicas), from, goal)
  {
  }

  /** A settled control plane starts rolling when the next version is chosen. */
  lemma ReplacingStarts(w: World, from: Version, goal: Version)
    requires Replacing(w, from, from) && goal != "" && !Matches(w.cp.replacement, Sole(w), goal)
    ensures Replacing(w, from, goal)
  {
  }

  /** Seeing the control plane object and its Machine at the new version is enough to know that the roll is over. */
  lemma ReplacingEnds(w: World, from: Version, goal: Version)
    requires Replacing(w, from, goal)
    requires w.cp.version == goal && Sole(w) in w.machines && w.machines[Sole(w)].version == goal
    ensures Replacing(w, goal, goal)
  {
  }
}
