/** Whose snapshot a replaced Machine leaves behind, for any number of replicas. */
module Snapshots {
  import opened ControlPlane
  import opened Drift
  import Runs

  /** The version asked for is the target of a recorded replacement that was set aside for another version. */
  predicate Revives(w: World, version: Version) {
    version != w.cp.version && w.cp.replacement.Some? && w.cp.replacement.value.target == version
  }

  /** The desired version changes at will, but never back to the target of the replacement on record. */
  function NextGuarded(w: World, move: Move): World {
    if move.SetSpec? && Revives(w, move.version) then w else Next(w, move)
  }

  /** Some reconcile may still act on a replacement towards this version. */
  predicate Live(w: World, target: Version) {
    target == w.cp.version || (!w.pc.Idle? && target == w.pc.cp.version)
  }

  /** While the record is for the desired version, no reconcile for another version is under way. */
  ghost predicate VersionsInv(w: World) {
    !w.pc.Idle? && w.cp.replacement.Some? && w.cp.replacement.value.target == w.cp.version ==>
      w.pc.cp.version == w.cp.version
  }

  /** A HypervisorMachine belongs to the Machine of its name. */
  ghost predicate OwnersInv(w: World) {
    && (forall n | n in w.infras && n in w.machines :: w.infras[n].owner == w.machines[n].uid)
    && (w.pc.CreatingConfig? || w.pc.CreatingMachine? ==> w.naming.name(w.pc.index) !in w.infras)
    && (w.pc.EnsuringInfra? && w.naming.name(w.pc.index) in w.machines ==>
          w.machines[w.naming.name(w.pc.index)].uid == w.pc.uid)
  }

  ghost predicate SourcesInv(w: World) {
    && (w.cp.replacement.Some? ==>
          var r := w.cp.replacement.value;
          Live(w, r.target) && r.machine in w.machines && Drifted(w.machines[r.machine], r.target)
            && r.path in w.disk ==>
            w.disk[r.path].source == w.machines[r.machine].uid)
    && (w.pc.Writing? && w.pc.name in w.machines ==> w.pc.snapshot.source == w.machines[w.pc.name].uid)
    && (w.pc.Recording? && w.pc.name in w.machines && SnapshotFile(w.pc.name, w.pc.cp.version) in w.disk ==>
          w.disk[SnapshotFile(w.pc.name, w.pc.cp.version)].source == w.machines[w.pc.name].uid)
    && (forall d | d in w.drops :: d.saved.Some? ==> d.saved.value.source == d.machine.uid)
  }

  ghost predicate Sound(w: World) {
    VersionsInv(w) && OwnersInv(w) && SourcesInv(w)
  }

  ghost predicate OwnInv(w: World) {
    RecordInv(w) && Sound(w)
  }

  lemma ReadingSteps(w: World, pick: Name, data: string)
    requires OwnInv(w)
    ensures w.pc.Idle? ==> Sound(w.(pc := Choosing(w.cp)))
    ensures w.pc.Choosing? ==> Sound(Choose(w, w.pc.cp, pick))
    ensures w.pc.Capturing? ==> Sound(Capture(w, w.pc.cp, w.pc.name, data))
  {
  }

  lemma InspectingSteps(w: World)
    requires OwnInv(w)
    ensures w.pc.Checking? ==> Sound(Check(w, w.pc.cp))
    ensures w.pc.Creating? ==> Sound(CreateNext(w, w.pc.cp, w.pc.index))
  {
  }

  lemma RecordingSteps(w: World)
    requires OwnInv(w)
    ensures w.pc.Writing? ==> Sound(WriteFile(w, w.pc.cp, w.pc.name, w.pc.snapshot))
    ensures w.pc.Recording? ==> Sound(RecordReplacement(w, w.pc.cp, w.pc.name))
    ensures w.pc.Clearing? ==> Sound(ClearReplacement(w, w.pc.cp))
  {
  }

  lemma DeletionSteps(w: World)
    requires OwnInv(w)
    ensures w.pc.DeletingMachine? ==> Sound(DeleteMachine(w, w.pc.cp, w.pc.name))
    ensures w.pc.DeletingConfig? ==> Sound(DeleteConfig(w, w.pc.cp, w.pc.name))
    ensures w.pc.DeletingInfra? ==> Sound(DeleteInfra(w, w.pc.cp, w.pc.name))
  {
  }

  lemma ScalingSteps(w: World, pick: Name)
    requires OwnInv(w)
    ensures w.pc.ScalingDown? ==> Sound(ScaleDown(w, w.pc.cp, w.pc.todo, pick))
  {
  }

  lemma CreationSteps(w: World)
    requires OwnInv(w)
    ensures w.pc.CreatingConfig? ==> Sound(CreateConfig(w, w.pc.cp, w.pc.index))
    ensures w.pc.CreatingMachine? ==> Sound(CreateMachine(w, w.pc.cp, w.pc.index))
    ensures w.pc.EnsuringInfra? ==> Sound(EnsureInfra(w, w.pc.cp, w.pc.index, w.pc.uid))
  {
  }

  lemma EnvironmentSteps(w: World, move: Move)
    requires OwnInv(w) && !move.Go? && !(move.SetSpec? && Revives(w, move.version))
    ensures Sound(Next(w, move))
  {
  }

  lemma OwnInvNext(w: World, move: Move)
    requires OwnInv(w)
    ensures OwnInv(NextGuarded(w, move))
  {
    RecordInvNext(w, move);
    if move.SetSpec? && Revives(w, move.version) {
    } else if !move.Go? {
      EnvironmentSteps(w, move);
    } else {
      ReadingSteps(w, move.pick, move.data);
      InspectingSteps(w);
      RecordingSteps(w);
      DeletionSteps(w);
      ScalingSteps(w, move.pick);
      CreationSteps(w);
    }
  }

  predicate OwnSnapshot(d: Drop) {
    d.saved.Some? && d.saved.value.data != "" && d.saved.value.source == d.machine.uid
  }

  /**
    As long as the version is not changed back to the target of the replacement on record, every Machine
    the drift path deletes was itself the source of the non-empty snapshot on disk, whatever the replica
    count, the versions asked for again, the crashes and the torn writes.
  */
  lemma DeletedMachineWasSnapshotted(w: World, moves: seq<Move>)
    requires w.pc.Idle? && w.cp.replacement.None? && w.drops == [] && OwnersInv(w)
    ensures forall d | d in Runs.Exec(NextGuarded, w, moves).drops :: OwnSnapshot(d)
  {
    forall u: World, m: Move | OwnInv(u)
      ensures OwnInv(NextGuarded(u, m))
    {
      OwnInvNext(u, m);
    }
    Runs.InvariantHolds(NextGuarded, u => OwnInv(u), w, moves);
    var end := Runs.Exec(NextGuarded, w, moves);
    forall d | d in end.drops
      ensures OwnSnapshot(d)
    {
      assert GoodDrop(end.naming, d);
    }
  }
}
