/** Replicas that need no replacement survive: only drifted or surplus Machines are ever deleted. */
module Survival {
  import opened Common
  import opened ControlPlane
  import opened Drift
  import Runs

  /** The drift path has no business with the Machine: no version is asked for, or none other than its own. */
  predicate Spared(m: Machine, version: Version) {
    version == "" || !Drifted(m, version)
  }

  /** A desired replica that is spared, by the object and by the reconcile under way. */
  ghost predicate Kept(w: World, n: Name, m: Machine) {
    && n in w.machines && w.machines[n] == m && !m.deleting
    && Spared(m, w.cp.version) && Managed(w.naming, n, w.cp)
    && (!w.pc.Idle? ==> Spared(m, w.pc.cp.version) && w.pc.cp.replicas == w.cp.replicas)
    && (w.pc.DeletingMachine? ==> w.pc.name != n)
  }

  lemma ChoosingKeeps(w: World, n: Name, m: Machine, pick: Name)
    requires Kept(w, n, m) && w.pc.Choosing?
    ensures Kept(Choose(w, w.pc.cp, pick), n, m)
  {
    var w' := Choose(w, w.pc.cp, pick);
    assert w' == w.(pc := w'.pc) && w'.pc.cp == w.pc.cp;
  }

  lemma DriftStepsKeep(w: World, n: Name, m: Machine, data: string)
    requires Kept(w, n, m)
    ensures w.pc.Capturing? ==> Kept(Capture(w, w.pc.cp, w.pc.name, data), n, m)
    ensures w.pc.Writing? ==> Kept(WriteFile(w, w.pc.cp, w.pc.name, w.pc.snapshot), n, m)
    ensures w.pc.Recording? ==> Kept(RecordReplacement(w, w.pc.cp, w.pc.name), n, m)
    ensures w.pc.DeletingMachine? ==> Kept(DeleteMachine(w, w.pc.cp, w.pc.name), n, m)
    ensures w.pc.DeletingConfig? ==> Kept(DeleteConfig(w, w.pc.cp, w.pc.name), n, m)
    ensures w.pc.DeletingInfra? ==> Kept(DeleteInfra(w, w.pc.cp, w.pc.name), n, m)
  {
  }

  lemma InspectionKeeps(w: World, n: Name, m: Machine)
    requires Kept(w, n, m)
    ensures w.pc.Checking? ==> Kept(Check(w, w.pc.cp), n, m)
    ensures w.pc.Clearing? ==> Kept(ClearReplacement(w, w.pc.cp), n, m)
    ensures w.pc.Creating? ==> Kept(CreateNext(w, w.pc.cp, w.pc.index), n, m)
  {
  }

  lemma CreationKeeps(w: World, n: Name, m: Machine, pick: Name)
    requires Kept(w, n, m)
    ensures w.pc.CreatingConfig? ==> Kept(CreateConfig(w, w.pc.cp, w.pc.index), n, m)
    ensures w.pc.CreatingMachine? ==> Kept(CreateMachine(w, w.pc.cp, w.pc.index), n, m)
    ensures w.pc.EnsuringInfra? ==> Kept(EnsureInfra(w, w.pc.cp, w.pc.index, w.pc.uid), n, m)
    ensures w.pc.ScalingDown? ==> Kept(ScaleDown(w, w.pc.cp, w.pc.todo, pick), n, m)
  {
  }

  lemma EnvironmentKeeps(w: World, n: Name, m: Machine, move: Move)
    requires Kept(w, n, m) && !move.Go?
    requires move.SetSpec? ==> move.replicas == w.cp.replicas && Spared(m, move.version)
    ensures Kept(Next(w, move), n, m)
  {
  }

  /** Whatever version is asked for meanwhile, as long as it spares the Machine. */
  lemma KeptNext(w: World, n: Name, m: Machine, move: Move)
    requires Kept(w, n, m)
    requires move.SetSpec? ==> move.replicas == w.cp.replicas && Spared(m, move.version)
    ensures Kept(Next(w, move), n, m)
  {
    if move.Go? {
      if w.pc.Choosing? { ChoosingKeeps(w, n, m, move.pick); }
      DriftStepsKeep(w, n, m, move.data);
      InspectionKeeps(w, n, m);
      CreationKeeps(w, n, m, move.pick);
    } else {
      EnvironmentKeeps(w, n, m, move);
    }
  }

  /**
    While the spec stays fixed, a desired replica that is versionless or already at the desired version
    is never touched, by the drift path or by scale-down, under any interleaving and any crash. With no
    version desired, none is.
  */
  lemma UndriftedReplicasSurvive(w: World, n: Name, moves: seq<Move>)
    requires w.pc.Idle? && n in w.machines && !w.machines[n].deleting
    requires w.cp.version == "" || !Drifted(w.machines[n], w.cp.version)
    requires Managed(w.naming, n, w.cp)
    ensures var end := Runs.Exec(NextFixed, w, moves); n in end.machines && end.machines[n] == w.machines[n]
  {
    var m := w.machines[n];
    forall u: World, move: Move | Kept(u, n, m)
      ensures Kept(NextFixed(u, move), n, m)
    {
      if !move.SetSpec? { KeptNext(u, n, m, move); }
    }
    Runs.InvariantHolds(NextFixed, u => Kept(u, n, m), w, moves);
  }

  // ---------------------------------------------------------------- no version asked for

  /** A reconcile that replaces nothing: it goes straight on to the creation loop. */
  predicate PastReplacement(pc: Pc) {
    || pc.Idle? || pc.Choosing? || pc.Creating? || pc.CreatingConfig? || pc.CreatingMachine? || pc.EnsuringInfra?
    || pc.ScalingDown?
  }

  /** No version is asked for, so nothing is replaced and nothing is recorded. */
  ghost predicate Unversioned(w: World, cp: CpObject, drops: seq<Drop>) {
    && w.cp == cp && cp.version == "" && w.drops == drops
    && PastReplacement(w.pc) && (!w.pc.Idle? ==> w.pc.cp == cp)
  }

  lemma UnversionedSteps(w: World, cp: CpObject, drops: seq<Drop>, pick: Name)
    requires Unversioned(w, cp, drops)
    ensures w.pc.Idle? ==> Unversioned(w.(pc := Choosing(w.cp)), cp, drops)
    ensures w.pc.Choosing? ==> Unversioned(Choose(w, w.pc.cp, pick), cp, drops)
    ensures w.pc.Creating? ==> Unversioned(CreateNext(w, w.pc.cp, w.pc.index), cp, drops)
    ensures w.pc.CreatingConfig? ==> Unversioned(CreateConfig(w, w.pc.cp, w.pc.index), cp, drops)
    ensures w.pc.CreatingMachine? ==> Unversioned(CreateMachine(w, w.pc.cp, w.pc.index), cp, drops)
    ensures w.pc.EnsuringInfra? ==> Unversioned(EnsureInfra(w, w.pc.cp, w.pc.index, w.pc.uid), cp, drops)
    ensures w.pc.ScalingDown? ==> Unversioned(ScaleDown(w, w.pc.cp, w.pc.todo, pick), cp, drops)
  {
  }

  lemma UnversionedNext(w: World, cp: CpObject, drops: seq<Drop>, move: Move)
    requires Unversioned(w, cp, drops)
    ensures Unversioned(NextFixed(w, move), cp, drops)
  {
    if move.Go? { UnversionedSteps(w, cp, drops, move.pick); }
  }

  /**
    A control plane that asks for no version replaces nothing: over every run with its spec fixed the drift path
    deletes no Machine and the recorded replacement stays what it was.
  */
  lemma UnversionedReplacesNothing(w: World, moves: seq<Move>)
    requires w.pc.Idle? && w.cp.version == ""
    ensures var end := Runs.Exec(NextFixed, w, moves); end.drops == w.drops && end.cp == w.cp
  {
    forall u: World, move: Move | Unversioned(u, w.cp, w.drops)
      ensures Unversioned(NextFixed(u, move), w.cp, w.drops)
    {
      UnversionedNext(u, w.cp, w.drops, move);
    }
    Runs.InvariantHolds(NextFixed, u => Unversioned(u, w.cp, w.drops), w, moves);
  }

  // ---------------------------------------------------------------- no port to take a snapshot through

  predicate NotFor(replacement: Option<Replacement>, n: Name) {
    replacement.Some? ==> replacement.value.machine != n
  }

  ghost predicate NoneDropped(w: World, n: Name) {
    forall d | d in w.drops :: d.name != n
  }

  /** Nothing is on record for n, its etcd port is not published, and no snapshot of it was taken. */
  ghost predicate Unpublished(w: World, n: Name) {
    && (n in w.infras ==> !w.infras[n].etcd) && NotFor(w.cp.replacement, n) && NoneDropped(w, n)
    && (!w.pc.Idle? ==> NotFor(w.pc.cp.replacement, n))
    && (w.pc.Writing? || w.pc.Recording? || w.pc.DeletingMachine? ==> w.pc.name != n)
  }

  lemma UnpublishedDriftSteps(w: World, n: Name, pick: Name, data: string)
    requires Unpublished(w, n)
    ensures w.pc.Choosing? ==> Unpublished(Choose(w, w.pc.cp, pick), n)
    ensures w.pc.Capturing? ==> Unpublished(Capture(w, w.pc.cp, w.pc.name, data), n)
    ensures w.pc.Writing? ==> Unpublished(WriteFile(w, w.pc.cp, w.pc.name, w.pc.snapshot), n)
    ensures w.pc.Recording? ==> Unpublished(RecordReplacement(w, w.pc.cp, w.pc.name), n)
    ensures w.pc.DeletingMachine? ==> Unpublished(DeleteMachine(w, w.pc.cp, w.pc.name), n)
    ensures w.pc.DeletingConfig? ==> Unpublished(DeleteConfig(w, w.pc.cp, w.pc.name), n)
    ensures w.pc.DeletingInfra? ==> Unpublished(DeleteInfra(w, w.pc.cp, w.pc.name), n)
  {
  }

  lemma UnpublishedLaterSteps(w: World, n: Name, pick: Name)
    requires Unpublished(w, n)
    ensures w.pc.Checking? ==> Unpublished(Check(w, w.pc.cp), n)
    ensures w.pc.Clearing? ==> Unpublished(ClearReplacement(w, w.pc.cp), n)
    ensures w.pc.Creating? ==> Unpublished(CreateNext(w, w.pc.cp, w.pc.index), n)
    ensures w.pc.ScalingDown? ==> Unpublished(ScaleDown(w, w.pc.cp, w.pc.todo, pick), n)
  {
  }

  lemma UnpublishedCreationSteps(w: World, n: Name)
    requires Unpublished(w, n)
    ensures w.pc.CreatingConfig? ==> Unpublished(CreateConfig(w, w.pc.cp, w.pc.index), n)
    ensures w.pc.CreatingMachine? ==> Unpublished(CreateMachine(w, w.pc.cp, w.pc.index), n)
    ensures w.pc.EnsuringInfra? ==> Unpublished(EnsureInfra(w, w.pc.cp, w.pc.index, w.pc.uid), n)
  {
  }

  lemma UnpublishedNext(w: World, n: Name, move: Move)
    requires Unpublished(w, n) && move != PublishEtcd(n)
    ensures Unpublished(Next(w, move), n)
  {
    if move.Go? {
      UnpublishedDriftSteps(w, n, move.pick, move.data);
      UnpublishedLaterSteps(w, n, move.pick);
      UnpublishedCreationSteps(w, n);
    }
  }

  /**
    Without a published etcd port nothing is replaced: over every run in which n's port is never published, whatever
    the spec becomes, the drift path neither records nor deletes n.
  */
  lemma {:induction false} UnpublishedNeverReplaced(w: World, n: Name, moves: seq<Move>)
    requires Unpublished(w, n) && forall m | m in moves :: m != PublishEtcd(n)
    ensures NoneDropped(Exec(w, moves), n) && NotFor(Exec(w, moves).cp.replacement, n)
    decreases |moves|
  {
    if moves != [] {
      assert moves[0] in moves && forall m | m in moves[1..] :: m in moves;
      UnpublishedNext(w, n, moves[0]);
      UnpublishedNeverReplaced(Next(w, moves[0]), n, moves[1..]);
    }
  }

  // ---------------------------------------------------------------- the end of a replacement

  /** The Machine on record is there and needs no replacement. */
  predicate Replaced(w: World) {
    && w.cp.replacement.Some? && w.cp.replacement.value.machine in w.machines
    && !Drifted(w.machines[w.cp.replacement.value.machine], w.cp.version)
  }

  /**
    A reconcile that finds nothing to replace goes on to the creation loop. It clears the record on its way exactly
    if the Machine on record is there and needs no replacement.
  */
  lemma RecordClearedExactly(w: World, pick: Name, data: string)
    requires w.pc.Idle? && w.cp.version != "" && w.cp.replacement.Some?
    requires Candidates(w.naming, w.machines, w.cp) == {}
    ensures var go := Go(pick, data);
      var cleared := w.cp.(replacement := None);
      if Replaced(w) then Exec(w, [go, go, go, go]) == w.(cp := cleared, pc := Creating(cleared, 0))
      else Exec(w, [go, go] + [go]) == w.(pc := Creating(w.cp, 0))
  {
    var go := Go(pick, data);
    var w1, w2 := w.(pc := Choosing(w.cp)), w.(pc := Checking(w.cp));
    assert Next(w, go) == w1 && Next(w1, go) == w2;
    if Replaced(w) {
      Runs.ExecFour(Next, w, go, go, go, go);
    } else {
      Runs.ExecTwo(Next, w, go, go);
      Runs.ExecConcat(Next, w, [go, go], [go]);
      Runs.ExecOne(Next, w2, go);
    }
  }

  // ---------------------------------------------------------------- objects keep their identity

  /** The objects stored under n, as far as they existed in the first world, are the same in the second. */
  ghost predicate SameObjects(a: World, w: World, n: Name) {
    && (n in a.machines ==>
          n in w.machines && w.machines[n].uid == a.machines[n].uid && w.machines[n].version == a.machines[n].version)
    && (n in a.configs ==> n in w.configs && w.configs[n].snapshot == a.configs[n].snapshot)
    && (n in a.infras ==> n in w.infras && w.infras[n].owner == a.infras[n].owner)
  }

  lemma SameObjectsDriftSteps(a: World, w: World, n: Name, pick: Name, data: string)
    requires SameObjects(a, w, n)
    ensures w.pc.Choosing? ==> SameObjects(a, Choose(w, w.pc.cp, pick), n)
    ensures w.pc.Capturing? ==> SameObjects(a, Capture(w, w.pc.cp, w.pc.name, data), n)
    ensures w.pc.Writing? ==> SameObjects(a, WriteFile(w, w.pc.cp, w.pc.name, w.pc.snapshot), n)
    ensures w.pc.Recording? ==> SameObjects(a, RecordReplacement(w, w.pc.cp, w.pc.name), n)
    ensures w.pc.DeletingMachine? ==> SameObjects(a, DeleteMachine(w, w.pc.cp, w.pc.name), n)
    ensures w.pc.DeletingConfig? ==> SameObjects(a, DeleteConfig(w, w.pc.cp, w.pc.name), n)
    ensures w.pc.DeletingInfra? ==> SameObjects(a, DeleteInfra(w, w.pc.cp, w.pc.name), n)
  {
  }

  lemma SameObjectsLaterSteps(a: World, w: World, n: Name, pick: Name)
    requires SameObjects(a, w, n)
    ensures w.pc.Checking? ==> SameObjects(a, Check(w, w.pc.cp), n)
    ensures w.pc.Clearing? ==> SameObjects(a, ClearReplacement(w, w.pc.cp), n)
    ensures w.pc.Creating? ==> SameObjects(a, CreateNext(w, w.pc.cp, w.pc.index), n)
    ensures w.pc.ScalingDown? ==> SameObjects(a, ScaleDown(w, w.pc.cp, w.pc.todo, pick), n)
  {
  }

  lemma SameObjectsCreationSteps(a: World, w: World, n: Name)
    requires SameObjects(a, w, n)
    ensures w.pc.CreatingConfig? ==> SameObjects(a, CreateConfig(w, w.pc.cp, w.pc.index), n)
    ensures w.pc.CreatingMachine? ==> SameObjects(a, CreateMachine(w, w.pc.cp, w.pc.index), n)
    ensures w.pc.EnsuringInfra? ==> SameObjects(a, EnsureInfra(w, w.pc.cp, w.pc.index, w.pc.uid), n)
  {
  }

  predicate Reclaims(move: Move, n: Name) {
    move == ReclaimMachine(n) || move == ReclaimConfig(n) || move == ReclaimInfra(n)
  }

  lemma SameObjectsNext(a: World, w: World, n: Name, move: Move)
    requires SameObjects(a, w, n) && !Reclaims(move, n)
    ensures SameObjects(a, Next(w, move), n)
  {
    if move.Go? {
      SameObjectsDriftSteps(a, w, n, move.pick, move.data);
      SameObjectsLaterSteps(a, w, n, move.pick);
      SameObjectsCreationSteps(a, w, n);
    }
  }

  /**
    Whatever the reconciler does, and whatever the spec becomes: until it is reclaimed, a Machine keeps its identity
    and version, a config the snapshot it names, and a HypervisorMachine its owner.
  */
  lemma {:induction false} ObjectsAreNeverRewritten(a: World, w: World, n: Name, moves: seq<Move>)
    requires SameObjects(a, w, n) && forall m | m in moves :: !Reclaims(m, n)
    ensures SameObjects(a, Exec(w, moves), n)
    decreases |moves|
  {
    if moves != [] {
      assert moves[0] in moves && forall m | m in moves[1..] :: m in moves;
      SameObjectsNext(a, w, n, moves[0]);
      ObjectsAreNeverRewritten(a, Next(w, moves[0]), n, moves[1..]);
    }
  }
}
