/** What every run of the control-plane reconciler keeps, for any number of replicas. */
module Drift {
  import opened Common
  import opened ControlPlane
  import opened Names
  import Runs

  predicate Saved(w: World, path: Path) {
    path in w.disk && w.disk[path].data != ""
  }

  predicate GoodDrop(naming: Naming, d: Drop) {
    && d.recorded == Some(Replacement(d.name, d.target, SnapshotFile(d.name, d.target)))
    && d.saved.Some? && d.saved.value.data != ""
    && d.target != "" && Drifted(d.machine, d.target)
    && naming.index(d.name).Some?
  }

  /** A reconcile is between two steps of taking a snapshot. */
  predicate Snapshotting(pc: Pc) {
    pc.Capturing? || pc.Writing? || pc.Recording?
  }

  ghost predicate RecordInv(w: World) {
    && (!w.pc.Idle? ==> w.pc.cp.replacement == w.cp.replacement)
    && (w.cp.replacement.Some? ==>
          var r := w.cp.replacement.value;
          r.path == SnapshotFile(r.machine, r.target) && Saved(w, r.path))
    && (Snapshotting(w.pc) ==> !Matches(w.cp.replacement, w.pc.name, w.pc.cp.version))
    && (w.pc.Writing? ==> w.pc.snapshot.data != "")
    && (w.pc.Recording? ==> Saved(w, SnapshotFile(w.pc.name, w.pc.cp.version)))
    && (w.pc.DeletingMachine? ==>
          && Matches(w.cp.replacement, w.pc.name, w.pc.cp.version)
          && w.pc.cp.version != "" && w.naming.index(w.pc.name).Some?
          && (w.pc.name in w.machines ==> Drifted(w.machines[w.pc.name], w.pc.cp.version)))
    && (forall d | d in w.drops :: GoodDrop(w.naming, d))
  }

  ghost predicate RecordInvOf(naming: Naming, w: World) {
    RecordInv(w) && w.naming == naming
  }

  /** A step that neither touches the record nor enters a state that speaks about it. */
  ghost predicate Quiet(w: World, w': World) {
    && w'.cp.replacement == w.cp.replacement && w'.disk == w.disk && w'.drops == w.drops && w'.naming == w.naming
    && !Snapshotting(w'.pc) && !w'.pc.DeletingMachine?
    && (!w'.pc.Idle? ==> w'.pc.cp.replacement == if w.pc.Idle? then w.cp.replacement else w.pc.cp.replacement)
  }

  predicate QuietPc(pc: Pc) {
    !Snapshotting(pc) && !pc.DeletingMachine? && !pc.Choosing? && !pc.Clearing?
  }

  lemma QuietSteps(w: World)
    ensures w.pc.Idle? ==> Quiet(w, w.(pc := Choosing(w.cp)))
    ensures w.pc.DeletingConfig? ==> Quiet(w, DeleteConfig(w, w.pc.cp, w.pc.name))
    ensures w.pc.DeletingInfra? ==> Quiet(w, DeleteInfra(w, w.pc.cp, w.pc.name))
    ensures w.pc.Checking? ==> Quiet(w, Check(w, w.pc.cp))
    ensures w.pc.Creating? ==> Quiet(w, CreateNext(w, w.pc.cp, w.pc.index))
  {
  }

  lemma QuietCreationSteps(w: World, pick: Name)
    ensures w.pc.CreatingConfig? ==> Quiet(w, CreateConfig(w, w.pc.cp, w.pc.index))
    ensures w.pc.CreatingMachine? ==> Quiet(w, CreateMachine(w, w.pc.cp, w.pc.index))
    ensures w.pc.EnsuringInfra? ==> Quiet(w, EnsureInfra(w, w.pc.cp, w.pc.index, w.pc.uid))
    ensures w.pc.ScalingDown? ==> Quiet(w, ScaleDown(w, w.pc.cp, w.pc.todo, pick))
  {
  }

  lemma QuietKeepsRecord(w: World, w': World)
    requires RecordInv(w) && Quiet(w, w')
    ensures RecordInv(w')
  {
  }

  lemma ChooseKeepsRecord(w: World, pick: Name)
    requires RecordInv(w) && w.pc.Choosing?
    ensures RecordInv(Choose(w, w.pc.cp, pick))
  {
    var w' := Choose(w, w.pc.cp, pick);
    assert w' == w.(pc := w'.pc) && w'.pc.cp == w.pc.cp && !w'.pc.Writing? && !w'.pc.Recording?;
  }

  lemma RecordInvAdvance(w: World, pick: Name, data: string)
    requires RecordInv(w)
    ensures RecordInv(Advance(w, pick, data)) && Advance(w, pick, data).naming == w.naming
  {
    if QuietPc(w.pc) {
      QuietSteps(w);
      QuietCreationSteps(w, pick);
      QuietKeepsRecord(w, Advance(w, pick, data));
    } else if w.pc.Choosing? {
      ChooseKeepsRecord(w, pick);
    }
  }

  lemma RecordInvNext(w: World, move: Move)
    requires RecordInv(w)
    ensures RecordInv(Next(w, move)) && Next(w, move).naming == w.naming
  {
    if move.Go? {
      RecordInvAdvance(w, move.pick, move.data);
    }
  }

  /**
    Whatever the replica count, however often the desired version changes and wherever the reconciler
    crashes: the drift path deletes a Machine only while the recorded replacement names that Machine
    and the version being rolled to, and only with that replacement's snapshot on disk and not empty.
    The control plane asks for a version, and the Machine carries a different one.
  */
  lemma DeletesOnlyRecorded(w: World, moves: seq<Move>)
    requires w.pc.Idle? && w.cp.replacement.None? && w.drops == []
    ensures forall d | d in Exec(w, moves).drops :: GoodDrop(w.naming, d)
  {
    forall u: World, m: Move | RecordInvOf(w.naming, u)
      ensures RecordInvOf(w.naming, Next(u, m))
    {
      RecordInvNext(u, m);
    }
    Runs.InvariantHolds(Next, u => RecordInvOf(w.naming, u), w, moves);
  }

  // ---------------------------------------------------------------- fixed spec: highest index first

  /** Every Machine the drift path could still replace has an index of at most k. */
  ghost predicate DriftBelow(w: World, k: int) {
    forall n | n in w.machines && Drifted(w.machines[n], w.cp.version) && Managed(w.naming, n, w.cp) ::
      Index(w.naming, n) <= k
  }

  function LastDropIndex(w: World): int
    requires w.drops != []
  {
    Index(w.naming, w.drops[|w.drops| - 1].name)
  }

  /** Deletions in an order of indices that never increases. */
  predicate Descending(naming: Naming, drops: seq<Drop>) {
    forall a, b | 0 <= a < b < |drops| :: Index(naming, drops[a].name) >= Index(naming, drops[b].name)
  }

  predicate SameSpec(a: CpObject, b: CpObject) {
    a.version == b.version && a.replicas == b.replicas
  }

  ghost predicate OrderInv(w: World) {
    && (!w.pc.Idle? ==> SameSpec(w.pc.cp, w.cp))
    && Descending(w.naming, w.drops)
    && (w.drops != [] ==> DriftBelow(w, LastDropIndex(w)))
    && (w.pc.DeletingMachine? ==>
          && DriftBelow(w, Index(w.naming, w.pc.name))
          && (w.drops != [] ==> Index(w.naming, w.pc.name) <= LastDropIndex(w)))
  }

  ghost predicate OrderInvOf(naming: Naming, w: World) {
    OrderInv(w) && w.naming == naming
  }

  /** The desired version and replica count stay as they are. */
  function NextFixed(w: World, move: Move): World {
    if move.SetSpec? then w else Next(w, move)
  }

  /** A step that creates no drift and issues no deletion of the drift path. */
  ghost predicate Calm(w: World, w': World) {
    && w'.naming == w.naming && SameSpec(w'.cp, w.cp) && w'.drops == w.drops
    && (forall n | n in w'.machines && Drifted(w'.machines[n], w.cp.version) ::
          n in w.machines && w.machines[n].version == w'.machines[n].version)
    && (w'.pc == w.pc
        || (!w'.pc.DeletingMachine? && (!w'.pc.Idle? ==> SameSpec(w'.pc.cp, if w.pc.Idle? then w.cp else w.pc.cp))))
  }

  lemma CalmKeepsOrder(w: World, w': World)
    requires OrderInv(w) && Calm(w, w')
    ensures OrderInv(w')
  {
  }

  lemma CalmSteps(w: World, data: string)
    requires !w.pc.Idle? ==> SameSpec(w.pc.cp, w.cp)
    ensures w.pc.Idle? ==> Calm(w, w.(pc := Choosing(w.cp)))
    ensures w.pc.Capturing? ==> Calm(w, Capture(w, w.pc.cp, w.pc.name, data))
    ensures w.pc.Writing? ==> Calm(w, WriteFile(w, w.pc.cp, w.pc.name, w.pc.snapshot))
    ensures w.pc.Recording? ==> Calm(w, RecordReplacement(w, w.pc.cp, w.pc.name))
  {
  }

  lemma CalmLaterSteps(w: World)
    requires !w.pc.Idle? ==> SameSpec(w.pc.cp, w.cp)
    ensures w.pc.DeletingConfig? ==> Calm(w, DeleteConfig(w, w.pc.cp, w.pc.name))
    ensures w.pc.DeletingInfra? ==> Calm(w, DeleteInfra(w, w.pc.cp, w.pc.name))
    ensures w.pc.Checking? ==> Calm(w, Check(w, w.pc.cp))
    ensures w.pc.Clearing? ==> Calm(w, ClearReplacement(w, w.pc.cp))
  {
  }

  lemma CalmCreationSteps(w: World)
    requires !w.pc.Idle? ==> SameSpec(w.pc.cp, w.cp)
    ensures w.pc.Creating? ==> Calm(w, CreateNext(w, w.pc.cp, w.pc.index))
    ensures w.pc.CreatingConfig? ==> Calm(w, CreateConfig(w, w.pc.cp, w.pc.index))
    ensures w.pc.CreatingMachine? ==> Calm(w, CreateMachine(w, w.pc.cp, w.pc.index))
  {
  }

  lemma CalmFinalSteps(w: World, pick: Name)
    requires !w.pc.Idle? ==> SameSpec(w.pc.cp, w.cp)
    ensures w.pc.EnsuringInfra? ==> Calm(w, EnsureInfra(w, w.pc.cp, w.pc.index, w.pc.uid))
    ensures w.pc.ScalingDown? ==> Calm(w, ScaleDown(w, w.pc.cp, w.pc.todo, pick))
  {
  }

  lemma CalmEnvironment(w: World, move: Move)
    requires !move.Go? && !move.SetSpec?
    ensures Calm(w, Next(w, move))
  {
  }

  lemma ChooseKeepsOrder(w: World, pick: Name)
    requires OrderInv(w) && w.pc.Choosing?
    ensures OrderInv(Choose(w, w.pc.cp, pick)) && Choose(w, w.pc.cp, pick).naming == w.naming
  {
    var w' := Choose(w, w.pc.cp, pick);
    assert w' == w.(pc := w'.pc) && w'.pc.cp == w.pc.cp;
    if w'.pc.DeletingMachine? {
      assert HighestDrifted(w.naming, w.machines, w.pc.cp, pick);
      forall n | n in w.machines && Drifted(w.machines[n], w.cp.version) && Managed(w.naming, n, w.cp)
        ensures Index(w.naming, n) <= Index(w.naming, pick)
      {
        assert n in Candidates(w.naming, w.machines, w.pc.cp);
      }
    }
  }

  lemma DescendingOn(naming: Naming, drops: seq<Drop>, d: Drop)
    requires Descending(naming, drops)
    requires drops != [] ==> Index(naming, d.name) <= Index(naming, drops[|drops| - 1].name)
    ensures Descending(naming, drops + [d])
  {
    var longer := drops + [d];
    forall a, b | 0 <= a < b < |longer| ensures Index(naming, longer[a].name) >= Index(naming, longer[b].name) {
      if b == |drops| && a < |drops| - 1 {
        assert Index(naming, drops[a].name) >= Index(naming, drops[|drops| - 1].name);
      }
    }
  }

  /** Marking a Machine creates no drift. */
  lemma MarkingBelow(w: World, k: int)
    requires w.pc.DeletingMachine? && DriftBelow(w, k)
    ensures DriftBelow(DeleteMachine(w, w.pc.cp, w.pc.name), k)
  {
  }

  lemma DeleteKeepsOrder(w: World)
    requires OrderInv(w) && w.pc.DeletingMachine?
    ensures OrderInv(DeleteMachine(w, w.pc.cp, w.pc.name)) && DeleteMachine(w, w.pc.cp, w.pc.name).naming == w.naming
  {
    var n := w.pc.name;
    if n in w.machines {
      DescendingOn(w.naming, w.drops, DropOf(w, w.pc.cp, n));
      MarkingBelow(w, Index(w.naming, n));
    }
  }

  lemma OrderInvNext(w: World, move: Move)
    requires OrderInv(w)
    ensures OrderInv(NextFixed(w, move)) && NextFixed(w, move).naming == w.naming
  {
    var w' := NextFixed(w, move);
    if move.SetSpec? {
    } else if !move.Go? {
      CalmEnvironment(w, move);
      CalmKeepsOrder(w, w');
    } else if w.pc.Choosing? {
      ChooseKeepsOrder(w, move.pick);
    } else if w.pc.DeletingMachine? {
      DeleteKeepsOrder(w);
    } else {
      CalmSteps(w, move.data);
      CalmLaterSteps(w);
      CalmCreationSteps(w);
      CalmFinalSteps(w, move.pick);
      CalmKeepsOrder(w, w');
    }
  }

  /**
    While the desired version and replica count stay fixed, the drift path works from the highest
    replica index down: over a whole run, with any crashes, the indices it deletes never increase.
  */
  lemma ReplacesHighestIndexFirst(w: World, moves: seq<Move>)
    requires w.pc.Idle? && w.drops == []
    ensures Descending(w.naming, Runs.Exec(NextFixed, w, moves).drops)
    ensures Runs.Exec(NextFixed, w, moves).naming == w.naming
  {
    forall u: World, m: Move | OrderInvOf(w.naming, u)
      ensures OrderInvOf(w.naming, NextFixed(u, m))
    {
      OrderInvNext(u, m);
    }
    Runs.InvariantHolds(NextFixed, u => OrderInvOf(w.naming, u), w, moves);
  }
}
