/**
  Several replicas rolled to one version: the record of a replacement is overwritten before anything is
  recreated, so only the Machine deleted last, the one of the lowest index, comes back with its snapshot.
*/
module Lineage {
  import opened Common
  import opened Names
  import opened ControlPlane
  import opened Drift
  import opened Measure
  import opened ReplaceInPlace
  import Snapshots
  import Runs

  function LastDrop(w: World): Option<Name> {
    if w.drops == [] then None else Some(w.drops[|w.drops| - 1].name)
  }

  /** Nobody but the reconciler deletes Machines: the surplus ones, and of the drifted only the last one dropped. */
  ghost predicate DeletionsInv(w: World) {
    && (forall n | n in w.machines && w.machines[n].deleting ::
          IsSurplus(w.naming, n, w.cp)
          || (n in Drifting(w) && LastDrop(w) == Some(n) && Matches(w.cp.replacement, n, w.cp.version)
              && Highest(w, n)))
    && (LastDrop(w).Some? ==>
          var n := LastDrop(w).value;
          Managed(w.naming, n, w.cp) && (n in Drifting(w) ==> w.machines[n].deleting))
  }

  /** The record names a Machine still to be replaced, or the last one dropped, and then until that one is back. */
  ghost predicate RecordsInv(w: World) {
    && (w.cp.replacement.Some? ==>
          var r := w.cp.replacement.value;
          && r.target == w.cp.version && r.path == SnapshotFile(r.machine, r.target)
          && (r.machine in Drifting(w) || LastDrop(w) == Some(r.machine)))
    && (Snapshotting(w.pc) ==> Highest(w, w.pc.name) && !w.machines[w.pc.name].deleting)
    && (Drifting(w) == {} && LastDrop(w).Some? && LastDrop(w).value !in w.machines ==>
          Matches(w.cp.replacement, LastDrop(w).value, w.cp.version))
    && (w.pc.Clearing? ==> w.cp.replacement.Some? && w.cp.replacement.value.machine in w.machines)
  }

  /** The file a Machine of this name starts from if it is created now. */
  function Restored(w: World, n: Name): Option<Path> {
    if LastDrop(w) == Some(n) then Some(SnapshotFile(n, w.cp.version)) else None
  }

  /** Configs without a Machine, and all Machines created, are of the time after the last drop. */
  ghost predicate ConfigsInv(w: World) {
    && (forall n | n in w.configs && n !in w.machines ::
          Drifting(w) == {} && w.configs[n] == Config(Restored(w, n), false)
          && (w.pc.Idle? || w.pc.Choosing? || PastDrift(w.pc)))
    && (w.pc.CreatingMachine? ==> w.naming.name(w.pc.index) in w.configs)
    && (w.births != [] ==> Drifting(w) == {})
    && (forall b | b in w.births :: b.restore == Restored(w, b.name))
  }

  ghost predicate Lineal(w: World) {
    Steady(w) && DeletionsInv(w) && RecordsInv(w) && ConfigsInv(w)
  }

  // ---------------------------------------------------------------- steps that only move the reconcile on

  /** What the invariant says about where the reconcile stands. */
  ghost predicate Stands(w: World, pc: Pc) {
    && (Snapshotting(pc) ==> Highest(w, pc.name) && !w.machines[pc.name].deleting)
    && (pc.Clearing? ==> w.cp.replacement.Some? && w.cp.replacement.value.machine in w.machines)
    && (pc.CreatingMachine? ==> w.naming.name(pc.index) in w.configs)
    && (forall n | n in w.configs && n !in w.machines :: pc.Idle? || pc.Choosing? || PastDrift(pc))
  }

  lemma MovesOn(w: World, w': World)
    requires Lineal(w) && Steady(w') && w' == w.(pc := w'.pc, disk := w'.disk, infras := w'.infras) && Stands(w, w'.pc)
    ensures Lineal(w')
  {
  }

  lemma LinealChoice(w: World, pick: Name, data: string)
    requires Lineal(w) && w.pc.Choosing?
    ensures Lineal(Advance(w, pick, data))
  {
    ChoosingFine(w, pick, data);
    ChoiceStands(w, pick);
    MovesOn(w, Choose(w, w.pc.cp, pick));
  }

  lemma ChoiceStands(w: World, pick: Name)
    requires Lineal(w) && w.pc.Choosing?
    ensures var w' := Choose(w, w.pc.cp, pick); w' == w.(pc := w'.pc) && Stands(w, w'.pc)
  {
    ChoosingChanges(w, pick);
  }

  lemma LinealDriftSteps(w: World, pick: Name, data: string)
    requires Lineal(w) && Steady(Advance(w, pick, data))
    requires w.pc.Idle? || w.pc.Capturing? || w.pc.Writing? || w.pc.DeletingInfra?
    ensures Lineal(Advance(w, pick, data))
  {
    MovesOn(w, Advance(w, pick, data));
  }

  lemma LinealCreationSteps(w: World, pick: Name, data: string)
    requires Lineal(w) && Steady(Advance(w, pick, data)) && (w.pc.Checking? || w.pc.Creating? || w.pc.EnsuringInfra?)
    ensures Lineal(Advance(w, pick, data))
  {
    MovesOn(w, Advance(w, pick, data));
  }

  lemma LinealInfras(w: World, move: Move)
    requires Lineal(w) && Steady(Next(w, move))
    requires move.Crash? || move.TornWrite? || move.PublishEtcd? || move.Collect? || move.ReclaimInfra?
    ensures Lineal(Next(w, move))
  {
    MovesOn(w, Next(w, move));
  }

  // ---------------------------------------------------------------- the record

  lemma LinealRecords(w: World)
    requires Lineal(w) && w.pc.Recording? && Steady(RecordReplacement(w, w.pc.cp, w.pc.name))
    ensures Lineal(RecordReplacement(w, w.pc.cp, w.pc.name))
  {
    var w' := RecordReplacement(w, w.pc.cp, w.pc.name);
    RecordIrrelevant(w.naming, w.machines, w.infras, w.cp, w'.cp);
    assert forall g, h | Highest(w, g) && Highest(w, h) :: g == h;
  }

  lemma LinealClears(w: World)
    requires Lineal(w) && w.pc.Clearing? && Steady(ClearReplacement(w, w.pc.cp))
    ensures Lineal(ClearReplacement(w, w.pc.cp))
  {
    var w' := ClearReplacement(w, w.pc.cp);
    RecordIrrelevant(w.naming, w.machines, w.infras, w.cp, w'.cp);
  }

  // ---------------------------------------------------------------- configs

  lemma LinealDeletesConfig(w: World)
    requires Lineal(w) && w.pc.DeletingConfig? && Steady(DeleteConfig(w, w.pc.cp, w.pc.name))
    ensures Lineal(DeleteConfig(w, w.pc.cp, w.pc.name))
  {
  }

  lemma LinealDropsConfig(w: World, n: Name)
    requires Lineal(w) && Steady(DropConfig(w, n))
    ensures Lineal(DropConfig(w, n))
  {
  }

  lemma LinealCascades(w: World, n: Name)
    requires Lineal(w) && Steady(CascadeDeletion(w, n))
    ensures Lineal(CascadeDeletion(w, n))
  {
  }

  lemma LinealCreatesConfig(w: World)
    requires Lineal(w) && w.pc.CreatingConfig? && Steady(CreateConfig(w, w.pc.cp, w.pc.index))
    ensures Lineal(CreateConfig(w, w.pc.cp, w.pc.index))
  {
  }

  // ---------------------------------------------------------------- Machines

  lemma LinealDeletesOne(w: World)
    requires Lineal(w) && w.pc.DeletingMachine?
    ensures var w' := DeleteMachine(w, w.pc.cp, w.pc.name); Drifting(w') == Drifting(w) && DeletionsInv(w')
  {
    var w' := DeleteMachine(w, w.pc.cp, w.pc.name);
    assert Drifting(w') == Drifting(w);
    assert forall g, h | Highest(w, g) && Highest(w, h) :: g == h;
  }

  lemma LinealDeletes(w: World)
    requires Lineal(w) && w.pc.DeletingMachine? && Steady(DeleteMachine(w, w.pc.cp, w.pc.name))
    ensures Lineal(DeleteMachine(w, w.pc.cp, w.pc.name))
  {
    LinealDeletesOne(w);
  }

  lemma LinealScales(w: World, pick: Name)
    requires Lineal(w) && w.pc.ScalingDown? && Steady(ScaleDown(w, w.pc.cp, w.pc.todo, pick))
    ensures Lineal(ScaleDown(w, w.pc.cp, w.pc.todo, pick))
  {
    var w' := ScaleDown(w, w.pc.cp, w.pc.todo, pick);
    assert Drifting(w') == {};
  }

  lemma LinealCreates(w: World)
    requires Lineal(w) && w.pc.CreatingMachine? && Steady(CreateMachine(w, w.pc.cp, w.pc.index))
    ensures Lineal(CreateMachine(w, w.pc.cp, w.pc.index))
  {
    var w' := CreateMachine(w, w.pc.cp, w.pc.index);
    assert Drifting(w') == {};
  }

  lemma LinealReclaims(w: World, n: Name)
    requires Lineal(w) && Steady(DropMachine(w, n))
    ensures Lineal(DropMachine(w, n))
  {
    var w' := DropMachine(w, n);
    assert Drifting(w') <= Drifting(w);
  }

  lemma LinealBuilds(w: World, pick: Name, data: string)
    requires Lineal(w) && Steady(Advance(w, pick, data)) && PastDrift(w.pc)
    ensures Lineal(Advance(w, pick, data))
  {
    if w.pc.Clearing? {
      LinealClears(w);
    } else if w.pc.CreatingConfig? {
      LinealCreatesConfig(w);
    } else if w.pc.ScalingDown? {
      LinealScales(w, pick);
    } else if w.pc.CreatingMachine? {
      LinealCreates(w);
    } else {
      LinealCreationSteps(w, pick, data);
    }
  }

  lemma LinealAdvances(w: World, pick: Name, data: string)
    requires Lineal(w) && Steady(Advance(w, pick, data))
    ensures Lineal(Advance(w, pick, data))
  {
    if PastDrift(w.pc) {
      LinealBuilds(w, pick, data);
    } else if w.pc.Choosing? {
      LinealChoice(w, pick, data);
    } else if w.pc.Recording? {
      LinealRecords(w);
    } else if w.pc.DeletingConfig? {
      LinealDeletesConfig(w);
    } else if w.pc.DeletingMachine? {
      LinealDeletes(w);
    } else {
      LinealDriftSteps(w, pick, data);
    }
  }

  lemma LinealNext(w: World, move: Move)
    requires Lineal(w)
    ensures Lineal(NextFixed(w, move))
  {
    MoveFine(w, move);
    match move
    case Go(pick, data) => LinealAdvances(w, pick, data);
    case SetSpec(_, _) =>
    case Cascade(n) => LinealCascades(w, n);
    case ReclaimConfig(n) => LinealDropsConfig(w, n);
    case ReclaimMachine(n) => LinealReclaims(w, n);
    case _ => LinealInfras(w, move);
  }

  // ---------------------------------------------------------------- whose snapshot it is

  /** The file on record for the last one dropped is its own, and so is what its successor started from. */
  ghost predicate SavedInv(w: World) {
    && (w.drops != [] ==>
          var d := w.drops[|w.drops| - 1];
          var file := SnapshotFile(d.name, w.cp.version);
          && (Matches(w.cp.replacement, d.name, w.cp.version) && file in w.disk ==>
              w.disk[file].source == d.machine.uid)
          && (d.name in w.owed ==> w.owed[d.name] == d.machine.uid))
    && (w.owed != map[] ==> w.drops != [])
    && (forall b | b in w.births && b.predecessor.Some? ::
          && w.drops != [] && b.version == w.cp.version
          && (LastDrop(w) == Some(b.name) ==>
                b.saved.Some? && b.saved.value.data != "" && b.saved.value.source == b.predecessor.value))
  }

  ghost predicate Ancestral(w: World) {
    Lineal(w) && Snapshots.OwnInv(w) && SavedInv(w)
  }

  /** Steps that touch neither the history nor the record nor the files. */
  ghost predicate SameStory(w: World, w': World) {
    && w'.drops == w.drops && w'.births == w.births && w'.owed == w.owed && w'.disk == w.disk && w'.cp == w.cp
  }

  lemma SavedKept(w: World, w': World)
    requires SavedInv(w) && SameStory(w, w')
    ensures SavedInv(w')
  {
  }

  lemma SameStoryDrift(w: World, pick: Name, data: string)
    requires w.pc.Idle? || w.pc.Choosing? || w.pc.Capturing? || w.pc.DeletingConfig? || w.pc.DeletingInfra?
    ensures SameStory(w, Advance(w, pick, data))
  {
  }

  lemma SameStoryCreation(w: World, pick: Name, data: string)
    requires w.pc.Checking? || w.pc.Creating? || w.pc.CreatingConfig? || w.pc.EnsuringInfra? || w.pc.ScalingDown?
    ensures SameStory(w, Advance(w, pick, data))
  {
  }

  lemma SameStoryEnvironment(w: World, move: Move)
    requires !move.Go? && !move.TornWrite?
    ensures SameStory(w, NextFixed(w, move))
  {
  }

  lemma SavedDeletes(w: World)
    requires Ancestral(w) && w.pc.DeletingMachine?
    ensures SavedInv(DeleteMachine(w, w.pc.cp, w.pc.name))
  {
  }

  lemma SavedWrites(w: World, data: string)
    requires Ancestral(w)
    ensures w.pc.Writing? ==> SavedInv(WriteFile(w, w.pc.cp, w.pc.name, w.pc.snapshot))
    ensures SavedInv(Tear(w, data))
  {
  }

  lemma SavedRecords(w: World)
    requires Ancestral(w)
    ensures w.pc.Recording? ==> SavedInv(RecordReplacement(w, w.pc.cp, w.pc.name))
    ensures w.pc.Clearing? ==> SavedInv(ClearReplacement(w, w.pc.cp))
  {
  }

  lemma SavedCreates(w: World)
    requires Ancestral(w) && w.pc.CreatingMachine?
    ensures SavedInv(CreateMachine(w, w.pc.cp, w.pc.index))
  {
  }

  lemma SavedAdvances(w: World, pick: Name, data: string)
    requires Ancestral(w)
    ensures SavedInv(Advance(w, pick, data))
  {
    match w.pc
    case Writing(_, _, _) => SavedWrites(w, data);
    case Recording(_, _) => SavedRecords(w);
    case Clearing(_) => SavedRecords(w);
    case DeletingMachine(_, _) => SavedDeletes(w);
    case CreatingMachine(_, _) => SavedCreates(w);
    case _ =>
      if w.pc.Idle? || w.pc.Choosing? || w.pc.Capturing? || w.pc.DeletingConfig? || w.pc.DeletingInfra? {
        SameStoryDrift(w, pick, data);
      } else {
        SameStoryCreation(w, pick, data);
      }
      SavedKept(w, Advance(w, pick, data));
  }

  lemma SavedNext(w: World, move: Move)
    requires Ancestral(w)
    ensures SavedInv(NextFixed(w, move))
  {
    if move.Go? {
      SavedAdvances(w, move.pick, move.data);
    } else if move.TornWrite? {
      SavedWrites(w, move.data);
    } else {
      SameStoryEnvironment(w, move);
      SavedKept(w, NextFixed(w, move));
    }
  }

  lemma {:induction false} AncestralRuns(w: World, moves: seq<Move>)
    requires Ancestral(w)
    ensures Ancestral(Runs.Exec(NextFixed, w, moves))
    decreases |moves|
  {
    if moves != [] {
      LinealNext(w, moves[0]);
      SavedNext(w, moves[0]);
      if !moves[0].SetSpec? { Snapshots.OwnInvNext(w, moves[0]); }
      AncestralRuns(NextFixed(w, moves[0]), moves[1..]);
    }
  }

  lemma LastIsLowest(naming: Naming, drops: seq<Drop>)
    requires Descending(naming, drops)
    ensures forall i | 0 <= i < |drops| :: Index(naming, drops[|drops| - 1].name) <= Index(naming, drops[i].name)
  {
  }

  /** Before anything is replaced: nothing on record or under deletion, and every config with its Machine. */
  ghost predicate Untouched(w: World) {
    && Steady(w) && w.pc.Idle? && w.cp.replacement.None? && Snapshots.OwnersInv(w)
    && w.drops == [] && w.births == [] && w.owed == map[]
    && (forall n | n in w.machines :: !w.machines[n].deleting)
    && (forall n | n in w.configs :: n in w.machines)
  }

  /** In an ancestral state exactly the successor of the last one dropped restores its predecessor. */
  ghost predicate OnlyLastRestored(w: World) {
    forall b | b in w.births && b.predecessor.Some? ::
      LastDrop(w).Some? && (RestoresPredecessor(b) <==> LastDrop(w) == Some(b.name))
  }

  /** The last one dropped has the lowest index. */
  ghost predicate LowestLast(w: World) {
    forall d | d in w.drops :: LastDrop(w).Some? && Index(w.naming, LastDrop(w).value) <= Index(w.naming, d.name)
  }

  lemma AncestralRestores(w: World)
    requires Ancestral(w)
    ensures OnlyLastRestored(w)
  {
  }

  lemma DescendingEndsLowest(w: World)
    requires Descending(w.naming, w.drops)
    ensures LowestLast(w)
  {
    LastIsLowest(w.naming, w.drops);
    forall d | d in w.drops
      ensures LastDrop(w).Some? && Index(w.naming, LastDrop(w).value) <= Index(w.naming, d.name)
    {
      var i :| 0 <= i < |w.drops| && w.drops[i] == d;
    }
  }

  /**
    Whatever the number of replicas, the interleaving and the crashes: of the Machines created in place of
    dropped ones, exactly the one dropped last restores the snapshot of its predecessor, and that is one of the
    lowest index. With two or more replaced, all the others start without one.
  */
  lemma OnlyTheLastIsRestored(w: World, moves: seq<Move>)
    requires Untouched(w)
    ensures OnlyLastRestored(Runs.Exec(NextFixed, w, moves)) && LowestLast(Runs.Exec(NextFixed, w, moves))
  {
    AncestralRuns(w, moves);
    AncestralRestores(Runs.Exec(NextFixed, w, moves));
    ReplacesHighestIndexFirst(w, moves);
    DescendingEndsLowest(Runs.Exec(NextFixed, w, moves));
  }
}
