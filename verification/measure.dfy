/**
  How far a control plane is from what its spec asks for, while that spec stays fixed: a five-part
  measure that no move can raise, whatever the interleaving, the crashes, and the deletions in progress.
*/
module Measure {
  import opened Common
  import opened Names
  import opened ControlPlane
  import opened Drift
  import Runs

  // ---------------------------------------------------------------- what is still to be done

  function Drifting(w: World): set<Name> {
    Candidates(w.naming, w.machines, w.cp)
  }

  function Deleting(machines: map<Name, Machine>): set<Name> {
    set n | n in machines && machines[n].deleting
  }

  /** Machines beyond the replica count that nobody has deleted yet. */
  function Surplus(naming: Naming, machines: map<Name, Machine>, cp: CpObject): set<Name> {
    set n | n in machines && IsSurplus(naming, n, cp) && !machines[n].deleting
  }

  predicate Fits(machine: Machine, infra: Infra) {
    !infra.deleting && infra.owner == machine.uid
  }

  /** HypervisorMachines that must go: without a Machine, or not fit for the live Machine of their name. */
  function Unfit(machines: map<Name, Machine>, infras: map<Name, Infra>): set<Name> {
    set n | n in infras && (n in machines ==> !machines[n].deleting && !Fits(machines[n], infras[n]))
  }

  function Replicas(naming: Naming, cp: CpObject): set<Name> {
    set i | 0 <= i < cp.Desired() :: naming.name(i)
  }

  function Absent(naming: Naming, machines: map<Name, Machine>, cp: CpObject): set<Name> {
    Replicas(naming, cp) - machines.Keys
  }

  /** Live replicas without a HypervisorMachine. */
  function Bare(naming: Naming, machines: map<Name, Machine>, infras: map<Name, Infra>, cp: CpObject): set<Name> {
    set n | n in Replicas(naming, cp) && n in machines && !machines[n].deleting && n !in infras
  }

  /** A reconcile is about to create the HypervisorMachine of a Machine that has meanwhile gone. */
  function Pending(w: World): int {
    if w.pc.EnsuringInfra? && w.naming.name(w.pc.index) !in w.machines && w.naming.name(w.pc.index) !in w.infras
    then 1 else 0
  }

  predicate Highest(w: World, h: Name) {
    HighestDrifted(w.naming, w.machines, w.cp, h)
  }

  /** The live Machine's HypervisorMachine is fit and its etcd port published. */
  predicate Ready(w: World, h: Name) {
    h in w.machines && h in w.infras && Fits(w.machines[h], w.infras[h]) && w.infras[h].etcd
  }

  /** What the next Machine to be replaced still lacks: a port, a snapshot, its deletion. */
  function Stage(w: World, h: Name): int {
    if h in w.machines && w.machines[h].deleting then 0
    else if Matches(w.cp.replacement, h, w.cp.version) && !Snapshotting(w.pc) then 1
    else if Ready(w, h) then 2
    else 3
  }

  lemma {:induction false} HighestExists(w: World, names: set<Name>) returns (h: Name)
    requires names != {}
    ensures h in names && forall n | n in names :: Index(w.naming, n) <= Index(w.naming, h)
    decreases |names|
  {
    h :| h in names;
    if names - {h} != {} {
      var g := HighestExists(w, names - {h});
      if Index(w.naming, g) > Index(w.naming, h) { h := g; }
    }
  }

  lemma SomeHighest(w: World)
    requires Drifting(w) != {}
    ensures exists h :: Highest(w, h)
  {
    var h := HighestExists(w, Drifting(w));
    assert Highest(w, h);
  }

  ghost function Uncaptured(w: World): int {
    if Drifting(w) == {} then 0
    else
      SomeHighest(w);
      var h :| Highest(w, h);
      Stage(w, h)
  }

  function Leftover(w: World): int {
    2 * |Deleting(w.machines)| + |Unfit(w.machines, w.infras)| + Pending(w)
  }

  function Missing(w: World): int {
    2 * |Absent(w.naming, w.machines, w.cp)| + |Bare(w.naming, w.machines, w.infras, w.cp)|
  }

  datatype Measure = Measure(drifted: int, uncaptured: int, surplus: int, leftover: int, missing: int)

  ghost function Of(w: World): Measure {
    Measure(|Drifting(w)|, Uncaptured(w), |Surplus(w.naming, w.machines, w.cp)|, Leftover(w), Missing(w))
  }

  predicate Below(a: Measure, b: Measure) {
    || a.drifted < b.drifted
    || (a.drifted == b.drifted && (
          || a.uncaptured < b.uncaptured
          || (a.uncaptured == b.uncaptured && (
                || a.surplus < b.surplus
                || (a.surplus == b.surplus && (
                      || a.leftover < b.leftover
                      || (a.leftover == b.leftover && a.missing < b.missing)))))))
  }

  predicate AtMost(a: Measure, b: Measure) {
    a == b || Below(a, b)
  }

  // ---------------------------------------------------------------- the states of a run with a fixed spec

  /** A reconcile that found no drift. */
  predicate PastDrift(pc: Pc) {
    || pc.Checking? || pc.Clearing? || pc.Creating? || pc.CreatingConfig? || pc.CreatingMachine? || pc.EnsuringInfra?
    || pc.ScalingDown?
  }

  /** The world a reconcile with a fixed spec can rely on. For an idle one only the first two lines say anything. */
  ghost predicate Steady(w: World) {
    && RoundTrips(w.naming) && w.cp.version != "" && w.cp.Desired() < 0x8000_0000
    && (forall n, m | n in Drifting(w) && m in Drifting(w) && Index(w.naming, n) == Index(w.naming, m) :: n == m)
    && (!w.pc.Idle? ==> SameSpec(w.pc.cp, w.cp) && w.pc.cp.replacement == w.cp.replacement)
    && (PastDrift(w.pc) ==> Drifting(w) == {})
    && (w.pc.DeletingMachine? ==>
          Matches(w.cp.replacement, w.pc.name, w.cp.version) && (w.pc.name in w.machines ==> Highest(w, w.pc.name)))
    && (w.pc.DeletingConfig? || w.pc.DeletingInfra? ==> w.pc.name in w.machines ==> w.machines[w.pc.name].deleting)
    && (w.pc.Creating? ==> 0 <= w.pc.index)
    && (w.pc.CreatingConfig? || w.pc.CreatingMachine? || w.pc.EnsuringInfra? ==> 0 <= w.pc.index < w.cp.Desired())
    && (w.pc.CreatingConfig? || w.pc.CreatingMachine? ==>
          w.naming.name(w.pc.index) !in w.machines && w.naming.name(w.pc.index) !in w.infras)
    && (w.pc.EnsuringInfra? && w.naming.name(w.pc.index) in w.machines ==>
          w.machines[w.naming.name(w.pc.index)].uid == w.pc.uid)
  }

  /** The highest drifted Machine is unique, so its stage is the second part of the measure. */
  lemma UncapturedIs(w: World, h: Name)
    requires Steady(w) && Highest(w, h)
    ensures Uncaptured(w) == Stage(w, h)
  {
    assert forall g | Highest(w, g) :: g == h;
  }

  lemma SmallerSet<T>(a: set<T>, b: set<T>)
    requires a <= b
    ensures |a| <= |b| && (a != b ==> |a| < |b|)
  {
    assert a + (b - a) == b && a !! b - a;
    assert |b| == |a| + |b - a|;
    if a != b { assert b - a != {}; }
  }

  // ---------------------------------------------------------------- steps that leave all Machines alone

  ghost predicate Still(w: World, w': World) {
    w'.naming == w.naming && w'.machines == w.machines && w'.infras == w.infras && SameSpec(w'.cp, w.cp)
  }

  /** The parts of the measure speak of the spec, not of the record in the status. */
  lemma RecordIrrelevant(
    naming: Naming, machines: map<Name, Machine>, infras: map<Name, Infra>, a: CpObject, b: CpObject)
    requires SameSpec(a, b)
    ensures Candidates(naming, machines, a) == Candidates(naming, machines, b)
    ensures Surplus(naming, machines, a) == Surplus(naming, machines, b)
    ensures Replicas(naming, a) == Replicas(naming, b)
    ensures Bare(naming, machines, infras, a) == Bare(naming, machines, infras, b)
  {
    assert Replicas(naming, a) == Replicas(naming, b);
  }

  lemma StillMeasure(w: World, w': World)
    requires Steady(w) && Steady(w') && Still(w, w') && Pending(w') <= Pending(w)
    requires forall h | Highest(w, h) :: Stage(w', h) <= Stage(w, h)
    ensures AtMost(Of(w'), Of(w))
  {
    RecordIrrelevant(w.naming, w.machines, w.infras, w.cp, w'.cp);
    if Drifting(w) != {} {
      var h := HighestExists(w, Drifting(w));
      UncapturedIs(w, h);
      UncapturedIs(w', h);
    }
  }

  lemma UncapturedKept(w: World, w': World)
    requires Steady(w) && Steady(w') && w'.naming == w.naming && w'.machines == w.machines && w'.infras == w.infras
    requires w'.cp == w.cp && Snapshotting(w'.pc) == Snapshotting(w.pc)
    ensures Uncaptured(w') == Uncaptured(w)
  {
    if Drifting(w) != {} {
      var h := HighestExists(w, Drifting(w));
      UncapturedIs(w, h);
      UncapturedIs(w', h);
    }
  }

  /** Where a reconcile stands matters to the measure only while it takes a snapshot or creates a HypervisorMachine. */
  lemma PlaceIrrelevant(w: World, w': World)
    requires w'.naming == w.naming && w'.machines == w.machines && w'.infras == w.infras && w'.cp == w.cp
    requires Uncaptured(w') == Uncaptured(w) && Pending(w') == Pending(w)
    ensures Of(w') == Of(w)
  {
  }

  ghost predicate Fine(w: World, w': World) {
    Steady(w') && AtMost(Of(w'), Of(w))
  }

  /** The choice changes only where the reconcile stands, and starts no snapshot of a Machine already on record. */
  lemma ChoosingChanges(w: World, pick: Name)
    requires Steady(w) && w.pc.Choosing?
    ensures var w' := Choose(w, w.pc.cp, pick);
      && w' == w.(pc := w'.pc) && w'.pc.cp == w.pc.cp && (PastDrift(w'.pc) ==> Drifting(w) == {})
      && (w'.pc.Choosing? || w'.pc.Checking? || w'.pc == Creating(w.pc.cp, 0)
          || (w'.pc.Capturing? && Highest(w, w'.pc.name) && !Matches(w.cp.replacement, w'.pc.name, w.cp.version))
          || (w'.pc.DeletingMachine? && Highest(w, w'.pc.name) && Matches(w.cp.replacement, w'.pc.name, w.cp.version)))
  {
    RecordIrrelevant(w.naming, w.machines, w.infras, w.cp, w.pc.cp);
  }

  lemma ChoosingFine(w: World, pick: Name, data: string)
    requires Steady(w) && w.pc.Choosing?
    ensures Fine(w, Advance(w, pick, data))
  {
    var w' := Choose(w, w.pc.cp, pick);
    ChoosingChanges(w, pick);
    StillMeasure(w, w');
  }

  /** Steps of the drift path that leave Machines, HypervisorMachines and the control plane object alone. */
  lemma DriftStepsSteady(w: World, data: string)
    requires Steady(w)
    ensures w.pc.Capturing? ==> Steady(Capture(w, w.pc.cp, w.pc.name, data))
    ensures w.pc.Writing? ==> Steady(WriteFile(w, w.pc.cp, w.pc.name, w.pc.snapshot))
    ensures w.pc.DeletingConfig? ==> Steady(DeleteConfig(w, w.pc.cp, w.pc.name))
  {
  }

  lemma CapturingFine(w: World, data: string)
    requires Steady(w) && w.pc.Capturing?
    ensures Fine(w, Capture(w, w.pc.cp, w.pc.name, data))
  {
    DriftStepsSteady(w, data);
    StillMeasure(w, Capture(w, w.pc.cp, w.pc.name, data));
  }

  lemma WritingFine(w: World)
    requires Steady(w) && w.pc.Writing?
    ensures Fine(w, WriteFile(w, w.pc.cp, w.pc.name, w.pc.snapshot))
  {
    DriftStepsSteady(w, "");
    StillMeasure(w, WriteFile(w, w.pc.cp, w.pc.name, w.pc.snapshot));
  }

  lemma RecordingSteady(w: World)
    requires Steady(w) && w.pc.Recording?
    ensures Steady(RecordReplacement(w, w.pc.cp, w.pc.name))
  {
    RecordIrrelevant(w.naming, w.machines, w.infras, w.cp, RecordReplacement(w, w.pc.cp, w.pc.name).cp);
  }

  lemma RecordingFine(w: World)
    requires Steady(w) && w.pc.Recording?
    ensures Fine(w, RecordReplacement(w, w.pc.cp, w.pc.name))
  {
    RecordingSteady(w);
    StillMeasure(w, RecordReplacement(w, w.pc.cp, w.pc.name));
  }

  lemma CheckingFine(w: World, pick: Name, data: string)
    requires Steady(w) && w.pc.Checking?
    ensures Fine(w, Advance(w, pick, data))
  {
    StillMeasure(w, Check(w, w.pc.cp));
  }

  lemma ClearingFine(w: World, pick: Name, data: string)
    requires Steady(w) && w.pc.Clearing?
    ensures Fine(w, Advance(w, pick, data))
  {
    var w' := ClearReplacement(w, w.pc.cp);
    RecordIrrelevant(w.naming, w.machines, w.infras, w.cp, w'.cp);
    StillMeasure(w, w');
  }

  lemma LoopingFine(w: World, pick: Name, data: string)
    requires Steady(w) && w.pc.Creating?
    ensures Fine(w, Advance(w, pick, data))
  {
    StillMeasure(w, CreateNext(w, w.pc.cp, w.pc.index));
  }

  lemma DeletingConfigFine(w: World)
    requires Steady(w) && w.pc.DeletingConfig?
    ensures Fine(w, DeleteConfig(w, w.pc.cp, w.pc.name))
  {
    DriftStepsSteady(w, "");
    StillMeasure(w, DeleteConfig(w, w.pc.cp, w.pc.name));
  }

  lemma CreatingConfigFine(w: World, pick: Name, data: string)
    requires Steady(w) && w.pc.CreatingConfig?
    ensures Fine(w, Advance(w, pick, data))
  {
    StillMeasure(w, CreateConfig(w, w.pc.cp, w.pc.index));
  }

  lemma StartingFine(w: World)
    requires Steady(w) && w.pc.Idle?
    ensures Fine(w, w.(pc := Choosing(w.cp)))
  {
    StillMeasure(w, w.(pc := Choosing(w.cp)));
  }

  lemma CrashFine(w: World)
    requires Steady(w)
    ensures Fine(w, w.(pc := Idle))
  {
    StillMeasure(w, w.(pc := Idle));
  }

  lemma TearFine(w: World, data: string)
    requires Steady(w)
    ensures Fine(w, Tear(w, data))
  {
    StillMeasure(w, Tear(w, data));
  }

  lemma DropConfigFine(w: World, n: Name)
    requires Steady(w)
    ensures Fine(w, DropConfig(w, n))
  {
    StillMeasure(w, DropConfig(w, n));
  }

  // ---------------------------------------------------------------- steps on Machines

  lemma DeletingSteady(w: World)
    requires Steady(w) && w.pc.DeletingMachine? && w.pc.name in w.machines
    ensures var w' := DeleteMachine(w, w.pc.cp, w.pc.name);
      Steady(w') && Drifting(w') == Drifting(w) && Highest(w', w.pc.name)
  {
    var w' := DeleteMachine(w, w.pc.cp, w.pc.name);
    assert Drifting(w') == Drifting(w);
  }

  lemma DeletingFine(w: World, pick: Name, data: string)
    requires Steady(w) && w.pc.DeletingMachine?
    ensures Fine(w, Advance(w, pick, data))
    ensures w.pc.name in w.machines && !w.machines[w.pc.name].deleting ==> Below(Of(Advance(w, pick, data)), Of(w))
  {
    var n := w.pc.name;
    var w' := DeleteMachine(w, w.pc.cp, n);
    if n !in w.machines || w.machines[n].deleting {
      assert w'.machines == w.machines;
      StillMeasure(w, w');
    } else {
      DeletingSteady(w);
      UncapturedIs(w, n);
      UncapturedIs(w', n);
    }
  }

  lemma ScalingSteady(w: World, pick: Name)
    requires Steady(w) && w.pc.ScalingDown?
    ensures var w' := ScaleDown(w, w.pc.cp, w.pc.todo, pick); Steady(w') && Drifting(w') == {}
  {
    var w' := ScaleDown(w, w.pc.cp, w.pc.todo, pick);
    assert Drifting(w') == {};
  }

  lemma ScaledSets(naming: Naming, machines: map<Name, Machine>, cp: CpObject, n: Name)
    requires n in Surplus(naming, machines, cp)
    ensures Surplus(naming, MarkMachine(machines, n), cp) == Surplus(naming, machines, cp) - {n}
  {
  }

  lemma ScalingFine(w: World, pick: Name, data: string)
    requires Steady(w) && w.pc.ScalingDown?
    ensures Fine(w, Advance(w, pick, data))
    ensures pick in w.pc.todo && pick in Surplus(w.naming, w.machines, w.cp) ==>
      Below(Of(Advance(w, pick, data)), Of(w))
  {
    var w' := ScaleDown(w, w.pc.cp, w.pc.todo, pick);
    assert Advance(w, pick, data) == w';
    ScalingSteady(w, pick);
    if pick in w.pc.todo && pick in Surplus(w.naming, w.machines, w.cp) {
      ScaledSets(w.naming, w.machines, w.cp, pick);
      SurplusLower(w, w');
    } else {
      assert w'.machines == w.machines;
      StillMeasure(w, w');
    }
  }

  lemma NameIsManaged(w: World, i: int)
    requires Steady(w) && 0 <= i < w.cp.Desired()
    ensures Managed(w.naming, w.naming.name(i), w.cp) && Index(w.naming, w.naming.name(i)) == i
    ensures w.naming.name(i) in Replicas(w.naming, w.cp) && !IsSurplus(w.naming, w.naming.name(i), w.cp)
  {
    assert w.naming.index(w.naming.name(i)) == Some(i);
  }

  /** What a new Machine changes. */
  lemma CreatedSets(
    naming: Naming, machines: map<Name, Machine>, infras: map<Name, Infra>, cp: CpObject, n: Name, m: Machine)
    requires n !in machines && n !in infras && n in Replicas(naming, cp) && !IsSurplus(naming, n, cp)
    requires !m.deleting && m.version == cp.version
    ensures var machines' := machines[n := m];
      && Candidates(naming, machines', cp) == Candidates(naming, machines, cp)
      && Surplus(naming, machines', cp) == Surplus(naming, machines, cp)
      && Deleting(machines') == Deleting(machines) && Unfit(machines', infras) == Unfit(machines, infras)
      && Absent(naming, machines', cp) == Absent(naming, machines, cp) - {n} && n in Absent(naming, machines, cp)
      && Bare(naming, machines', infras, cp) == Bare(naming, machines, infras, cp) + {n}
  {
    var machines' := machines[n := m];
    assert Unfit(machines', infras) == Unfit(machines, infras);
    assert Bare(naming, machines', infras, cp) == Bare(naming, machines, infras, cp) + {n};
  }

  lemma CreatingSteady(w: World)
    requires Steady(w) && w.pc.CreatingMachine?
    requires Drifting(CreateMachine(w, w.pc.cp, w.pc.index)) == {}
    ensures Steady(CreateMachine(w, w.pc.cp, w.pc.index))
  {
  }

  lemma CreatingNumbers(w: World, n: Name)
    requires w.pc.CreatingMachine? && n == w.naming.name(w.pc.index) && SameSpec(w.pc.cp, w.cp)
    requires n !in w.machines && n !in w.infras && n in Replicas(w.naming, w.cp) && !IsSurplus(w.naming, n, w.cp)
    ensures var w' := CreateMachine(w, w.pc.cp, w.pc.index);
      && Drifting(w') == Drifting(w) && Surplus(w'.naming, w'.machines, w'.cp) == Surplus(w.naming, w.machines, w.cp)
      && Leftover(w') == Leftover(w) && Missing(w') < Missing(w)
  {
    CreatedSets(w.naming, w.machines, w.infras, w.cp, n, Machine(w.nextUid, w.cp.version, false));
  }

  lemma CreatingFine(w: World, pick: Name, data: string)
    requires Steady(w) && w.pc.CreatingMachine?
    ensures Fine(w, Advance(w, pick, data)) && Below(Of(Advance(w, pick, data)), Of(w))
  {
    var w' := CreateMachine(w, w.pc.cp, w.pc.index);
    assert Advance(w, pick, data) == w';
    NameIsManaged(w, w.pc.index);
    CreatingNumbers(w, w.naming.name(w.pc.index));
    CreatingSteady(w);
    MissingLower(w, w');
  }

  /** Past drift, one of the last three parts decides. */
  lemma MissingLower(w: World, w': World)
    requires Drifting(w) == {} && Drifting(w') == {}
    requires Surplus(w'.naming, w'.machines, w'.cp) == Surplus(w.naming, w.machines, w.cp)
    requires Leftover(w') == Leftover(w) && Missing(w') < Missing(w)
    ensures Below(Of(w'), Of(w))
  {
  }

  lemma SurplusLower(w: World, w': World)
    requires Drifting(w) == {} && Drifting(w') == {}
    requires |Surplus(w'.naming, w'.machines, w'.cp)| < |Surplus(w.naming, w.machines, w.cp)|
    ensures Below(Of(w'), Of(w))
  {
  }

  /** What a reclaimed Machine changes. */
  lemma DroppedSets(naming: Naming, machines: map<Name, Machine>, infras: map<Name, Infra>, cp: CpObject, n: Name)
    requires n in machines && machines[n].deleting && n !in infras
    ensures var machines' := machines - {n};
      && Candidates(naming, machines', cp) == Candidates(naming, machines, cp) - {n}
      && Surplus(naming, machines', cp) == Surplus(naming, machines, cp)
      && Deleting(machines') == Deleting(machines) - {n} && n in Deleting(machines)
      && Unfit(machines', infras) == Unfit(machines, infras)
  {
    var machines' := machines - {n};
    assert Unfit(machines', infras) == Unfit(machines, infras);
  }

  lemma DropMachineSteady(w: World, n: Name)
    requires Steady(w)
    ensures Steady(DropMachine(w, n)) && Drifting(DropMachine(w, n)) <= Drifting(w)
  {
    var w' := DropMachine(w, n);
    assert Drifting(w') <= Drifting(w);
  }

  /** Without the highest drifted Machine going, what it lacks stays the same. */
  lemma DropMachineStage(w: World, n: Name)
    requires Steady(w) && Steady(DropMachine(w, n)) && Drifting(DropMachine(w, n)) == Drifting(w)
    ensures Uncaptured(DropMachine(w, n)) == Uncaptured(w)
  {
    if Drifting(w) != {} {
      var h := HighestExists(w, Drifting(w));
      UncapturedIs(w, h);
      UncapturedIs(DropMachine(w, n), h);
    }
  }

  lemma DropMachineNumbers(w: World, n: Name)
    requires n in w.machines && w.machines[n].deleting && n !in w.configs && n !in w.infras
    ensures var w' := DropMachine(w, n);
      && Drifting(w') == Drifting(w) - {n}
      && Surplus(w'.naming, w'.machines, w'.cp) == Surplus(w.naming, w.machines, w.cp) && Leftover(w') < Leftover(w)
  {
    DroppedSets(w.naming, w.machines, w.infras, w.cp, n);
  }

  lemma DropMachineFine(w: World, n: Name)
    requires Steady(w)
    ensures Fine(w, DropMachine(w, n))
    ensures DropMachine(w, n) != w ==> Below(Of(DropMachine(w, n)), Of(w))
  {
    if n in w.machines && w.machines[n].deleting && n !in w.configs && n !in w.infras {
      DropMachineSteady(w, n);
      DropMachineNumbers(w, n);
      if n !in Drifting(w) { DropMachineStage(w, n); }
    } else {
      assert DropMachine(w, n) == w;
    }
  }

  // ---------------------------------------------------------------- steps on HypervisorMachines

  /** The Machines stay, and so does what the next one to be replaced lacks. */
  lemma InfraMeasure(w: World, w': World)
    requires Steady(w) && Steady(w') && w'.naming == w.naming && w'.machines == w.machines && w'.cp == w.cp
    requires forall h | Highest(w, h) :: Stage(w', h) <= Stage(w, h)
    requires Leftover(w') < Leftover(w) || (Leftover(w') == Leftover(w) && Missing(w') <= Missing(w))
    ensures AtMost(Of(w'), Of(w))
    ensures Leftover(w') < Leftover(w) || Missing(w') < Missing(w) ==> Below(Of(w'), Of(w))
  {
    if Drifting(w) != {} {
      var h := HighestExists(w, Drifting(w));
      UncapturedIs(w, h);
      UncapturedIs(w', h);
    }
  }

  /** HypervisorMachines keep their names and stay as fit or unfit as they were. */
  lemma MarkedMeasure(w: World, w': World)
    requires Steady(w) && Steady(w') && w'.naming == w.naming && w'.machines == w.machines && w'.cp == w.cp
    requires w'.infras.Keys == w.infras.Keys && Unfit(w'.machines, w'.infras) == Unfit(w.machines, w.infras)
    requires Pending(w') <= Pending(w) && forall h | Highest(w, h) :: Stage(w', h) <= Stage(w, h)
    ensures AtMost(Of(w'), Of(w))
  {
    assert Bare(w'.naming, w'.machines, w'.infras, w'.cp) == Bare(w.naming, w.machines, w.infras, w.cp);
    InfraMeasure(w, w');
  }

  lemma CascadeFine(w: World, n: Name)
    requires Steady(w)
    ensures Fine(w, CascadeDeletion(w, n))
  {
    MarkedMeasure(w, CascadeDeletion(w, n));
  }

  lemma CollectFine(w: World, n: Name)
    requires Steady(w)
    ensures Fine(w, CollectInfra(w, n))
  {
    MarkedMeasure(w, CollectInfra(w, n));
  }

  /** The HypervisorMachine of a deleted Machine is marked: it was unfit already, or does not count. */
  lemma DeletingInfraSteady(w: World)
    requires Steady(w) && w.pc.DeletingInfra?
    ensures var w' := DeleteInfra(w, w.pc.cp, w.pc.name);
      Steady(w') && Unfit(w'.machines, w'.infras) == Unfit(w.machines, w.infras)
  {
  }

  lemma DeletingInfraFine(w: World)
    requires Steady(w) && w.pc.DeletingInfra?
    ensures Fine(w, DeleteInfra(w, w.pc.cp, w.pc.name))
  {
    DeletingInfraSteady(w);
    MarkedMeasure(w, DeleteInfra(w, w.pc.cp, w.pc.name));
  }

  lemma PublishFine(w: World, n: Name)
    requires Steady(w)
    ensures Fine(w, Publish(w, n))
  {
    MarkedMeasure(w, Publish(w, n));
  }

  /** What a new HypervisorMachine changes: it fits the Machine it is created for, if that still exists. */
  lemma EnsuredSets(
    naming: Naming, machines: map<Name, Machine>, infras: map<Name, Infra>, cp: CpObject, n: Name, uid: int)
    requires n !in infras && (n in machines ==> machines[n].uid == uid)
    ensures var infras' := infras[n := Infra(uid, false, false)];
      && Unfit(machines, infras') == (if n in machines then Unfit(machines, infras) else Unfit(machines, infras) + {n})
      && Bare(naming, machines, infras', cp) == Bare(naming, machines, infras, cp) - {n}
  {
    var infras' := infras[n := Infra(uid, false, false)];
    assert Bare(naming, machines, infras', cp) == Bare(naming, machines, infras, cp) - {n};
  }

  lemma EnsuringNumbers(w: World, n: Name)
    requires w.pc.EnsuringInfra? && n == w.naming.name(w.pc.index) && n !in w.infras
    requires n in w.machines ==> w.machines[n].uid == w.pc.uid
    ensures var w' := EnsureInfra(w, w.pc.cp, w.pc.index, w.pc.uid);
      && Leftover(w') == Leftover(w) && Missing(w') <= Missing(w)
      && (n in Bare(w.naming, w.machines, w.infras, w.cp) ==> Missing(w') < Missing(w))
  {
    var bare, unfit := Bare(w.naming, w.machines, w.infras, w.cp), Unfit(w.machines, w.infras);
    EnsuredSets(w.naming, w.machines, w.infras, w.cp, n, w.pc.uid);
    SmallerSet(bare - {n}, bare);
    var w' := EnsureInfra(w, w.pc.cp, w.pc.index, w.pc.uid);
    if n in w.machines {
      assert Unfit(w'.machines, w'.infras) == unfit;
    } else {
      assert n !in unfit && Unfit(w'.machines, w'.infras) == unfit + {n};
    }
  }

  lemma EnsuringSteady(w: World)
    requires Steady(w) && w.pc.EnsuringInfra?
    ensures Steady(EnsureInfra(w, w.pc.cp, w.pc.index, w.pc.uid))
  {
  }

  lemma EnsuringFine(w: World, pick: Name, data: string)
    requires Steady(w) && w.pc.EnsuringInfra?
    ensures Fine(w, Advance(w, pick, data))
    ensures w.naming.name(w.pc.index) in Bare(w.naming, w.machines, w.infras, w.cp) ==>
      Below(Of(Advance(w, pick, data)), Of(w))
  {
    var n := w.naming.name(w.pc.index);
    var w' := EnsureInfra(w, w.pc.cp, w.pc.index, w.pc.uid);
    EnsuringSteady(w);
    if n in w.infras {
      StillMeasure(w, w');
    } else {
      EnsuringNumbers(w, n);
      InfraMeasure(w, w');
    }
  }

  /** What a reclaimed HypervisorMachine changes. */
  lemma UninfraedSets(naming: Naming, machines: map<Name, Machine>, infras: map<Name, Infra>, cp: CpObject, n: Name)
    requires n in infras
    ensures var infras' := infras - {n};
      && Unfit(machines, infras') == Unfit(machines, infras) - {n}
      && (n !in machines || machines[n].deleting ==>
          Bare(naming, machines, infras', cp) == Bare(naming, machines, infras, cp))
  {
    var infras' := infras - {n};
    if !(n in machines && !machines[n].deleting) {
      assert Bare(naming, machines, infras', cp) == Bare(naming, machines, infras, cp);
    }
  }

  lemma DropInfraNumbers(w: World, n: Name)
    requires n in w.infras && w.infras[n].deleting
    ensures var w' := DropInfra(w, n);
      && (Leftover(w') < Leftover(w) || (Leftover(w') == Leftover(w) && Missing(w') == Missing(w)))
      && (w.pc.Idle? && n in Unfit(w.machines, w.infras) ==> Leftover(w') < Leftover(w))
  {
    UninfraedSets(w.naming, w.machines, w.infras, w.cp, n);
  }

  lemma DropInfraSteady(w: World, n: Name)
    requires Steady(w)
    ensures Steady(DropInfra(w, n))
  {
  }

  lemma DropInfraFine(w: World, n: Name)
    requires Steady(w)
    ensures Fine(w, DropInfra(w, n))
    ensures w.pc.Idle? && n in Unfit(w.machines, w.infras) && w.infras[n].deleting ==> Below(Of(DropInfra(w, n)), Of(w))
  {
    if n in w.infras && w.infras[n].deleting {
      DropInfraSteady(w, n);
      DropInfraNumbers(w, n);
      InfraMeasure(w, DropInfra(w, n));
    } else {
      assert DropInfra(w, n) == w;
    }
  }

  // ---------------------------------------------------------------- every move

  lemma DriftStepsFine(w: World, pick: Name, data: string)
    requires Steady(w) && !w.pc.Idle? && !PastDrift(w.pc)
    ensures Fine(w, Advance(w, pick, data))
  {
    match w.pc
    case Choosing(_) => ChoosingFine(w, pick, data);
    case Capturing(_, _) => CapturingFine(w, data);
    case Writing(_, _, _) => WritingFine(w);
    case Recording(_, _) => RecordingFine(w);
    case DeletingMachine(_, _) => DeletingFine(w, pick, data);
    case DeletingConfig(_, _) => DeletingConfigFine(w);
    case DeletingInfra(_, _) => DeletingInfraFine(w);
  }

  lemma CreationStepsFine(w: World, pick: Name, data: string)
    requires Steady(w) && PastDrift(w.pc)
    ensures Fine(w, Advance(w, pick, data))
  {
    match w.pc
    case Checking(_) => CheckingFine(w, pick, data);
    case Clearing(_) => ClearingFine(w, pick, data);
    case Creating(_, _) => LoopingFine(w, pick, data);
    case CreatingConfig(_, _) => CreatingConfigFine(w, pick, data);
    case CreatingMachine(_, _) => CreatingFine(w, pick, data);
    case EnsuringInfra(_, _, _) => EnsuringFine(w, pick, data);
    case ScalingDown(_, _) => ScalingFine(w, pick, data);
  }

  lemma ReclaimsFine(w: World, n: Name)
    requires Steady(w)
    ensures Fine(w, DropConfig(w, n)) && Fine(w, DropInfra(w, n)) && Fine(w, DropMachine(w, n))
  {
    DropConfigFine(w, n);
    DropInfraFine(w, n);
    DropMachineFine(w, n);
  }

  lemma MarksFine(w: World, n: Name)
    requires Steady(w)
    ensures Fine(w, Publish(w, n)) && Fine(w, CascadeDeletion(w, n)) && Fine(w, CollectInfra(w, n))
  {
    PublishFine(w, n);
    CascadeFine(w, n);
    CollectFine(w, n);
  }

  lemma EnvironmentFine(w: World, move: Move)
    requires Steady(w) && !move.Go? && !move.SetSpec?
    ensures Fine(w, Next(w, move))
  {
    if move.Crash? {
      CrashFine(w);
    } else if move.TornWrite? {
      TearFine(w, move.data);
    } else {
      MarksFine(w, move.name);
      ReclaimsFine(w, move.name);
    }
  }

  lemma MoveFine(w: World, move: Move)
    requires Steady(w)
    ensures Fine(w, NextFixed(w, move))
  {
    if move.SetSpec? {
    } else if !move.Go? {
      EnvironmentFine(w, move);
    } else if w.pc.Idle? {
      StartingFine(w);
    } else if PastDrift(w.pc) {
      CreationStepsFine(w, move.pick, move.data);
    } else {
      DriftStepsFine(w, move.pick, move.data);
    }
  }

  lemma AtMostTransitive(a: Measure, b: Measure, c: Measure)
    requires AtMost(a, b) && AtMost(b, c)
    ensures AtMost(a, c) && (Below(a, b) || Below(b, c) ==> Below(a, c))
  {
  }

  /**
    While the spec stays fixed, no run raises the measure: not by crashes, torn writes, partial teardowns or
    reconciles that overlap a deletion.
  */
  lemma {:induction false} MeasureNeverRises(w: World, moves: seq<Move>)
    requires Steady(w)
    ensures Steady(Runs.Exec(NextFixed, w, moves)) && AtMost(Of(Runs.Exec(NextFixed, w, moves)), Of(w))
    decreases |moves|
  {
    if moves != [] {
      var w' := NextFixed(w, moves[0]);
      MoveFine(w, moves[0]);
      MeasureNeverRises(w', moves[1..]);
      AtMostTransitive(Of(Runs.Exec(NextFixed, w, moves)), Of(w'), Of(w));
    }
  }
}
