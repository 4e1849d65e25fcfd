/**
  The HypervisorControlPlane reconciler as a transition system. One value of `World` holds the
  API objects the reconciler reads and writes, the snapshot directory, and where the running
  reconcile stands. A `Move` is one atomic effect of the reconciler, a crash, or a step of the
  environment, so a sequence of moves is an interleaving of them all.
*/
module ControlPlane {
  import opened Common
  import opened Names
  import Runs

  type Version = string
  type Name = string

  /**
    The file `<state-dir>/<cluster>/snapshots/<machine>-<version>.db`; Names.SnapshotFileNameInjective
    justifies the pair.
  */
  datatype Path = SnapshotFile(machine: Name, version: Version)

  /** File contents, tagged with the Machine (by uid) whose etcd they were captured from. */
  datatype Snapshot = Snapshot(data: string, source: int)

  datatype Replacement = Replacement(machine: Name, target: Version, path: Path)

  datatype CpObject = CpObject(version: Version, replicas: int, replacement: Option<Replacement>) {
    function Desired(): int { if replicas < 1 then 1 else replicas }
  }

  datatype Machine = Machine(uid: int, version: Version, deleting: bool)

  /** The HypervisorConfig of a Machine, stored under the Machine's name. */
  datatype Config = Config(snapshot: Option<Path>, deleting: bool)

  /** The HypervisorMachine of a Machine: its owner, and whether its etcd port is published. */
  datatype Infra = Infra(owner: int, etcd: bool, deleting: bool)

  /** Where a reconcile stands. Every active state carries the control plane object read at its start. */
  datatype Pc =
    | Idle
    | Choosing(cp: CpObject)
    | Capturing(cp: CpObject, name: Name)
    | Writing(cp: CpObject, name: Name, snapshot: Snapshot)
    | Recording(cp: CpObject, name: Name)
    | DeletingMachine(cp: CpObject, name: Name)
    | DeletingConfig(cp: CpObject, name: Name)
    | DeletingInfra(cp: CpObject, name: Name)
    | Checking(cp: CpObject)
    | Clearing(cp: CpObject)
    | Creating(cp: CpObject, index: int)
    | CreatingConfig(cp: CpObject, index: int)
    | CreatingMachine(cp: CpObject, index: int)
    | EnsuringInfra(cp: CpObject, index: int, uid: int)
    | ScalingDown(cp: CpObject, todo: set<Name>)

  /** History: one deletion issued by the drift path, with what was on record at that moment. */
  datatype Drop = Drop(
    name: Name, machine: Machine, target: Version, recorded: Option<Replacement>, saved: Option<Snapshot>)

  /** History: one Machine creation, with the bootstrap config it starts from and that config's snapshot file. */
  datatype Birth = Birth(
    name: Name, uid: int, version: Version, predecessor: Option<int>, restore: Option<Path>, saved: Option<Snapshot>)

  datatype World = World(
    naming: Naming,
    cp: CpObject,
    machines: map<Name, Machine>,
    configs: map<Name, Config>,
    infras: map<Name, Infra>,
    disk: map<Path, Snapshot>,
    nextUid: int,
    pc: Pc,
    // history
    owed: map<Name, int>,
    drops: seq<Drop>,
    births: seq<Birth>)

  datatype Move =
    | Go(pick: Name, data: string)
    | Crash
    | TornWrite(data: string)
    | SetSpec(version: Version, replicas: int)
    | PublishEtcd(name: Name)
    | Cascade(name: Name)
    | Collect(name: Name)
    | ReclaimConfig(name: Name)
    | ReclaimInfra(name: Name)
    | ReclaimMachine(name: Name)

  predicate Drifted(machine: Machine, desired: Version) {
    machine.version != "" && machine.version != desired
  }

  predicate Managed(naming: Naming, n: Name, cp: CpObject) {
    var index := naming.index(n);
    index.Some? && index.value < cp.Desired()
  }

  predicate IsSurplus(naming: Naming, n: Name, cp: CpObject) {
    var index := naming.index(n);
    index.Some? && index.value >= cp.Desired()
  }

  /** The Machines the drift path may replace. */
  function Candidates(naming: Naming, machines: map<Name, Machine>, cp: CpObject): set<Name> {
    set n | n in machines && Drifted(machines[n], cp.version) && Managed(naming, n, cp)
  }

  function Index(naming: Naming, n: Name): int {
    var index := naming.index(n);
    if index.Some? then index.value else 0
  }

  predicate HighestDrifted(naming: Naming, machines: map<Name, Machine>, cp: CpObject, n: Name) {
    && n in Candidates(naming, machines, cp)
    && forall c | c in Candidates(naming, machines, cp) :: Index(naming, c) <= Index(naming, n)
  }

  predicate Matches(replacement: Option<Replacement>, n: Name, target: Version) {
    replacement.Some? && replacement.value.machine == n && replacement.value.target == target
  }

  // ---------------------------------------------------------------- reconciler steps

  function Choose(w: World, cp: CpObject, pick: Name): World {
    w.(pc :=
         if cp.version == "" then Creating(cp, 0)
         else if Candidates(w.naming, w.machines, cp) == {} then
           if cp.replacement.Some? then Checking(cp) else Creating(cp, 0)
         else if !HighestDrifted(w.naming, w.machines, cp, pick) then w.pc
         else if Matches(cp.replacement, pick, cp.version) then DeletingMachine(cp, pick)
         else Capturing(cp, pick))
  }

  function Capture(w: World, cp: CpObject, n: Name, data: string): World {
    w.(pc := if n in w.infras && w.infras[n].etcd && data != ""
             then Writing(cp, n, Snapshot(data, w.infras[n].owner)) else Idle)
  }

  function WriteFile(w: World, cp: CpObject, n: Name, snapshot: Snapshot): World {
    w.(disk := w.disk[SnapshotFile(n, cp.version) := snapshot], pc := Recording(cp, n))
  }

  function RecordReplacement(w: World, cp: CpObject, n: Name): World {
    w.(cp := w.cp.(replacement := Some(Replacement(n, cp.version, SnapshotFile(n, cp.version)))), pc := Idle)
  }

  function MarkMachine(machines: map<Name, Machine>, n: Name): map<Name, Machine> {
    if n in machines then machines[n := machines[n].(deleting := true)] else machines
  }

  function MarkConfig(configs: map<Name, Config>, n: Name): map<Name, Config> {
    if n in configs then configs[n := configs[n].(deleting := true)] else configs
  }

  function MarkInfra(infras: map<Name, Infra>, n: Name): map<Name, Infra> {
    if n in infras then infras[n := infras[n].(deleting := true)] else infras
  }

  function DropOf(w: World, cp: CpObject, n: Name): Drop
    requires n in w.machines
  {
    Drop(n, w.machines[n], cp.version, w.cp.replacement, Get(w.disk, SnapshotFile(n, cp.version)))
  }

  function DeleteMachine(w: World, cp: CpObject, n: Name): World {
    w.(machines := MarkMachine(w.machines, n),
       owed := if n in w.machines then w.owed[n := w.machines[n].uid] else w.owed,
       drops := if n in w.machines then w.drops + [DropOf(w, cp, n)] else w.drops,
       pc := DeletingConfig(cp, n))
  }

  function DeleteConfig(w: World, cp: CpObject, n: Name): World {
    w.(configs := MarkConfig(w.configs, n), pc := DeletingInfra(cp, n))
  }

  function DeleteInfra(w: World, cp: CpObject, n: Name): World {
    w.(infras := MarkInfra(w.infras, n), pc := Idle)
  }

  function Check(w: World, cp: CpObject): World {
    w.(pc := if cp.replacement.Some? && cp.replacement.value.machine in w.machines
                && !Drifted(w.machines[cp.replacement.value.machine], cp.version)
             then Clearing(cp) else Creating(cp, 0))
  }

  function ClearReplacement(w: World, cp: CpObject): World {
    w.(cp := w.cp.(replacement := None), pc := Creating(cp.(replacement := None), 0))
  }

  /** The head of the creation loop. A Machine found absent stays absent until this reconcile creates it. */
  function CreateNext(w: World, cp: CpObject, i: int): World {
    var n := w.naming.name(i);
    w.(pc := if i >= cp.Desired() then ScalingDown(cp, w.machines.Keys)
             else if n in w.machines then EnsuringInfra(cp, i, w.machines[n].uid)
             else if n in w.infras then Idle
             else CreatingConfig(cp, i))
  }

  function CreateConfig(w: World, cp: CpObject, i: int): World {
    var n := w.naming.name(i);
    w.(configs := if n in w.configs then w.configs else w.configs[n := Config(RestorePath(cp, n), false)],
       pc := CreatingMachine(cp, i))
  }

  /** A replacement Machine restores the snapshot recorded for it and for the version it is created at. */
  function RestorePath(cp: CpObject, n: Name): Option<Path> {
    if Matches(cp.replacement, n, cp.version) then Some(cp.replacement.value.path) else None
  }

  function BirthOf(w: World, cp: CpObject, n: Name): Birth {
    var restore := if n in w.configs then w.configs[n].snapshot else None;
    Birth(n, w.nextUid, cp.version, Get(w.owed, n), restore, if restore.Some? then Get(w.disk, restore.value) else None)
  }

  function CreateMachine(w: World, cp: CpObject, i: int): World {
    var n := w.naming.name(i);
    var present := n in w.machines;
    w.(machines := if present then w.machines else w.machines[n := Machine(w.nextUid, cp.version, false)],
       nextUid := if present then w.nextUid else w.nextUid + 1,
       births := if present then w.births else w.births + [BirthOf(w, cp, n)],
       owed := if present then w.owed else w.owed - {n},
       pc := if present then Idle else EnsuringInfra(cp, i, w.nextUid))
  }

  function EnsureInfra(w: World, cp: CpObject, i: int, uid: int): World {
    var n := w.naming.name(i);
    w.(infras := if n in w.infras then w.infras else w.infras[n := Infra(uid, false, false)], pc := Creating(cp, i + 1))
  }

  /** One element of the scale-down loop over the listed Machines. */
  function ScaleDown(w: World, cp: CpObject, todo: set<Name>, pick: Name): World {
    w.(machines := if pick in todo && IsSurplus(w.naming, pick, cp) then MarkMachine(w.machines, pick) else w.machines,
       pc := if todo == {} then Idle else if pick in todo then ScalingDown(cp, todo - {pick}) else w.pc)
  }

  function Advance(w: World, pick: Name, data: string): World {
    match w.pc
    case Idle => w.(pc := Choosing(w.cp))
    case Choosing(cp) => Choose(w, cp, pick)
    case Capturing(cp, n) => Capture(w, cp, n, data)
    case Writing(cp, n, snapshot) => WriteFile(w, cp, n, snapshot)
    case Recording(cp, n) => RecordReplacement(w, cp, n)
    case DeletingMachine(cp, n) => DeleteMachine(w, cp, n)
    case DeletingConfig(cp, n) => DeleteConfig(w, cp, n)
    case DeletingInfra(cp, n) => DeleteInfra(w, cp, n)
    case Checking(cp) => Check(w, cp)
    case Clearing(cp) => ClearReplacement(w, cp)
    case Creating(cp, i) => CreateNext(w, cp, i)
    case CreatingConfig(cp, i) => CreateConfig(w, cp, i)
    case CreatingMachine(cp, i) => CreateMachine(w, cp, i)
    case EnsuringInfra(cp, i, uid) => EnsureInfra(w, cp, i, uid)
    case ScalingDown(cp, todo) => ScaleDown(w, cp, todo, pick)
  }

  // ---------------------------------------------------------------- environment steps

  function ChangeSpec(w: World, version: Version, replicas: int): World {
    w.(cp := w.cp.(version := version, replicas := replicas))
  }

  /** A torn write leaves any contents, the empty file included. */
  function Tear(w: World, data: string): World {
    w.(disk := if w.pc.Writing?
               then w.disk[SnapshotFile(w.pc.name, w.pc.cp.version) := Snapshot(data, w.pc.snapshot.source)]
               else w.disk,
       pc := Idle)
  }

  function Publish(w: World, n: Name): World {
    w.(infras := if n in w.infras then w.infras[n := w.infras[n].(etcd := true)] else w.infras)
  }

  /** Cluster API deletes the config and the HypervisorMachine of a Machine under deletion. */
  function CascadeDeletion(w: World, n: Name): World {
    var cascades := n in w.machines && w.machines[n].deleting;
    w.(configs := if cascades then MarkConfig(w.configs, n) else w.configs,
       infras := if cascades then MarkInfra(w.infras, n) else w.infras)
  }

  /** Garbage collection deletes a HypervisorMachine whose owning Machine no longer exists. */
  function CollectInfra(w: World, n: Name): World {
    var orphaned := n in w.infras && (n in w.machines ==> w.machines[n].uid != w.infras[n].owner);
    w.(infras := if orphaned then MarkInfra(w.infras, n) else w.infras)
  }

  function DropConfig(w: World, n: Name): World {
    w.(configs := if n in w.configs && w.configs[n].deleting then w.configs - {n} else w.configs)
  }

  function DropInfra(w: World, n: Name): World {
    w.(infras := if n in w.infras && w.infras[n].deleting then w.infras - {n} else w.infras)
  }

  /** The Machine finalizer: a deleted Machine goes away only after its config and HypervisorMachine are gone. */
  function DropMachine(w: World, n: Name): World {
    w.(machines := if n in w.machines && w.machines[n].deleting && n !in w.configs && n !in w.infras
                   then w.machines - {n} else w.machines)
  }

  function Next(w: World, move: Move): World {
    match move
    case Go(pick, data) => Advance(w, pick, data)
    case Crash => w.(pc := Idle)
    case TornWrite(data) => Tear(w, data)
    case SetSpec(version, replicas) => ChangeSpec(w, version, replicas)
    case PublishEtcd(n) => Publish(w, n)
    case Cascade(n) => CascadeDeletion(w, n)
    case Collect(n) => CollectInfra(w, n)
    case ReclaimConfig(n) => DropConfig(w, n)
    case ReclaimInfra(n) => DropInfra(w, n)
    case ReclaimMachine(n) => DropMachine(w, n)
  }

  function Exec(w: World, moves: seq<Move>): World {
    Runs.Exec(Next, w, moves)
  }

}
