/**
  The host under the executor: user systemd units, the Cloud Hypervisor process behind each VM's
  API socket, and the files VMs boot from. As elsewhere, effects may be refused or lost unless calm.
*/
module Host {
  import opened Inventory

  datatype Root = ArtifactRoot | FirmwareRoot

  /** A regular file, the trusted directories it lies beneath, and the SHA-256 of its contents. */
  datatype File = File(roots: set<Root>, digest: string)

  datatype VmDesired = VmDesired(
    uid: string, disk: string, diskSha256: string, additionalDisks: seq<string>, additionalSha256s: seq<string>,
    firmware: string, firmwareSha256: string, apiSocket: string, vhostSocket: string, mac: string,
    cpus: int, memoryMiB: int)
  {
    function Paths(): seq<string> { [disk] + additionalDisks }
    function Checksums(): seq<string> { [diskSha256] + additionalSha256s }
    predicate Valid() {
      uid != "" && disk != "" && firmware != "" && firmwareSha256 != "" && apiSocket != "" && vhostSocket != ""
        && mac != ""
      && cpus != 0 && memoryMiB != 0
    }
  }

  type Files = map<string, File>

  predicate Owned(files: Files, root: Root, path: string) {
    path in files && root in files[path].roots
  }

  predicate Verified(files: Files, root: Root, path: string, checksum: string) {
    Owned(files, root, path) && files[path].digest == checksum
  }

  /** Every disk and the firmware hold exactly what the request says. */
  predicate Intact(files: Files, d: VmDesired) {
    && |d.Paths()| == |d.Checksums()|
    && (forall i | 0 <= i < |d.Paths()| :: Verified(files, ArtifactRoot, d.Paths()[i], d.Checksums()[i]))
    && Verified(files, FirmwareRoot, d.firmware, d.firmwareSha256)
  }

  /** What a reconcile of an already recorded VM insists on: the root disk is guest state, the rest is as requested. */
  predicate Bootable(files: Files, d: VmDesired) {
    && |d.Paths()| == |d.Checksums()|
    && Owned(files, ArtifactRoot, d.disk)
    && (forall i | 1 <= i < |d.Paths()| :: Verified(files, ArtifactRoot, d.Paths()[i], d.Checksums()[i]))
    && Verified(files, FirmwareRoot, d.firmware, d.firmwareSha256)
  }

  lemma IntactIsBootable(files: Files, d: VmDesired)
    requires Intact(files, d)
    ensures Bootable(files, d)
  {
    assert d.Paths()[0] == d.disk;
  }

  datatype VmState = NotCreated | Created | Running | Other(name: string)

  datatype BootResult = Booted | Recoverable | Unbootable

  datatype Action = Create | Boot | Remove

  /**
    History: what was asked of Cloud Hypervisor, whether the VM was on record, and whether its files were as
    requested.
  */
  datatype Event = Event(action: Action, owner: OwnerId, onRecord: bool, intact: bool)

  /** A VM on record is never removed, and one that is not only starts from files as requested. */
  predicate Safe(log: seq<Event>) {
    forall e | e in log :: if e.action.Remove? then !e.onRecord else e.onRecord || e.intact
  }

  class Host {
    var units: set<string>
    var machines: map<OwnerId, VmState>
    var files: Files
    ghost var log: seq<Event>

    function StateOf(owner: OwnerId): VmState
      reads this
    {
      if owner in machines then machines[owner] else NotCreated
    }

    method StopUnit(unit: string, calm: bool) returns (ok: bool)
      modifies this`units
      ensures units == old(units) || units == old(units) - {unit}
      ensures ok ==> unit !in units
      ensures calm ==> ok
    {
      var refused: bool := *;
      if refused && !calm { return false; }
      units := units - {unit};
      var lost: bool := *;
      return calm || !lost;
    }

    /** Writes and starts the unit, and waits for its API socket. */
    method Install(unit: string, calm: bool) returns (ok: bool)
      modifies this`units
      ensures units == old(units) || units == old(units) + {unit}
      ensures ok ==> unit in units
      ensures calm ==> ok
    {
      var refused: bool := *;
      if refused && !calm { return false; }
      units := units + {unit};
      var lost: bool := *;
      return calm || !lost;
    }

    /** Cloud Hypervisor refuses to create a VM it already has. */
    method CreateVm(owner: OwnerId, d: VmDesired, calm: bool, ghost onRecord: bool) returns (ok: bool)
      modifies this`machines, this`log
      ensures log == old(log) + [Event(Create, owner, onRecord, Intact(files, d))]
      ensures machines == old(machines) || machines == old(machines)[owner := Created]
      ensures ok ==> old(StateOf(owner)).NotCreated? && StateOf(owner).Created?
      ensures calm ==> ok == old(StateOf(owner)).NotCreated?
    {
      log := log + [Event(Create, owner, onRecord, Intact(files, d))];
      var refused: bool := *;
      if (refused && !calm) || !StateOf(owner).NotCreated? { return false; }
      machines := machines[owner := Created];
      var lost: bool := *;
      return calm || !lost;
    }

    /** A boot that fails leaves the files alone; `stale` says that the created VM cannot boot as it is. */
    method BootVm(owner: OwnerId, d: VmDesired, calm: bool, stale: bool, ghost onRecord: bool) returns (r: BootResult)
      modifies this`machines, this`log
      ensures log == old(log) + [Event(Boot, owner, onRecord, Intact(files, d))]
      ensures machines == old(machines) || machines == old(machines)[owner := Running]
      ensures r.Booted? ==> StateOf(owner).Running?
      ensures calm ==> r == if stale then Recoverable else Booted
    {
      log := log + [Event(Boot, owner, onRecord, Intact(files, d))];
      if calm && stale { return Recoverable; }
      var refused: bool := *;
      if refused && !calm {
        var recoverable: bool := *;
        return if recoverable then Recoverable else Unbootable;
      }
      machines := machines[owner := Running];
      var lost: bool := *;
      return if calm || !lost then Booted else Unbootable;
    }

    method RemoveVm(owner: OwnerId, d: VmDesired, calm: bool, ghost onRecord: bool) returns (ok: bool)
      modifies this`machines, this`log
      ensures log == old(log) + [Event(Remove, owner, onRecord, Intact(files, d))]
      ensures machines == old(machines) || machines == old(machines)[owner := NotCreated]
      ensures ok ==> StateOf(owner).NotCreated?
      ensures calm ==> ok
    {
      log := log + [Event(Remove, owner, onRecord, Intact(files, d))];
      var refused: bool := *;
      if refused && !calm { return false; }
      machines := machines[owner := NotCreated];
      var lost: bool := *;
      return calm || !lost;
    }

    /** Checks the paths one by one. */
    method Verify(root: Root, paths: seq<string>, checksums: seq<string>) returns (ok: bool)
      ensures ok <==> |paths| == |checksums| != 0 && forall i | 0 <= i < |paths| ::
                                                       Verified(files, root, paths[i], checksums[i])
    {
      if |paths| != |checksums| || |paths| == 0 { return false; }
      for i := 0 to |paths|
        invariant forall j | 0 <= j < i :: Verified(files, root, paths[j], checksums[j])
      {
        if !Verified(files, root, paths[i], checksums[i]) { return false; }
      }
      return true;
    }
  }
}
