/**
  EnsureVM: install the unit, create and boot the VM, record it. A recorded VM holds guest state, so
  it must never be removed, and its root disk is no longer compared with the image it started from.
*/
module EnsureVm {
  import opened HostAgent
  import opened Journal
  import opened Inventory
  import opened Host
  import opened Executor
  import Teardown

  const EnsureKind := "EnsureVM"

  function EnsureOf(m: Mutation): Operation { OperationFor(m, EnsureKind, []) }

  function UnitName(owner: Owner): string { "k8slab-vm-" + owner.uid + ".service" }

  method VerifyArtifacts(host: Host, d: VmDesired, verifyRoot: bool) returns (ok: bool)
    ensures ok == if verifyRoot then Intact(host.files, d) else Bootable(host.files, d)
    ensures ok ==> Bootable(host.files, d)
  {
    var paths, checksums := d.Paths(), d.Checksums();
    if |paths| != |checksums| { return false; }
    if verifyRoot {
      ok := host.Verify(ArtifactRoot, paths, checksums);
    } else {
      ok := Owned(host.files, ArtifactRoot, d.disk);
      if ok && |paths| > 1 {
        ok := host.Verify(ArtifactRoot, paths[1..], checksums[1..]);
        assert forall i | 1 <= i < |paths| :: paths[i] == paths[1..][i - 1] && checksums[i] == checksums[1..][i - 1];
      }
    }
    ok := ok && Verified(host.files, FirmwareRoot, d.firmware, d.firmwareSha256);
    if ok && verifyRoot { IntactIsBootable(host.files, d); }
  }

  /** The log grew, by events about one owner that keep it safe. */
  ghost predicate SafeFor(before: seq<Event>, after: seq<Event>, owner: OwnerId) {
    before <= after && (Safe(before) ==> Safe(after)) && forall e | e in after[|before|..] :: e.owner == owner
  }

  /** Every VM but the owner's is as it was. */
  predicate OnlyMachine(before: map<OwnerId, VmState>, after: map<OwnerId, VmState>, owner: OwnerId) {
    before - {owner} == after - {owner}
  }

  /** No unit is touched but the owner's, and that one is at most installed. */
  predicate OnlyInstalls(before: set<string>, after: set<string>, unit: string) {
    after == before || after == before + {unit}
  }

  /** A recorded VM stays on record with its root disk. */
  predicate KeepsDisks(before: map<OwnerId, Vm>, after: map<OwnerId, Vm>) {
    forall o | o in before :: o in after && (before[o].disk != "" ==> after[o].disk == before[o].disk)
  }

  /**
    From the checked files on: create if need be, boot, and recover once from a VM that cannot boot, unless it
    is on record.
  */
  method Start(e: Executor, owner: OwnerId, d: VmDesired, found: VmState, calm: bool, stale: bool) returns (ok: bool)
    requires owner in e.store.vms || found.Running? || found.Other? || Intact(e.host.files, d)
    requires found == e.host.StateOf(owner)
    modifies e.host`machines, e.host`log
    ensures SafeFor(old(e.host.log), e.host.log, owner)
    ensures ok ==> e.host.StateOf(owner).Running?
    ensures calm ==> ok == (found.Running? || (!found.Other? && (stale ==> owner !in e.store.vms)))
    ensures OnlyMachine(old(e.host.machines), e.host.machines, owner)
    ensures owner in e.store.vms ==> forall v | v in e.host.log[|old(e.host.log)|..] :: !v.action.Remove?
  {
    if found.NotCreated? {
      ok := e.host.CreateVm(owner, d, calm, owner in e.store.vms);
      if !ok { return; }
    }
    if found.Running? { return true; }
    if found.Other? { return false; }
    var boot := e.host.BootVm(owner, d, calm, stale, owner in e.store.vms);
    if boot.Booted? { return true; }
    if boot.Unbootable? || owner in e.store.vms { return false; }
    var answered := e.Answers(calm);
    if !answered { return false; }
    ok := Recreate(e, owner, d, calm);
  }

  /** Throws away a created VM that cannot boot, and starts over. */
  method Recreate(e: Executor, owner: OwnerId, d: VmDesired, calm: bool) returns (ok: bool)
    requires owner !in e.store.vms && Intact(e.host.files, d)
    modifies e.host`machines, e.host`log
    ensures SafeFor(old(e.host.log), e.host.log, owner)
    ensures ok ==> e.host.StateOf(owner).Running?
    ensures calm ==> ok
    ensures OnlyMachine(old(e.host.machines), e.host.machines, owner)
  {
    ok := e.host.RemoveVm(owner, d, calm, owner in e.store.vms);
    if !ok { return; }
    ok := e.host.CreateVm(owner, d, calm, owner in e.store.vms);
    if !ok { return; }
    var boot := e.host.BootVm(owner, d, calm, false, owner in e.store.vms);
    return boot.Booted?;
  }

  /** What lets an undisturbed EnsureVM go through. `stale` says that a VM created earlier cannot boot. */
  ghost predicate Startable(e: Executor, m: Mutation, d: VmDesired, stale: bool)
    reads e.store, e.host
  {
    m.Valid() && d.Valid() && Unused(e.store.journal, EnsureOf(m)) && Fits(e, m, d, stale)
  }

  /** The state of the VM, its row and its files let it start. */
  ghost predicate Fits(e: Executor, m: Mutation, d: VmDesired, stale: bool)
    reads e.store, e.host
  {
    var owner, found := IdOf(m.owner), e.host.StateOf(IdOf(m.owner));
    && "" !in d.additionalDisks && !found.Other?
    && UnitFree(e.store.vms, owner, UnitName(m.owner)) && DiskFits(e.store.vms, owner, d)
    && if owner in e.store.vms then Bootable(e.host.files, d) && (found.Running? || !stale)
       else if found.Running? then Bootable(e.host.files, d)
       else Intact(e.host.files, d)
  }

  /** The recorded root disk, if any, is the requested one. */
  predicate DiskFits(vms: map<OwnerId, Vm>, owner: OwnerId, d: VmDesired) {
    owner in vms ==> vms[owner].disk == "" || vms[owner].disk == d.disk
  }

  /**
    Malformed, or for another root disk than the recorded one, or with files that differ from the request:
    nothing may start.
  */
  predicate Refused(vms: map<OwnerId, Vm>, files: Files, m: Mutation, d: VmDesired) {
    !m.Valid() || !d.Valid() || "" in d.additionalDisks || !Bootable(files, d) || !DiskFits(vms, IdOf(m.owner), d)
  }

  /** The key holds this very EnsureVM, completed. */
  predicate Done(journal: Entries, m: Mutation) {
    var op := EnsureOf(m);
    op.id in journal && journal[op.id].Records(op) && journal[op.id].state.Completed?
  }

  /** The VM runs in its unit and is on record as requested, and so is the outcome. */
  ghost predicate Up(e: Executor, m: Mutation, d: VmDesired)
    reads e.store, e.host
  {
    && e.host.StateOf(IdOf(m.owner)).Running? && UnitName(m.owner) in e.host.units
    && IdOf(m.owner) in e.store.vms && e.store.vms[IdOf(m.owner)] == Vm(m.owner.node, UnitName(m.owner), d.disk)
    && Done(e.store.journal, m) && e.store.journal[EnsureOf(m).id].result == d.uid
  }

  /** What repeating a completed EnsureVM looks up: the VM's row, on the caller's node. */
  predicate OnNode(vms: map<OwnerId, Vm>, owner: Owner) {
    IdOf(owner) in vms && vms[IdOf(owner)].node == owner.node
  }

  method EnsureVM(e: Executor, m: Mutation, d: VmDesired, calm: bool, stale: bool) returns (r: Result<()>)
    modifies e.store`journal, e.store`vms, e.host`units, e.host`machines, e.host`log
    ensures SafeFor(old(e.host.log), e.host.log, IdOf(m.owner))
    ensures KeepsDisks(old(e.store.vms), e.store.vms)
    ensures OnlyEntry(old(e.store.journal), e.store.journal, EnsureOf(m))
    ensures OnlyMachine(old(e.host.machines), e.host.machines, IdOf(m.owner))
    ensures OnlyInstalls(old(e.host.units), e.host.units, UnitName(m.owner))
    ensures forall o | o in e.store.vms && o != IdOf(m.owner) ::
              o in old(e.store.vms) && e.store.vms[o] == old(e.store.vms)[o]
    ensures IdOf(m.owner) in e.store.vms && IdOf(m.owner) !in old(e.store.vms) ==>
      e.store.vms[IdOf(m.owner)].disk == d.disk != ""
    ensures Refused(old(e.store.vms), e.host.files, m, d) ==>
      && e.store.vms == old(e.store.vms) && e.host.log == old(e.host.log)
      && (r.Err? || Done(old(e.store.journal), m))
    ensures r.Ok? ==> if Done(old(e.store.journal), m) then OnNode(e.store.vms, m.owner) else Up(e, m, d)
    ensures Done(old(e.store.journal), m) || !Accepts(old(e.store.journal), EnsureOf(m)) ==>
      && e.store.journal == old(e.store.journal) && e.store.vms == old(e.store.vms)
      && e.host.units == old(e.host.units) && e.host.machines == old(e.host.machines) && e.host.log == old(e.host.log)
    ensures !Accepts(old(e.store.journal), EnsureOf(m)) ==> r.Err?
    ensures Done(old(e.store.journal), m) && calm && m.Valid() && d.Valid() ==>
      (r.Ok? <==> OnNode(e.store.vms, m.owner))
    ensures calm && old(Startable(e, m, d, stale)) ==>
      r.Ok? && Up(e, m, d) && Closed(e.store.journal, EnsureOf(m), Completed, d.uid)
  {
    var owner := IdOf(m.owner);
    if !m.Valid() || !d.Valid() { return Err(Invalid); }
    var op := EnsureOf(m);
    var begun := e.store.BeginOperation(op, calm);
    if begun.Err? { return Err(begun.error); }
    if begun.value.state.Completed? {
      var answered := e.Answers(calm);
      return if !answered then Err(Unavailable)
             else if owner !in e.store.vms then Err(NotFound)
             else if e.store.vms[owner].node != m.owner.node then Err(Unauthorized)
             else Ok(());
    }
    r := Bring(e, m, d, calm, stale);
  }

  /** EnsureVM from its journalled intent on. */
  method Bring(e: Executor, m: Mutation, d: VmDesired, calm: bool, stale: bool) returns (r: Result<()>)
    modifies e.store`journal, e.store`vms, e.host`units, e.host`machines, e.host`log
    ensures SafeFor(old(e.host.log), e.host.log, IdOf(m.owner))
    ensures OnlyEntry(old(e.store.journal), e.store.journal, EnsureOf(m))
    ensures OnlyMachine(old(e.host.machines), e.host.machines, IdOf(m.owner))
    ensures OnlyInstalls(old(e.host.units), e.host.units, UnitName(m.owner))
    ensures e.store.vms == old(e.store.vms)
         || (e.store.vms == old(e.store.vms)[IdOf(m.owner) := Vm(m.owner.node, UnitName(m.owner), d.disk)]
             && DiskFits(old(e.store.vms), IdOf(m.owner), d))
    ensures "" in d.additionalDisks || !Bootable(e.host.files, d) || !DiskFits(old(e.store.vms), IdOf(m.owner), d) ==>
      r.Err? && e.store.vms == old(e.store.vms) && e.host.log == old(e.host.log)
    ensures r.Ok? ==> Up(e, m, d)
    ensures calm && Open(old(e.store.journal), EnsureOf(m)) && old(Fits(e, m, d, stale)) ==>
      r.Ok? && Up(e, m, d) && Closed(e.store.journal, EnsureOf(m), Completed, d.uid)
  {
    var owner := IdOf(m.owner);
    var ok := e.host.Install(UnitName(m.owner), calm);
    if !ok { return Err(Unavailable); }
    if "" in d.additionalDisks { return Err(Invalid); }
    ok := e.Answers(calm);
    if !ok { return Err(Unavailable); }
    var found := e.host.StateOf(owner);
    if !DiskFits(e.store.vms, owner, d) { return Err(Conflict); }
    ok := VerifyArtifacts(e.host, d, owner !in e.store.vms && (found.NotCreated? || found.Created?));
    if !ok { return Err(Invalid); }
    ok := Start(e, owner, d, found, calm, stale);
    if !ok { return Err(Unavailable); }
    r := Record(e, m, d, calm);
  }

  /** Writes the VM's row, then the outcome. */
  method Record(e: Executor, m: Mutation, d: VmDesired, calm: bool) returns (r: Result<()>)
    modifies e.store`journal, e.store`vms
    ensures OnlyEntry(old(e.store.journal), e.store.journal, EnsureOf(m))
    ensures e.store.vms == old(e.store.vms)
      || e.store.vms == old(e.store.vms)[IdOf(m.owner) := Vm(m.owner.node, UnitName(m.owner), d.disk)]
    ensures r.Ok? ==>
      && IdOf(m.owner) in e.store.vms && e.store.vms[IdOf(m.owner)] == Vm(m.owner.node, UnitName(m.owner), d.disk)
      && Done(e.store.journal, m) && e.store.journal[EnsureOf(m).id].result == d.uid
    ensures calm && Open(old(e.store.journal), EnsureOf(m))
            && UnitFree(old(e.store.vms), IdOf(m.owner), UnitName(m.owner)) ==>
      r.Ok? && Closed(e.store.journal, EnsureOf(m), Completed, d.uid)
  {
    var ok := e.store.UpsertVm(IdOf(m.owner), Vm(m.owner.node, UnitName(m.owner), d.disk), calm);
    if !ok { return Err(Unavailable); }
    r := e.store.CompleteOperation(EnsureOf(m), Completed, d.uid, "", calm);
  }

  /** A call, or anything at all happening to VMs and files between calls. */
  datatype Call =
    | Ensure(m: Mutation, d: VmDesired, stale: bool)
    | Delete(m: Mutation)
    | Outside(machines: map<OwnerId, VmState>, files: Files)

  predicate Spared(calls: seq<Call>, o: OwnerId) {
    forall c | c in calls && c.Delete? :: IdOf(c.m.owner) != o
  }

  /**
    Over every interrupted run, whatever happens to VMs and files in between: no VM on record is
    removed by the recovery, none off record starts from files that differ from the request, and a
    recorded root disk stays the same until DeleteVM.
  */
  method Run(e: Executor, calls: seq<Call>)
    requires e.network.Valid() && Safe(e.host.log)
    modifies e.store, e.network, e.host
    ensures e.network.Valid() && Safe(e.host.log) && old(e.host.log) <= e.host.log
    ensures forall o | o in old(e.store.vms) && old(e.store.vms)[o].disk != "" && Spared(calls, o) ::
              o in e.store.vms && e.store.vms[o].disk == old(e.store.vms)[o].disk
  {
    for k := 0 to |calls|
      invariant e.network.Valid() && Safe(e.host.log) && old(e.host.log) <= e.host.log
      invariant forall o | o in old(e.store.vms) && old(e.store.vms)[o].disk != "" && Spared(calls, o) ::
                  o in e.store.vms && e.store.vms[o].disk == old(e.store.vms)[o].disk
    {
      match calls[k]
      case Ensure(m, d, stale) =>
        var _ := EnsureVM(e, m, d, false, stale);
      case Delete(m) =>
        assert calls[k] in calls;
        ghost var any := Resource("", "", "", "", "");
        var _ := Teardown.DeleteVM(e, m, false, any);
      case Outside(machines, files) =>
        e.host.machines := machines;
        e.host.files := files;
    }
  }

  /**
    The case that the exact condition of DeleteVMWithRetries is about, as an undisturbed run: a StopVM under
    one key, an EnsureVM of the same VM under another, and a DeleteVM under the first. It succeeds and the
    row goes, but the key's StopVM is not repeated, so the unit that EnsureVM started keeps running.
  */
  method RestartedUnitOutlivesItsRow(
    e: Executor, m: Mutation, restart: Mutation, d: VmDesired, ghost resource: Resource)
    requires e.network.Valid() && Teardown.Deletable(e, m) && !Teardown.StopDone(e.store.journal, m)
    requires restart.owner == m.owner && restart.key != m.key && Startable(e, restart, d, false)
    requires IdOf(m.owner) in e.store.vms && e.store.vms[IdOf(m.owner)].unit == UnitName(m.owner)
    modifies e.store, e.network, e.host
    ensures IdOf(m.owner) !in e.store.vms && UnitName(m.owner) in e.host.units
  {
    ghost var journal := e.store.journal;
    var stopped := Teardown.StopVM(e, m, true);
    OtherEntryKept(journal, e.store.journal, Teardown.StopOf(m), EnsureOf(restart).id);
    journal := e.store.journal;
    var ensured := EnsureVM(e, restart, d, true, false);
    OtherEntryKept(journal, e.store.journal, EnsureOf(restart), Teardown.StopOf(m).id);
    var deleted := Teardown.DeleteVM(e, m, true, resource);
  }
}
