/**
  Deleting a VM: stop its unit, give its network back to k8netd, forget its rows. Every effect may
  be refused or lost unless the call is calm; a call can be repeated with the same mutation.
*/
module Teardown {
  import opened Common
  import opened HostAgent
  import opened Journal
  import opened Inventory
  import opened K8netd
  import opened Executor

  const StopKind := "StopVM"

  function StopOf(m: Mutation): Operation { OperationFor(m, StopKind, []) }

  /** The guest ports k8netd maps for a port although the owner has no row for them. */
  function Orphans(rows: map<RowId, int>, mappings: map<PublishKey, Int32>, owner: OwnerId, port: string): set<int> {
    set k | k in mappings && k.port == port && RowId(owner, k.guest) !in rows :: k.guest
  }

  function Mapped(mappings: map<PublishKey, Int32>, port: string): set<int> {
    set k | k in mappings && k.port == port :: k.guest
  }

  lemma WithoutRowsAllAreOrphans(rows: map<RowId, int>, mappings: map<PublishKey, Int32>, owner: OwnerId, port: string)
    requires GuestPorts(rows, owner) == {}
    ensures Mapped(mappings, port) == Orphans(rows, mappings, owner, port)
  {
    forall k | k in mappings && k.port == port ensures RowId(owner, k.guest) !in rows {
      assert RowId(owner, k.guest) in rows ==> k.guest in GuestPorts(rows, owner);
    }
  }

  predicate OnlyDropsRows(before: map<RowId, int>, after: map<RowId, int>, owner: OwnerId) {
    && (forall r | r in after :: r in before && after[r] == before[r])
    && (forall r | r in before && r.owner != owner :: r in after)
  }

  predicate OnlyDropsMappings(before: map<PublishKey, Int32>, after: map<PublishKey, Int32>, port: string) {
    && (forall k | k in after :: k in before && after[k] == before[k])
    && (forall k | k in before && k.port != port :: k in after)
  }

  /** Nothing of the owner's network is left but mappings that had no row. */
  ghost predicate Cleared(e: Executor, owner: OwnerId, resource: Resource)
    reads e.store, e.network
  {
    && owner !in e.store.resources && GuestPorts(e.store.published, owner) == {}
    && Lease(resource.network, resource.mac) !in e.network.leases
    && resource.port !in e.network.attached && resource.port !in e.network.ports
  }

  /** The network row goes last, and the VM row after it. */
  ghost predicate InOrder(e: Executor, owner: OwnerId, resource: Resource)
    reads e.store, e.network
  {
    && (if owner in e.store.resources then e.store.resources[owner] == resource else Cleared(e, owner, resource))
    && (owner !in e.store.vms ==> owner !in e.store.resources)
  }

  predicate RowsInRange(rows: map<RowId, int>) {
    forall r | r in rows :: 0 < r.guest <= 65535
  }

  /** Everything DeletePort demands of the owner's rows. */
  ghost predicate PortDeletable(e: Executor, m: Mutation)
    reads e.store
  {
    && m.Valid() && RowsInRange(e.store.published)
    && (IdOf(m.owner) in e.store.resources ==>
          e.store.resources[IdOf(m.owner)].node == m.owner.node && e.store.resources[IdOf(m.owner)].port != "")
  }

  lemma UnmapKeepsOrphans(
    rows: map<RowId, int>, mappings: map<PublishKey, Int32>, owner: OwnerId, port: string, guest: int)
    requires RowId(owner, guest) in rows
    ensures Orphans(rows, mappings - {PublishKey(port, guest)}, owner, port) == Orphans(rows, mappings, owner, port)
  {
    var less := mappings - {PublishKey(port, guest)};
    forall g | g in Orphans(rows, mappings, owner, port) ensures g in Orphans(rows, less, owner, port) {
      assert PublishKey(port, g) in less;
    }
  }

  lemma UnrowKeepsOrphans(
    rows: map<RowId, int>, mappings: map<PublishKey, Int32>, owner: OwnerId, port: string, guest: int)
    requires PublishKey(port, guest) !in mappings
    ensures Orphans(rows - {RowId(owner, guest)}, mappings, owner, port) == Orphans(rows, mappings, owner, port)
  {
  }

  lemma UnrowGuestPorts(rows: map<RowId, int>, owner: OwnerId, guest: int)
    ensures GuestPorts(rows - {RowId(owner, guest)}, owner) == GuestPorts(rows, owner) - {guest}
  {
    var less := rows - {RowId(owner, guest)};
    forall g | g in GuestPorts(rows, owner) - {guest} ensures g in GuestPorts(less, owner) {
      assert RowId(owner, g) in less;
    }
  }

  /** What dropping published ports of one owner, mapped on one port, keeps at any point. */
  ghost predicate Drops(
    rows: map<RowId, int>, mappings: map<PublishKey, Int32>, rows': map<RowId, int>, mappings': map<PublishKey, Int32>,
    owner: OwnerId, port: string)
  {
    && Orphans(rows', mappings', owner, port) == Orphans(rows, mappings, owner, port)
    && OnlyDropsRows(rows, rows', owner) && OnlyDropsMappings(mappings, mappings', port)
  }

  /** Removes one mapping, then its row. */
  method DropOne(e: Executor, owner: OwnerId, port: string, guest: int, calm: bool) returns (ok: bool)
    requires e.network.Valid() && RowId(owner, guest) in e.store.published
    modifies e.store`published, e.network`published, e.network`ticket
    ensures e.network.Valid()
    ensures Drops(old(e.store.published), old(e.network.published), e.store.published, e.network.published, owner, port)
    ensures ok ==> GuestPorts(e.store.published, owner) == GuestPorts(old(e.store.published), owner) - {guest}
    ensures calm && ValidKey(PublishKey(port, guest)) ==> ok
  {
    UnmapKeepsOrphans(e.store.published, e.network.published, owner, port, guest);
    ok := e.network.UnpublishPort(PublishKey(port, guest), calm);
    if !ok { return; }
    UnrowKeepsOrphans(e.store.published, e.network.published, owner, port, guest);
    UnrowGuestPorts(e.store.published, owner, guest);
    ok := e.store.DeletePublishedPort(RowId(owner, guest), calm);
  }

  /** Nothing of any owner's network has changed. */
  twostate predicate NetworkUntouched(e: Executor)
    reads e.store, e.network
  {
    && e.store.resources == old(e.store.resources) && e.store.published == old(e.store.published)
    && e.network.published == old(e.network.published) && e.network.leases == old(e.network.leases)
    && e.network.attached == old(e.network.attached) && e.network.ports == old(e.network.ports)
  }

  /** Removes the mapping and the row of every published port of the owner, in any order. */
  method DropPublished(e: Executor, owner: OwnerId, port: string, calm: bool) returns (ok: bool)
    requires e.network.Valid()
    modifies e.store`published, e.network`published, e.network`ticket
    ensures e.network.Valid()
    ensures Drops(old(e.store.published), old(e.network.published), e.store.published, e.network.published, owner, port)
    ensures ok ==> GuestPorts(e.store.published, owner) == {}
    ensures calm && port != "" && RowsInRange(old(e.store.published)) ==> ok
  {
    var todo := GuestPorts(e.store.published, owner);
    while todo != {}
      invariant e.network.Valid() && todo == GuestPorts(e.store.published, owner)
      invariant Drops(old(e.store.published), old(e.network.published), e.store.published, e.network.published, owner,
          port)
      decreases todo
    {
      var guest :| guest in todo;
      ok := DropOne(e, owner, port, guest, calm);
      if !ok { return; }
      todo := todo - {guest};
    }
    ok := true;
  }

  /** Gives the lease and the port back to k8netd. */
  method ReleaseNetwork(e: Executor, resource: Resource, calm: bool) returns (ok: bool)
    modifies e.network`leases, e.network`attached, e.network`ports
    ensures ok ==>
      && Lease(resource.network, resource.mac) !in e.network.leases
      && resource.port !in e.network.attached && resource.port !in e.network.ports
    ensures calm ==> ok
    ensures forall l | l in old(e.network.leases) && l != Lease(resource.network, resource.mac) :: l in e.network.leases
    ensures forall p | p in old(e.network.ports) && p != resource.port :: p in e.network.ports
    ensures forall p | p in old(e.network.attached) && p != resource.port :: p in e.network.attached
  {
    ok := e.network.ReleaseIP(Lease(resource.network, resource.mac), calm);
    if !ok { return; }
    ok := e.network.DetachPort(resource.port, calm);
    if !ok { return; }
    ok := e.network.DeletePort(resource.port, calm);
  }

  method DeletePort(e: Executor, m: Mutation, calm: bool, ghost resource: Resource) returns (r: Result<()>)
    requires e.network.Valid()
    modifies e.store`resources, e.store`published, e.network`published, e.network`ticket, e.network`leases,
      e.network`attached, e.network`ports
    ensures e.network.Valid()
    ensures old(InOrder(e, IdOf(m.owner), resource)) ==>
      && InOrder(e, IdOf(m.owner), resource)
      && Drops(old(e.store.published), old(e.network.published), e.store.published, e.network.published, IdOf(m.owner),
          resource.port)
      && (forall l | l in old(e.network.leases) && l != Lease(resource.network, resource.mac) :: l in e.network.leases)
      && (forall p | p in old(e.network.ports) && p != resource.port :: p in e.network.ports)
      && (forall p | p in old(e.network.attached) && p != resource.port :: p in e.network.attached)
    ensures e.store.resources == old(e.store.resources) || e.store.resources == old(e.store.resources) - {IdOf(m.owner)}
    ensures r.Ok? ==> IdOf(m.owner) !in e.store.resources
    ensures old(RowsInRange(e.store.published)) ==> RowsInRange(e.store.published)
    ensures IdOf(m.owner) in old(e.store.resources) && old(e.store.resources)[IdOf(m.owner)].node != m.owner.node ==>
      r.Err? && NetworkUntouched(e)
    ensures IdOf(m.owner) !in old(e.store.resources) ==> NetworkUntouched(e)
    ensures calm && old(PortDeletable(e, m)) ==> r.Ok?
  {
    var owner := IdOf(m.owner);
    if !m.Valid() { return Err(Invalid); }
    var answered := e.Answers(calm);
    if !answered { return Err(Unavailable); }
    if owner !in e.store.resources { return Ok(()); }
    var found := e.store.resources[owner];
    if found.node != m.owner.node { return Err(Unauthorized); }
    var ok := DropPublished(e, owner, found.port, calm);
    if !ok { return Err(Unavailable); }
    ok := ReleaseNetwork(e, found, calm);
    if !ok { return Err(Unavailable); }
    ok := e.store.DeleteNetworkResource(owner, calm);
    return if ok then Ok(()) else Err(Unavailable);
  }

  // ---------------------------------------------------------------- StopVM

  /** The key holds a recorded failure of this very StopVM. */
  predicate StopFailed(journal: Entries, m: Mutation) {
    StopOf(m).id in journal && journal[StopOf(m).id].Records(StopOf(m)) && journal[StopOf(m).id].state.Failed?
  }

  /** The key is free for this StopVM, or holds it unfailed. */
  predicate StopPossible(journal: Entries, m: Mutation) {
    && m.Valid()
    && (StopOf(m).id in journal ==> journal[StopOf(m).id].Records(StopOf(m)) && !journal[StopOf(m).id].state.Failed?)
  }

  predicate RightNode(vms: map<OwnerId, Vm>, owner: Owner) {
    IdOf(owner) in vms ==> vms[IdOf(owner)].node == owner.node
  }

  /** The key holds a completed StopVM. */
  predicate StopDone(journal: Entries, m: Mutation) {
    StopOf(m).id in journal && journal[StopOf(m).id].Records(StopOf(m)) && journal[StopOf(m).id].state.Completed?
  }

  /** If the key holds a completed StopVM, the VM's unit is still stopped. */
  ghost predicate StopHolds(e: Executor, m: Mutation)
    reads e.store, e.host
  {
    IdOf(m.owner) in e.store.vms && StopDone(e.store.journal, m) ==> e.store.vms[IdOf(m.owner)].unit !in e.host.units
  }

  /** No unit is touched but the one the owner's row names, and that one is at most stopped. */
  predicate OnlyStops(before: set<string>, after: set<string>, vms: map<OwnerId, Vm>, owner: OwnerId) {
    after == before || (owner in vms && after == before - {vms[owner].unit})
  }

  method StopVM(e: Executor, m: Mutation, calm: bool) returns (r: Result<()>)
    modifies e.store`journal, e.host`units
    ensures old(StopHolds(e, m)) ==>
      StopHolds(e, m) && (r.Ok? && IdOf(m.owner) in e.store.vms ==> e.store.vms[IdOf(m.owner)].unit !in e.host.units)
    ensures OnlyStops(old(e.host.units), e.host.units, e.store.vms, IdOf(m.owner))
    ensures !RightNode(e.store.vms, m.owner) ==> e.host.units == old(e.host.units)
    ensures StopDone(old(e.store.journal), m) ==>
      e.store.journal == old(e.store.journal) && e.host.units == old(e.host.units)
    ensures calm && StopPossible(old(e.store.journal), m) && RightNode(e.store.vms, m.owner) ==>
      r.Ok? && StopDone(e.store.journal, m)
    ensures r.Ok? ==> StopPossible(e.store.journal, m) && StopDone(e.store.journal, m)
    ensures StopPossible(old(e.store.journal), m) ==> StopPossible(e.store.journal, m) || StopFailed(e.store.journal, m)
    ensures StopFailed(old(e.store.journal), m) ==>
      r.Err? && e.store.journal == old(e.store.journal) && e.host.units == old(e.host.units)
    ensures OnlyEntry(old(e.store.journal), e.store.journal, StopOf(m))
    ensures !Accepts(old(e.store.journal), StopOf(m)) ==>
      r.Err? && e.store.journal == old(e.store.journal) && e.host.units == old(e.host.units)
  {
    if !m.Valid() { return Err(Invalid); }
    var op, owner := StopOf(m), IdOf(m.owner);
    var begun := e.store.BeginOperation(op, calm);
    if begun.Err? { return Err(begun.error); }
    if begun.value.state.Completed? { return Ok(()); }
    if begun.value.state.Failed? { return Err(Unavailable); }
    var answered := e.Answers(calm);
    if !answered { return Err(Unavailable); }
    if owner !in e.store.vms {
      r := e.store.CompleteOperation(op, Completed, "absent", "", calm);
      return;
    }
    if e.store.vms[owner].node != m.owner.node { return Err(Unauthorized); }
    var shutdown := e.Answers(calm);
    if !shutdown { return Err(Unavailable); }
    var stopped := e.host.StopUnit(e.store.vms[owner].unit, calm);
    if !stopped {
      var _ := e.store.CompleteOperation(op, Failed, "", "stop unit", calm);
      return Err(Unavailable);
    }
    r := e.store.CompleteOperation(op, Completed, "stopped", "", calm);
  }

  // ---------------------------------------------------------------- DeleteVM

  /** A calm DeleteVM with this mutation goes through. */
  ghost predicate Deletable(e: Executor, m: Mutation)
    reads e.store
  {
    StopPossible(e.store.journal, m) && RightNode(e.store.vms, m.owner) && PortDeletable(e, m)
  }

  method DeleteVM(e: Executor, m: Mutation, calm: bool, ghost resource: Resource) returns (r: Result<()>)
    requires e.network.Valid()
    modifies e.store, e.network, e.host`units
    ensures e.network.Valid() && OnlyStops(old(e.host.units), e.host.units, old(e.store.vms), IdOf(m.owner))
    ensures old(InOrder(e, IdOf(m.owner), resource)) ==>
      && InOrder(e, IdOf(m.owner), resource)
      && Drops(old(e.store.published), old(e.network.published), e.store.published, e.network.published, IdOf(m.owner),
          resource.port)
      && (forall p | p in old(e.network.attached) && p != resource.port :: p in e.network.attached)
    ensures old(StopHolds(e, m)) ==>
      StopHolds(e, m) && (IdOf(m.owner) in old(e.store.vms) && IdOf(m.owner) !in e.store.vms ==>
          old(e.store.vms)[IdOf(m.owner)].unit !in e.host.units)
    ensures e.store.resources == old(e.store.resources) || e.store.resources == old(e.store.resources) - {IdOf(m.owner)}
    ensures e.store.vms == old(e.store.vms) || e.store.vms == old(e.store.vms) - {IdOf(m.owner)}
    ensures !RightNode(old(e.store.vms), m.owner) ==>
      r.Err? && e.store.vms == old(e.store.vms) && NetworkUntouched(e) && e.host.units == old(e.host.units)
    ensures IdOf(m.owner) !in old(e.store.vms) || IdOf(m.owner) !in old(e.store.resources) ==> NetworkUntouched(e)
    ensures r.Ok? ==> IdOf(m.owner) !in e.store.vms && StopPossible(e.store.journal, m)
    ensures calm && old(Deletable(e, m)) ==> r.Ok?
    ensures old(Deletable(e, m)) ==> Deletable(e, m) || StopFailed(e.store.journal, m)
    ensures StopDone(old(e.store.journal), m) ==>
      e.store.journal == old(e.store.journal) && e.host.units == old(e.host.units)
    ensures StopFailed(old(e.store.journal), m) || !Accepts(old(e.store.journal), StopOf(m)) ==>
      && r.Err? && e.store.journal == old(e.store.journal) && e.store.vms == old(e.store.vms)
      && NetworkUntouched(e) && e.host.units == old(e.host.units)
  {
    var owner := IdOf(m.owner);
    r := StopVM(e, m, calm);
    if r.Err? { return; }
    var answered := e.Answers(calm);
    if !answered { return Err(Unavailable); }
    if owner !in e.store.vms { return Ok(()); }
    if e.store.vms[owner].node != m.owner.node { return Err(Unauthorized); }
    r := DeletePort(e, m, calm, resource);
    if r.Err? { return; }
    var ok := e.store.DeleteVm(owner, calm);
    return if ok then Ok(()) else Err(Unavailable);
  }

  /**
    DeleteVM is resumable: interrupted any number of times and then repeated once undisturbed, with the
    same mutation, it leaves no row, lease or port of that owner, and of its mappings exactly those that
    had no row to begin with, unless stopping the unit failed, which the key remembers for good. Without a
    network row it leaves the network alone. No other unit is touched and no other port detached. The unit ends up
    stopped exactly if the key did not hold a completed StopVM from before the unit was started again.
  */
  method DeleteVMWithRetries(e: Executor, m: Mutation, interruptions: nat, ghost resource: Resource)
    returns (r: Result<()>)
    requires e.network.Valid() && Deletable(e, m)
    requires IdOf(m.owner) in e.store.vms
    requires IdOf(m.owner) in e.store.resources ==> e.store.resources[IdOf(m.owner)] == resource
    modifies e.store, e.network, e.host`units
    ensures if StopFailed(e.store.journal, m) then r.Err?
            else
              && r.Ok? && (old(e.store.vms[IdOf(m.owner)].unit) !in e.host.units <==> old(StopHolds(e, m)))
              && IdOf(m.owner) !in e.store.vms && IdOf(m.owner) !in e.store.resources
              && if IdOf(m.owner) !in old(e.store.resources) then NetworkUntouched(e)
                 else
                   && Cleared(e, IdOf(m.owner), resource)
                   && Mapped(e.network.published, resource.port)
                      == old(Orphans(e.store.published, e.network.published, IdOf(m.owner), resource.port))
    ensures OnlyDropsRows(old(e.store.published), e.store.published, IdOf(m.owner))
    ensures OnlyDropsMappings(old(e.network.published), e.network.published, resource.port)
    ensures forall o | o in old(e.store.vms) && o != IdOf(m.owner) ::
              o in e.store.vms && e.store.vms[o] == old(e.store.vms)[o]
    ensures OnlyStops(old(e.host.units), e.host.units, old(e.store.vms), IdOf(m.owner))
    ensures forall p | p in old(e.network.attached) && p != resource.port :: p in e.network.attached
  {
    var owner := IdOf(m.owner);
    ghost var vm := e.store.vms[owner];
    ghost var networked := owner in e.store.resources;
    for i := 0 to interruptions
      invariant e.network.Valid() && (Deletable(e, m) || StopFailed(e.store.journal, m))
      invariant if networked then InOrder(e, owner, resource) else NetworkUntouched(e)
      invariant owner in e.store.vms ==> e.store.vms[owner] == vm
      invariant old(StopHolds(e, m)) ==> StopHolds(e, m) && (owner !in e.store.vms ==> vm.unit !in e.host.units)
      invariant !old(StopHolds(e, m)) ==> StopDone(e.store.journal, m) && vm.unit in e.host.units
      invariant Drops(old(e.store.published), old(e.network.published), e.store.published, e.network.published, owner,
          resource.port)
      invariant forall o | o in old(e.store.vms) && o != owner ::
                  o in e.store.vms && e.store.vms[o] == old(e.store.vms)[o]
      invariant OnlyStops(old(e.host.units), e.host.units, old(e.store.vms), owner)
      invariant forall p | p in old(e.network.attached) && p != resource.port :: p in e.network.attached
    {
      var _ := DeleteVM(e, m, false, resource);
    }
    r := DeleteVM(e, m, true, resource);
    if r.Ok? && networked { WithoutRowsAllAreOrphans(e.store.published, e.network.published, owner, resource.port); }
  }
}
