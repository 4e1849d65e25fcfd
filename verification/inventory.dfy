/**
  The host agent's inventory: the journal and the resource tables of one SQLite file. Unless the
  caller asks for calm, every statement may be refused before it takes effect, or take effect and
  be reported as failed. A crash is the case in which everything after it is refused.
*/
module Inventory {
  import opened HostAgent
  import opened Journal

  /** The primary key of the network and VM tables. */
  datatype OwnerId = OwnerId(installation: string, uid: string)

  datatype RowId = RowId(owner: OwnerId, guest: int)

  datatype Resource = Resource(node: string, network: string, port: string, mac: string, ip: string)

  datatype Vm = Vm(node: string, unit: string, disk: string)

  function IdOf(owner: Owner): OwnerId {
    OwnerId(owner.installation, owner.uid)
  }

  /** UNIQUE (host_port). */
  predicate HostPortFree(published: map<RowId, int>, row: RowId, host: int) {
    forall r | r in published && r != row :: published[r] != host
  }

  /** UNIQUE (installation, unit). */
  predicate UnitFree(vms: map<OwnerId, Vm>, owner: OwnerId, unit: string) {
    forall o | o in vms && o != owner && o.installation == owner.installation :: vms[o].unit != unit
  }

  /** The guest ports an owner has rows for. */
  function GuestPorts(published: map<RowId, int>, owner: OwnerId): set<int> {
    set r | r in published && r.owner == owner :: r.guest
  }

  class Store {
    var journal: Entries
    var resources: map<OwnerId, Resource>
    var published: map<RowId, int>
    var vms: map<OwnerId, Vm>

    method BeginOperation(op: Operation, calm: bool) returns (r: Result<Entry>)
      modifies this`journal
      ensures journal == old(journal) || journal == Begun(old(journal), op)
      ensures r.Ok? ==> Accepts(old(journal), op) && journal == Begun(old(journal), op) && r.value == journal[op.id]
      ensures calm ==> r.Ok? == Accepts(old(journal), op)
    {
      if !op.Valid() { return Err(Conflict); }
      var refused: bool := *;
      if refused && !calm { return Err(Unavailable); }
      var tx := journal;
      if op.id !in tx { tx := tx[op.id := Entry(op, Intent, "", "")]; }
      var stored := tx[op.id];
      if !stored.Records(op) { return Err(Conflict); }
      journal := tx;
      var lost: bool := *;
      if lost && !calm { return Err(Unavailable); }
      return Ok(stored);
    }

    method CompleteOperation(op: Operation, state: State, result: string, failure: string, calm: bool)
      returns (r: Result<()>)
      modifies this`journal
      ensures journal == old(journal) || journal == Begun(old(journal), op)
        || journal == Finished(old(journal), op, state, result, failure)
      ensures r.Ok? ==>
        && !state.Intent? && Accepts(old(journal), op)
        && journal == Finished(old(journal), op, state, result, failure)
      ensures r.Ok? ==> Answers(journal[op.id], Outcome(op, state, result, failure))
      ensures calm && !state.Intent? && Accepts(old(journal), op) && Begun(old(journal), op)[op.id].state.Intent? ==>
        r.Ok?
    {
      if state.Intent? { return Err(Conflict); }
      var begun := BeginOperation(op, calm);
      if begun.Err? { return Err(begun.error); }
      var stored := begun.value;
      if !stored.state.Intent? {
        if stored.state == state && stored.result == result && stored.failure == failure { return Ok(()); }
        return Err(Conflict);
      }
      var refused: bool := *;
      if refused && !calm { return Err(Unavailable); }
      journal := journal[op.id := stored.(state := state, result := result, failure := failure)];
      var lost: bool := *;
      if lost && !calm { return Err(Unavailable); }
      return Ok(());
    }

    method UpsertPublishedPort(row: RowId, host: int, calm: bool) returns (ok: bool)
      modifies this`published
      ensures published == old(published)
        || (published == old(published)[row := host] && HostPortFree(old(published), row, host))
      ensures ok ==> row in published && published[row] == host
      ensures calm ==> ok == HostPortFree(old(published), row, host)
      ensures calm ==> published == if ok then old(published)[row := host] else old(published)
    {
      var refused: bool := *;
      if (refused && !calm) || !HostPortFree(published, row, host) { return false; }
      published := published[row := host];
      var lost: bool := *;
      return calm || !lost;
    }

    method DeletePublishedPort(row: RowId, calm: bool) returns (ok: bool)
      modifies this`published
      ensures published == old(published) || published == old(published) - {row}
      ensures ok ==> row !in published
      ensures calm ==> ok && published == old(published) - {row}
    {
      var refused: bool := *;
      if refused && !calm { return false; }
      published := published - {row};
      var lost: bool := *;
      return calm || !lost;
    }

    method DeleteNetworkResource(owner: OwnerId, calm: bool) returns (ok: bool)
      modifies this`resources
      ensures resources == old(resources) || resources == old(resources) - {owner}
      ensures ok ==> owner !in resources
      ensures calm ==> ok
    {
      var refused: bool := *;
      if refused && !calm { return false; }
      resources := resources - {owner};
      var lost: bool := *;
      return calm || !lost;
    }

    method UpsertVm(owner: OwnerId, vm: Vm, calm: bool) returns (ok: bool)
      modifies this`vms
      ensures vms == old(vms) || vms == old(vms)[owner := vm]
      ensures ok ==> owner in vms && vms[owner] == vm
      ensures calm ==> ok == UnitFree(old(vms), owner, vm.unit)
    {
      var refused: bool := *;
      if (refused && !calm) || !UnitFree(vms, owner, vm.unit) { return false; }
      vms := vms[owner := vm];
      var lost: bool := *;
      return calm || !lost;
    }

    method DeleteVm(owner: OwnerId, calm: bool) returns (ok: bool)
      modifies this`vms
      ensures vms == old(vms) || vms == old(vms) - {owner}
      ensures ok ==> owner !in vms
      ensures calm ==> ok
    {
      var refused: bool := *;
      if refused && !calm { return false; }
      vms := vms - {owner};
      var lost: bool := *;
      return calm || !lost;
    }
  }

  /** The journal after a completion that went all the way through. */
  function Finished(entries: Entries, op: Operation, state: State, result: string, failure: string): Entries {
    if state.Intent? || !Accepts(entries, op) then entries
    else Updated(Begun(entries, op), op.id, state, result, failure)
  }
}
