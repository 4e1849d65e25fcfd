/**
  The host agent's executor: handlers that journal an intent, act on k8netd, systemd and the
  inventory, and journal the outcome. Handlers run one at a time. Any effect of any handler may be
  refused or lost unless it runs calm, so a postcondition that holds without calm holds after
  every crash.
*/
module Executor {
  import opened Common
  import opened Names
  import opened HostAgent
  import opened Journal
  import opened Inventory
  import opened K8netd
  import opened Host
  import opened Coupling

  function OperationFor(m: Mutation, kind: string, inputs: seq<int>): Operation {
    Operation(Id(m.owner.installation, m.owner.uid, m.key), m.owner.node, kind, Digest(kind, m, inputs), m.generation)
  }

  /** The operation's own intent is on record. */
  predicate Open(journal: Entries, op: Operation) {
    op.Valid() && op.id in journal && journal[op.id].operation == op && journal[op.id].state.Intent?
  }

  /** Nothing but the operation's own intent is on record under its key. */
  predicate Unused(journal: Entries, op: Operation) {
    op.id in journal ==> Open(journal, op)
  }

  /** Only the entry of this operation may have changed. */
  predicate OnlyEntry(before: Entries, after: Entries, op: Operation) {
    before - {op.id} == after - {op.id}
  }

  lemma OtherEntryKept(before: Entries, after: Entries, op: Operation, id: Id)
    requires OnlyEntry(before, after, op) && id != op.id
    ensures Get(after, id) == Get(before, id)
  {
    assert Get(before - {op.id}, id) == Get(after - {op.id}, id);
  }

  /** The outcome of the operation on record. */
  predicate Closed(journal: Entries, op: Operation, state: State, result: string) {
    op.id in journal && journal[op.id].operation == op && journal[op.id].state == state
      && journal[op.id].result == result
  }

  /** The operation's own outcome is on record. */
  predicate Settled(journal: Entries, op: Operation, state: State) {
    op.Valid() && op.id in journal && journal[op.id].operation == op && journal[op.id].state == state
  }

  /** The port k8netd maps can be recorded: it is in range and no other row holds it. */
  predicate Recordable(rows: map<RowId, int>, row: RowId, host: int) {
    1 <= host <= 65535 && HostPortFree(rows, row, host)
  }

  /** The answer comes from the row, or repeats what a completed PublishPort under the same key answered. */
  ghost predicate Told(p: Ports, m: Mutation, guest: int, host: int) {
    var row, op := RowId(IdOf(m.owner), guest), OperationFor(m, PublishKind, [guest]);
    || (row in p.rows && p.rows[row] == host)
    || (op.id in p.journal && p.journal[op.id].operation == op && p.journal[op.id].state.Completed?
        && Decodes(p.journal[op.id].result, host))
  }

  /** The counter after a publish. */
  function Following(next: Int32, known: bool): Int32 {
    if known then next else Wrap(next + 1)
  }

  predicate HoldsRow(p: Ports, row: RowId, host: int) {
    row in p.rows && p.rows[row] == host
  }

  /**
    An undisturbed PublishPort from p to q: a row answers, else the key's own outcome does, else k8netd's
    offer is mapped, and recorded if it can be.
  */
  ghost predicate Published(p: Ports, q: Ports, m: Mutation, guest: int, offer: int, r: Result<int>)
    requires IdOf(m.owner) in p.resources
  {
    var row, op, key := RowId(IdOf(m.owner), guest), OperationFor(m, PublishKind, [guest]),
      KeyOf(p, IdOf(m.owner), guest);
    if row in p.rows then q == p && r == Ok(p.rows[row])
    else if Settled(p.journal, op, Completed) then
      q == p && (r.Ok? <==> ParseDigits(p.journal[op.id].result).Some?)
        && (r.Ok? ==> Decodes(p.journal[op.id].result, r.value))
    else if Settled(p.journal, op, Failed) then q == p && r.Err?
    else Unused(p.journal, op) ==>
      && q.mappings == p.mappings[key := offer] && r.Ok? == Recordable(p.rows, row, offer)
      && if r.Ok? then
           r.value == offer >= 0 && q.rows == p.rows[row := offer] && Closed(q.journal, op, Completed, Decimal(offer))
         else q.rows == p.rows && Closed(q.journal, op, Failed, "")
  }

  /**
    An undisturbed ReleasePort from p to q. With `dies` the process ends once k8netd has unmapped the port.
  */
  ghost predicate Released(p: Ports, q: Ports, m: Mutation, guest: int, host: int, dies: bool, r: Result<int>)
    requires IdOf(m.owner) in p.resources
  {
    var row, op := RowId(IdOf(m.owner), guest), OperationFor(m, ReleaseKind, [guest, host]);
    var key := KeyOf(p, IdOf(m.owner), guest);
    if row in p.rows && p.rows[row] != host then q == p && r == Err(Invalid)
    else if Settled(p.journal, op, Completed) then q == p && r.Ok?
    else if Settled(p.journal, op, Failed) then q == p && r.Err?
    else Unused(p.journal, op) ==>
      if row !in p.rows then q == p.(journal := q.journal) && r == Err(NotFound)
      else
        && q.mappings == p.mappings - {key}
        && if dies then r.Err? && q.rows == p.rows && Open(q.journal, op)
           else r.Ok? && q.rows == p.rows - {row} && Closed(q.journal, op, Completed, "released")
  }

  /** Nothing is touched but the row and the mapping of one guest port of one owner. */
  ghost predicate OnlyPort(p: Ports, q: Ports, owner: OwnerId, guest: int) {
    && q.resources == p.resources && p.rows - {RowId(owner, guest)} == q.rows - {RowId(owner, guest)}
    && if owner in p.resources then p.mappings - {KeyOf(p, owner, guest)} == q.mappings - {KeyOf(p, owner, guest)}
       else q.mappings == p.mappings
  }

  /** A release that went through: the row, which held this port, and the mapping are gone, and the outcome recorded. */
  ghost predicate Freed(p: Ports, q: Ports, m: Mutation, guest: int, host: int) {
    var row := RowId(IdOf(m.owner), guest);
    && HoldsRow(p, row, host) && row !in q.rows
    && IdOf(m.owner) in q.resources && KeyOf(q, IdOf(m.owner), guest) !in q.mappings
    && Closed(q.journal, OperationFor(m, ReleaseKind, [guest, host]), Completed, "released")
  }

  class Executor {
    const store: Store
    const network: Network
    const host: Host

    constructor (store: Store, network: Network, host: Host)
      ensures this.store == store && this.network == network && this.host == host
    {
      this.store := store;
      this.network := network;
      this.host := host;
    }

    ghost function View(): Ports
      reads store, network
    {
      Ports(store.journal, store.resources, store.published, network.published)
    }

    /** A read that may fail. */
    method Answers(calm: bool) returns (ok: bool)
      ensures calm ==> ok
    {
      ok := *;
      ok := ok || calm;
    }

    // -------------------------------------------------------------- single effects of the port handlers

    method Begin(op: Operation, calm: bool, ghost start: Ports, ghost releasing: bool) returns (r: Result<Entry>)
      requires Evolves(start, View(), releasing)
      modifies store`journal
      ensures Evolves(start, View(), releasing)
      ensures r.Ok? ==> store.journal == Begun(old(store.journal), op) && Accepts(old(store.journal), op)
      ensures r.Ok? ==> r.value == store.journal[op.id]
      ensures calm ==> r.Ok? == Accepts(old(store.journal), op)
      ensures OnlyEntry(old(store.journal), store.journal, op) && (Keyed(old(store.journal)) ==> Keyed(store.journal))
    {
      r := store.BeginOperation(op, calm);
      if store.journal == Begun(old(store.journal), op) {
        EvolvesStep(start, old(View()), Effect.Begin(op), View(), releasing);
      }
    }

    /** Records a failure; the handlers ignore whether that worked. */
    method RecordFailure(op: Operation, failure: string, calm: bool, ghost start: Ports, ghost releasing: bool)
      requires Evolves(start, View(), releasing)
      modifies store`journal
      ensures Evolves(start, View(), releasing)
      ensures calm && Open(old(store.journal), op) ==> Closed(store.journal, op, Failed, "")
      ensures OnlyEntry(old(store.journal), store.journal, op) && (Keyed(old(store.journal)) ==> Keyed(store.journal))
    {
      var _ := store.CompleteOperation(op, Failed, "", failure, calm);
      if store.journal == Begun(old(store.journal), op) {
        EvolvesStep(start, old(View()), Effect.Begin(op), View(), releasing);
      } else if store.journal != old(store.journal) {
        EvolvesStep(start, old(View()), Fail(op, failure), View(), releasing);
      }
    }

    method MapPort(id: Id, owner: OwnerId, guest: int, calm: bool, ghost start: Ports) returns (r: Result<Int32>)
      requires Evolves(start, View(), false) && network.Valid()
      requires owner in store.resources && RowId(owner, guest) !in store.published
      requires Underway(store.journal, id, owner, PublishKind, [guest])
      modifies network`published, network`nextHostPort, network`issued, network`ticket
      ensures Evolves(start, View(), false) && network.Valid() && OnlyPort(old(View()), View(), owner, guest)
      ensures var key := PublishKey(store.resources[owner].port, guest);
              && (r.Ok? ==> key in network.published && network.published[key] == r.value && r.value > 0)
              && (calm && ValidKey(key) ==>
                    && network.published == old(network.published)[key := old(network.Offer(key))]
                    && r.Ok? == (network.published[key] > 0)
                    && network.nextHostPort == Following(old(network.nextHostPort), key in old(network.published)))
    {
      var key := PublishKey(store.resources[owner].port, guest);
      r := network.PublishPort(key, calm);
      if network.published != old(network.published) {
        EvolvesStep(start, old(View()), Map(id, owner, guest, network.published[key]), View(), false);
      }
    }

    method WriteRow(owner: OwnerId, guest: int, host: int, calm: bool, ghost start: Ports) returns (ok: bool)
      requires Evolves(start, View(), false) && Guard(View(), Effect.WriteRow(owner, guest, host))
      modifies store`published
      ensures Evolves(start, View(), false) && OnlyPort(old(View()), View(), owner, guest)
      ensures ok ==> HoldsRow(View(), RowId(owner, guest), host)
      ensures calm ==> ok == HostPortFree(old(store.published), RowId(owner, guest), host)
      ensures calm ==>
        store.published == if ok then old(store.published)[RowId(owner, guest) := host] else old(store.published)
    {
      ok := store.UpsertPublishedPort(RowId(owner, guest), host, calm);
      if store.published != old(store.published) {
        EvolvesStep(start, old(View()), Effect.WriteRow(owner, guest, host), View(), false);
      }
    }

    method FinishPublish(op: Operation, guest: int, host: nat, calm: bool, ghost start: Ports) returns (ok: bool)
      requires Evolves(start, View(), false) && Guard(View(), Effect.FinishPublish(op, guest, host))
      modifies store`journal
      ensures Evolves(start, View(), false)
      ensures calm && Open(old(store.journal), op) ==> ok
      ensures ok && Open(old(store.journal), op) ==> Closed(store.journal, op, Completed, Decimal(host))
      ensures OnlyEntry(old(store.journal), store.journal, op) && (Keyed(old(store.journal)) ==> Keyed(store.journal))
    {
      var r := store.CompleteOperation(op, Completed, Decimal(host), "", calm);
      ok := r.Ok?;
      if store.journal == Begun(old(store.journal), op) {
        EvolvesStep(start, old(View()), Effect.Begin(op), View(), false);
      } else if store.journal != old(store.journal) {
        EvolvesStep(start, old(View()), Effect.FinishPublish(op, guest, host), View(), false);
      }
    }

    // -------------------------------------------------------------- PublishPort

    /** The owner has a network row on its own node, and asks for a guest port in range. */
    predicate Entitled(owner: Owner, guest: int)
      reads store
    {
      0 < guest <= 65535 && IdOf(owner) in store.resources && store.resources[IdOf(owner)].node == owner.node
    }

    /** The owner has a network row, on its own node, for a port that can be published. */
    predicate Serves(owner: Owner, guest: int)
      reads store
    {
      && IdOf(owner) in store.resources && store.resources[IdOf(owner)].node == owner.node
      && ValidKey(PublishKey(store.resources[IdOf(owner)].port, guest))
    }

    method PublishPort(m: Mutation, guest: int, hostPort: int, calm: bool) returns (r: Result<int>)
      requires network.Valid() && Keyed(store.journal)
      modifies store`journal, store`published, network`published, network`nextHostPort, network`issued, network`ticket
      ensures network.Valid() && Keyed(store.journal) && Evolves(old(View()), View(), false)
      ensures OnlyEntry(old(store.journal), store.journal, OperationFor(m, PublishKind, [guest]))
      ensures OnlyPort(old(View()), View(), IdOf(m.owner), guest)
      ensures r.Ok? ==> Told(View(), m, guest, r.value)
      ensures r.Ok? ==>
        (HoldsRow(View(), RowId(IdOf(m.owner), guest), r.value) <==>
           !(RowId(IdOf(m.owner), guest) !in old(store.published)
             && Settled(old(store.journal), OperationFor(m, PublishKind, [guest]), Completed)))
      ensures r.Ok? && RowId(IdOf(m.owner), guest) !in old(store.published) ==>
        Settled(store.journal, OperationFor(m, PublishKind, [guest]), Completed)
      ensures !m.Valid() || hostPort != 0 || !Entitled(m.owner, guest) ==> r.Err? && View() == old(View())
      ensures calm && m.Valid() && hostPort == 0 && Serves(m.owner, guest) ==>
        Published(old(View()), View(), m, guest, old(network.Offer(KeyOf(View(), IdOf(m.owner), guest))), r)
      ensures calm && m.Valid() && hostPort == 0 && Serves(m.owner, guest)
              && RowId(IdOf(m.owner), guest) !in old(store.published)
              && Unused(old(store.journal), OperationFor(m, PublishKind, [guest])) ==>
        network.nextHostPort
        == Following(old(network.nextHostPort), KeyOf(View(), IdOf(m.owner), guest) in old(network.published))
      ensures RowId(IdOf(m.owner), guest) in old(store.published) ==> network.nextHostPort == old(network.nextHostPort)
    {
      var owner := IdOf(m.owner);
      var row := RowId(owner, guest);
      EvolvesSelf(View(), false);
      if !m.Valid() || guest <= 0 || guest > 65535 || hostPort != 0 { return Err(Invalid); }
      var answered := Answers(calm);
      if !answered || owner !in store.resources { return Err(NotFound); }
      if store.resources[owner].node != m.owner.node { return Err(Unauthorized); }
      if row in store.published { return Ok(store.published[row]); }

      var op := OperationFor(m, PublishKind, [guest]);
      var begun := Begin(op, calm, old(View()), false);
      if begun.Err? { return Err(begun.error); }
      if begun.value.state.Completed? {
        var decoded := ParseDigits(begun.value.result);
        return if decoded.Some? then Ok(decoded.value) else Err(Unavailable);
      }
      if begun.value.state.Failed? { return Err(Unavailable); }
      r := Allocate(m, op, guest, calm, old(View()));
    }

    /** PublishPort from its journalled intent on. */
    method Allocate(m: Mutation, op: Operation, guest: int, calm: bool, ghost start: Ports) returns (r: Result<int>)
      requires network.Valid() && Evolves(start, View(), false)
      requires op == OperationFor(m, PublishKind, [guest])
      requires IdOf(m.owner) in store.resources && RowId(IdOf(m.owner), guest) !in store.published
      requires Open(store.journal, op)
      modifies store`journal, store`published, network`published, network`nextHostPort, network`issued, network`ticket
      ensures network.Valid() && Evolves(start, View(), false) && OnlyPort(old(View()), View(), IdOf(m.owner), guest)
      ensures OnlyEntry(old(store.journal), store.journal, op) && (Keyed(old(store.journal)) ==> Keyed(store.journal))
      ensures r.Ok? ==> HoldsRow(View(), RowId(IdOf(m.owner), guest), r.value) && Settled(store.journal, op, Completed)
      ensures var key := KeyOf(View(), IdOf(m.owner), guest);
              calm && ValidKey(key) ==>
                && Published(old(View()), View(), m, guest, old(network.Offer(key)), r)
                && network.nextHostPort == Following(old(network.nextHostPort), key in old(network.published))
    {
      var owner := IdOf(m.owner);
      var mapped := MapPort(op.id, owner, guest, calm, start);
      if mapped.Err? || mapped.value > 65535 {
        RecordFailure(op, "k8netd", calm, start, false);
        return Err(Unavailable);
      }
      r := RecordPort(op, owner, guest, mapped.value, calm, start);
    }

    /** Writes the row of a mapped port, then the outcome. */
    method RecordPort(op: Operation, owner: OwnerId, guest: int, host: nat, calm: bool, ghost start: Ports)
      returns (r: Result<int>)
      requires Evolves(start, View(), false) && Guard(View(), Effect.WriteRow(owner, guest, host))
      requires Performs(op, PublishKind, [guest]) && OwnerOf(op) == owner && Open(store.journal, op)
      modifies store`journal, store`published
      ensures Evolves(start, View(), false) && OnlyPort(old(View()), View(), owner, guest)
      ensures OnlyEntry(old(store.journal), store.journal, op) && (Keyed(old(store.journal)) ==> Keyed(store.journal))
      ensures r.Ok? ==>
        HoldsRow(View(), RowId(owner, guest), host) && r.value == host && Settled(store.journal, op, Completed)
      ensures calm ==>
        && r.Ok? == HostPortFree(old(store.published), RowId(owner, guest), host)
        && if r.Ok? then
             store.published == old(store.published)[RowId(owner, guest) := host]
               && Closed(store.journal, op, Completed, Decimal(host))
           else store.published == old(store.published) && Closed(store.journal, op, Failed, "")
    {
      var stored := WriteRow(owner, guest, host, calm, start);
      if !stored {
        RecordFailure(op, "inventory", calm, start, false);
        return Err(Unavailable);
      }
      var completed := FinishPublish(op, guest, host, calm, start);
      return if completed then Ok(host) else Err(Unavailable);
    }

    // -------------------------------------------------------------- ReleasePort

    method UnmapPort(id: Id, owner: OwnerId, guest: int, calm: bool, ghost start: Ports) returns (ok: bool)
      requires Evolves(start, View(), true) && network.Valid() && Guard(View(), Unmap(id, owner, guest))
      modifies network`published, network`ticket
      ensures Evolves(start, View(), true) && network.Valid() && OnlyPort(old(View()), View(), owner, guest)
      ensures ok ==> PublishKey(store.resources[owner].port, guest) !in network.published
      ensures calm && ValidKey(KeyOf(View(), owner, guest)) ==>
        ok && network.published == old(network.published) - {KeyOf(View(), owner, guest)}
    {
      ok := network.UnpublishPort(PublishKey(store.resources[owner].port, guest), calm);
      if network.published != old(network.published) {
        EvolvesStep(start, old(View()), Unmap(id, owner, guest), View(), true);
      }
    }

    method DropRow(owner: OwnerId, guest: int, calm: bool, ghost start: Ports) returns (ok: bool)
      requires Evolves(start, View(), true) && Guard(View(), Effect.DropRow(owner, guest))
      modifies store`published
      ensures Evolves(start, View(), true) && OnlyPort(old(View()), View(), owner, guest)
      ensures ok ==> RowId(owner, guest) !in store.published
      ensures calm ==> ok && store.published == old(store.published) - {RowId(owner, guest)}
    {
      ok := store.DeletePublishedPort(RowId(owner, guest), calm);
      if store.published != old(store.published) {
        EvolvesStep(start, old(View()), Effect.DropRow(owner, guest), View(), true);
      }
    }

    method FinishRelease(op: Operation, guest: int, host: int, calm: bool, ghost start: Ports) returns (ok: bool)
      requires Evolves(start, View(), true) && Guard(View(), Effect.FinishRelease(op, guest, host))
      modifies store`journal
      ensures Evolves(start, View(), true)
      ensures calm && Open(old(store.journal), op) ==> ok
      ensures ok && Open(old(store.journal), op) ==> Closed(store.journal, op, Completed, "released")
      ensures OnlyEntry(old(store.journal), store.journal, op) && (Keyed(old(store.journal)) ==> Keyed(store.journal))
    {
      var r := store.CompleteOperation(op, Completed, "released", "", calm);
      ok := r.Ok?;
      if store.journal == Begun(old(store.journal), op) {
        EvolvesStep(start, old(View()), Effect.Begin(op), View(), true);
      } else if store.journal != old(store.journal) {
        EvolvesStep(start, old(View()), Effect.FinishRelease(op, guest, host), View(), true);
      }
    }

    method ReleasePort(m: Mutation, guest: int, hostPort: int, calm: bool, dies: bool) returns (r: Result<int>)
      requires network.Valid() && Keyed(store.journal)
      modifies store`journal, store`published, network`published, network`ticket
      ensures network.Valid() && Keyed(store.journal) && Evolves(old(View()), View(), true)
      ensures OnlyEntry(old(store.journal), store.journal, OperationFor(m, ReleaseKind, [guest, hostPort]))
      ensures OnlyPort(old(View()), View(), IdOf(m.owner), guest)
      ensures !m.Valid() || !(0 < hostPort <= 65535) || !Entitled(m.owner, guest) ==> r.Err? && View() == old(View())
      ensures calm && m.Valid() && 0 < hostPort <= 65535 && Serves(m.owner, guest) ==>
        Released(old(View()), View(), m, guest, hostPort, dies, r)
      ensures r.Ok? ==> Settled(store.journal, OperationFor(m, ReleaseKind, [guest, hostPort]), Completed)
      ensures r.Ok? && !Settled(old(store.journal), OperationFor(m, ReleaseKind, [guest, hostPort]), Completed) ==>
        Freed(old(View()), View(), m, guest, hostPort)
    {
      var owner := IdOf(m.owner);
      var row := RowId(owner, guest);
      EvolvesSelf(View(), true);
      if !m.Valid() || guest <= 0 || guest > 65535 || hostPort <= 0 || hostPort > 65535 { return Err(Invalid); }
      var answered := Answers(calm);
      if !answered || owner !in store.resources { return Err(NotFound); }
      if store.resources[owner].node != m.owner.node { return Err(Unauthorized); }
      if row in store.published && store.published[row] != hostPort { return Err(Invalid); }

      var op := OperationFor(m, ReleaseKind, [guest, hostPort]);
      var begun := Begin(op, calm, old(View()), true);
      if begun.Err? { return Err(begun.error); }
      if begun.value.state.Completed? { return Ok(0); }
      if begun.value.state.Failed? { return Err(Unavailable); }
      if row !in store.published { return Err(NotFound); }
      r := Free(m, op, guest, hostPort, calm, dies, old(View()));
    }

    /** ReleasePort from its journalled intent on. */
    method Free(m: Mutation, op: Operation, guest: int, hostPort: int, calm: bool, dies: bool, ghost start: Ports)
      returns (r: Result<int>)
      requires network.Valid() && Evolves(start, View(), true)
      requires op == OperationFor(m, ReleaseKind, [guest, hostPort]) && IdOf(m.owner) in store.resources
      requires RowId(IdOf(m.owner), guest) in store.published
        && store.published[RowId(IdOf(m.owner), guest)] == hostPort
      requires Open(store.journal, op)
      modifies store`journal, store`published, network`published, network`ticket
      ensures network.Valid() && Evolves(start, View(), true) && OnlyPort(old(View()), View(), IdOf(m.owner), guest)
      ensures OnlyEntry(old(store.journal), store.journal, op) && (Keyed(old(store.journal)) ==> Keyed(store.journal))
      ensures calm && ValidKey(KeyOf(View(), IdOf(m.owner), guest)) ==>
        Released(old(View()), View(), m, guest, hostPort, dies, r)
      ensures r.Ok? ==> Freed(old(View()), View(), m, guest, hostPort)
    {
      var owner := IdOf(m.owner);
      var unmapped := UnmapPort(op.id, owner, guest, calm, start);
      if !unmapped {
        RecordFailure(op, "k8netd", calm, start, true);
        return Err(Unavailable);
      }
      if dies { return Err(Unavailable); }
      r := ForgetPort(op, owner, guest, hostPort, calm, start);
    }

    /** Drops the row of an unmapped port, then records the outcome. */
    method ForgetPort(op: Operation, owner: OwnerId, guest: int, host: int, calm: bool, ghost start: Ports)
      returns (r: Result<int>)
      requires Evolves(start, View(), true) && Guard(View(), Effect.DropRow(owner, guest))
      requires Performs(op, ReleaseKind, [guest, host]) && OwnerOf(op) == owner && Open(store.journal, op)
      modifies store`journal, store`published
      ensures Evolves(start, View(), true) && OnlyPort(old(View()), View(), owner, guest)
      ensures OnlyEntry(old(store.journal), store.journal, op) && (Keyed(old(store.journal)) ==> Keyed(store.journal))
      ensures r.Ok? ==>
        RowId(owner, guest) !in store.published && Closed(store.journal, op, Completed, "released")
      ensures calm ==> r.Ok? && store.published == old(store.published) - {RowId(owner, guest)}
    {
      var dropped := DropRow(owner, guest, calm, start);
      if !dropped {
        RecordFailure(op, "inventory", calm, start, true);
        return Err(Unavailable);
      }
      var completed := FinishRelease(op, guest, host, calm, start);
      return if completed then Ok(0) else Err(Unavailable);
    }
  }
}
