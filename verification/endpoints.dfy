/**
  The host ports a control-plane HypervisorMachine reports in its status. The machine controller asks
  the host agent for each of them and remembers the answers; status, inventory and k8netd must agree.
*/
module Endpoints {
  import opened Common
  import opened Names
  import opened HostAgent
  import opened Journal
  import opened Inventory
  import opened Coupling
  import opened Executor
  import opened PortRuns
  import K8netd

  datatype PublishedPort = PublishedPort(vmPort: int, hostPort: int)

  /** API server, SSH and etcd client. */
  const ControlPlanePorts := [6443, 22, 2379]

  /** The host port recorded for a VM port: the first entry counts. */
  function Lookup(ports: seq<PublishedPort>, vmPort: int): Option<int> {
    if ports == [] then None
    else if ports[0].vmPort == vmPort then Some(ports[0].hostPort)
    else Lookup(ports[1..], vmPort)
  }

  method PublishedHostPort(ports: seq<PublishedPort>, vmPort: int) returns (r: Option<int>)
    ensures r == Lookup(ports, vmPort)
  {
    for i := 0 to |ports|
      invariant Lookup(ports, vmPort) == Lookup(ports[i..], vmPort)
    {
      if ports[i].vmPort == vmPort { return Some(ports[i].hostPort); }
      assert ports[i..][1..] == ports[i + 1..];
    }
    return None;
  }

  /** The effect of recording an allocation at the first entry for its port, or behind all entries. */
  lemma {:induction false} LookupUpdated(ports: seq<PublishedPort>, k: nat, a: PublishedPort, vmPort: int)
    requires k <= |ports| && forall j | 0 <= j < k :: ports[j].vmPort != a.vmPort
    requires k < |ports| ==> ports[k].vmPort == a.vmPort
    ensures Lookup(ports[..k] + [a] + if k < |ports| then ports[k + 1..] else [], vmPort)
            == if vmPort == a.vmPort then Some(a.hostPort) else Lookup(ports, vmPort)
    decreases k
  {
    var rest := if k < |ports| then ports[k + 1..] else [];
    var updated := ports[..k] + [a] + rest;
    if k == 0 {
      assert updated[1..] == rest;
    } else {
      LookupUpdated(ports[1..], k - 1, a, vmPort);
      assert updated[1..] == ports[1..][..k - 1] + [a] + if k - 1 < |ports[1..]| then ports[1..][k..] else [];
    }
  }

  method UpsertPublishedPort(ports: seq<PublishedPort>, a: PublishedPort) returns (r: seq<PublishedPort>)
    ensures forall vmPort :: Lookup(r, vmPort) == if vmPort == a.vmPort then Some(a.hostPort) else Lookup(ports, vmPort)
  {
    for i := 0 to |ports|
      invariant forall j | 0 <= j < i :: ports[j].vmPort != a.vmPort
    {
      if ports[i].vmPort == a.vmPort {
        r := ports[i := a];
        forall vmPort
          ensures Lookup(r, vmPort) == if vmPort == a.vmPort then Some(a.hostPort) else Lookup(ports, vmPort)
        {
          LookupUpdated(ports, i, a, vmPort);
          assert r == ports[..i] + [a] + ports[i + 1..];
        }
        return;
      }
    }
    r := ports + [a];
    forall vmPort ensures Lookup(r, vmPort) == if vmPort == a.vmPort then Some(a.hostPort) else Lookup(ports, vmPort) {
      LookupUpdated(ports, |ports|, a, vmPort);
      assert r == ports[..|ports|] + [a] + [];
    }
  }

  /** What the status reports for the owner's VM is what the inventory holds. */
  ghost predicate StatusAgrees(status: seq<PublishedPort>, rows: map<RowId, int>, owner: OwnerId) {
    forall vmPort | Lookup(status, vmPort).Some? ::
      RowId(owner, vmPort) in rows && rows[RowId(owner, vmPort)] == Lookup(status, vmPort).value
  }

  ghost predicate Grows(before: map<RowId, int>, after: map<RowId, int>) {
    forall row | row in before :: row in after && after[row] == before[row]
  }

  function KeyFor(m: Mutation, vmPort: nat): Mutation {
    m.(key := m.key + "-publish-" + Decimal(vmPort))
  }

  /** Each port is asked for under a key of its own. */
  lemma KeysDiffer(m: Mutation, a: nat, b: nat)
    requires a != b
    ensures PublishFor(m, a).id != PublishFor(m, b).id
  {
    ParseDigitsOfDecimal(a);
    ParseDigitsOfDecimal(b);
    var prefix := m.key + "-publish-";
    assert KeyFor(m, a).key[|prefix|..] == Decimal(a) && KeyFor(m, b).key[|prefix|..] == Decimal(b);
  }

  // ---------------------------------------------------------------- what an undisturbed reconcile gets

  function PublishFor(m: Mutation, vmPort: nat): Operation { OperationFor(KeyFor(m, vmPort), PublishKind, [vmPort]) }

  /** The host port k8netd would answer with, `next` being its counter. */
  function OfferOf(p: Ports, next: Int32, owner: OwnerId, vmPort: nat): int
    requires owner in p.resources
  {
    var key := KeyOf(p, owner, vmPort);
    if key in p.mappings then p.mappings[key] else next
  }

  /** The port is on record, or its key is unused and the offer can be recorded. */
  predicate Obtainable(p: Ports, next: Int32, m: Mutation, vmPort: nat)
    requires IdOf(m.owner) in p.resources
  {
    var row := RowId(IdOf(m.owner), vmPort);
    || row in p.rows
    || (Unused(p.journal, PublishFor(m, vmPort)) && Recordable(p.rows, row, OfferOf(p, next, IdOf(m.owner), vmPort)))
  }

  /** Rows and mappings once the port is handed out. */
  function Grant(p: Ports, next: Int32, owner: OwnerId, vmPort: nat): Ports
    requires owner in p.resources
  {
    var row, offer := RowId(owner, vmPort), OfferOf(p, next, owner, vmPort);
    if row in p.rows then p
    else p.(rows := p.rows[row := offer], mappings := p.mappings[KeyOf(p, owner, vmPort) := offer])
  }

  function CounterAfter(p: Ports, next: Int32, owner: OwnerId, vmPort: nat): Int32
    requires owner in p.resources
  {
    Following(next, RowId(owner, vmPort) in p.rows || KeyOf(p, owner, vmPort) in p.mappings)
  }

  /** Each port in turn is in the status or obtainable, given the ones before it. */
  ghost predicate AllObtainable(p: Ports, next: Int32, m: Mutation, status: seq<PublishedPort>, ports: seq<nat>)
    requires IdOf(m.owner) in p.resources
    decreases |ports|
  {
    ports == [] ||
    if Lookup(status, ports[0]).Some? then AllObtainable(p, next, m, status, ports[1..])
    else
      && Obtainable(p, next, m, ports[0])
      && AllObtainable(Grant(p, next, IdOf(m.owner), ports[0]), CounterAfter(p, next, IdOf(m.owner), ports[0]), m,
          status, ports[1..])
  }

  /** Journal entries under other keys, and status entries of other ports, do not matter. */
  lemma {:induction false} OthersIrrelevant(
    p: Ports, q: Ports, next: Int32, m: Mutation, status: seq<PublishedPort>, status': seq<PublishedPort>,
    ports: seq<nat>, done: nat)
    requires IdOf(m.owner) in p.resources && AllObtainable(p, next, m, status, ports) && done !in ports
    requires q == p.(journal := q.journal) && OnlyEntry(p.journal, q.journal, PublishFor(m, done))
    requires Updates(status, status', done)
    ensures AllObtainable(q, next, m, status', ports)
    decreases |ports|
  {
    if ports != [] {
      var first, owner := ports[0], IdOf(m.owner);
      assert first in ports && first != done;
      if Lookup(status, first).Some? {
        OthersIrrelevant(p, q, next, m, status, status', ports[1..], done);
      } else {
        KeysDiffer(m, first, done);
        OtherEntryKept(p.journal, q.journal, PublishFor(m, done), PublishFor(m, first).id);
        OthersIrrelevant(Grant(p, next, owner, first), Grant(q, next, owner, first),
                         CounterAfter(p, next, owner, first), m, status, status', ports[1..], done);
      }
    }
  }

  /** Nothing of the owner's ports is on record or mapped, and k8netd's next ports are free. */
  ghost predicate Untouched(p: Ports, next: Int32, m: Mutation, ports: seq<nat>)
    requires IdOf(m.owner) in p.resources
  {
    && (forall port | port in ports ::
          RowId(IdOf(m.owner), port) !in p.rows && PublishFor(m, port).id !in p.journal
            && KeyOf(p, IdOf(m.owner), port) !in p.mappings)
    && 1 <= next && next + |ports| <= 65536
    && forall row | row in p.rows :: !(next <= p.rows[row] < next + |ports|)
  }

  lemma GrantOnUntouched(p: Ports, next: Int32, m: Mutation, ports: seq<nat>)
    requires IdOf(m.owner) in p.resources && ports != [] && ports[0] !in ports[1..] && Untouched(p, next, m, ports)
    ensures Obtainable(p, next, m, ports[0])
    ensures Untouched(Grant(p, next, IdOf(m.owner), ports[0]), CounterAfter(p, next, IdOf(m.owner), ports[0]), m,
                ports[1..])
  {
    assert ports[0] in ports;
    assert K8netd.Wrap(next + 1) == next + 1;
    var q := Grant(p, next, IdOf(m.owner), ports[0]);
    forall port | port in ports[1..]
      ensures RowId(IdOf(m.owner), port) !in q.rows && KeyOf(q, IdOf(m.owner), port) !in q.mappings
        && PublishFor(m, port).id !in q.journal
    {
      assert port in ports && port != ports[0];
    }
  }

  /** For an owner without published ports it is enough that k8netd's next ports are in range and free. */
  lemma {:induction false} UntouchedIsObtainable(
    p: Ports, next: Int32, m: Mutation, status: seq<PublishedPort>, ports: seq<nat>)
    requires IdOf(m.owner) in p.resources && Untouched(p, next, m, ports)
    requires forall i, j | 0 <= i < j < |ports| :: ports[i] != ports[j]
    requires forall port | port in ports :: Lookup(status, port).None?
    ensures AllObtainable(p, next, m, status, ports)
    decreases |ports|
  {
    if ports != [] {
      GrantOnUntouched(p, next, m, ports);
      UntouchedIsObtainable(Grant(p, next, IdOf(m.owner), ports[0]), CounterAfter(p, next, IdOf(m.owner), ports[0]), m,
                            status, ports[1..]);
    }
  }

  // ---------------------------------------------------------------- the reconcile

  /** What an undisturbed request for the port leads to. */
  ghost predicate Granted(p: Ports, next: Int32, q: Ports, next': Int32, m: Mutation, vmPort: nat)
    requires IdOf(m.owner) in p.resources
  {
    && OnlyEntry(p.journal, q.journal, PublishFor(m, vmPort))
    && q == Grant(p, next, IdOf(m.owner), vmPort).(journal := q.journal)
    && next' == CounterAfter(p, next, IdOf(m.owner), vmPort)
  }

  /** Asks the host agent for one port. */
  method Ask(e: Executor, m: Mutation, vmPort: nat, calm: bool) returns (answer: Result<int>)
    requires e.network.Valid() && Sound(e.View()) && Recorded(e.View())
    modifies e.store`journal, e.store`published, e.network
    ensures e.network.Valid() && Sound(e.View()) && Recorded(e.View())
      && Grows(old(e.store.published), e.store.published)
    ensures answer.Ok? ==> HoldsRow(e.View(), RowId(IdOf(m.owner), vmPort), answer.value)
    ensures calm && m.Valid() && e.Serves(m.owner, vmPort)
            && Obtainable(old(e.View()), old(e.network.nextHostPort), m, vmPort) ==>
      answer.Ok? && Granted(old(e.View()), old(e.network.nextHostPort), e.View(), e.network.nextHostPort, m, vmPort)
  {
    answer := Serve(e, Publish(KeyFor(m, vmPort), vmPort, 0), calm);
  }

  /** A status that may have gained an entry for the port, and is otherwise the same. */
  ghost predicate Updates(status: seq<PublishedPort>, r: seq<PublishedPort>, vmPort: int) {
    forall p | Lookup(status, p).Some? || p != vmPort :: Lookup(r, p) == Lookup(status, p)
  }

  /** The owner may publish each of the ports, and each can be had in its turn. */
  ghost predicate Entitles(e: Executor, m: Mutation, status: seq<PublishedPort>, ports: seq<nat>)
    reads e.store, e.network
  {
    && m.Valid() && IdOf(m.owner) in e.store.resources
    && (forall port | port in ports :: e.Serves(m.owner, port))
    && AllObtainable(e.View(), e.network.nextHostPort, m, status, ports)
  }

  /** Once the first port is handed out, the rest can still be had. */
  lemma EntitlesRest(
    e: Executor, m: Mutation, p: Ports, next: Int32, status: seq<PublishedPort>, status': seq<PublishedPort>,
    ports: seq<nat>)
    requires ports != [] && ports[0] !in ports[1..] && m.Valid() && IdOf(m.owner) in p.resources
    requires forall port | port in ports :: e.Serves(m.owner, port)
    requires AllObtainable(p, next, m, status, ports)
    requires Updates(status, status', ports[0])
    requires Lookup(status, ports[0]).None? && Granted(p, next, e.View(), e.network.nextHostPort, m, ports[0])
    ensures Entitles(e, m, status', ports[1..])
  {
    OthersIrrelevant(Grant(p, next, IdOf(m.owner), ports[0]), e.View(), e.network.nextHostPort, m, status, status',
                     ports[1..], ports[0]);
  }

  /** One port: left alone when the status has it, otherwise asked for and recorded. */
  method PublishOne(e: Executor, m: Mutation, status: seq<PublishedPort>, vmPort: nat, calm: bool, ghost rest: seq<nat>)
    returns (ok: bool, r: seq<PublishedPort>)
    requires e.network.Valid() && Sound(e.View()) && Recorded(e.View())
    modifies e.store`journal, e.store`published, e.network
    ensures e.network.Valid() && Sound(e.View()) && Recorded(e.View())
      && Grows(old(e.store.published), e.store.published)
    ensures StatusAgrees(status, old(e.store.published), IdOf(m.owner)) ==>
      StatusAgrees(r, e.store.published, IdOf(m.owner))
    ensures Updates(status, r, vmPort) && (ok ==> Lookup(r, vmPort).Some?)
    ensures Lookup(status, vmPort).Some? ==> ok && r == status && e.View() == old(e.View())
    ensures calm && vmPort !in rest && old(Entitles(e, m, status, [vmPort] + rest)) ==>
      ok && Entitles(e, m, r, rest)
  {
    var known := PublishedHostPort(status, vmPort);
    assert ([vmPort] + rest)[1..] == rest && vmPort in [vmPort] + rest;
    if known.Some? { return true, status; }
    var answer := Ask(e, m, vmPort, calm);
    if answer.Err? { return false, status; }
    r := UpsertPublishedPort(status, PublishedPort(vmPort, answer.value));
    ok := true;
    if calm && vmPort !in rest && old(Entitles(e, m, status, [vmPort] + rest)) {
      EntitlesRest(e, m, old(e.View()), old(e.network.nextHostPort), status, r, [vmPort] + rest);
    }
  }

  /** Entries of the first status keep their value in the second. */
  ghost predicate Remembers(status: seq<PublishedPort>, r: seq<PublishedPort>) {
    forall vmPort | Lookup(status, vmPort).Some? :: Lookup(r, vmPort) == Lookup(status, vmPort)
  }

  lemma PortsDiffer(i: nat)
    requires i < |ControlPlanePorts|
    ensures ControlPlanePorts[i] !in ControlPlanePorts[i + 1..]
    ensures ControlPlanePorts[i..] == [ControlPlanePorts[i]] + ControlPlanePorts[i + 1..]
  {
  }

  /**
    Publishing the control-plane ports, interrupted anywhere: the status agrees with the inventory
    before and after, ports already recorded keep their value, and success means that all three are recorded.
    Undisturbed it succeeds whenever all three can be had.
  */
  method PublishControlPlaneEndpoints(e: Executor, m: Mutation, status: seq<PublishedPort>, calm: bool)
    returns (ok: bool, r: seq<PublishedPort>)
    requires e.network.Valid() && Sound(e.View()) && Recorded(e.View())
    modifies e.store`journal, e.store`published, e.network
    ensures e.network.Valid() && Sound(e.View()) && Recorded(e.View())
      && Grows(old(e.store.published), e.store.published)
    ensures StatusAgrees(status, old(e.store.published), IdOf(m.owner)) ==>
      StatusAgrees(r, e.store.published, IdOf(m.owner))
    ensures Remembers(status, r)
    ensures ok ==> forall vmPort | vmPort in ControlPlanePorts :: Lookup(r, vmPort).Some?
    ensures calm && old(Entitles(e, m, status, ControlPlanePorts)) ==> ok
  {
    r := status;
    ghost var entitled := calm && Entitles(e, m, status, ControlPlanePorts);
    assert ControlPlanePorts[0..] == ControlPlanePorts;
    for i := 0 to |ControlPlanePorts|
      invariant e.network.Valid() && Sound(e.View()) && Recorded(e.View())
        && Grows(old(e.store.published), e.store.published)
      invariant StatusAgrees(status, old(e.store.published), IdOf(m.owner)) ==>
        StatusAgrees(r, e.store.published, IdOf(m.owner))
      invariant Remembers(status, r)
      invariant forall j | 0 <= j < i :: Lookup(r, ControlPlanePorts[j]).Some?
      invariant entitled ==> Entitles(e, m, r, ControlPlanePorts[i..])
    {
      PortsDiffer(i);
      ok, r := PublishOne(e, m, r, ControlPlanePorts[i], calm, ControlPlanePorts[i + 1..]);
      if !ok { return; }
    }
    ok := true;
  }

  /** Reconcile after reconcile, each starting from the status the last one to be persisted left. */
  method Reconciles(e: Executor, m: Mutation, persisted: seq<bool>) returns (status: seq<PublishedPort>)
    requires e.network.Valid() && Sound(e.View()) && Recorded(e.View())
    modifies e.store`journal, e.store`published, e.network
    ensures e.network.Valid() && Sound(e.View()) && Recorded(e.View())
    ensures StatusAgrees(status, e.store.published, IdOf(m.owner))
  {
    status := [];
    for i := 0 to |persisted|
      invariant e.network.Valid() && Sound(e.View()) && Recorded(e.View())
      invariant StatusAgrees(status, e.store.published, IdOf(m.owner))
    {
      var _, reported := PublishControlPlaneEndpoints(e, m, status, false);
      if persisted[i] { status := reported; }
    }
  }
}
