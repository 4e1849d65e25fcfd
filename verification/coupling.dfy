/**
  What ties the inventory's published-port rows to k8netd's mappings. `Ports` is everything the two
  of them and the journal say about published ports; each lemma is one effect of a handler.
*/
module Coupling {
  import opened HostAgent
  import opened Names
  import opened Journal
  import opened Inventory
  import opened K8netd

  const PublishKind := "PublishPort"
  const ReleaseKind := "ReleasePort"

  datatype Ports = Ports(
    journal: Entries,
    resources: map<OwnerId, Resource>,
    rows: map<RowId, int>,
    mappings: map<PublishKey, int>)

  /** Port names tell owners apart; UNIQUE (installation, port) enforces it within an installation. */
  ghost predicate DistinctPorts(resources: map<OwnerId, Resource>) {
    forall o, p | o in resources && p in resources && resources[o].port == resources[p].port :: o == p
  }

  function OwnerOf(op: Operation): OwnerId {
    OwnerId(op.id.installation, op.id.owner)
  }

  /** The entry belongs to that owner, kind and input. */
  predicate About(e: Entry, owner: OwnerId, kind: string, inputs: seq<int>) {
    && OwnerOf(e.operation) == owner && e.operation.kind == kind
    && e.operation.hash.Digest? && e.operation.hash.inputs == inputs
  }

  /** Some such operation was begun and is unfinished or failed. */
  ghost predicate Owing(journal: Entries, owner: OwnerId, kind: string, inputs: seq<int>) {
    exists id :: id in journal && About(journal[id], owner, kind, inputs) && !journal[id].state.Completed?
  }

  /** Row and mapping agree when both exist; one alone is explained by an unfinished or failed operation. */
  ghost predicate CoupledAt(p: Ports, owner: OwnerId, guest: int)
    requires owner in p.resources
  {
    var row, key := RowId(owner, guest), PublishKey(p.resources[owner].port, guest);
    && (row in p.rows && key in p.mappings ==> p.rows[row] == p.mappings[key])
    && (row in p.rows && key !in p.mappings ==> Owing(p.journal, owner, ReleaseKind, [guest, p.rows[row]]))
    && (row !in p.rows && key in p.mappings ==> Owing(p.journal, owner, PublishKind, [guest]))
  }

  ghost predicate Coupled(p: Ports) {
    && Keyed(p.journal) && DistinctPorts(p.resources)
    && (forall r | r in p.rows :: 1 <= p.rows[r] <= 65535)
    && (forall owner, guest | owner in p.resources :: CoupledAt(p, owner, guest))
  }

  /** Every completed PublishPort reported the port its row still holds: true until a release. */
  ghost predicate Recorded(p: Ports) {
    forall id, owner, guest | id in p.journal && About(p.journal[id], owner, PublishKind, [guest])
      && p.journal[id].state.Completed? ::
      RowId(owner, guest) in p.rows && Decodes(p.journal[id].result, p.rows[RowId(owner, guest)])
  }

  /** Every completed PublishPort reported some port in 1..65535. */
  ghost predicate Decodable(journal: Entries) {
    forall id | id in journal && journal[id].operation.kind == PublishKind && journal[id].state.Completed? ::
      exists host :: 1 <= host <= 65535 && Decodes(journal[id].result, host)
  }

  /** The JSON of an unsigned number is its decimal digits. */
  predicate Decodes(result: string, host: int) {
    ParseDigits(result).Some? && ParseDigits(result).value == host
  }

  lemma EncodeDecodes(host: nat)
    ensures Decodes(Decimal(host), host)
  {
    ParseDigitsOfDecimal(host);
  }

  // ---------------------------------------------------------------- effects on the journal

  /** Entries stay, and those that newly completed are about another operation. */
  ghost predicate KeepsOwing(before: Entries, after: Entries, owner: OwnerId, kind: string, inputs: seq<int>) {
    forall id | id in before && About(before[id], owner, kind, inputs) && !before[id].state.Completed? ::
      id in after && after[id].operation == before[id].operation && !after[id].state.Completed?
  }

  lemma OwingKept(before: Entries, after: Entries, owner: OwnerId, kind: string, inputs: seq<int>)
    requires Owing(before, owner, kind, inputs) && KeepsOwing(before, after, owner, kind, inputs)
    ensures Owing(after, owner, kind, inputs)
  {
    var id :| id in before && About(before[id], owner, kind, inputs) && !before[id].state.Completed?;
    assert About(after[id], owner, kind, inputs);
  }

  /** Journal changes that keep everything owed keep the coupling. */
  lemma JournalCoupled(p: Ports, after: Entries)
    requires Coupled(p) && Keyed(after)
    requires forall owner, guest | owner in p.resources ::
               var row, key := RowId(owner, guest), PublishKey(p.resources[owner].port, guest);
               && (row in p.rows && key !in p.mappings ==>
                   KeepsOwing(p.journal, after, owner, ReleaseKind, [guest, p.rows[row]]))
               && (row !in p.rows && key in p.mappings ==> KeepsOwing(p.journal, after, owner, PublishKind, [guest]))
    ensures Coupled(p.(journal := after))
  {
    var p' := p.(journal := after);
    forall owner, guest | owner in p.resources ensures CoupledAt(p', owner, guest) {
      assert CoupledAt(p, owner, guest);
      var row, key := RowId(owner, guest), PublishKey(p.resources[owner].port, guest);
      if row in p.rows && key !in p.mappings { OwingKept(p.journal, after, owner, ReleaseKind, [guest, p.rows[row]]); }
      if row !in p.rows && key in p.mappings { OwingKept(p.journal, after, owner, PublishKind, [guest]); }
    }
  }

  lemma BeginCoupled(p: Ports, op: Operation)
    requires Coupled(p)
    ensures Coupled(p.(journal := Begun(p.journal, op)))
  {
    JournalCoupled(p, Begun(p.journal, op));
  }

  /** A recorded failure leaves everything owed. */
  lemma FailKeepsOwing(journal: Entries, op: Operation, failure: string)
    requires Keyed(journal)
    ensures Keyed(Finished(journal, op, Failed, "", failure))
    ensures forall id | id in journal && !journal[id].state.Completed? ::
              var after := Finished(journal, op, Failed, "", failure);
              id in after && after[id].operation == journal[id].operation && !after[id].state.Completed?
  {
  }

  /** A completion changes its own entry only, and that is the operation's. */
  lemma FinishKeepsOthers(journal: Entries, op: Operation, result: string)
    requires Keyed(journal)
    ensures var after := Finished(journal, op, Completed, result, "");
      && Keyed(after)
      && forall id | id in journal ::
           id in after && (after[id] == journal[id] || (id == op.id && journal[id].operation == op))
  {
  }

  lemma FailCoupled(p: Ports, op: Operation, failure: string)
    requires Coupled(p)
    ensures Coupled(p.(journal := Finished(p.journal, op, Failed, "", failure)))
  {
    FailKeepsOwing(p.journal, op, failure);
    JournalCoupled(p, Finished(p.journal, op, Failed, "", failure));
  }

  /** A PublishPort may complete once its row exists. */
  lemma PublishedCoupled(p: Ports, op: Operation, guest: int, result: string)
    requires Coupled(p) && op.kind == PublishKind && op.hash.Digest? && op.hash.inputs == [guest]
    requires RowId(OwnerOf(op), guest) in p.rows
    ensures Coupled(p.(journal := Finished(p.journal, op, Completed, result, "")))
  {
    FinishKeepsOthers(p.journal, op, result);
    JournalCoupled(p, Finished(p.journal, op, Completed, result, ""));
  }

  /** A ReleasePort may complete once the row it names is gone. */
  lemma ReleasedCoupled(p: Ports, op: Operation, guest: int, host: int, result: string)
    requires Coupled(p) && op.kind == ReleaseKind && op.hash.Digest? && op.hash.inputs == [guest, host]
    requires RowId(OwnerOf(op), guest) !in p.rows
    ensures Coupled(p.(journal := Finished(p.journal, op, Completed, result, "")))
  {
    FinishKeepsOthers(p.journal, op, result);
    JournalCoupled(p, Finished(p.journal, op, Completed, result, ""));
  }

  // ---------------------------------------------------------------- effects on rows and mappings

  /** k8netd may map a port whose row is missing while a PublishPort for it is owed. */
  lemma MapCoupled(p: Ports, owner: OwnerId, guest: int, host: int)
    requires Coupled(p) && owner in p.resources && RowId(owner, guest) !in p.rows
    requires Owing(p.journal, owner, PublishKind, [guest])
    ensures Coupled(p.(mappings := p.mappings[PublishKey(p.resources[owner].port, guest) := host]))
  {
    var p' := p.(mappings := p.mappings[PublishKey(p.resources[owner].port, guest) := host]);
    forall o, g | o in p.resources ensures CoupledAt(p', o, g) {
      assert CoupledAt(p, o, g);
    }
  }

  /** A row may be written with the port k8netd maps. */
  lemma RowCoupled(p: Ports, owner: OwnerId, guest: int, host: int)
    requires Coupled(p) && owner in p.resources && 1 <= host <= 65535
    requires var key := PublishKey(p.resources[owner].port, guest); key in p.mappings && p.mappings[key] == host
    ensures Coupled(p.(rows := p.rows[RowId(owner, guest) := host]))
  {
    var p' := p.(rows := p.rows[RowId(owner, guest) := host]);
    forall o, g | o in p.resources ensures CoupledAt(p', o, g) {
      assert CoupledAt(p, o, g);
    }
  }

  /** A mapping may go while its row stays, as long as the release of exactly that row is owed. */
  lemma UnmapCoupled(p: Ports, owner: OwnerId, guest: int)
    requires Coupled(p) && owner in p.resources && RowId(owner, guest) in p.rows
    requires Owing(p.journal, owner, ReleaseKind, [guest, p.rows[RowId(owner, guest)]])
    ensures Coupled(p.(mappings := p.mappings - {PublishKey(p.resources[owner].port, guest)}))
  {
    var p' := p.(mappings := p.mappings - {PublishKey(p.resources[owner].port, guest)});
    forall o, g | o in p.resources ensures CoupledAt(p', o, g) {
      assert CoupledAt(p, o, g);
    }
  }

  /** A row may go once its mapping is gone. */
  lemma UnrowCoupled(p: Ports, owner: OwnerId, guest: int)
    requires Coupled(p) && owner in p.resources
    requires PublishKey(p.resources[owner].port, guest) !in p.mappings
    ensures Coupled(p.(rows := p.rows - {RowId(owner, guest)}))
  {
    var p' := p.(rows := p.rows - {RowId(owner, guest)});
    forall o, g | o in p.resources ensures CoupledAt(p', o, g) {
      assert CoupledAt(p, o, g);
    }
  }

  // ---------------------------------------------------------------- traces of effects

  /** One effect of PublishPort or ReleasePort. `id` is the journal entry it acts under. */
  datatype Effect =
    | Begin(op: Operation)
    | Fail(op: Operation, failure: string)
    | Map(id: Id, owner: OwnerId, guest: int, host: int)
    | WriteRow(owner: OwnerId, guest: int, host: int)
    | FinishPublish(op: Operation, guest: int, host: int)
    | Unmap(id: Id, owner: OwnerId, guest: int)
    | DropRow(owner: OwnerId, guest: int)
    | FinishRelease(op: Operation, guest: int, host: int)
  {
    predicate Releases() { Unmap? || DropRow? || FinishRelease? }
  }

  predicate Underway(journal: Entries, id: Id, owner: OwnerId, kind: string, inputs: seq<int>) {
    id in journal && About(journal[id], owner, kind, inputs) && !journal[id].state.Completed?
  }

  predicate Performs(op: Operation, kind: string, inputs: seq<int>) {
    op.kind == kind && op.hash.Digest? && op.hash.inputs == inputs
  }

  /** The key k8netd knows an owner's guest port by. */
  function KeyOf(p: Ports, owner: OwnerId, guest: int): PublishKey
    requires owner in p.resources
  {
    PublishKey(p.resources[owner].port, guest)
  }

  /** What a handler has established when it performs the effect. */
  predicate Guard(p: Ports, e: Effect) {
    match e
    case Begin(_) => true
    case Fail(_, _) => true
    case Map(id, owner, guest, _) =>
      && owner in p.resources && RowId(owner, guest) !in p.rows && KeyOf(p, owner, guest) !in p.mappings
      && Underway(p.journal, id, owner, PublishKind, [guest])
    case WriteRow(owner, guest, host) =>
      && owner in p.resources && 1 <= host <= 65535 && RowId(owner, guest) !in p.rows
      && KeyOf(p, owner, guest) in p.mappings && p.mappings[KeyOf(p, owner, guest)] == host
    case FinishPublish(op, guest, host) =>
      && Performs(op, PublishKind, [guest]) && host >= 0
      && RowId(OwnerOf(op), guest) in p.rows && p.rows[RowId(OwnerOf(op), guest)] == host
    case Unmap(id, owner, guest) =>
      && owner in p.resources && RowId(owner, guest) in p.rows
      && Underway(p.journal, id, owner, ReleaseKind, [guest, p.rows[RowId(owner, guest)]])
    case DropRow(owner, guest) => owner in p.resources && KeyOf(p, owner, guest) !in p.mappings
    case FinishRelease(op, guest, host) =>
      Performs(op, ReleaseKind, [guest, host]) && RowId(OwnerOf(op), guest) !in p.rows
  }

  function Apply(p: Ports, e: Effect): Ports
    requires Guard(p, e)
  {
    match e
    case Begin(op) => p.(journal := Begun(p.journal, op))
    case Fail(op, failure) => p.(journal := Finished(p.journal, op, Failed, "", failure))
    case Map(_, owner, guest, host) => p.(mappings := p.mappings[KeyOf(p, owner, guest) := host])
    case WriteRow(owner, guest, host) => p.(rows := p.rows[RowId(owner, guest) := host])
    case FinishPublish(op, _, host) => p.(journal := Finished(p.journal, op, Completed, Decimal(host), ""))
    case Unmap(_, owner, guest) => p.(mappings := p.mappings - {KeyOf(p, owner, guest)})
    case DropRow(owner, guest) => p.(rows := p.rows - {RowId(owner, guest)})
    case FinishRelease(op, _, _) => p.(journal := Finished(p.journal, op, Completed, "released", ""))
  }

  /** The trace leads from one state to the other, every effect guarded. */
  ghost predicate Leads(p: Ports, trace: seq<Effect>, q: Ports)
    decreases |trace|
  {
    if trace == [] then p == q
    else Guard(p, trace[0]) && Leads(Apply(p, trace[0]), trace[1..], q)
  }

  lemma {:induction false} LeadsOn(p: Ports, trace: seq<Effect>, q: Ports, more: seq<Effect>, r: Ports)
    requires Leads(p, trace, q) && Leads(q, more, r)
    ensures Leads(p, trace + more, r)
    decreases |trace|
  {
    if trace == [] {
      assert trace + more == more;
    } else {
      assert (trace + more)[1..] == trace[1..] + more;
      LeadsOn(Apply(p, trace[0]), trace[1..], q, more, r);
    }
  }

  lemma EffectCoupled(p: Ports, e: Effect)
    requires Coupled(p) && Guard(p, e)
    ensures Coupled(Apply(p, e))
  {
    match e
    case Begin(op) => BeginCoupled(p, op);
    case Fail(op, failure) => FailCoupled(p, op, failure);
    case Map(_, owner, guest, host) => MapCoupled(p, owner, guest, host);
    case WriteRow(owner, guest, host) => RowCoupled(p, owner, guest, host);
    case FinishPublish(op, guest, host) => PublishedCoupled(p, op, guest, Decimal(host));
    case Unmap(_, owner, guest) => UnmapCoupled(p, owner, guest);
    case DropRow(owner, guest) => UnrowCoupled(p, owner, guest);
    case FinishRelease(op, guest, host) => ReleasedCoupled(p, op, guest, host, "released");
  }

  /** Whatever effects handlers get done, rows and mappings stay coupled. */
  lemma {:induction false} TraceCoupled(p: Ports, trace: seq<Effect>, q: Ports)
    requires Coupled(p) && Leads(p, trace, q)
    ensures Coupled(q)
    decreases |trace|
  {
    if trace != [] {
      EffectCoupled(p, trace[0]);
      TraceCoupled(Apply(p, trace[0]), trace[1..], q);
    }
  }

  lemma EffectRecorded(p: Ports, e: Effect)
    requires Recorded(p) && Keyed(p.journal) && Guard(p, e) && !e.Releases()
    ensures Recorded(Apply(p, e)) && forall row | row in p.rows ::
                                       row in Apply(p, e).rows && Apply(p, e).rows[row] == p.rows[row]
  {
    match e
    case Begin(op) => JournalRecorded(p, Begun(p.journal, op));
    case Fail(op, failure) => JournalRecorded(p, Finished(p.journal, op, Failed, "", failure));
    case FinishPublish(op, guest, host) => FinishRecorded(p, op, guest, host);
    case Map(_, _, _, _) =>
    case WriteRow(_, _, _) =>
  }

  /** A journal in which nothing newly completed keeps telling the rows' ports. */
  lemma JournalRecorded(p: Ports, after: Entries)
    requires Recorded(p)
    requires forall id | id in after && after[id].state.Completed? :: id in p.journal && p.journal[id] == after[id]
    ensures Recorded(p.(journal := after))
  {
  }

  lemma FinishRecorded(p: Ports, op: Operation, guest: int, host: nat)
    requires Recorded(p) && Keyed(p.journal) && Guard(p, FinishPublish(op, guest, host))
    ensures Recorded(Apply(p, FinishPublish(op, guest, host)))
  {
    EncodeDecodes(host);
  }

  /** Without a release, rows never change and every completed PublishPort keeps telling its row's port. */
  lemma {:induction false} TraceRecorded(p: Ports, trace: seq<Effect>, q: Ports)
    requires Recorded(p) && Coupled(p) && Leads(p, trace, q) && forall e | e in trace :: !e.Releases()
    ensures Recorded(q) && forall row | row in p.rows :: row in q.rows && q.rows[row] == p.rows[row]
    decreases |trace|
  {
    if trace != [] {
      EffectCoupled(p, trace[0]);
      EffectRecorded(p, trace[0]);
      TraceRecorded(Apply(p, trace[0]), trace[1..], q);
    }
  }

  lemma EffectDecodable(p: Ports, e: Effect)
    requires Decodable(p.journal) && Coupled(p) && Guard(p, e)
    ensures Decodable(Apply(p, e).journal)
  {
    match e
    case Begin(op) => JournalDecodable(p.journal, Begun(p.journal, op));
    case Fail(op, failure) => JournalDecodable(p.journal, Finished(p.journal, op, Failed, "", failure));
    case FinishPublish(op, guest, host) => FinishDecodable(p, op, guest, host);
    case FinishRelease(op, guest, host) =>
      JournalDecodable(p.journal, Finished(p.journal, op, Completed, "released", ""));
    case _ =>
  }

  /** A journal in which no PublishPort newly completed tells as many ports as before. */
  lemma JournalDecodable(before: Entries, after: Entries)
    requires Decodable(before)
    requires forall id | id in after && after[id].operation.kind == PublishKind && after[id].state.Completed? ::
               id in before && before[id] == after[id]
    ensures Decodable(after)
  {
  }

  lemma FinishDecodable(p: Ports, op: Operation, guest: int, host: nat)
    requires Decodable(p.journal) && Coupled(p) && Guard(p, FinishPublish(op, guest, host))
    ensures Decodable(Apply(p, FinishPublish(op, guest, host)).journal)
  {
    EncodeDecodes(host);
  }

  lemma {:induction false} TraceDecodable(p: Ports, trace: seq<Effect>, q: Ports)
    requires Decodable(p.journal) && Coupled(p) && Leads(p, trace, q)
    ensures Decodable(q.journal)
    decreases |trace|
  {
    if trace != [] {
      EffectCoupled(p, trace[0]);
      EffectDecodable(p, trace[0]);
      TraceDecodable(Apply(p, trace[0]), trace[1..], q);
    }
  }

  lemma BeginExtends(journal: Entries, op: Operation)
    requires Keyed(journal)
    ensures Keyed(Begun(journal, op)) && Extends(journal, Begun(journal, op))
  {
  }

  lemma FinishExtends(journal: Entries, op: Operation, state: State, result: string, failure: string)
    requires Keyed(journal)
    ensures var after := Finished(journal, op, state, result, failure); Keyed(after) && Extends(journal, after)
  {
    BeginExtends(journal, op);
  }

  /** No effect loses a journal entry or changes a terminal one. */
  lemma EffectExtends(p: Ports, e: Effect)
    requires Keyed(p.journal) && Guard(p, e)
    ensures Keyed(Apply(p, e).journal) && Extends(p.journal, Apply(p, e).journal)
  {
    match e
    case Begin(op) => BeginExtends(p.journal, op);
    case Fail(op, failure) => FinishExtends(p.journal, op, Failed, "", failure);
    case FinishPublish(op, _, host) => FinishExtends(p.journal, op, Completed, Decimal(host), "");
    case FinishRelease(op, _, _) => FinishExtends(p.journal, op, Completed, "released", "");
    case _ =>
  }

  lemma {:induction false} TraceExtends(p: Ports, trace: seq<Effect>, q: Ports)
    requires Keyed(p.journal) && Leads(p, trace, q)
    ensures Extends(p.journal, q.journal)
    decreases |trace|
  {
    if trace != [] {
      EffectExtends(p, trace[0]);
      TraceExtends(Apply(p, trace[0]), trace[1..], q);
    }
  }

  /** Some trace leads from p to q; without `releasing`, one that releases nothing. */
  ghost predicate Evolves(p: Ports, q: Ports, releasing: bool) {
    exists trace: seq<Effect> :: Leads(p, trace, q) && (releasing || forall e | e in trace :: !e.Releases())
  }

  lemma EvolvesSelf(p: Ports, releasing: bool)
    ensures Evolves(p, p, releasing)
  {
    assert Leads(p, [], p);
  }

  lemma EvolvesStep(start: Ports, p: Ports, e: Effect, q: Ports, releasing: bool)
    requires Evolves(start, p, releasing) && Guard(p, e) && q == Apply(p, e) && (releasing || !e.Releases())
    ensures Evolves(start, q, releasing)
  {
    var trace: seq<Effect> :| Leads(start, trace, p) && (releasing || forall e | e in trace :: !e.Releases());
    assert Leads(p, [e], q);
    LeadsOn(start, trace, p, [e], q);
    assert Leads(start, trace + [e], q);
  }

  /** The invariants of every run of port handlers, interrupted or not. */
  lemma EvolvesCoupled(p: Ports, q: Ports, releasing: bool)
    requires Evolves(p, q, releasing) && Coupled(p) && Decodable(p.journal)
    ensures Coupled(q) && Decodable(q.journal) && Extends(p.journal, q.journal)
    ensures !releasing && Recorded(p) ==>
      Recorded(q) && forall row | row in p.rows :: row in q.rows && q.rows[row] == p.rows[row]
  {
    var trace: seq<Effect> :| Leads(p, trace, q) && (releasing || forall e | e in trace :: !e.Releases());
    TraceCoupled(p, trace, q);
    TraceDecodable(p, trace, q);
    TraceExtends(p, trace, q);
    if !releasing && Recorded(p) { TraceRecorded(p, trace, q); }
  }
}
