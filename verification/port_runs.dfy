/** Whole runs of PublishPort and ReleasePort calls, each of which may be cut short anywhere. */
module PortRuns {
  import opened HostAgent
  import opened Journal
  import opened Inventory
  import opened K8netd
  import opened Coupling
  import opened Executor

  datatype Call =
    | Publish(m: Mutation, guest: int, host: int)
    | Release(m: Mutation, guest: int, host: int)
  {
    function Row(): RowId { RowId(IdOf(m.owner), guest) }
  }

  ghost predicate Sound(p: Ports) {
    Coupled(p) && Decodable(p.journal)
  }

  /** The answer is a port in range and, until a release, the one the row holds. */
  lemma ToldIsRecorded(p: Ports, m: Mutation, guest: int, host: int)
    requires Sound(p) && Told(p, m, guest, host)
    ensures 1 <= host <= 65535
    ensures Recorded(p) ==> RowId(IdOf(m.owner), guest) in p.rows && p.rows[RowId(IdOf(m.owner), guest)] == host
  {
    var op := OperationFor(m, PublishKind, [guest]);
    if op.id in p.journal && p.journal[op.id].operation == op && p.journal[op.id].state.Completed? {
      assert About(p.journal[op.id], IdOf(m.owner), PublishKind, [guest]);
    }
  }

  /** Both answers are ports, for the same owner and guest port. */
  predicate BothPublished(calls: seq<Call>, answers: seq<Result<int>>, i: nat, j: nat)
    requires |answers| <= |calls| && i < |answers| && j < |answers|
  {
    calls[i].Publish? && calls[j].Publish? && calls[i].Row() == calls[j].Row() && answers[i].Ok? && answers[j].Ok?
  }

  function PublishOf(c: Call): Operation { OperationFor(c.m, PublishKind, [c.guest]) }

  function ReleaseOf(c: Call): Operation { OperationFor(c.m, ReleaseKind, [c.guest, c.host]) }

  /** A release answered with success: it went through just now, or its key already held it completed. */
  ghost predicate GivenBack(p: Ports, q: Ports, c: Call) {
    && Settled(q.journal, ReleaseOf(c), Completed)
    && (Settled(p.journal, ReleaseOf(c), Completed) || Freed(p, q, c.m, c.guest, c.host))
  }

  /** One call. Undisturbed, a port is handed out whenever there is one to hand out. */
  method Serve(e: Executor, c: Call, calm: bool) returns (answer: Result<int>)
    requires e.network.Valid() && Sound(e.View())
    modifies e.store`journal, e.store`published, e.network
    ensures e.network.Valid() && Sound(e.View()) && Extends(old(e.store.journal), e.store.journal)
    ensures c.Release? && answer.Ok? ==> GivenBack(old(e.View()), e.View(), c)
    ensures c.Publish? && calm && c.m.Valid() && c.host == 0 && e.Serves(c.m.owner, c.guest) ==>
      Published(old(e.View()), e.View(), c.m, c.guest, old(e.network.Offer(KeyOf(e.View(), IdOf(c.m.owner), c.guest))),
          answer)
    ensures c.Publish? && calm && c.m.Valid() && c.host == 0 && e.Serves(c.m.owner, c.guest)
            && c.Row() !in old(e.store.published) && Unused(old(e.store.journal), PublishOf(c)) ==>
      e.network.nextHostPort
      == Following(old(e.network.nextHostPort), KeyOf(e.View(), IdOf(c.m.owner), c.guest) in old(e.network.published))
    ensures c.Publish? && c.Row() in old(e.store.published) ==> e.network.nextHostPort == old(e.network.nextHostPort)
    ensures c.Publish? ==> OnlyEntry(old(e.store.journal), e.store.journal, PublishOf(c))
    ensures c.Publish? && answer.Ok? ==> 1 <= answer.value <= 65535
    ensures c.Publish? && old(Recorded(e.View())) ==>
      && Recorded(e.View())
      && (forall row | row in old(e.store.published) ::
            row in e.store.published && e.store.published[row] == old(e.store.published)[row])
      && (answer.Ok? ==> c.Row() in e.store.published && e.store.published[c.Row()] == answer.value)
  {
    ghost var before := e.View();
    if c.Publish? {
      answer := e.PublishPort(c.m, c.guest, c.host, calm);
      EvolvesCoupled(before, e.View(), false);
      if answer.Ok? { ToldIsRecorded(e.View(), c.m, c.guest, answer.value); }
    } else {
      var dies: bool := *;
      answer := e.ReleasePort(c.m, c.guest, c.host, calm, dies);
      EvolvesCoupled(before, e.View(), true);
    }
  }

  /** Every release answered with success went through when it was served, or was on record as completed by then. */
  ghost predicate AllGivenBack(calls: seq<Call>, answers: seq<Result<int>>, states: seq<Ports>) {
    && |answers| <= |calls| && |states| == |answers| + 1
    && forall i | 0 <= i < |answers| && calls[i].Release? && answers[i].Ok? ::
         GivenBack(states[i], states[i + 1], calls[i])
  }

  /** Every port answered is one. */
  predicate InRange(calls: seq<Call>, answers: seq<Result<int>>) {
    && |answers| <= |calls|
    && forall i | 0 <= i < |answers| && calls[i].Publish? && answers[i].Ok? :: 1 <= answers[i].value <= 65535
  }

  lemma InRangeOn(calls: seq<Call>, answers: seq<Result<int>>, answer: Result<int>)
    requires InRange(calls, answers) && |answers| < |calls|
    requires calls[|answers|].Publish? && answer.Ok? ==> 1 <= answer.value <= 65535
    ensures InRange(calls, answers + [answer])
  {
  }

  lemma GivenBackOn(calls: seq<Call>, answers: seq<Result<int>>, states: seq<Ports>, answer: Result<int>, p: Ports)
    requires AllGivenBack(calls, answers, states) && |answers| < |calls|
    requires var k := |answers|; calls[k].Release? && answer.Ok? ==> GivenBack(states[k], p, calls[k])
    ensures AllGivenBack(calls, answers + [answer], states + [p])
  {
  }

  /** Every release answered with success is on record. */
  ghost predicate AllOnRecord(calls: seq<Call>, answers: seq<Result<int>>, journal: Entries) {
    && |answers| <= |calls|
    && forall i | 0 <= i < |answers| && calls[i].Release? && answers[i].Ok? ::
         Settled(journal, ReleaseOf(calls[i]), Completed)
  }

  lemma OnRecordStays(calls: seq<Call>, answers: seq<Result<int>>, before: Entries, answer: Result<int>, after: Entries)
    requires AllOnRecord(calls, answers, before) && |answers| < |calls| && Extends(before, after)
    requires var c := calls[|answers|]; c.Release? && answer.Ok? ==> Settled(after, ReleaseOf(c), Completed)
    ensures AllOnRecord(calls, answers + [answer], after)
  {
  }

  /**
    Rows and mappings stay coupled over every interrupted run, and the journal only grows. Without a release, all
    the ports that PublishPort calls report for one owner and guest port are the same, whatever their keys. A
    release reported as done took row and mapping away when it was served, unless its key had completed it
    before, and stays on record as completed.
  */
  method Run(e: Executor, calls: seq<Call>) returns (answers: seq<Result<int>>, ghost states: seq<Ports>)
    requires e.network.Valid() && Sound(e.View())
    modifies e.store, e.network
    ensures e.network.Valid() && Sound(e.View()) && |answers| == |calls|
    ensures e.store.resources == old(e.store.resources)
    ensures |states| == |calls| + 1 && states[0] == old(e.View()) && states[|calls|] == e.View()
    ensures AllGivenBack(calls, answers, states) && AllOnRecord(calls, answers, e.store.journal)
    ensures InRange(calls, answers)
    ensures old(Recorded(e.View())) && (forall c | c in calls :: c.Publish?) ==>
              forall i, j | 0 <= i < |calls| && 0 <= j < |calls| && BothPublished(calls, answers, i, j) ::
                answers[i] == answers[j]
  {
    answers, states := [], [e.View()];
    ghost var publishing := Recorded(e.View()) && forall c | c in calls :: c.Publish?;
    for k := 0 to |calls|
      invariant e.network.Valid() && Sound(e.View()) && |answers| == k
      invariant e.store.resources == old(e.store.resources)
      invariant |states| == k + 1 && states[0] == old(e.View()) && states[k] == e.View()
      invariant AllGivenBack(calls, answers, states) && AllOnRecord(calls, answers, e.store.journal)
      invariant InRange(calls, answers)
      invariant publishing ==> Recorded(e.View()) && TellRows(calls, answers, e.store.published)
    {
      ghost var before := e.View();
      var answer := Serve(e, calls[k], false);
      InRangeOn(calls, answers, answer);
      OnRecordStays(calls, answers, before.journal, answer, e.store.journal);
      GivenBackOn(calls, answers, states, answer, e.View());
      if publishing { TellRowsOn(calls, answers, before.rows, answer, e.store.published); }
      answers, states := answers + [answer], states + [e.View()];
    }
    if publishing { TellRowsAgree(calls, answers, e.store.published); }
  }

  /** Every port answered is the one its row holds. */
  predicate TellRows(calls: seq<Call>, answers: seq<Result<int>>, rows: map<RowId, int>) {
    && |answers| <= |calls|
    && forall i | 0 <= i < |answers| && answers[i].Ok? ::
         calls[i].Row() in rows && rows[calls[i].Row()] == answers[i].value
  }

  lemma TellRowsOn(
    calls: seq<Call>, answers: seq<Result<int>>, rows: map<RowId, int>, answer: Result<int>, rows': map<RowId, int>)
    requires TellRows(calls, answers, rows) && |answers| < |calls|
    requires forall row | row in rows :: row in rows' && rows'[row] == rows[row]
    requires var row := calls[|answers|].Row(); answer.Ok? ==> row in rows' && rows'[row] == answer.value
    ensures TellRows(calls, answers + [answer], rows')
  {
  }

  lemma TellRowsAgree(calls: seq<Call>, answers: seq<Result<int>>, rows: map<RowId, int>)
    requires TellRows(calls, answers, rows) && |answers| == |calls|
    ensures forall i, j | 0 <= i < |calls| && 0 <= j < |calls| && BothPublished(calls, answers, i, j) ::
              answers[i] == answers[j]
  {
  }

  // ---------------------------------------------------------------- limits

  /** A first use of the key by this owner: nothing is journalled under it. */
  predicate NewKey(journal: Entries, m: Mutation) {
    m.Valid() && OperationFor(m, PublishKind, []).id !in journal
  }

  /**
    The run of the agreement theorem must be free of releases: published under one key and released under
    another, a port is still what the first key answers, although neither its row nor its mapping is left.
  */
  method ReleasedKeyStillAnswers(e: Executor, m: Mutation, rm: Mutation, guest: int)
    returns (host: int, again: Result<int>)
    requires e.network.Valid() && Keyed(e.store.journal) && e.Serves(m.owner, guest)
    requires rm.owner == m.owner && rm.key != m.key && NewKey(e.store.journal, m) && NewKey(e.store.journal, rm)
    requires RowId(IdOf(m.owner), guest) !in e.store.published
    requires Recordable(e.store.published, RowId(IdOf(m.owner), guest),
        e.network.Offer(KeyOf(e.View(), IdOf(m.owner), guest)))
    modifies e.store, e.network
    ensures again == Ok(host) && 1 <= host <= 65535
    ensures RowId(IdOf(m.owner), guest) !in e.store.published
    ensures e.store.resources == old(e.store.resources) && KeyOf(e.View(), IdOf(m.owner), guest) !in e.network.published
  {
    var op := OperationFor(m, PublishKind, [guest]);
    ghost var journal := e.store.journal;
    var first := e.PublishPort(m, guest, 0, true);
    host := first.value;
    var rop := OperationFor(rm, ReleaseKind, [guest, host]);
    OtherEntryKept(journal, e.store.journal, op, rop.id);
    journal := e.store.journal;
    var released := e.ReleasePort(rm, guest, host, true, false);
    OtherEntryKept(journal, e.store.journal, rop, op.id);
    EncodeDecodes(host);
    again := e.PublishPort(m, guest, 0, true);
  }

  /**
    Port names must tell owners apart, which the inventory enforces only within an installation. When two
    owners share one, a release of the first that dies between its two effects and a publish for the second
    leave the first one's row and the mapping disagreeing.
  */
  method SharedPortBreaksAgreement(e: Executor, m: Mutation, rm: Mutation, other: Mutation, guest: int)
    requires e.network.Valid() && Keyed(e.store.journal) && e.Serves(m.owner, guest) && e.Serves(other.owner, guest)
    requires IdOf(m.owner) != IdOf(other.owner)
    requires e.store.resources[IdOf(m.owner)].port == e.store.resources[IdOf(other.owner)].port
    requires rm.owner == m.owner && rm.key != m.key
    requires NewKey(e.store.journal, m) && NewKey(e.store.journal, rm) && NewKey(e.store.journal, other)
    requires RowId(IdOf(m.owner), guest) !in e.store.published && RowId(IdOf(other.owner), guest) !in e.store.published
    requires KeyOf(e.View(), IdOf(m.owner), guest) !in e.network.published
    requires Recordable(e.store.published, RowId(IdOf(m.owner), guest), e.network.nextHostPort)
    modifies e.store, e.network
    ensures var row := RowId(IdOf(m.owner), guest);
      && e.store.resources == old(e.store.resources) && row in e.store.published
      && KeyOf(e.View(), IdOf(m.owner), guest) in e.network.published
      && e.store.published[row] != e.network.published[KeyOf(e.View(), IdOf(m.owner), guest)]
  {
    var host := PublishThenDie(e, m, rm, guest, OperationFor(other, PublishKind, [guest]).id);
    assert Wrap(host + 1) != host;
    var second := e.PublishPort(other, guest, 0, true);
  }

  /** A port published under a new key, with every other journal entry as it was. */
  method PublishNew(e: Executor, m: Mutation, guest: int) returns (host: int)
    requires e.network.Valid() && Keyed(e.store.journal) && e.Serves(m.owner, guest) && NewKey(e.store.journal, m)
    requires RowId(IdOf(m.owner), guest) !in e.store.published
    requires KeyOf(e.View(), IdOf(m.owner), guest) !in e.network.published
    requires Recordable(e.store.published, RowId(IdOf(m.owner), guest), e.network.nextHostPort)
    modifies e.store`journal, e.store`published, e.network
    ensures e.network.Valid() && Keyed(e.store.journal)
    ensures OnlyEntry(old(e.store.journal), e.store.journal, OperationFor(m, PublishKind, [guest]))
    ensures e.store.published == old(e.store.published)[RowId(IdOf(m.owner), guest) := host]
    ensures host == old(e.network.nextHostPort) && 1 <= host <= 65535 && e.network.nextHostPort == Wrap(host + 1)
  {
    var first := e.PublishPort(m, guest, 0, true);
    host := first.value;
  }

  /** A published port whose release dies once k8netd has unmapped it: the row stays behind. */
  method PublishThenDie(e: Executor, m: Mutation, rm: Mutation, guest: int, ghost untouched: Id) returns (host: int)
    requires e.network.Valid() && Keyed(e.store.journal) && e.Serves(m.owner, guest)
    requires rm.owner == m.owner && rm.key != m.key && NewKey(e.store.journal, m) && NewKey(e.store.journal, rm)
    requires RowId(IdOf(m.owner), guest) !in e.store.published
    requires KeyOf(e.View(), IdOf(m.owner), guest) !in e.network.published
    requires Recordable(e.store.published, RowId(IdOf(m.owner), guest), e.network.nextHostPort)
    requires untouched !in e.store.journal
    requires untouched != OperationFor(m, PublishKind, []).id && untouched != OperationFor(rm, PublishKind, []).id
    modifies e.store`journal, e.store`published, e.network
    ensures e.network.Valid() && Keyed(e.store.journal) && untouched !in e.store.journal
    ensures e.store.published == old(e.store.published)[RowId(IdOf(m.owner), guest) := host]
    ensures KeyOf(e.View(), IdOf(m.owner), guest) !in e.network.published
    ensures host == old(e.network.nextHostPort) && e.network.nextHostPort == Wrap(host + 1)
  {
    var op := OperationFor(m, PublishKind, [guest]);
    ghost var journal := e.store.journal;
    host := PublishNew(e, m, guest);
    var rop := OperationFor(rm, ReleaseKind, [guest, host]);
    OtherEntryKept(journal, e.store.journal, op, rop.id);
    OtherEntryKept(journal, e.store.journal, op, untouched);
    journal := e.store.journal;
    var died := e.ReleasePort(rm, guest, host, true, true);
    OtherEntryKept(journal, e.store.journal, rop, untouched);
  }
}
