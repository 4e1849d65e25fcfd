/**
  The operation journal of the host agent: an intent row per (installation, owner, key), which a
  single conditional UPDATE turns into a terminal outcome. The second half lets any number of
  clients interleave, a completion being one transaction and, later, one UPDATE.
*/
module Journal {
  import opened HostAgent
  import Runs

  datatype State = Intent | Completed | Failed

  datatype Id = Id(installation: string, owner: string, key: string)

  datatype Operation = Operation(id: Id, node: string, kind: string, hash: Digest, generation: int) {
    predicate Valid() {
      id.installation != "" && id.owner != "" && node != "" && id.key != "" && kind != "" && hash != NoDigest
        && generation != 0
    }
  }

  datatype Entry = Entry(operation: Operation, state: State, result: string, failure: string) {
    predicate Records(op: Operation) {
      operation.node == op.node && operation.kind == op.kind && operation.hash == op.hash
        && operation.generation == op.generation
    }
  }

  type Entries = map<Id, Entry>

  /** INSERT OR IGNORE of an intent. */
  function Insert(entries: Entries, op: Operation): Entries {
    if op.id in entries then entries else entries[op.id := Entry(op, Intent, "", "")]
  }

  predicate Accepts(entries: Entries, op: Operation) {
    op.Valid() && (op.id in entries ==> entries[op.id].Records(op))
  }

  /** The journal after a committed begin; a refused one rolls its insert back. */
  function Begun(entries: Entries, op: Operation): Entries {
    if Accepts(entries, op) then Insert(entries, op) else entries
  }

  /** UPDATE … WHERE the entry is still an intent. */
  function Updated(entries: Entries, id: Id, state: State, result: string, failure: string): Entries {
    if id in entries && entries[id].state.Intent?
    then entries[id := entries[id].(state := state, result := result, failure := failure)]
    else entries
  }

  /** Every row is stored under its own identity. */
  ghost predicate Keyed(entries: Entries) {
    forall id | id in entries :: entries[id].operation.id == id && entries[id].operation.Valid()
  }

  /** Nothing recorded is lost, re-identified or, once terminal, changed. */
  ghost predicate Extends(before: Entries, after: Entries) {
    forall id | id in before ::
      && id in after && after[id].operation == before[id].operation
      && (before[id].state.Intent? || after[id] == before[id])
  }

  // ---------------------------------------------------------------- interleaved clients

  /** A completion: what a caller asks to have recorded. */
  datatype Outcome = Outcome(op: Operation, state: State, result: string, failure: string) {
    function AsEntry(): Entry { Entry(op, state, result, failure) }
  }

  /**
    The journal, the completions between their transaction and their UPDATE, and everything reported to
    callers so far.
  */
  datatype System = System(
    entries: Entries,
    pending: map<int, Outcome>,
    acknowledged: set<Outcome>,
    reported: set<Entry>)

  datatype Move =
    | Begin(op: Operation)
    | Complete(client: int, outcome: Outcome)
    | Update(client: int)
    | Abandon(client: int)

  function StepBegin(s: System, op: Operation): System {
    var entries := Begun(s.entries, op);
    s.(entries := entries, reported := if Accepts(s.entries, op) then s.reported + {entries[op.id]} else s.reported)
  }

  /** The first half of a completion: begin again, then answer from a terminal entry or go on to the UPDATE. */
  function StepComplete(s: System, client: int, o: Outcome): System {
    var begins := !o.state.Intent? && Accepts(s.entries, o.op);
    var entries := if begins then Begun(s.entries, o.op) else s.entries;
    s.(entries := entries,
       pending := if begins && entries[o.op.id].state.Intent? then s.pending[client := o] else s.pending,
       acknowledged := if begins && Answers(entries[o.op.id], o) then s.acknowledged + {o} else s.acknowledged)
  }

  predicate Answers(entry: Entry, o: Outcome) {
    !entry.state.Intent? && entry.state == o.state && entry.result == o.result && entry.failure == o.failure
  }

  function StepUpdate(s: System, client: int): System {
    if client !in s.pending then s else
      var o := s.pending[client];
      var wins := o.op.id in s.entries && s.entries[o.op.id].state.Intent?;
      s.(entries := Updated(s.entries, o.op.id, o.state, o.result, o.failure),
         pending := s.pending - {client},
         acknowledged := if wins then s.acknowledged + {o} else s.acknowledged)
  }

  function Next(s: System, move: Move): System {
    match move
    case Begin(op) => StepBegin(s, op)
    case Complete(client, outcome) => StepComplete(s, client, outcome)
    case Update(client) => StepUpdate(s, client)
    case Abandon(client) => s.(pending := s.pending - {client})
  }

  function Exec(s: System, moves: seq<Move>): System {
    Runs.Exec(Next, s, moves)
  }

  const Empty := System(map[], map[], {}, {})

  ghost predicate Consistent(s: System) {
    && Keyed(s.entries)
    && (forall c | c in s.pending ::
          var o := s.pending[c];
          o.op.id in s.entries && s.entries[o.op.id].operation == o.op && !o.state.Intent?)
    && (forall o | o in s.acknowledged :: Agrees(s.entries, o.AsEntry()) && !o.state.Intent?)
    && (forall e | e in s.reported :: Agrees(s.entries, e))
  }

  /** The journal still holds what was reported: the same operation, and the same outcome once there was one. */
  predicate Agrees(entries: Entries, e: Entry) {
    && e.operation.id in entries && entries[e.operation.id].operation == e.operation
    && (e.state.Intent? || entries[e.operation.id] == e)
  }

  /** A journal that only grew, and only decided intents, still agrees with everything reported. */
  lemma ExtensionKeeps(s: System, after: Entries)
    requires Consistent(s) && Extends(s.entries, after) && Keyed(after)
    ensures Consistent(s.(entries := after))
  {
  }

  lemma BeginKeeps(s: System, op: Operation)
    requires Consistent(s)
    ensures Consistent(StepBegin(s, op)) && Extends(s.entries, StepBegin(s, op).entries)
  {
    ExtensionKeeps(s, Begun(s.entries, op));
  }

  lemma CompleteKeeps(s: System, client: int, o: Outcome)
    requires Consistent(s)
    ensures Consistent(StepComplete(s, client, o)) && Extends(s.entries, StepComplete(s, client, o).entries)
  {
    var entries := Begun(s.entries, o.op);
    ExtensionKeeps(s, entries);
    if !o.state.Intent? && Accepts(s.entries, o.op) { CompleteSettles(s.(entries := entries), client, o); }
  }

  /** Once begun, a completion joins the pending ones or is answered from the entry it asks for. */
  lemma CompleteSettles(s: System, client: int, o: Outcome)
    requires Consistent(s) && !o.state.Intent? && o.op.id in s.entries && s.entries[o.op.id].operation == o.op
    ensures Consistent(s.(pending := s.pending[client := o]))
    ensures Answers(s.entries[o.op.id], o) ==> Consistent(s.(acknowledged := s.acknowledged + {o}))
  {
  }

  lemma UpdateKeeps(s: System, client: int)
    requires Consistent(s)
    ensures Consistent(StepUpdate(s, client)) && Extends(s.entries, StepUpdate(s, client).entries)
  {
    if client in s.pending {
      var o := s.pending[client];
      ExtensionKeeps(s, Updated(s.entries, o.op.id, o.state, o.result, o.failure));
    }
  }

  lemma NextKeeps(s: System, move: Move)
    requires Consistent(s)
    ensures Consistent(Next(s, move)) && Extends(s.entries, Next(s, move).entries)
  {
    match move
    case Begin(op) => BeginKeeps(s, op);
    case Complete(client, o) => CompleteKeeps(s, client, o);
    case Update(client) => UpdateKeeps(s, client);
    case Abandon(_) =>
  }

  lemma AllKeep()
    ensures forall s: System, m: Move {:trigger Next(s, m)} ::
              Consistent(s) ==> Consistent(Next(s, m)) && Extends(s.entries, Next(s, m).entries)
  {
    forall s: System, m: Move | Consistent(s)
      ensures Consistent(Next(s, m)) && Extends(s.entries, Next(s, m).entries)
    {
      NextKeeps(s, m);
    }
  }

  /**
    First writer wins. However begins and completions interleave, and wherever clients die, every
    completion that returned nil and every terminal entry a begin returned is what the journal holds,
    so no two of them on one key differ in their outcome.
  */
  lemma FirstWriterWins(moves: seq<Move>)
    ensures var s := Exec(Empty, moves);
      && (forall o | o in s.acknowledged :: Agrees(s.entries, o.AsEntry()))
      && (forall e | e in s.reported :: Agrees(s.entries, e))
      && (forall o, p | o in s.acknowledged && p in s.acknowledged && o.op.id == p.op.id :: o == p)
  {
    AllKeep();
    Runs.InvariantHolds(Next, s => Consistent(s), Empty, moves);
  }

  /** From any reachable state on, entries are never lost and terminal entries never change. */
  lemma TerminalIsForever(before: seq<Move>, after: seq<Move>)
    ensures Extends(Exec(Empty, before).entries, Exec(Empty, before + after).entries)
  {
    AllKeep();
    Runs.InvariantHolds(Next, s => Consistent(s), Empty, before);
    Runs.RelationHolds(Next, s => Consistent(s), (s: System, t: System) => Extends(s.entries, t.entries),
        Exec(Empty, before), after);
    Runs.ExecConcat(Next, Empty, before, after);
  }

  /** A begin is refused exactly when it is malformed or another request holds its key; it then changes nothing. */
  lemma ConflictingBeginChangesNothing(s: System, op: Operation)
    requires Consistent(s)
    ensures !Accepts(s.entries, op) <==> !op.Valid() || (op.id in s.entries && s.entries[op.id].operation != op)
    ensures !Accepts(s.entries, op) ==> StepBegin(s, op) == s
    ensures Accepts(s.entries, op) ==>
      var entries := StepBegin(s, op).entries;
      && entries.Keys == s.entries.Keys + {op.id} && entries[op.id].operation == op
      && StepBegin(s, op).reported == s.reported + {entries[op.id]}
      && forall id | id in s.entries :: entries[id] == s.entries[id]
  {
  }

  /**
    Of several completions waiting for their UPDATE on one key, the next to run is recorded and the others are
    refused.
  */
  lemma OnlyFirstUpdateRecords(s: System, first: int, second: int)
    requires Consistent(s) && first in s.pending && second in s.pending && first != second
    requires s.pending[first].op.id == s.pending[second].op.id && s.entries[s.pending[first].op.id].state.Intent?
    ensures var t := StepUpdate(s, first);
      && t.entries[s.pending[first].op.id] == s.pending[first].AsEntry() && s.pending[first] in t.acknowledged
      && StepUpdate(t, second).entries == t.entries && StepUpdate(t, second).acknowledged == t.acknowledged
  {
  }

  /** A move of somebody else: it may be about the same key. */
  predicate OtherClient(move: Move, client: int) {
    move.Begin? || move.client != client
  }

  ghost predicate Waiting(s: System, client: int, o: Outcome) {
    Consistent(s) && client in s.pending && s.pending[client] == o
  }

  lemma {:induction false} WaitsOn(s: System, client: int, o: Outcome, between: seq<Move>)
    requires Waiting(s, client, o) && forall m | m in between :: OtherClient(m, client)
    ensures Waiting(Exec(s, between), client, o)
    decreases |between|
  {
    if between != [] {
      assert between[0] in between;
      NextKeeps(s, between[0]);
      WaitsOn(Next(s, between[0]), client, o, between[1..]);
    }
  }

  /**
    A completion of an operation that is unknown or still an intent gets its chance: whatever others do between
    its two halves, its UPDATE records and acknowledges exactly its outcome if the entry is an intent until then, and
    otherwise leaves journal and acknowledgements alone.
  */
  lemma CompletionRecords(s: System, client: int, o: Outcome, between: seq<Move>)
    requires Consistent(s) && Accepts(s.entries, o.op) && !o.state.Intent?
    requires o.op.id in s.entries ==> s.entries[o.op.id].state.Intent?
    requires forall m | m in between :: OtherClient(m, client)
    ensures var t := Exec(Next(s, Complete(client, o)), between);
      var u := Next(t, Update(client));
      && o.op.id in t.entries
      && if t.entries[o.op.id].state.Intent? then
           u.entries == t.entries[o.op.id := o.AsEntry()] && u.acknowledged == t.acknowledged + {o}
         else u.entries == t.entries && u.acknowledged == t.acknowledged
  {
    CompleteKeeps(s, client, o);
    WaitsOn(Next(s, Complete(client, o)), client, o, between);
  }

  /**
    A completion of an operation that already ended is acknowledged at once if it asks for the recorded outcome, and
    refused otherwise. Either way nothing else changes.
  */
  lemma RepeatedCompletion(s: System, client: int, o: Outcome)
    requires Consistent(s) && Accepts(s.entries, o.op) && !o.state.Intent?
    requires o.op.id in s.entries && !s.entries[o.op.id].state.Intent?
    ensures Next(s, Complete(client, o))
      == if s.entries[o.op.id] == o.AsEntry() then s.(acknowledged := s.acknowledged + {o}) else s
  {
    assert s.entries[o.op.id].operation == o.op;
  }
}
