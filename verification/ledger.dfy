/** The ownership ledger: the current installation and the ones it replaced, kept in one file. */
module Ledger {
  import opened Common
  import opened Strings

  datatype Ledger = Ledger(current: string, predecessors: seq<string>)

  predicate Forbidden(c: char) {
    c == '/' || c == '\\' || c == '\r' || c == '\n' || c == '\t' || c == ' '
  }

  predicate ValidId(id: string) {
    id != "" && |id| <= 128 && forall c | c in id :: !Forbidden(c)
  }

  /** Predecessors are sorted, without duplicates and without the current installation. */
  predicate Wellformed(l: Ledger) {
    && (l.current != "" ==> ValidId(l.current))
    && (forall p | p in l.predecessors :: ValidId(p))
    && l.current !in l.predecessors
    && StrictlySorted(l.predecessors)
  }

  /** The installations a ledger stands for. */
  function Members(l: Ledger): set<string> {
    (set p | p in l.predecessors) + if l.current == "" then {} else {l.current}
  }

  /** Membership by binary search, decided for every string; the empty ledger "owns" the empty id. */
  method Owns(l: Ledger, id: string) returns (owns: bool)
    requires Wellformed(l)
    ensures owns <==> id in Members(l) || (id == "" && l.current == "")
  {
    if id == l.current { return true; }
    StrictIsSorted(l.predecessors);
    var k := SearchStrings(l.predecessors, id);
    SearchFinds(l.predecessors, id, k);
    return k < |l.predecessors| && l.predecessors[k] == id;
  }

  // ---------------------------------------------------------------- uniqueSorted

  /** Sorts, then compacts in place: the first n hold each string once. */
  method UniqueSorted(values: array<string>) returns (n: nat)
    modifies values
    ensures n <= values.Length && StrictlySorted(values[..n])
    ensures forall x :: x in values[..n] <==> x in old(values[..])
  {
    SortStrings(values);
    ghost var sorted := values[..];
    SameMembers(sorted, old(values[..]));
    n := 0;
    for i := 0 to values.Length
      invariant n <= i && values[i..] == sorted[i..]
      invariant Compacted(values[..n], sorted[..i])
    {
      var value := values[i];
      ghost var done := values[..n];
      CompactStep(done, sorted, i);
      if n == 0 || values[n - 1] != value {
        values[n] := value;
        n := n + 1;
        assert values[..n] == done + [value];
      }
      assert values[i + 1..] == sorted[i + 1..];
    }
    assert sorted[..values.Length] == sorted;
  }

  /** The same strings in the same order, each once. */
  ghost predicate Compacted(done: seq<string>, seen: seq<string>) {
    && StrictlySorted(done) && (forall x :: x in done <==> x in seen)
    && (done == [] <==> seen == []) && (seen != [] ==> done[|done| - 1] == seen[|seen| - 1])
  }

  lemma CompactStep(done: seq<string>, sorted: seq<string>, i: nat)
    requires i < |sorted| && Sorted(sorted) && Compacted(done, sorted[..i])
    ensures Compacted(if done == [] || done[|done| - 1] != sorted[i] then done + [sorted[i]] else done, sorted[..i + 1])
  {
    assert sorted[..i + 1] == sorted[..i] + [sorted[i]];
    if done != [] && done[|done| - 1] != sorted[i] {
      var last := done[|done| - 1];
      assert last == sorted[i - 1];
      forall p | 0 <= p < |done| ensures Less(done[p], sorted[i]) {
        if Leq(sorted[i], done[p]) {
          LeqTotal(done[p], last);
          assert Leq(done[p], last);
          LeqTransitive(sorted[i], done[p], last);
          LeqAntisymmetric(sorted[i], last);
        }
      }
    }
  }

  // ---------------------------------------------------------------- Validate and Register

  method Validate(l: Ledger) returns (ok: bool)
    ensures ok <==> Wellformed(l)
  {
    if l.current != "" && !ValidId(l.current) { return false; }
    for i := 0 to |l.predecessors|
      invariant forall j | 0 <= j < i :: ValidId(l.predecessors[j]) && l.predecessors[j] != l.current
    {
      if !ValidId(l.predecessors[i]) { return false; }
      if l.predecessors[i] == l.current { return false; }
    }
    if StrictlySorted(l.predecessors) { StrictIsSorted(l.predecessors); }
    ok := StringsAreSorted(l.predecessors);
    if !ok { return; }
    StrictWhenNeighboursDiffer(l.predecessors);
    var i := 1;
    while i < |l.predecessors|
      invariant 1 <= i
      invariant forall k | 0 < k < i && k < |l.predecessors| :: l.predecessors[k - 1] != l.predecessors[k]
    {
      if l.predecessors[i - 1] == l.predecessors[i] { return false; }
      i := i + 1;
    }
    return true;
  }

  /** The file. Without `calm` the atomic write may fail, which leaves the old contents. */
  class LedgerFile {
    var contents: Ledger

    /** Makes an installation current and keeps the one before it as a predecessor. */
    method Register(id: string, calm: bool) returns (ok: bool)
      requires Wellformed(contents)
      modifies this
      ensures Wellformed(contents)
      ensures ok ==> contents.current == id && Members(contents) == old(Members(contents)) + {id}
      ensures !ok ==> contents == old(contents)
      ensures ok ==> ValidId(id) && id !in old(contents.predecessors)
      ensures calm && ValidId(id) && id !in old(contents.predecessors) ==> ok
    {
      if !ValidId(id) { return false; }
      var predecessors := contents.predecessors;
      if contents.current != "" && contents.current != id {
        predecessors := predecessors + [contents.current];
      }
      var values := new string[|predecessors|](i requires 0 <= i < |predecessors| => predecessors[i]);
      assert values[..] == predecessors;
      var n := UniqueSorted(values);
      var ledger := Ledger(id, values[..n]);
      var valid := Validate(ledger);
      if !valid { return false; }
      var written: bool := *;
      if !written && !calm { return false; }
      contents := ledger;
      return true;
    }
  }

  // ---------------------------------------------------------------- every sequence of registrations

  /** The ids registered successfully among the first n. */
  function Registered(ids: seq<string>, oks: seq<bool>): set<string>
    requires |oks| <= |ids|
  {
    set i | 0 <= i < |oks| && oks[i] :: ids[i]
  }

  /**
    From an empty ledger, the members are exactly the ids registered so far, and the current one the latest of
    them.
  */
  method RegisterAll(file: LedgerFile, ids: seq<string>) returns (oks: seq<bool>)
    requires file.contents == Ledger("", [])
    modifies file
    ensures Wellformed(file.contents) && |oks| == |ids|
    ensures Members(file.contents) == Registered(ids, oks)
    ensures forall i | 0 <= i < |ids| && oks[i] :: ValidId(ids[i])
  {
    oks := [];
    for i := 0 to |ids|
      invariant Wellformed(file.contents) && |oks| == i
      invariant Members(file.contents) == Registered(ids, oks)
      invariant forall j | 0 <= j < i && oks[j] :: ValidId(ids[j])
    {
      var ok := file.Register(ids[i], false);
      assert Registered(ids, oks + [ok]) == Registered(ids, oks) + if ok then {ids[i]} else {};
      oks := oks + [ok];
    }
  }
}
