/** Go's order on strings, sorting in place, and binary search. */
module Strings {

  /** Lexicographic order. */
  predicate Leq(a: string, b: string) {
    a == [] || (b != [] && (a[0] < b[0] || (a[0] == b[0] && Leq(a[1..], b[1..]))))
  }

  lemma {:induction false} LeqTotal(a: string, b: string)
    ensures Leq(a, b) || Leq(b, a)
  {
    if a != [] && b != [] && a[0] == b[0] { LeqTotal(a[1..], b[1..]); }
  }

  lemma {:induction false} LeqAntisymmetric(a: string, b: string)
    requires Leq(a, b) && Leq(b, a)
    ensures a == b
  {
    if a != [] && b != [] {
      LeqAntisymmetric(a[1..], b[1..]);
      assert a == [a[0]] + a[1..] && b == [b[0]] + b[1..];
    }
  }

  lemma {:induction false} LeqTransitive(a: string, b: string, c: string)
    requires Leq(a, b) && Leq(b, c)
    ensures Leq(a, c)
  {
    if a != [] && b != [] && c != [] && a[0] == b[0] == c[0] { LeqTransitive(a[1..], b[1..], c[1..]); }
  }

  predicate Less(a: string, b: string) {
    !Leq(b, a)
  }

  predicate Sorted(s: seq<string>) {
    forall i, j | 0 <= i < j < |s| :: Leq(s[i], s[j])
  }

  predicate StrictlySorted(s: seq<string>) {
    forall i, j | 0 <= i < j < |s| :: Less(s[i], s[j])
  }

  // ---------------------------------------------------------------- insertion sort

  /** The first n are sorted but for the one at j, which is still to sink. */
  predicate SortedBut(s: seq<string>, n: int, j: int) {
    forall p, q | 0 <= p < q < n <= |s| && q != j :: Leq(s[p], s[q])
  }

  lemma SwapKeeps(s: seq<string>, n: int, j: int)
    requires 0 < j < n <= |s| && SortedBut(s, n, j) && Less(s[j], s[j - 1])
    ensures SortedBut(s[j := s[j - 1]][j - 1 := s[j]], n, j - 1)
    ensures multiset(s[j := s[j - 1]][j - 1 := s[j]]) == multiset(s)
  {
    LeqTotal(s[j], s[j - 1]);
  }

  lemma SunkIsSorted(s: seq<string>, n: int, j: int)
    requires 0 <= j < n <= |s| && SortedBut(s, n, j) && (j > 0 ==> !Less(s[j], s[j - 1]))
    ensures SortedBut(s, n, n)
  {
    forall p | 0 <= p < j ensures Leq(s[p], s[j]) {
      if p < j - 1 { LeqTransitive(s[p], s[j - 1], s[j]); }
    }
  }

  method SortStrings(a: array<string>)
    modifies a
    ensures Sorted(a[..]) && multiset(a[..]) == multiset(old(a[..]))
  {
    var i := 1;
    while i < a.Length
      invariant 1 <= i && (i <= a.Length || a.Length == 0)
      invariant SortedBut(a[..], i, i) && multiset(a[..]) == multiset(old(a[..]))
    {
      var j := i;
      while j > 0 && Less(a[j], a[j - 1])
        invariant 0 <= j <= i && SortedBut(a[..], i + 1, j) && multiset(a[..]) == multiset(old(a[..]))
      {
        SwapKeeps(a[..], i + 1, j);
        ghost var was := a[..];
        a[j], a[j - 1] := a[j - 1], a[j];
        assert a[..] == was[j := was[j - 1]][j - 1 := was[j]];
        j := j - 1;
      }
      SunkIsSorted(a[..], i + 1, j);
      i := i + 1;
    }
  }

  // ---------------------------------------------------------------- binary search

  /** The first index whose string is not below x. */
  method SearchStrings(s: seq<string>, x: string) returns (k: nat)
    requires Sorted(s)
    ensures k <= |s| && (forall i | 0 <= i < k :: Less(s[i], x)) && (forall i | k <= i < |s| :: Leq(x, s[i]))
  {
    var i, j := 0, |s|;
    while i < j
      invariant 0 <= i <= j <= |s|
      invariant forall p | 0 <= p < i :: Less(s[p], x)
      invariant forall p | j <= p < |s| :: Leq(x, s[p])
    {
      var h := (i + j) / 2;
      if Less(s[h], x) {
        forall p | 0 <= p < h ensures Less(s[p], x) {
          if Leq(x, s[p]) { LeqTransitive(x, s[p], s[h]); }
        }
        i := h + 1;
      } else {
        forall p | h < p < |s| ensures Leq(x, s[p]) {
          LeqTransitive(x, s[h], s[p]);
        }
        j := h;
      }
    }
    return i;
  }

  /** Found by the search exactly when present. */
  lemma SearchFinds(s: seq<string>, x: string, k: nat)
    requires StrictlySorted(s) && k <= |s|
    requires (forall i | 0 <= i < k :: Less(s[i], x)) && (forall i | k <= i < |s| :: Leq(x, s[i]))
    ensures x in s <==> k < |s| && s[k] == x
  {
    LeqTotal(x, x);
    if x in s {
      var i :| 0 <= i < |s| && s[i] == x;
      assert k <= i && Leq(s[i], s[k]);
    }
  }

  lemma StrictIsSorted(s: seq<string>)
    requires StrictlySorted(s)
    ensures Sorted(s)
  {
    forall i, j | 0 <= i < j < |s| ensures Leq(s[i], s[j]) {
      LeqTotal(s[i], s[j]);
    }
  }

  /** Sorted neighbours make the whole sorted. */
  lemma {:induction false} NeighboursSorted(s: seq<string>, i: int, j: int)
    requires forall k | 0 < k < |s| :: Leq(s[k - 1], s[k])
    requires 0 <= i < j < |s|
    ensures Leq(s[i], s[j])
    decreases j
  {
    if i < j - 1 {
      NeighboursSorted(s, i, j - 1);
      LeqTransitive(s[i], s[j - 1], s[j]);
    }
  }

  method StringsAreSorted(s: seq<string>) returns (ok: bool)
    ensures ok <==> Sorted(s)
  {
    var i := |s| - 1;
    while i > 0
      invariant i < |s|
      invariant forall k | 0 < k < |s| && i < k :: Leq(s[k - 1], s[k])
    {
      LeqTotal(s[i - 1], s[i]);
      if Less(s[i], s[i - 1]) { return false; }
      i := i - 1;
    }
    forall p, q | 0 <= p < q < |s| ensures Leq(s[p], s[q]) {
      NeighboursSorted(s, p, q);
    }
    return true;
  }

  /** Sorted strings whose neighbours differ are strictly sorted. */
  lemma StrictWhenNeighboursDiffer(s: seq<string>)
    requires Sorted(s)
    ensures (forall k | 0 < k < |s| :: s[k - 1] != s[k]) <==> StrictlySorted(s)
  {
    if forall k | 0 < k < |s| :: s[k - 1] != s[k] {
      forall i, j | 0 <= i < j < |s| ensures Less(s[i], s[j]) {
        if Leq(s[j], s[i]) {
          assert i == j - 1 || Leq(s[i], s[j - 1]);
          if i < j - 1 { LeqTransitive(s[j], s[i], s[j - 1]); }
          LeqAntisymmetric(s[j - 1], s[j]);
        }
      }
    }
    if StrictlySorted(s) {
      forall k | 0 < k < |s| ensures s[k - 1] != s[k] {
        LeqTotal(s[k], s[k]);
      }
    }
  }
}
