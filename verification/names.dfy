/**
  The deterministic names of control-plane objects: the Machine of replica i is
  `<control plane>-<i>`, and the snapshot taken before it is replaced goes to the file
  `<machine>-<version>.db`.
*/
module Names {
  import opened Common

  predicate IsDigit(c: char) { '0' <= c <= '9' }

  function DigitValue(c: char): (d: nat)
    requires IsDigit(c)
    ensures d < 10
  {
    c as int - '0' as int
  }

  function Digit(d: nat): (c: char)
    requires d < 10
    ensures IsDigit(c) && DigitValue(c) == d
  {
    ('0' as int + d) as char
  }

  /** Decimal digits of n, as `%d` prints a non-negative index. */
  function Decimal(n: nat): (s: string)
    ensures |s| > 0 && forall c | c in s :: IsDigit(c)
  {
    if n < 10 then [Digit(n)] else Decimal(n / 10) + [Digit(n % 10)]
  }

  /** The value of a run of decimal digits, or None when a character is not a digit. */
  function ParseDigits(s: string): (v: Option<nat>)
    ensures v.Some? ==> forall c | c in s :: IsDigit(c)
  {
    if s == [] then Some(0)
    else
      var last := s[|s| - 1];
      var rest := ParseDigits(s[..|s| - 1]);
      if rest.None? || !IsDigit(last) then None
      else
        assert s == s[..|s| - 1] + [last];
        Some(10 * rest.value + DigitValue(last))
  }

  /** strconv.ParseInt(s, 10, 32): one optional sign, at least one digit, and a 32-bit range. */
  function ParseInt32(s: string): (v: Option<Int32>) {
    var negative := |s| > 0 && s[0] == '-';
    var digits := if |s| > 0 && (s[0] == '-' || s[0] == '+') then s[1..] else s;
    if digits == [] then None
    else
      var magnitude := ParseDigits(digits);
      if magnitude.None? then None
      else
        var value := if negative then 0 - magnitude.value as int else magnitude.value as int;
        if -0x8000_0000 <= value < 0x8000_0000 then Some(value) else None
  }

  function MachineName(cpName: string, index: nat): string {
    cpName + "-" + Decimal(index)
  }

  function MachineIndex(machineName: string, cpName: string): (index: Option<Int32>) {
    var prefix := cpName + "-";
    if prefix <= machineName then ParseInt32(machineName[|prefix|..]) else None
  }

  function SnapshotFileName(machineName: string, version: string): string {
    machineName + "-" + version + ".db"
  }

  /** How one control plane names its replicas, and reads a replica index out of a name. */
  datatype Naming = Naming(name: int -> string, index: string -> Option<int>)

  function Scheme(cpName: string): Naming {
    Naming(i => if i < 0 then "" else MachineName(cpName, i), n => MachineIndex(n, cpName))
  }

  /** The index read back from the name of a 32-bit replica index is that index. */
  ghost predicate RoundTrips(naming: Naming) {
    forall i {:trigger naming.name(i)} | 0 <= i < 0x8000_0000 :: naming.index(naming.name(i)) == Some(i)
  }

  lemma {:induction false} ParseDigitsOfDecimal(n: nat)
    ensures ParseDigits(Decimal(n)) == Some(n)
  {
    var s := Decimal(n);
    if n < 10 {
      assert s[..|s| - 1] == [];
    } else {
      assert s[..|s| - 1] == Decimal(n / 10);
      ParseDigitsOfDecimal(n / 10);
    }
  }

  /** The index read back from a generated name is the index it was generated from, exactly while it fits 32 bits. */
  lemma IndexOfMachineName(cpName: string, index: nat)
    ensures MachineIndex(MachineName(cpName, index), cpName) == if index < 0x8000_0000 then Some(index) else None
  {
    var prefix := cpName + "-";
    var name := MachineName(cpName, index);
    assert name == prefix + Decimal(index);
    assert name[|prefix|..] == Decimal(index);
    var d := Decimal(index);
    assert d[0] in d;
    ParseDigitsOfDecimal(index);
  }

  lemma SchemeRoundTrips(cpName: string)
    ensures RoundTrips(Scheme(cpName))
  {
    forall i | 0 <= i < 0x8000_0000
      ensures Scheme(cpName).index(Scheme(cpName).name(i)) == Some(i)
    {
      IndexOfMachineName(cpName, i);
    }
  }

  /** Different replicas have different Machine names. */
  lemma MachineNameInjective(cpName: string, i: nat, j: nat)
    ensures MachineName(cpName, i) == MachineName(cpName, j) ==> i == j
  {
    var prefix := cpName + "-";
    if MachineName(cpName, i) == MachineName(cpName, j) {
      assert (prefix + Decimal(i))[|prefix|..] == Decimal(i);
      assert (prefix + Decimal(j))[|prefix|..] == Decimal(j);
      ParseDigitsOfDecimal(i);
      ParseDigitsOfDecimal(j);
    }
  }

  /** What a parsable index looks like: digits everywhere but, possibly, a sign in front. */
  lemma IndexSuffixShape(s: string)
    requires ParseInt32(s).Some?
    ensures |s| > 0 && forall k | 1 <= k < |s| :: IsDigit(s[k])
  {
    var digits := if s[0] == '-' || s[0] == '+' then s[1..] else s;
    forall k | 1 <= k < |s|
      ensures IsDigit(s[k])
    {
      assert s[k] in digits by {
        if digits == s[1..] { assert digits[k - 1] == s[k]; }
      }
    }
  }

  lemma SuffixesAgree(s1: string, s2: string, v1: string, v2: string)
    requires ParseInt32(s1).Some? && ParseInt32(s2).Some?
    requires s1 + "-" + v1 == s2 + "-" + v2
    ensures |s1| >= |s2|
  {
    var whole := s1 + "-" + v1;
    assert whole[|s1|] == '-';
    assert |s1| < |s2| ==> (s2 + "-" + v2)[|s1|] == s2[|s1|];
    IndexSuffixShape(s1);
    IndexSuffixShape(s2);
  }

  /** Two snapshots of one control plane share a file only when both their Machine and their version agree. */
  lemma SnapshotFileNameInjective(cpName: string, m1: string, v1: string, m2: string, v2: string)
    requires MachineIndex(m1, cpName).Some? && MachineIndex(m2, cpName).Some?
    requires SnapshotFileName(m1, v1) == SnapshotFileName(m2, v2)
    ensures m1 == m2 && v1 == v2
  {
    var prefix := cpName + "-";
    var s1, s2 := m1[|prefix|..], m2[|prefix|..];
    assert m1 == prefix + s1 && m2 == prefix + s2;
    var f := SnapshotFileName(m1, v1);
    assert f[|prefix|..|f| - 3] == s1 + "-" + v1;
    assert f[|prefix|..|f| - 3] == s2 + "-" + v2;
    SuffixesAgree(s1, s2, v1, v2);
    SuffixesAgree(s2, s1, v2, v1);
    assert (s1 + "-" + v1)[..|s1|] == s1 && (s2 + "-" + v2)[..|s1|] == s2;
    assert (s1 + "-" + v1)[|s1| + 1..] == v1 && (s2 + "-" + v2)[|s1| + 1..] == v2;
  }
}
