/** Quoting of ExecStart arguments in a systemd unit file (the quoting layer only, no specifier expansion). */
module Quoting {
  import opened Common

  /** strings.ReplaceAll for a one-character pattern. */
  function ReplaceAll(s: string, c: char, with: string): string {
    if s == [] then [] else (if s[0] == c then with else [s[0]]) + ReplaceAll(s[1..], c, with)
  }

  /** Two passes: backslashes first, then quotes. */
  function EscapeUnitValue(value: string): string {
    ReplaceAll(ReplaceAll(value, '\\', "\\\\"), '"', "\\\"")
  }

  /** One pass: a backslash in front of every backslash and quote. */
  function Escape(value: string): string {
    if value == [] then []
    else (if value[0] == '\\' || value[0] == '"' then ['\\', value[0]] else [value[0]]) + Escape(value[1..])
  }

  lemma {:induction false} ReplaceAllConcat(s: string, t: string, c: char, with: string)
    ensures ReplaceAll(s + t, c, with) == ReplaceAll(s, c, with) + ReplaceAll(t, c, with)
  {
    if s == [] {
      assert s + t == t;
    } else {
      assert (s + t)[1..] == s[1..] + t;
      ReplaceAllConcat(s[1..], t, c, with);
    }
  }

  /** The two passes do not disturb each other. */
  lemma {:induction false} TwoPassesAreOne(value: string)
    ensures EscapeUnitValue(value) == Escape(value)
  {
    if value != [] {
      var head := if value[0] == '\\' then "\\\\" else [value[0]];
      ReplaceAllConcat(head, ReplaceAll(value[1..], '\\', "\\\\"), '"', "\\\"");
      TwoPassesAreOne(value[1..]);
      OneCharacter(value[0]);
    }
  }

  lemma OneCharacter(c: char)
    ensures ReplaceAll(if c == '\\' then "\\\\" else [c], '"', "\\\"")
         == if c == '\\' || c == '"' then ['\\', c] else [c]
  {
    if c == '\\' {
      assert "\\\\"[1..] == "\\" && "\\"[1..] == "";
      assert ReplaceAll("\\", '"', "\\\"") == "\\";
      assert ReplaceAll("\\\\", '"', "\\\"") == "\\\\";
    } else {
      assert [c][1..] == [];
    }
  }

  function Quote(value: string): string {
    "\"" + EscapeUnitValue(value) + "\""
  }

  function Join(items: seq<string>, separator: string): string {
    if items == [] then "" else if |items| == 1 then items[0] else items[0] + separator + Join(items[1..], separator)
  }

  function Quotes(values: seq<string>): (r: seq<string>)
    ensures |r| == |values|
  {
    seq(|values|, i requires 0 <= i < |values| => Quote(values[i]))
  }

  function QuotedLine(values: seq<string>): string {
    Join(Quotes(values), " ")
  }

  method QuoteExec(values: seq<string>) returns (line: string)
    ensures line == QuotedLine(values)
  {
    var quoted := new string[|values|];
    for index := 0 to |values|
      invariant forall i | 0 <= i < index :: quoted[i] == Quote(values[i])
    {
      quoted[index] := "\"" + EscapeUnitValue(values[index]) + "\"";
    }
    assert quoted[..] == Quotes(values);
    return Join(quoted[..], " ");
  }

  // ---------------------------------------------------------------- the reader

  /** Reads up to the closing quote, undoing escapes; also returns what follows. */
  function ReadQuoted(s: string): (r: Option<(string, string)>)
    ensures r.Some? ==> |r.value.1| < |s|
  {
    if s == [] then None
    else if s[0] == '"' then Some(("", s[1..]))
    else
      var escaped := s[0] == '\\';
      if escaped && |s| < 2 then None
      else
        var rest := ReadQuoted(s[if escaped then 2 else 1..]);
        if rest.None? then None
        else Some(([s[if escaped then 1 else 0]] + rest.value.0, rest.value.1))
  }

  /** Quoted arguments separated by single spaces. */
  function ReadArguments(s: string): Option<seq<string>>
    decreases |s|
  {
    if s == [] || s[0] != '"' then None
    else
      var first := ReadQuoted(s[1..]);
      if first.None? then None
      else if first.value.1 == "" then Some([first.value.0])
      else if first.value.1[0] != ' ' then None
      else
        var more := ReadArguments(first.value.1[1..]);
        if more.None? then None else Some([first.value.0] + more.value)
  }

  function Unquote(line: string): Option<seq<string>> {
    if line == "" then Some([]) else ReadArguments(line)
  }

  lemma {:induction false} ReadsEscaped(value: string, rest: string)
    ensures ReadQuoted(Escape(value) + "\"" + rest) == Some((value, rest))
  {
    var s := Escape(value) + "\"" + rest;
    if value == [] {
      assert s == "\"" + rest && s[1..] == rest;
    } else {
      ReadsEscaped(value[1..], rest);
      var tail := Escape(value[1..]) + "\"" + rest;
      var escaped := value[0] == '\\' || value[0] == '"';
      assert s == (if escaped then ['\\', value[0]] else [value[0]]) + tail;
      assert s[if escaped then 2 else 1..] == tail;
      assert value == [value[0]] + value[1..];
    }
  }

  lemma ReadsFirst(value: string, more: string)
    ensures ReadArguments(Quote(value)) == Some([value])
    ensures ReadArguments(Quote(value) + " " + more)
            == if ReadArguments(more).None? then None else Some([value] + ReadArguments(more).value)
  {
    TwoPassesAreOne(value);
    ReadsEscaped(value, "");
    assert Quote(value)[1..] == Escape(value) + "\"" + "";
    ReadsEscaped(value, " " + more);
    var line := Quote(value) + " " + more;
    assert line[0] == '"' && line[1..] == Escape(value) + "\"" + (" " + more);
    assert (" " + more)[1..] == more;
  }

  lemma {:induction false} ReadsLine(values: seq<string>)
    requires values != []
    ensures QuotedLine(values) != "" && ReadArguments(QuotedLine(values)) == Some(values)
  {
    if |values| == 1 {
      ReadsFirst(values[0], "");
      assert values == [values[0]];
    } else {
      assert Quotes(values)[1..] == Quotes(values[1..]);
      ReadsFirst(values[0], QuotedLine(values[1..]));
      ReadsLine(values[1..]);
      assert values == [values[0]] + values[1..];
    }
  }

  /** Every argument list, the empty one included, is read back from its line. */
  lemma QuotingRoundTrip(values: seq<string>)
    ensures Unquote(QuotedLine(values)) == Some(values)
  {
    if values != [] { ReadsLine(values); }
  }

  /** So different argument lists never render to the same line. */
  lemma QuotingInjective(values: seq<string>, others: seq<string>)
    requires QuotedLine(values) == QuotedLine(others)
    ensures values == others
  {
    QuotingRoundTrip(values);
    QuotingRoundTrip(others);
  }
}
