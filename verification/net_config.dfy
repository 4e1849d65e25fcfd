/** The network device string of Cloud Hypervisor: rendered for a vhost-user socket, parsed for vm.create. */
module NetConfig {
  import opened Common
  import opened Names

  datatype NetConfig = NetConfig(vhostUser: bool, vhostSocket: string, mac: string, numQueues: int)

  const MinNetQueues := 2

  // ---------------------------------------------------------------- splitting

  function Split(s: string, c: char): (r: seq<string>)
    ensures |r| > 0
  {
    if s == [] then [""]
    else
      var rest := Split(s[1..], c);
      if s[0] == c then [""] + rest else [[s[0]] + rest[0]] + rest[1..]
  }

  /** Around the first occurrence, if any. */
  function Cut(s: string, c: char): (r: Option<(string, string)>)
    ensures r.Some? ==> s == r.value.0 + [c] + r.value.1 && c !in r.value.0
    ensures r.None? ==> c !in s
  {
    if s == [] then None
    else if s[0] == c then Some(("", s[1..]))
    else
      var rest := Cut(s[1..], c);
      if rest.None? then None else Some(([s[0]] + rest.value.0, rest.value.1))
  }

  lemma {:induction false} SplitFirst(a: string, c: char, rest: string)
    requires c !in a
    ensures Split(a, c) == [a] && Split(a + [c] + rest, c) == [a] + Split(rest, c)
  {
    if a == [] {
      assert a + [c] + rest == [c] + rest;
    } else {
      SplitFirst(a[1..], c, rest);
      assert (a + [c] + rest)[1..] == a[1..] + [c] + rest;
      assert [a[0]] + a[1..] == a;
    }
  }

  lemma {:induction false} SplitPiecesFree(s: string, c: char)
    ensures forall f | f in Split(s, c) :: c !in f
  {
    if s != [] {
      SplitPiecesFree(s[1..], c);
      var rest := Split(s[1..], c);
      assert rest[0] in rest;
    }
  }

  function Join(pieces: seq<string>, c: char): string {
    if pieces == [] then "" else if |pieces| == 1 then pieces[0] else pieces[0] + [c] + Join(pieces[1..], c)
  }

  /** The pieces are those between the separators. */
  lemma {:induction false} JoinSplit(s: string, c: char)
    ensures Join(Split(s, c), c) == s
  {
    if s != [] {
      JoinSplit(s[1..], c);
      var rest := Split(s[1..], c);
      if s[0] == c {
        assert ([""] + rest)[1..] == rest;
      } else if |rest| > 1 {
        assert ([[s[0]] + rest[0]] + rest[1..])[1..] == rest[1..];
      }
    }
  }

  lemma {:induction false} CutKey(key: string, c: char, value: string)
    requires c !in key
    ensures Cut(key + [c] + value, c) == Some((key, value))
  {
    if key == [] {
      assert key + [c] + value == [c] + value;
    } else {
      assert (key + [c] + value)[1..] == key[1..] + [c] + value;
      CutKey(key[1..], c, value);
      assert [key[0]] + key[1..] == key;
    }
  }

  // ---------------------------------------------------------------- parsing

  /** strconv.ParseBool. */
  function ParseBool(s: string): Option<bool> {
    if s in {"1", "t", "T", "true", "TRUE", "True"} then Some(true)
    else if s in {"0", "f", "F", "false", "FALSE", "False"} then Some(false)
    else None
  }

  /** strconv.Atoi on a 64-bit host. */
  function Atoi(s: string): Option<int> {
    var signed := s != "" && (s[0] == '-' || s[0] == '+');
    var digits := if signed then s[1..] else s;
    if digits == "" || ParseDigits(digits).None? then None
    else
      var magnitude: int := ParseDigits(digits).value;
      var value := if signed && s[0] == '-' then -magnitude else magnitude;
      if -0x8000_0000_0000_0000 <= value < 0x8000_0000_0000_0000 then Some(value) else None
  }

  /** One field's effect, by key; None for a malformed value or an unknown key. */
  function ApplyKey(cfg: NetConfig, key: string, value: string): Option<NetConfig> {
    if key == "vhost_user" then
      if ParseBool(value).None? then None else Some(cfg.(vhostUser := ParseBool(value).value))
    else if key == "socket" then Some(cfg.(vhostSocket := value))
    else if key == "mac" then Some(cfg.(mac := value))
    else if key == "num_queues" then
      if Atoi(value).None? then None
      else Some(cfg.(numQueues := if Atoi(value).value < MinNetQueues then MinNetQueues else Atoi(value).value))
    else None
  }

  function ApplyField(cfg: NetConfig, field: string): Option<NetConfig> {
    var cut := Cut(field, '=');
    if cut.None? then None else ApplyKey(cfg, cut.value.0, cut.value.1)
  }

  function ApplyFields(cfg: NetConfig, fields: seq<string>): Option<NetConfig>
    decreases |fields|
  {
    if fields == [] then Some(cfg)
    else
      var next := ApplyField(cfg, fields[0]);
      if next.None? then None else ApplyFields(next.value, fields[1..])
  }

  const Blank := NetConfig(false, "", "", 0)

  function Parsed(s: string): Option<NetConfig> {
    var cfg := ApplyFields(Blank, Split(s, ','));
    if cfg.None? then None
    else Some(cfg.value.(numQueues := if cfg.value.numQueues == 0 then MinNetQueues else cfg.value.numQueues))
  }

  // ---------------------------------------------------------------- which strings, and what they give

  predicate Known(key: string, value: string) {
    || key == "socket" || key == "mac"
    || (key == "vhost_user" && ParseBool(value).Some?) || (key == "num_queues" && Atoi(value).Some?)
  }

  /** A field is `key=value` with a known key and, for the flag and the count, a value that can be read. */
  predicate WellFormed(field: string) {
    var cut := Cut(field, '=');
    cut.Some? && Known(cut.value.0, cut.value.1)
  }

  predicate AllWellFormed(fields: seq<string>) {
    forall f | f in fields :: WellFormed(f)
  }

  predicate HasKey(field: string, key: string) {
    var cut := Cut(field, '=');
    cut.Some? && cut.value.0 == key
  }

  /** The value of the last field with the key, or the default. */
  function Last(fields: seq<string>, key: string, default: string): string
    decreases |fields|
  {
    if fields == [] then default
    else
      var last := fields[|fields| - 1];
      if HasKey(last, key) then Cut(last, '=').value.1 else Last(fields[..|fields| - 1], key, default)
  }

  predicate Sets(fields: seq<string>, key: string) {
    exists f :: f in fields && HasKey(f, key)
  }

  /** The configuration that these last values make; `counted` says whether there was a number of queues. */
  predicate Shows(cfg: NetConfig, socket: string, mac: string, flag: string, counted: bool, count: string) {
    && cfg.vhostSocket == socket && cfg.mac == mac && ParseBool(flag) == Some(cfg.vhostUser)
    && if counted then
         Atoi(count).Some?
           && cfg.numQueues == if Atoi(count).value < MinNetQueues then MinNetQueues else Atoi(count).value
       else cfg.numQueues == 0
  }

  /** What the configuration must be after the fields: the last field of each key decides. */
  ghost predicate Decided(fields: seq<string>, cfg: NetConfig) {
    Shows(cfg, Last(fields, "socket", ""), Last(fields, "mac", ""), Last(fields, "vhost_user", "false"),
        Sets(fields, "num_queues"), Last(fields, "num_queues", ""))
  }

  lemma KeysDistinct()
    ensures "socket" != "mac" && "socket" != "vhost_user" && "socket" != "num_queues"
    ensures "mac" != "vhost_user" && "mac" != "num_queues" && "vhost_user" != "num_queues"
  {
    assert |"socket"| == 6 && |"mac"| == 3 && "vhost_user"[0] == 'v' && "num_queues"[0] == 'n';
    assert |"vhost_user"| == 10 && |"num_queues"| == 10;
  }

  lemma KeyDecides(
    cfg: NetConfig, socket: string, mac: string, flag: string, counted: bool, count: string, key: string, value: string)
    requires Shows(cfg, socket, mac, flag, counted, count)
    ensures ApplyKey(cfg, key, value).Some? <==> Known(key, value)
    ensures Known(key, value) ==>
      Shows(ApplyKey(cfg, key, value).value,
          if key == "socket" then value else socket, if key == "mac" then value else mac,
          if key == "vhost_user" then value else flag, key == "num_queues" || counted,
          if key == "num_queues" then value else count)
  {
    KeysDistinct();
  }

  lemma {:induction false} ApplyFieldsLast(cfg: NetConfig, fields: seq<string>, field: string)
    ensures var before := ApplyFields(cfg, fields);
      ApplyFields(cfg, fields + [field]) == if before.None? then None else ApplyField(before.value, field)
    decreases |fields|
  {
    if fields == [] {
      assert fields + [field] == [field] && [field][1..] == [];
    } else {
      assert (fields + [field])[1..] == fields[1..] + [field];
      var next := ApplyField(cfg, fields[0]);
      if next.Some? { ApplyFieldsLast(next.value, fields[1..], field); }
    }
  }

  lemma LastOn(fields: seq<string>, field: string, key: string, default: string)
    requires WellFormed(field)
    ensures Last(fields + [field], key, default)
            == if Cut(field, '=').value.0 == key then Cut(field, '=').value.1 else Last(fields, key, default)
  {
    var more := fields + [field];
    assert more[..|more| - 1] == fields && more[|more| - 1] == field;
  }

  lemma SetsOn(fields: seq<string>, field: string, key: string)
    requires WellFormed(field)
    ensures Sets(fields + [field], key) <==> Cut(field, '=').value.0 == key || Sets(fields, key)
  {
    var more := fields + [field];
    assert field in more;
    if Sets(fields, key) {
      var f :| f in fields && HasKey(f, key);
      assert f in more;
    }
  }

  /** One more field decides its own key. */
  lemma DecidedOn(fields: seq<string>, cfg: NetConfig, field: string)
    requires Decided(fields, cfg)
    ensures ApplyField(cfg, field).Some? <==> WellFormed(field)
    ensures WellFormed(field) ==> Decided(fields + [field], ApplyField(cfg, field).value)
  {
    var cut := Cut(field, '=');
    if cut.Some? {
      KeyDecides(cfg, Last(fields, "socket", ""), Last(fields, "mac", ""), Last(fields, "vhost_user", "false"),
                 Sets(fields, "num_queues"), Last(fields, "num_queues", ""), cut.value.0, cut.value.1);
    }
    if WellFormed(field) {
      LastOn(fields, field, "socket", "");
      LastOn(fields, field, "mac", "");
      LastOn(fields, field, "vhost_user", "false");
      LastOn(fields, field, "num_queues", "");
      SetsOn(fields, field, "num_queues");
    }
  }

  lemma {:induction false} FieldsDecide(fields: seq<string>)
    ensures ApplyFields(Blank, fields).Some? <==> AllWellFormed(fields)
    ensures AllWellFormed(fields) ==> Decided(fields, ApplyFields(Blank, fields).value)
    decreases |fields|
  {
    if fields != [] {
      var before, last := fields[..|fields| - 1], fields[|fields| - 1];
      assert fields == before + [last];
      FieldsDecide(before);
      ApplyFieldsLast(Blank, before, last);
      if AllWellFormed(before) { DecidedOn(before, ApplyFields(Blank, before).value, last); }
      assert last in fields;
    }
  }

  /**
    Exactly the strings all of whose comma-separated fields are well formed are accepted, and the last field of
    each key decides: the socket and the address as written, no flag without one, and the number of queues, raised
    to two if it is less or missing.
  */
  lemma ParsedExactly(s: string)
    ensures var fields := Split(s, ',');
      && (Parsed(s).Some? <==> AllWellFormed(fields))
      && (Parsed(s).Some? ==>
            var cfg := Parsed(s).value;
            && cfg.vhostSocket == Last(fields, "socket", "") && cfg.mac == Last(fields, "mac", "")
            && ParseBool(Last(fields, "vhost_user", "false")) == Some(cfg.vhostUser)
            && var n := Atoi(Last(fields, "num_queues", "2"));
               n.Some? && cfg.numQueues == if n.value < 2 then 2 else n.value)
  {
    var fields := Split(s, ',');
    FieldsDecide(fields);
    AtoiOfTwo();
    if AllWellFormed(fields) { LastDefault(fields, "num_queues", "", "2"); }
  }

  lemma AtoiOfTwo()
    ensures Atoi("2") == Some(2)
  {
    assert "2"[..0] == "";
    assert ParseDigits("2") == Some(2);
  }

  /** The default counts only when no field has the key. */
  lemma {:induction false} LastDefault(fields: seq<string>, key: string, a: string, b: string)
    ensures if Sets(fields, key) then Last(fields, key, a) == Last(fields, key, b)
            else Last(fields, key, a) == a && Last(fields, key, b) == b
    decreases |fields|
  {
    if fields != [] {
      var before, last := fields[..|fields| - 1], fields[|fields| - 1];
      assert fields == before + [last] && last in fields;
      LastDefault(before, key, a, b);
      if Sets(before, key) {
        var f :| f in before && HasKey(f, key);
        assert f in fields;
      }
    }
  }

  /**
    Whatever the order or repetition of fields, an accepted string yields at least two queues and a comma-free
    socket.
  */
  method ParseNetConfig(s: string) returns (r: Option<NetConfig>)
    ensures r == Parsed(s)
    ensures r.Some? ==> r.value.numQueues >= 2 && ',' !in r.value.vhostSocket && ',' !in r.value.mac
  {
    var fields := Split(s, ',');
    SplitPiecesFree(s, ',');
    var cfg := Blank;
    for i := 0 to |fields|
      invariant ApplyFields(Blank, fields) == ApplyFields(cfg, fields[i..])
      invariant cfg.numQueues == 0 || cfg.numQueues >= MinNetQueues
      invariant ',' !in cfg.vhostSocket && ',' !in cfg.mac
    {
      var next := ApplyField(cfg, fields[i]);
      assert fields[i..][0] == fields[i] && fields[i..][1..] == fields[i + 1..];
      assert ',' !in fields[i];
      if next.None? { return None; }
      cfg := next.value;
    }
    if cfg.numQueues == 0 { cfg := cfg.(numQueues := MinNetQueues); }
    return Some(cfg);
  }

  // ---------------------------------------------------------------- rendering

  const SocketBase := "/run/user/1000/k8snet"

  predicate IsSpace(c: char) {
    c in {' ', '\t', '\n', '\r', '\U{0B}', '\U{0C}', '\U{85}', '\U{A0}', '\U{1680}', '\U{2028}', '\U{2029}', '\U{202F}',
        '\U{205F}', '\U{3000}'}
    || '\U{2000}' <= c <= '\U{200A}'
  }

  predicate IsBlank(s: string) { forall c | c in s :: IsSpace(c) }

  function HexDigit(d: int): char
    requires 0 <= d < 16
  {
    "0123456789abcdef"[d]
  }

  /** Lower-case colon-separated octets. */
  function MacString(octets: seq<int>): (s: string)
    requires forall i | 0 <= i < |octets| :: 0 <= octets[i] < 256
    ensures ',' !in s
  {
    if octets == [] then ""
    else
      var first := [HexDigit(octets[0] / 16), HexDigit(octets[0] % 16)];
      if |octets| == 1 then first else first + ":" + MacString(octets[1..])
  }

  function Field(key: string, value: string): string {
    key + "=" + value
  }

  function Fields(socket: string, mac: string): seq<string> {
    [Field("vhost_user", "true"), Field("socket", socket), Field("mac", mac), Field("num_queues", "2")]
  }

  function Line(socket: string, mac: string): string {
    var f := Fields(socket, mac);
    f[0] + "," + (f[1] + "," + (f[2] + "," + f[3]))
  }

  /** `octets` is what net.ParseMAC makes of the address, None when it rejects it. */
  function VhostUserNetConfig(socket: string, mac: string, octets: Option<seq<int>>): Option<string>
    requires octets.Some? ==> forall i | 0 <= i < |octets.value| :: 0 <= octets.value[i] < 256
  {
    if IsBlank(socket) || IsBlank(mac) || octets.None? || |octets.value| != 6 then None
    else if !(SocketBase + "/" <= socket) && socket != SocketBase + "/.sock" then None
    else Some(Line(socket, MacString(octets.value)))
  }

  lemma SplitLine(a: string, b: string, c: string, d: string)
    requires ',' !in a && ',' !in b && ',' !in c && ',' !in d
    ensures Split(a + "," + (b + "," + (c + "," + d)), ',') == [a, b, c, d]
  {
    SplitFirst(d, ',', "");
    SplitFirst(c, ',', d);
    SplitFirst(b, ',', c + "," + d);
    SplitFirst(a, ',', b + "," + (c + "," + d));
  }

  lemma FieldCommaFree(key: string, value: string)
    requires ',' !in key && ',' !in value
    ensures ',' !in Field(key, value)
  {
  }

  lemma LineFields(socket: string, mac: string)
    requires ',' !in socket && ',' !in mac
    ensures Split(Line(socket, mac), ',') == Fields(socket, mac)
  {
    FieldCommaFree("vhost_user", "true");
    FieldCommaFree("socket", socket);
    FieldCommaFree("mac", mac);
    FieldCommaFree("num_queues", "2");
    var f := Fields(socket, mac);
    SplitLine(f[0], f[1], f[2], f[3]);
  }

  lemma FieldApplies(cfg: NetConfig, key: string, value: string)
    requires '=' !in key
    ensures ApplyField(cfg, Field(key, value)) == ApplyKey(cfg, key, value)
  {
    CutKey(key, '=', value);
  }

  /** Four fields, one after the other. */
  lemma ApplyFour(cfg: NetConfig, f: seq<string>, c1: NetConfig, c2: NetConfig, c3: NetConfig, c4: NetConfig)
    requires |f| == 4 && ApplyField(cfg, f[0]) == Some(c1) && ApplyField(c1, f[1]) == Some(c2)
    requires ApplyField(c2, f[2]) == Some(c3) && ApplyField(c3, f[3]) == Some(c4)
    ensures ApplyFields(cfg, f) == Some(c4)
  {
    var two, three := f[1..], f[2..];
    assert two[1..] == three && three[1..] == f[3..] && f[3..][1..] == [];
    assert ApplyFields(c3, f[3..]) == Some(c4);
    assert ApplyFields(c2, three) == Some(c4);
    assert ApplyFields(c1, two) == Some(c4);
  }

  lemma FlagApplies(cfg: NetConfig)
    ensures ApplyKey(cfg, "vhost_user", "true") == Some(cfg.(vhostUser := true))
  {
  }

  lemma TextApplies(cfg: NetConfig, value: string)
    ensures ApplyKey(cfg, "socket", value) == Some(cfg.(vhostSocket := value))
    ensures ApplyKey(cfg, "mac", value) == Some(cfg.(mac := value))
  {
    KeysDistinct();
  }

  lemma QueuesApply(cfg: NetConfig)
    ensures ApplyKey(cfg, "num_queues", "2") == Some(cfg.(numQueues := 2))
  {
    KeysDistinct();
    AtoiOfTwo();
  }

  lemma FieldsApply(socket: string, mac: string)
    ensures ApplyFields(Blank, Fields(socket, mac)) == Some(NetConfig(true, socket, mac, 2))
  {
    var c1 := Blank.(vhostUser := true);
    var c2 := c1.(vhostSocket := socket);
    var c3 := c2.(mac := mac);
    FieldApplies(Blank, "vhost_user", "true");
    FieldApplies(c1, "socket", socket);
    FieldApplies(c2, "mac", mac);
    FieldApplies(c3, "num_queues", "2");
    FlagApplies(Blank);
    TextApplies(c1, socket);
    TextApplies(c2, mac);
    QueuesApply(c3);
    var f := Fields(socket, mac);
    ApplyFour(Blank, f, c1, c2, c3, c3.(numQueues := 2));
  }

  lemma {:induction false} AppliedSocketIsFree(cfg: NetConfig, fields: seq<string>)
    requires ',' !in cfg.vhostSocket && forall f | f in fields :: ',' !in f
    ensures ApplyFields(cfg, fields).Some? ==> ',' !in ApplyFields(cfg, fields).value.vhostSocket
    decreases |fields|
  {
    if fields != [] {
      assert fields[0] in fields;
      var next := ApplyField(cfg, fields[0]);
      if next.Some? { AppliedSocketIsFree(next.value, fields[1..]); }
    }
  }

  /**
    Parsing a rendered string gives back its socket, address, flag and queues exactly when the socket path has
    no comma.
  */
  lemma NetConfigRoundTrip(socket: string, mac: string, octets: seq<int>)
    requires forall i | 0 <= i < |octets| :: 0 <= octets[i] < 256
    requires VhostUserNetConfig(socket, mac, Some(octets)).Some?
    ensures var line := VhostUserNetConfig(socket, mac, Some(octets)).value;
      Parsed(line) == Some(NetConfig(true, socket, MacString(octets), 2)) <==> ',' !in socket
  {
    var line := Line(socket, MacString(octets));
    if ',' !in socket {
      LineFields(socket, MacString(octets));
      FieldsApply(socket, MacString(octets));
    }
    SplitPiecesFree(line, ',');
    AppliedSocketIsFree(Blank, Split(line, ','));
  }
}
