/** The negotiated tunnel settings and the fold over option lines that produces them. Line numbers
    refer to src/settings.rs. */
module SettingsModel {
  import opened Wrappers
  import opened Net
  import opened DedupModel
  import opened Vectors

  datatype Settings = Settings(ipv4: Option<Ipv4>, ipv6: Option<Ipv6>, dns: seq<IpAddr>, mtu: nat) {
    predicate SupportsFamily(ip: IpAddr) {
      if ip.V4? then ipv4.Some? else ipv6.Some?
    }

    /** What every user of accepted settings may rely on. */
    predicate Usable() {
      && (ipv4.Some? || ipv6.Some?)
      && 576 <= mtu <= 9000
      && (ipv6.Some? ==> mtu >= 1280)
      && (ipv4.Some? ==> Plain(V4(ipv4.value)))
      && (ipv6.Some? ==> Plain(V6(ipv6.value)))
      && (forall ip | ip in dns :: Plain(ip) && SupportsFamily(ip))
      && NoRepeat(dns)
    }
  }

  datatype SettingsError =
    | BadIpv4 | BadIpv6 | BadDns | BadMtuText
    | NoAddress | MtuOutOfRange | Ipv6MtuTooSmall | BadAssignedAddress | BadDnsAddress

  /** The standard library's text parsers: any total functions. */
  datatype Parsers = Parsers(
    v4: string -> Option<Ipv4>,
    v6: string -> Option<Ipv6>,
    ip: string -> Option<IpAddr>,
    number: string -> Option<nat>)

  /** An option line split at white space. */
  datatype Fields = Fields(words: seq<string>)

  datatype Line =
    | Assign4(text: string)
    | Assign6(text: string)
    | Servers(texts: seq<string>)
    | TunMtu(text: string)
    | Ignored

  function BeforeSlash(s: string): string {
    if s == "" || s[0] == '/' then "" else [s[0]] + BeforeSlash(s[1..])
  }

  function Classify(fields: Fields): Line {
    var w := fields.words;
    if |w| == 3 && w[0] == "ifconfig" then
      Assign4(w[1])
    else if |w| == 3 && w[0] == "ifconfig-ipv6" then
      Assign6(BeforeSlash(w[1]))
    else if |w| == 3 && w[0] == "dhcp-option" && (w[1] == "DNS" || w[1] == "DNS6") then
      Servers([w[2]])
    else if |w| >= 4 && w[0] == "dns" && w[1] == "server" && w[3] == "address" then
      Servers(w[4..])
    else if |w| == 2 && w[0] == "tun-mtu" then
      TunMtu(w[1])
    else
      Ignored
  }

  predicate Plain(ip: IpAddr) {
    !ip.IsUnspecified() && !ip.IsMulticast()
  }

  // ---- What the lines say, each aspect by itself ----

  /** The complaint a line gives rise to, if its text does not parse. */
  function Complaint(line: Line, std: Parsers): Option<SettingsError> {
    match line
    case Assign4(text) => if std.v4(text).None? then Some(BadIpv4) else None
    case Assign6(text) => if std.v6(text).None? then Some(BadIpv6) else None
    case Servers(texts) => if exists t | t in texts :: std.ip(t).None? then Some(BadDns) else None
    case TunMtu(text) => if std.number(text).None? then Some(BadMtuText) else None
    case Ignored => None
  }

  function FirstComplaint(lines: seq<Fields>, std: Parsers): Option<SettingsError> {
    if lines == [] then None
    else
      var n := |lines| - 1;
      var earlier := FirstComplaint(lines[..n], std);
      if earlier.Some? then earlier else Complaint(Classify(lines[n]), std)
  }

  function LastIpv4(lines: seq<Fields>, std: Parsers): Option<Ipv4> {
    if lines == [] then None
    else
      var n := |lines| - 1;
      match Classify(lines[n])
      case Assign4(text) => std.v4(text)
      case _ => LastIpv4(lines[..n], std)
  }

  function LastIpv6(lines: seq<Fields>, std: Parsers): Option<Ipv6> {
    if lines == [] then None
    else
      var n := |lines| - 1;
      match Classify(lines[n])
      case Assign6(text) => std.v6(text)
      case _ => LastIpv6(lines[..n], std)
  }

  function ParseAll(texts: seq<string>, std: Parsers): seq<IpAddr> {
    if texts == [] then []
    else
      var n := |texts| - 1;
      ParseAll(texts[..n], std) + match std.ip(texts[n]) case Some(ip) => [ip] case None => []
  }

  function DnsIn(line: Line, std: Parsers): seq<IpAddr> {
    match line
    case Servers(texts) => ParseAll(texts, std)
    case _ => []
  }

  function DnsOf(lines: seq<Fields>, std: Parsers): seq<IpAddr> {
    if lines == [] then []
    else DnsOf(lines[..|lines| - 1], std) + DnsIn(Classify(lines[|lines| - 1]), std)
  }

  function MtuIn(line: Line, std: Parsers): seq<nat> {
    match line
    case TunMtu(text) => (match std.number(text) case Some(n) => [n] case None => [])
    case _ => []
  }

  function MtusOf(lines: seq<Fields>, std: Parsers): seq<nat> {
    if lines == [] then []
    else MtusOf(lines[..|lines| - 1], std) + MtuIn(Classify(lines[|lines| - 1]), std)
  }

  function Min(a: nat, b: nat): nat {
    if b < a then b else a
  }

  function Least(base: nat, values: seq<nat>): nat {
    if values == [] then base else Min(Least(base, values[..|values| - 1]), values[|values| - 1])
  }

  /** `Vec::retain`. */
  function Retain(ips: seq<IpAddr>, s: Settings): seq<IpAddr> {
    if ips == [] then []
    else
      var n := |ips| - 1;
      Retain(ips[..n], s) + if s.SupportsFamily(ips[n]) then [ips[n]] else []
  }

  /** The checks after the last line, in their order. */
  function Check(s: Settings): Result<Settings, SettingsError> {
    if s.ipv4.None? && s.ipv6.None? then Err(NoAddress)
    else if !(576 <= s.mtu <= 9000) then Err(MtuOutOfRange)
    else if s.ipv6.Some? && s.mtu < 1280 then Err(Ipv6MtuTooSmall)
    else if s.ipv4.Some? && !Plain(V4(s.ipv4.value)) then Err(BadAssignedAddress)
    else if s.ipv6.Some? && !Plain(V6(s.ipv6.value)) then Err(BadAssignedAddress)
    else if exists ip | ip in s.dns :: !Plain(ip) then Err(BadDnsAddress)
    else Ok(s.(dns := Dedup(Retain(s.dns, s))))
  }

  /** The settings as the lines state them, before checking. */
  function Stated(lines: seq<Fields>, mtu: nat, dnsOverride: seq<IpAddr>, std: Parsers): Settings {
    Settings(
      LastIpv4(lines, std),
      LastIpv6(lines, std),
      if dnsOverride != [] then dnsOverride else DnsOf(lines, std),
      Least(mtu, MtusOf(lines, std)))
  }

  function Meaning(lines: seq<Fields>, mtu: nat, dnsOverride: seq<IpAddr>, std: Parsers)
    : Result<Settings, SettingsError>
  {
    match FirstComplaint(lines, std)
    case Some(error) => Err(error)
    case None => Check(Stated(lines, mtu, dnsOverride, std))
  }

  // ---- The loop ----

  /** Parse the addresses of one line, giving up at the first that is not one. */
  method ParseServers(texts: seq<string>, std: Parsers) returns (ok: bool, ips: seq<IpAddr>)
    ensures ok <==> forall t | t in texts :: std.ip(t).Some?
    ensures ok ==> ips == ParseAll(texts, std)
  {
    ips := [];
    for i := 0 to |texts|
      invariant forall t | t in texts[..i] :: std.ip(t).Some?
      invariant ips == ParseAll(texts[..i], std)
    {
      var ip := std.ip(texts[i]);
      assert texts[..i + 1] == texts[..i] + [texts[i]];
      assert texts[..i + 1][..i] == texts[..i];
      if ip.None? {
        assert texts[i] in texts;
        return false, ips;
      }
      ips := ips + [ip.value];
    }
    assert texts[..|texts|] == texts;
    ok := true;
  }

  lemma ComplaintStays(lines: seq<Fields>, i: nat, std: Parsers)
    requires i <= |lines| && FirstComplaint(lines[..i], std).Some?
    ensures FirstComplaint(lines, std) == FirstComplaint(lines[..i], std)
    decreases |lines| - i
  {
    if i < |lines| {
      assert lines[..i + 1][..i] == lines[..i];
      ComplaintStays(lines, i + 1, std);
    } else {
      assert lines[..i] == lines;
    }
  }

  /** What one more line changes in each aspect. */
  lemma OneMoreLine(lines: seq<Fields>, fields: Fields, mtu: nat, std: Parsers)
    ensures var line, all := Classify(fields), lines + [fields];
      && FirstComplaint(all, std)
         == (if FirstComplaint(lines, std).Some? then FirstComplaint(lines, std) else Complaint(line, std))
      && LastIpv4(all, std) == (if line.Assign4? then std.v4(line.text) else LastIpv4(lines, std))
      && LastIpv6(all, std) == (if line.Assign6? then std.v6(line.text) else LastIpv6(lines, std))
      && DnsOf(all, std) == DnsOf(lines, std) + DnsIn(line, std)
      && Least(mtu, MtusOf(all, std)) == (
           if MtuIn(line, std) == [] then Least(mtu, MtusOf(lines, std))
           else Min(Least(mtu, MtusOf(lines, std)), MtuIn(line, std)[0]))
  {
    assert (lines + [fields])[..|lines|] == lines;
    var values := MtuIn(Classify(fields), std);
    if values == [] {
      assert MtusOf(lines, std) + values == MtusOf(lines, std);
    } else {
      assert values == [values[0]];
      LeastAppend(mtu, MtusOf(lines, std), values[0]);
    }
  }

  /** What one line that parses changes. */
  function Updated(s: Settings, line: Line, std: Parsers): Settings {
    Settings(
      if line.Assign4? then std.v4(line.text) else s.ipv4,
      if line.Assign6? then std.v6(line.text) else s.ipv6,
      s.dns + DnsIn(line, std),
      if MtuIn(line, std) == [] then s.mtu else Min(s.mtu, MtuIn(line, std)[0]))
  }

  /** The fold, one line further. */
  lemma NextLine(lines: seq<Fields>, i: nat, mtu: nat, std: Parsers)
    requires i < |lines| && FirstComplaint(lines[..i], std).None?
    ensures FirstComplaint(lines[..i + 1], std) == Complaint(Classify(lines[i]), std)
    ensures Stated(lines[..i + 1], mtu, [], std) == Updated(Stated(lines[..i], mtu, [], std), Classify(lines[i]), std)
  {
    assert lines[..i + 1] == lines[..i] + [lines[i]];
    StatedAppend(lines[..i], lines[i], mtu, std);
  }

  lemma StatedAppend(lines: seq<Fields>, fields: Fields, mtu: nat, std: Parsers)
    ensures FirstComplaint(lines, std).None? ==>
      FirstComplaint(lines + [fields], std) == Complaint(Classify(fields), std)
    ensures Stated(lines + [fields], mtu, [], std) == Updated(Stated(lines, mtu, [], std), Classify(fields), std)
  {
    OneMoreLine(lines, fields, mtu, std);
  }

  /** The match of lines 25 to 49. */
  method ParseLine(result: Settings, line: Line, std: Parsers) returns (r: Result<Settings, SettingsError>)
    ensures Complaint(line, std).Some? ==> r == Err(Complaint(line, std).value)
    ensures Complaint(line, std).None? ==> r == Ok(Updated(result, line, std))
  {
    assert result.dns + [] == result.dns;
    match line {
      case Assign4(text) =>
        var ip := std.v4(text);
        if ip.None? { return Err(BadIpv4); }
        return Ok(result.(ipv4 := ip));
      case Assign6(text) =>
        var ip := std.v6(text);
        if ip.None? { return Err(BadIpv6); }
        return Ok(result.(ipv6 := ip));
      case Servers(texts) =>
        var ok, ips := ParseServers(texts, std);
        if !ok { return Err(BadDns); }
        return Ok(result.(dns := result.dns + ips));
      case TunMtu(text) =>
        var value := std.number(text);
        if value.None? { return Err(BadMtuText); }
        return Ok(result.(mtu := Min(result.mtu, value.value)));
      case Ignored =>
        return Ok(result);
    }
  }

  method Parse(lines: seq<Fields>, mtu: nat, dnsOverride: seq<IpAddr>, std: Parsers)
    returns (r: Result<Settings, SettingsError>)
    ensures r == Meaning(lines, mtu, dnsOverride, std)
  {
    var result := Settings(None, None, [], mtu);
    for i := 0 to |lines|
      invariant FirstComplaint(lines[..i], std).None?
      invariant result == Stated(lines[..i], mtu, [], std)
    {
      NextLine(lines, i, mtu, std);
      var next := ParseLine(result, Classify(lines[i]), std);
      if next.Err? {
        ComplaintStays(lines, i + 1, std);
        return next;
      }
      result := next.value;
    }
    assert lines[..|lines|] == lines;
    if dnsOverride != [] {
      result := result.(dns := dnsOverride);
    }
    r := Check(result);
  }

  lemma LeastAppend(base: nat, values: seq<nat>, v: nat)
    ensures Least(base, values + [v]) == Min(Least(base, values), v)
  {
    assert (values + [v])[..|values|] == values;
  }

  // ---- What acceptance means ----

  lemma {:induction false} RetainMembers(ips: seq<IpAddr>, s: Settings)
    ensures forall ip :: ip in Retain(ips, s) <==> ip in ips && s.SupportsFamily(ip)
  {
    if ips != [] {
      var n := |ips| - 1;
      assert ips == ips[..n] + [ips[n]];
      RetainMembers(ips[..n], s);
    }
  }

  /** Whatever the options, accepted settings are usable: they assign an address, keep the MTU
      in range and list only servers of assigned families, none twice in a row. */
  lemma AcceptedIsUsable(lines: seq<Fields>, mtu: nat, dnsOverride: seq<IpAddr>, std: Parsers)
    requires Meaning(lines, mtu, dnsOverride, std).Ok?
    ensures Meaning(lines, mtu, dnsOverride, std).value.Usable()
  {
    var s := Stated(lines, mtu, dnsOverride, std);
    RetainMembers(s.dns, s);
    DedupMembers(Retain(s.dns, s));
  }

  /** Settings that are usable already pass the checks unchanged: checking is idempotent. */
  lemma CheckIsIdempotent(s: Settings)
    requires s.Usable()
    ensures Check(s) == Ok(s)
  {
    RetainAll(s.dns, s);
    DedupAll(s.dns);
  }

  lemma {:induction false} RetainAll(ips: seq<IpAddr>, s: Settings)
    requires forall ip | ip in ips :: s.SupportsFamily(ip)
    ensures Retain(ips, s) == ips
  {
    if ips != [] {
      var n := |ips| - 1;
      assert ips == ips[..n] + [ips[n]];
      RetainAll(ips[..n], s);
    }
  }

  // ---- Order ----

  lemma {:induction false} LeastIsMinimum(base: nat, values: seq<nat>)
    ensures Least(base, values) <= base && (forall v | v in values :: Least(base, values) <= v)
    ensures Least(base, values) == base || Least(base, values) in values
  {
    if values != [] {
      var n := |values| - 1;
      assert values == values[..n] + [values[n]];
      LeastIsMinimum(base, values[..n]);
    }
  }

  lemma {:induction false} MtuMembers(lines: seq<Fields>, std: Parsers)
    ensures forall v :: v in MtusOf(lines, std) <==> exists l | l in lines :: v in MtuIn(Classify(l), std)
  {
    if lines != [] {
      var n := |lines| - 1;
      assert lines == lines[..n] + [lines[n]];
      MtuMembers(lines[..n], std);
    }
  }

  /** The MTU does not depend on the order of the lines, nor on how often one is repeated. */
  lemma MtuIgnoresOrder(a: seq<Fields>, b: seq<Fields>, mtu: nat, std: Parsers)
    requires forall l :: l in a <==> l in b
    ensures Least(mtu, MtusOf(a, std)) == Least(mtu, MtusOf(b, std))
  {
    MtuMembers(a, std);
    MtuMembers(b, std);
    assert forall v :: v in MtusOf(a, std) <==> v in MtusOf(b, std);
    LeastIsMinimum(mtu, MtusOf(a, std));
    LeastIsMinimum(mtu, MtusOf(b, std));
  }

  lemma {:induction false} ComplaintMeans(lines: seq<Fields>, std: Parsers)
    ensures FirstComplaint(lines, std).None? <==> forall l | l in lines :: Complaint(Classify(l), std).None?
  {
    if lines != [] {
      var n := |lines| - 1;
      assert lines == lines[..n] + [lines[n]];
      ComplaintMeans(lines[..n], std);
    }
  }

  /** Whether every line parses does not depend on the order either. */
  lemma ComplaintIgnoresOrder(a: seq<Fields>, b: seq<Fields>, std: Parsers)
    requires forall l :: l in a <==> l in b
    ensures FirstComplaint(a, std).None? <==> FirstComplaint(b, std).None?
  {
    ComplaintMeans(a, std);
    ComplaintMeans(b, std);
  }

  /** Addresses are last-wins: of all `ifconfig` lines the last one decides. */
  lemma {:induction false} LastAssignmentWins(lines: seq<Fields>, i: nat, std: Parsers)
    requires i < |lines|
    ensures Classify(lines[i]).Assign4? && (forall k | i < k < |lines| :: !Classify(lines[k]).Assign4?)
            ==> LastIpv4(lines, std) == std.v4(Classify(lines[i]).text)
    ensures Classify(lines[i]).Assign6? && (forall k | i < k < |lines| :: !Classify(lines[k]).Assign6?)
            ==> LastIpv6(lines, std) == std.v6(Classify(lines[i]).text)
    decreases |lines|
  {
    var n := |lines| - 1;
    if i < n {
      LastAssignmentWins(lines[..n], i, std);
      assert forall k | 0 <= k < n :: lines[..n][k] == lines[k];
    }
  }

  /** Servers are collected in order: the list of a concatenation is the concatenation of the lists. */
  lemma {:induction false} DnsOfConcat(a: seq<Fields>, b: seq<Fields>, std: Parsers)
    ensures DnsOf(a + b, std) == DnsOf(a, std) + DnsOf(b, std)
    decreases |b|
  {
    if b == [] {
      assert a + b == a;
    } else {
      var n := |b| - 1;
      ConcatFront(a, b);
      DnsOfConcat(a, b[..n], std);
      ConcatAssoc(DnsOf(a, std), DnsOf(b[..n], std), DnsIn(Classify(b[n]), std));
    }
  }

  // ---- Repeated servers ----

  /** The accepted servers are all different if and only if, among those of assigned families, equal
      ones stood together. */
  lemma ServersDistinctIff(lines: seq<Fields>, mtu: nat, dnsOverride: seq<IpAddr>, std: Parsers)
    requires Meaning(lines, mtu, dnsOverride, std).Ok?
    ensures var s := Stated(lines, mtu, dnsOverride, std);
      AllDistinct(Meaning(lines, mtu, dnsOverride, std).value.dns) <==> Grouped(Retain(s.dns, s))
  {
    var s := Stated(lines, mtu, dnsOverride, std);
    DistinctIffGrouped(Retain(s.dns, s));
  }

  const ADDRESS: Ipv4 := [10, 0, 0, 1]
  const NEAR: Ipv4 := [10, 0, 0, 2]
  const FAR: Ipv4 := [10, 0, 0, 3]

  const ADDRESS_LINE := Fields(["ifconfig", "x", "y"])
  const SERVERS_LINE := Fields(["dns", "server", "0", "address", "a", "b", "a"])

  /** The numbers the texts of the example stand for. */
  predicate Reads(std: Parsers) {
    && std.v4("x") == Some(ADDRESS)
    && std.ip("a") == Some(V4(NEAR)) && std.ip("b") == Some(V4(FAR))
  }

  const EXAMPLE := Parsers(
    text => if text == "x" then Some(ADDRESS) else None,
    _ => None,
    text => if text == "a" then Some(V4(NEAR)) else if text == "b" then Some(V4(FAR)) else None,
    _ => None)

  lemma AddressLineStates(std: Parsers)
    requires Reads(std)
    ensures FirstComplaint([ADDRESS_LINE], std).None?
    ensures Stated([ADDRESS_LINE], 1500, [], std) == Settings(Some(ADDRESS), None, [], 1500)
  {
    StatedAppend([], ADDRESS_LINE, 1500, std);
    assert [] + [ADDRESS_LINE] == [ADDRESS_LINE];
  }

  lemma ServersLineStates(std: Parsers)
    requires Reads(std)
    ensures FirstComplaint([ADDRESS_LINE, SERVERS_LINE], std).None?
    ensures Stated([ADDRESS_LINE, SERVERS_LINE], 1500, [], std)
         == Settings(Some(ADDRESS), None, [V4(NEAR), V4(FAR), V4(NEAR)], 1500)
  {
    AddressLineStates(std);
    StatedAppend([ADDRESS_LINE], SERVERS_LINE, 1500, std);
    assert [ADDRESS_LINE] + [SERVERS_LINE] == [ADDRESS_LINE, SERVERS_LINE];
    assert SERVERS_LINE.words[4..] == ["a", "b", "a"];
    ServersParse(std);
  }

  /** An input on which it fails: servers given as a, b, a are accepted as a, b, a. */
  lemma RepeatedServerStays()
    ensures Meaning([ADDRESS_LINE, SERVERS_LINE], 1500, [], EXAMPLE)
         == Ok(Settings(Some(ADDRESS), None, [V4(NEAR), V4(FAR), V4(NEAR)], 1500))
  {
    ServersLineStates(EXAMPLE);
    AllRetained(Stated([ADDRESS_LINE, SERVERS_LINE], 1500, [], EXAMPLE));
    AllPlain();
  }

  lemma AllPlain()
    ensures Plain(V4(ADDRESS)) && Plain(V4(NEAR)) && Plain(V4(FAR))
  {
    assert V4(ADDRESS).Octets()[0] == V4(NEAR).Octets()[0] == V4(FAR).Octets()[0] == 10;
  }

  lemma ServersParse(std: Parsers)
    requires Reads(std)
    ensures ParseAll(["a", "b", "a"], std) == [V4(NEAR), V4(FAR), V4(NEAR)]
  {
    assert ["a", "b", "a"][..2] == ["a", "b"] && ["a", "b"][..1] == ["a"] && ["a"][..0] == [];
    assert ParseAll(["a"], std) == [V4(NEAR)] && ParseAll(["a", "b"], std) == [V4(NEAR), V4(FAR)];
  }

  lemma AllRetained(s: Settings)
    requires s.dns == [V4(NEAR), V4(FAR), V4(NEAR)] && s.ipv4.Some?
    ensures Dedup(Retain(s.dns, s)) == s.dns
  {
    RetainAll(s.dns, s);
    DedupAll(s.dns);
  }
}
