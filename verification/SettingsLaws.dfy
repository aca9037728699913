/** What option lines mean, by their words, and which options are accepted. Line numbers refer to
    src/settings.rs. */
module SettingsLaws {
  import opened Wrappers
  import opened Net
  import opened Vectors
  import opened DedupModel
  import opened SettingsModel

  // ---- The lines that say something ----

  predicate Assigns4(w: seq<string>) {
    |w| == 3 && w[0] == "ifconfig"
  }

  predicate Assigns6(w: seq<string>) {
    |w| == 3 && w[0] == "ifconfig-ipv6"
  }

  /** The text before the first slash of the word, or all of it. */
  ghost predicate AddressPart(word: string, text: string) {
    '/' !in text && (word == text || text + "/" <= word)
  }

  /** The line names this text as a DNS server. */
  predicate NamesServer(w: seq<string>, text: string) {
    || (|w| == 3 && w[0] == "dhcp-option" && w[1] in {"DNS", "DNS6"} && text == w[2])
    || (|w| >= 4 && w[0] == "dns" && w[1] == "server" && w[3] == "address" && text in w[4..])
  }

  predicate LimitsMtu(w: seq<string>) {
    |w| == 2 && w[0] == "tun-mtu"
  }

  /** All that the line names can be read. */
  ghost predicate Readable(w: seq<string>, std: Parsers) {
    && (Assigns4(w) ==> std.v4(w[1]).Some?)
    && (Assigns6(w) ==> forall text | AddressPart(w[1], text) :: std.v6(text).Some?)
    && (forall text | NamesServer(w, text) :: std.ip(text).Some?)
    && (LimitsMtu(w) ==> std.number(w[1]).Some?)
  }

  /** Neither unspecified nor multicast. */
  predicate Ordinary(ip: IpAddr) {
    && (exists k | 0 <= k < |ip.Octets()| :: ip.Octets()[k] != 0)
    && match ip
       case V4(octets) => octets[0] < 224 || octets[0] > 239
       case V6(octets) => octets[0] != 255
  }

  // ---- What the lines say together ----

  predicate LastOf(lines: seq<Fields>, says: seq<string> -> bool, i: int) {
    0 <= i < |lines| && says(lines[i].words) && forall k | i < k < |lines| :: !says(lines[k].words)
  }

  /** The last three-word `ifconfig` line decides. */
  ghost predicate Says4(lines: seq<Fields>, std: Parsers, ip: Option<Ipv4>) {
    if forall k | 0 <= k < |lines| :: !Assigns4(lines[k].words) then ip == None
    else exists i :: LastOf(lines, Assigns4, i) && ip == std.v4(lines[i].words[1])
  }

  /** The last three-word `ifconfig-ipv6` line decides, by what comes before the slash. */
  ghost predicate Says6(lines: seq<Fields>, std: Parsers, ip: Option<Ipv6>) {
    if forall k | 0 <= k < |lines| :: !Assigns6(lines[k].words) then ip == None
    else exists i, text ::
      LastOf(lines, Assigns6, i) && AddressPart(lines[i].words[1], text) && ip == std.v6(text)
  }

  /** The least of the base and all limits given. */
  ghost predicate SaysMtu(lines: seq<Fields>, base: nat, std: Parsers, mtu: nat) {
    && mtu <= base
    && (forall l | l in lines && LimitsMtu(l.words) && std.number(l.words[1]).Some? ::
          mtu <= std.number(l.words[1]).value)
    && (mtu == base || exists l :: l in lines && LimitsMtu(l.words) && std.number(l.words[1]) == Some(mtu))
  }

  /** The override, or what some line names. */
  ghost predicate SaysServer(lines: seq<Fields>, dnsOverride: seq<IpAddr>, std: Parsers, ip: IpAddr) {
    if dnsOverride != [] then ip in dnsOverride
    else exists l, text :: l in lines && NamesServer(l.words, text) && std.ip(text) == Some(ip)
  }

  // ---- That this is what the model computes ----

  lemma {:induction false} BeforeSlashIs(word: string, text: string)
    requires AddressPart(word, text)
    ensures BeforeSlash(word) == text
    decreases |text|
  {
    if text != "" {
      assert word[0] == text[0] && text[0] in text;
      assert word != text ==> text[1..] + "/" == (text + "/")[1..];
      BeforeSlashIs(word[1..], text[1..]);
    }
  }

  lemma {:induction false} BeforeSlashPart(word: string)
    ensures AddressPart(word, BeforeSlash(word))
  {
    if word != "" && word[0] != '/' {
      BeforeSlashPart(word[1..]);
      var text := BeforeSlash(word[1..]);
      if word[1..] != text {
        assert [word[0]] + text + "/" == [word[0]] + (text + "/");
      }
    }
  }

  lemma ReadableIff(l: Fields, std: Parsers)
    ensures Complaint(Classify(l), std).None? <==> Readable(l.words, std)
  {
    var w := l.words;
    if Assigns6(w) {
      BeforeSlashPart(w[1]);
      forall text | AddressPart(w[1], text) ensures text == BeforeSlash(w[1]) {
        BeforeSlashIs(w[1], text);
      }
    }
    forall text ensures NamesServer(w, text) <==> Classify(l).Servers? && text in Classify(l).texts {}
  }

  lemma AllReadableIff(lines: seq<Fields>, std: Parsers)
    ensures FirstComplaint(lines, std).None? <==> forall l | l in lines :: Readable(l.words, std)
  {
    ComplaintMeans(lines, std);
    forall l | l in lines ensures Complaint(Classify(l), std).None? <==> Readable(l.words, std) {
      ReadableIff(l, std);
    }
  }

  lemma {:induction false} LastIpv4Is(lines: seq<Fields>, std: Parsers, ip: Option<Ipv4>)
    requires Says4(lines, std, ip)
    ensures LastIpv4(lines, std) == ip
  {
    if i :| LastOf(lines, Assigns4, i) && ip == std.v4(lines[i].words[1]) {
      LastAssignmentWins(lines, i, std);
    } else {
      NoIpv4(lines, std);
    }
  }

  lemma {:induction false} NoIpv4(lines: seq<Fields>, std: Parsers)
    requires forall k | 0 <= k < |lines| :: !Assigns4(lines[k].words)
    ensures LastIpv4(lines, std) == None
  {
    if lines != [] {
      NoIpv4(lines[..|lines| - 1], std);
    }
  }

  lemma {:induction false} LastIpv6Is(lines: seq<Fields>, std: Parsers, ip: Option<Ipv6>)
    requires Says6(lines, std, ip)
    ensures LastIpv6(lines, std) == ip
  {
    if i, text :| LastOf(lines, Assigns6, i) && AddressPart(lines[i].words[1], text) && ip == std.v6(text) {
      BeforeSlashIs(lines[i].words[1], text);
      LastAssignmentWins(lines, i, std);
    } else {
      NoIpv6(lines, std);
    }
  }

  lemma {:induction false} NoIpv6(lines: seq<Fields>, std: Parsers)
    requires forall k | 0 <= k < |lines| :: !Assigns6(lines[k].words)
    ensures LastIpv6(lines, std) == None
  {
    if lines != [] {
      NoIpv6(lines[..|lines| - 1], std);
    }
  }

  lemma LeastMtuIs(lines: seq<Fields>, base: nat, std: Parsers, mtu: nat)
    requires SaysMtu(lines, base, std, mtu)
    ensures Least(base, MtusOf(lines, std)) == mtu
  {
    MtuMembers(lines, std);
    LeastIsMinimum(base, MtusOf(lines, std));
    MtuSaid(lines, base, std);
    if mtu != base {
      var l :| l in lines && LimitsMtu(l.words) && std.number(l.words[1]) == Some(mtu);
      LimitIs(l, std, mtu);
      assert mtu in MtusOf(lines, std);
    }
  }

  lemma {:induction false} ParseAllMembers(texts: seq<string>, std: Parsers)
    ensures forall ip :: ip in ParseAll(texts, std) <==> exists text :: text in texts && std.ip(text) == Some(ip)
  {
    if texts != [] {
      var n := |texts| - 1;
      assert texts == texts[..n] + [texts[n]];
      ParseAllMembers(texts[..n], std);
    }
  }

  lemma ServersOfLine(l: Fields, std: Parsers)
    ensures forall ip ::
      ip in DnsIn(Classify(l), std) <==> exists text :: NamesServer(l.words, text) && std.ip(text) == Some(ip)
  {
    var line := Classify(l);
    forall text ensures NamesServer(l.words, text) <==> line.Servers? && text in line.texts {}
    if line.Servers? {
      ParseAllMembers(line.texts, std);
    }
  }

  lemma {:induction false} ServersAre(lines: seq<Fields>, std: Parsers)
    ensures forall ip :: ip in DnsOf(lines, std) <==> SaysServer(lines, [], std, ip)
  {
    if lines != [] {
      var n := |lines| - 1;
      assert lines == lines[..n] + [lines[n]];
      ServersAre(lines[..n], std);
      ServersOfLine(lines[n], std);
      forall ip ensures ip in DnsOf(lines, std) <==> SaysServer(lines, [], std, ip) {
        assert ip in DnsOf(lines[..n], std) <==> SaysServer(lines[..n], [], std, ip);
      }
    }
  }

  lemma OrdinaryIff(ip: IpAddr)
    ensures Plain(ip) <==> Ordinary(ip)
  {
  }

  // ---- The laws ----

  /** An unreadable line stops everything: the first one decides what is complained about. */
  lemma UnreadableLine(lines: seq<Fields>, i: nat, mtu: nat, dnsOverride: seq<IpAddr>, std: Parsers)
    requires i < |lines| && !Readable(lines[i].words, std) && forall l | l in lines[..i] :: Readable(l.words, std)
    ensures Meaning(lines, mtu, dnsOverride, std) == Err(
      if Assigns4(lines[i].words) then BadIpv4
      else if Assigns6(lines[i].words) then BadIpv6
      else if LimitsMtu(lines[i].words) then BadMtuText
      else BadDns)
  {
    AllReadableIff(lines[..i], std);
    ReadableIff(lines[i], std);
    NextLine(lines, i, mtu, std);
    ComplaintStays(lines, i + 1, std);
  }

  /** What the checks come to. */
  ghost predicate Decides(s: Settings, r: Result<Settings, SettingsError>) {
    if s.ipv4.None? && s.ipv6.None? then r == Err(NoAddress)
    else if s.mtu < 576 || s.mtu > 9000 then r == Err(MtuOutOfRange)
    else if s.ipv6.Some? && s.mtu < 1280 then r == Err(Ipv6MtuTooSmall)
    else if (s.ipv4.Some? && !Ordinary(V4(s.ipv4.value))) || (s.ipv6.Some? && !Ordinary(V6(s.ipv6.value))) then
      r == Err(BadAssignedAddress)
    else if exists ip :: ip in s.dns && !Ordinary(ip) then r == Err(BadDnsAddress)
    else
      && r.Ok? && r.value.ipv4 == s.ipv4 && r.value.ipv6 == s.ipv6 && r.value.mtu == s.mtu
      && forall ip :: ip in r.value.dns <==> ip in s.dns && if ip.V4? then s.ipv4.Some? else s.ipv6.Some?
  }

  lemma CheckDecides(s: Settings)
    ensures Decides(s, Check(s))
  {
    forall ip ensures Plain(ip) <==> Ordinary(ip) {
      OrdinaryIff(ip);
    }
    RetainMembers(s.dns, s);
    DedupMembers(Retain(s.dns, s));
  }

  /** Options whose lines can all be read mean what the lines say, with the servers of assigned
      families, exactly if an address is assigned, the MTU is in range, and every address is
      ordinary, those of all DNS servers included; otherwise the first of these decides. */
  lemma Acceptance(lines: seq<Fields>, base: nat, dnsOverride: seq<IpAddr>, std: Parsers, s: Settings)
    requires forall l | l in lines :: Readable(l.words, std)
    requires Says4(lines, std, s.ipv4) && Says6(lines, std, s.ipv6) && SaysMtu(lines, base, std, s.mtu)
    requires forall ip :: ip in s.dns <==> SaysServer(lines, dnsOverride, std, ip)
    ensures Decides(s, Meaning(lines, base, dnsOverride, std))
  {
    AllReadableIff(lines, std);
    LastIpv4Is(lines, std, s.ipv4);
    LastIpv6Is(lines, std, s.ipv6);
    LeastMtuIs(lines, base, std, s.mtu);
    var stated := Stated(lines, base, dnsOverride, std);
    ServersSaid(lines, dnsOverride, std);
    CheckDecides(stated);
  }

  lemma ServersSaid(lines: seq<Fields>, dnsOverride: seq<IpAddr>, std: Parsers)
    ensures var dns := if dnsOverride != [] then dnsOverride else DnsOf(lines, std);
      forall ip :: ip in dns <==> SaysServer(lines, dnsOverride, std, ip)
  {
    ServersAre(lines, std);
    if dnsOverride == [] {
      assert dnsOverride == [];
    }
  }

  /** What the hypotheses ask for always exists. */
  lemma LinesSay(lines: seq<Fields>, base: nat, dnsOverride: seq<IpAddr>, std: Parsers) returns (s: Settings)
    ensures Says4(lines, std, s.ipv4) && Says6(lines, std, s.ipv6) && SaysMtu(lines, base, std, s.mtu)
    ensures forall ip :: ip in s.dns <==> SaysServer(lines, dnsOverride, std, ip)
  {
    s := Stated(lines, base, dnsOverride, std);
    Ipv4Said(lines, std);
    Ipv6Said(lines, std);
    MtuSaid(lines, base, std);
    ServersSaid(lines, dnsOverride, std);
  }

  lemma Last(lines: seq<Fields>, says: seq<string> -> bool, k: nat) returns (i: nat)
    requires k < |lines| && says(lines[k].words)
    ensures LastOf(lines, says, i)
    decreases |lines| - k
  {
    if j :| k < j < |lines| && says(lines[j].words) {
      i := Last(lines, says, j);
    } else {
      i := k;
    }
  }

  lemma Ipv4Said(lines: seq<Fields>, std: Parsers)
    ensures Says4(lines, std, LastIpv4(lines, std))
  {
    if k :| 0 <= k < |lines| && Assigns4(lines[k].words) {
      var i := Last(lines, Assigns4, k);
      LastAssignmentWins(lines, i, std);
    } else {
      NoIpv4(lines, std);
    }
  }

  lemma Ipv6Said(lines: seq<Fields>, std: Parsers)
    ensures Says6(lines, std, LastIpv6(lines, std))
  {
    if k :| 0 <= k < |lines| && Assigns6(lines[k].words) {
      var i := Last(lines, Assigns6, k);
      BeforeSlashPart(lines[i].words[1]);
      LastAssignmentWins(lines, i, std);
    } else {
      NoIpv6(lines, std);
    }
  }

  lemma LimitIs(l: Fields, std: Parsers, n: nat)
    ensures n in MtuIn(Classify(l), std) <==> LimitsMtu(l.words) && std.number(l.words[1]) == Some(n)
  {
  }

  lemma MtuSaid(lines: seq<Fields>, base: nat, std: Parsers)
    ensures SaysMtu(lines, base, std, Least(base, MtusOf(lines, std)))
  {
    var least := Least(base, MtusOf(lines, std));
    MtuMembers(lines, std);
    LeastIsMinimum(base, MtusOf(lines, std));
    forall l | l in lines && LimitsMtu(l.words) && std.number(l.words[1]).Some?
      ensures least <= std.number(l.words[1]).value
    {
      LimitIs(l, std, std.number(l.words[1]).value);
      assert std.number(l.words[1]).value in MtusOf(lines, std);
    }
    if least != base {
      var l :| l in lines && least in MtuIn(Classify(l), std);
      LimitIs(l, std, least);
    }
  }

  /** The servers of one line, in the order of its words. */
  lemma {:induction false} ServersInOrder(texts: seq<string>, std: Parsers)
    requires forall t | t in texts :: std.ip(t).Some?
    ensures |ParseAll(texts, std)| == |texts|
    ensures forall k | 0 <= k < |texts| :: Some(ParseAll(texts, std)[k]) == std.ip(texts[k])
  {
    if texts != [] {
      var n := |texts| - 1;
      assert texts[n] in texts;
      ServersInOrder(texts[..n], std);
    }
  }

  lemma ServersOfWords(l: Fields, std: Parsers)
    ensures |l.words| == 3 && l.words[0] == "dhcp-option" && l.words[1] in {"DNS", "DNS6"} ==>
      DnsOf([l], std) == ParseAll([l.words[2]], std)
    ensures |l.words| >= 4 && l.words[0] == "dns" && l.words[1] == "server" && l.words[3] == "address" ==>
      DnsOf([l], std) == ParseAll(l.words[4..], std)
    ensures (forall text :: !NamesServer(l.words, text)) ==> DnsOf([l], std) == []
  {
    assert [l][..0] == [];
    var line := Classify(l);
    assert line.Servers? && line.texts != [] ==> NamesServer(l.words, line.texts[0]);
  }

  /** Filtering by family keeps the order of the servers. */
  lemma {:induction false} RetainConcat(a: seq<IpAddr>, b: seq<IpAddr>, s: Settings)
    ensures Retain(a + b, s) == Retain(a, s) + Retain(b, s)
    decreases |b|
  {
    if b == [] {
      assert a + b == a;
    } else {
      var n := |b| - 1;
      assert (a + b)[..|a + b| - 1] == a + b[..n];
      RetainConcat(a, b[..n], s);
    }
  }
}
