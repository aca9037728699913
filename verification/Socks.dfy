/** The SOCKS5 front end, RFC 1928 sections 3 to 6: what a client's bytes mean, how they are
    encoded, and how replies are. */
module Socks {
  import opened Wrappers
  import opened Net
  import opened Vectors

  datatype Refusal =
    | BadGreeting | NoMethod | BadRequest | BadCommand | BadAddressType | BadName | ZeroPort

  datatype Verdict =
    | Accepted(target: Target, port: u16)
    | Refused(refusal: Refusal)
    | Truncated

  /** What comes of a client's bytes: the verdict, how many of them are used up, and what is
      written back. */
  datatype Session = Session(verdict: Verdict, consumed: nat, output: seq<u8>)

  const CHOSEN: seq<u8> := [5, 0]
  const NONE_CHOSEN: seq<u8> := [5, 255]

  predicate NameByte(b: u8) {
    || '0' as int <= b <= '9' as int
    || 'A' as int <= b <= 'Z' as int
    || 'a' as int <= b <= 'z' as int
    || b == '-' as int || b == '.' as int || b == '_' as int
  }

  predicate HostName(name: seq<u8>) {
    name != [] && forall b | b in name :: NameByte(b)
  }

  // ---- Replies ----

  function PortBytes(port: u16): seq<u8> {
    [port / 256, port % 256]
  }

  function PortOf(bytes: seq<u8>): u16
    requires |bytes| == 2
  {
    var high: int := bytes[0];
    high * 256 + bytes[1]
  }

  function AddressBytes(ip: IpAddr): seq<u8> {
    match ip
    case V4(octets) => [1] + octets
    case V6(octets) => [4] + octets
  }

  const ANY := SocketAddr(V4([0, 0, 0, 0]), 0)

  function Reply(code: u8, bound: Option<SocketAddr>): seq<u8> {
    var b := if bound.Some? then bound.value else ANY;
    [5, code, 0] + AddressBytes(b.ip) + PortBytes(b.port)
  }

  datatype ReplyRead = ReplyRead(code: u8, bound: SocketAddr, length: nat)

  /** How a client reads a reply, section 6. */
  function ReadReply(s: seq<u8>): Option<ReplyRead> {
    if |s| < 4 || s[0] != 5 || s[2] != 0 then None
    else if s[3] == 1 && |s| >= 10 then
      Some(ReplyRead(s[1], SocketAddr(V4(s[4..8]), PortOf(s[8..10])), 10))
    else if s[3] == 4 && |s| >= 22 then
      Some(ReplyRead(s[1], SocketAddr(V6(s[4..20]), PortOf(s[20..22])), 22))
    else None
  }

  /** A reply reads back as its code and address, whatever follows it. */
  lemma ReplyReadsBack(code: u8, bound: Option<SocketAddr>, rest: seq<u8>)
    ensures ReadReply(Reply(code, bound) + rest) ==
      Some(ReplyRead(code, if bound.Some? then bound.value else ANY, |Reply(code, bound)|))
  {
    var b := if bound.Some? then bound.value else ANY;
    var s := Reply(code, bound) + rest;
    var n := |b.ip.Octets()|;
    assert s[4..4 + n] == b.ip.Octets();
    assert s[4 + n..6 + n] == PortBytes(b.port);
  }

  // ---- What a client's bytes mean ----

  function Then(consumed: nat, output: seq<u8>, rest: Session): Session {
    Session(rest.verdict, consumed + rest.consumed, output + rest.output)
  }

  /** The stream ends too early: everything there was has been read. */
  function CutOff(s: seq<u8>): Session {
    Session(Truncated, |s|, [])
  }

  function Refuse(refusal: Refusal, consumed: nat, code: u8): Session {
    Session(Refused(refusal), consumed, Reply(code, None))
  }

  function ParsePort(target: Target, s: seq<u8>): Session {
    if |s| < 2 then CutOff(s)
    else if PortOf(s[..2]) == 0 then Refuse(ZeroPort, 2, 1)
    else Session(Accepted(target, PortOf(s[..2])), 2, [])
  }

  function ParseName(length: u8, s: seq<u8>): Session {
    if |s| < length then CutOff(s)
    else if !HostName(s[..length]) then Refuse(BadName, length, 4)
    else Then(length, [], ParsePort(Domain(s[..length]), s[length..]))
  }

  function ParseAddress(kind: u8, s: seq<u8>): Session {
    match kind
    case 1 => if |s| < 4 then CutOff(s) else Then(4, [], ParsePort(Ip(V4(s[..4])), s[4..]))
    case 4 => if |s| < 16 then CutOff(s) else Then(16, [], ParsePort(Ip(V6(s[..16])), s[16..]))
    case 3 => if |s| < 1 then CutOff(s) else Then(1, [], ParseName(s[0], s[1..]))
    case _ => Refuse(BadAddressType, 0, 8)
  }

  function ParseRequest(s: seq<u8>): Session {
    if |s| < 4 then CutOff(s)
    else if s[0] != 5 || s[2] != 0 then Refuse(BadRequest, 4, 1)
    else if s[1] != 1 then Refuse(BadCommand, 4, 7)
    else Then(4, [], ParseAddress(s[3], s[4..]))
  }

  function ParseMethods(count: u8, s: seq<u8>): Session {
    if |s| < count then CutOff(s)
    else if 0 !in s[..count] then Session(Refused(NoMethod), count, NONE_CHOSEN)
    else Then(count, CHOSEN, ParseRequest(s[count..]))
  }

  function Parse(s: seq<u8>): Session {
    if |s| < 2 then CutOff(s)
    else if s[0] != 5 || s[1] == 0 then Session(Refused(BadGreeting), 2, [])
    else Then(2, [], ParseMethods(s[1], s[2..]))
  }

  // ---- How a client encodes a request ----

  function TargetBytes(target: Target): seq<u8>
    requires target.Domain? ==> |target.name| <= 255
  {
    match target
    case Ip(ip) => AddressBytes(ip)
    case Domain(name) => [3, |name|] + name
  }

  predicate Encodable(methods: seq<u8>, target: Target, port: u16) {
    && |methods| <= 255 && 0 in methods && port != 0
    && (target.Domain? ==> |target.name| <= 255 && HostName(target.name))
  }

  function RequestBytes(target: Target, port: u16): seq<u8>
    requires target.Domain? ==> |target.name| <= 255
  {
    [5, 1, 0] + TargetBytes(target) + PortBytes(port)
  }

  function Encode(methods: seq<u8>, target: Target, port: u16): seq<u8>
    requires Encodable(methods, target, port)
  {
    [5, |methods|] + methods + RequestBytes(target, port)
  }

  lemma PortReads(target: Target, port: u16, payload: seq<u8>)
    requires port != 0
    ensures ParsePort(target, PortBytes(port) + payload) == Session(Accepted(target, port), 2, [])
  {
    assert (PortBytes(port) + payload)[..2] == PortBytes(port);
  }

  lemma NameReads(name: seq<u8>, port: u16, payload: seq<u8>)
    requires HostName(name) && |name| <= 255 && port != 0
    ensures ParseName(|name|, name + PortBytes(port) + payload)
         == Session(Accepted(Domain(name), port), |name| + 2, [])
  {
    var s := name + PortBytes(port) + payload;
    assert s[..|name|] == name && s[|name|..] == PortBytes(port) + payload;
    PortReads(Domain(name), port, payload);
  }

  lemma IpReads(ip: IpAddr, port: u16, payload: seq<u8>)
    requires port != 0
    ensures ParseAddress(if ip.V4? then 1 else 4, ip.Octets() + (PortBytes(port) + payload))
         == Session(Accepted(Ip(ip), port), |ip.Octets()| + 2, [])
  {
    var n, rest := |ip.Octets()|, PortBytes(port) + payload;
    var body := ip.Octets() + rest;
    assert body[..n] == ip.Octets() && body[n..] == rest;
    PortReads(Ip(ip), port, payload);
  }

  lemma DomainReads(name: seq<u8>, port: u16, payload: seq<u8>)
    requires HostName(name) && |name| <= 255 && port != 0
    ensures ParseAddress(3, [|name|] + (name + PortBytes(port) + payload))
         == Session(Accepted(Domain(name), port), |name| + 3, [])
  {
    var body := [|name|] + (name + PortBytes(port) + payload);
    assert body[1..] == name + PortBytes(port) + payload;
    NameReads(name, port, payload);
  }

  lemma AddressReads(target: Target, port: u16, payload: seq<u8>)
    requires port != 0 && (target.Domain? ==> |target.name| <= 255 && HostName(target.name))
    ensures ParseAddress(TargetBytes(target)[0], TargetBytes(target)[1..] + PortBytes(port) + payload)
         == Session(Accepted(target, port), |TargetBytes(target)| + 1, [])
  {
    var t := TargetBytes(target);
    match target {
      case Ip(ip) =>
        assert t[1..] == ip.Octets();
        ConcatAssoc(t[1..], PortBytes(port), payload);
        IpReads(ip, port, payload);
      case Domain(name) =>
        assert t[1..] == [|name|] + name;
        ConcatAssoc([|name|], name, PortBytes(port));
        ConcatAssoc([|name|], name + PortBytes(port), payload);
        DomainReads(name, port, payload);
    }
  }

  lemma RequestReads(target: Target, port: u16, payload: seq<u8>)
    requires port != 0 && (target.Domain? ==> |target.name| <= 255 && HostName(target.name))
    ensures ParseRequest(RequestBytes(target, port) + payload)
         == Session(Accepted(target, port), |RequestBytes(target, port)|, [])
  {
    var t := TargetBytes(target);
    HeaderReads(t[0], t[1..] + PortBytes(port) + payload);
    assert RequestBytes(target, port) == [5, 1, 0, t[0]] + (t[1..] + PortBytes(port));
    ConcatAssoc([5, 1, 0, t[0]], t[1..] + PortBytes(port), payload);
    AddressReads(target, port, payload);
  }

  lemma HeaderReads(kind: u8, body: seq<u8>)
    ensures ParseRequest([5, 1, 0, kind] + body) == Then(4, [], ParseAddress(kind, body))
  {
    assert ([5, 1, 0, kind] + body)[4..] == body;
  }

  lemma GreetingReads(methods: seq<u8>, request: seq<u8>)
    requires |methods| <= 255 && 0 in methods
    ensures Parse([5, |methods|] + methods + request)
         == Then(2 + |methods|, CHOSEN, ParseRequest(request))
  {
    var s := [5, |methods|] + methods + request;
    assert s[2..] == methods + request;
    assert (methods + request)[..|methods|] == methods && (methods + request)[|methods|..] == request;
  }

  /** Every encoding of a request is accepted as that request, whatever follows it, and not one
      byte of what follows is used up. */
  lemma RoundTrip(methods: seq<u8>, target: Target, port: u16, payload: seq<u8>)
    requires Encodable(methods, target, port)
    ensures Parse(Encode(methods, target, port) + payload)
         == Session(Accepted(target, port), |Encode(methods, target, port)|, CHOSEN)
  {
    var request := RequestBytes(target, port) + payload;
    RequestReads(target, port, payload);
    GreetingReads(methods, request);
    ConcatAssoc([5, |methods|] + methods, RequestBytes(target, port), payload);
  }

  lemma PortWasEncoded(target: Target, s: seq<u8>)
    requires ParsePort(target, s).verdict.Accepted?
    ensures var v := ParsePort(target, s).verdict;
      v.target == target && v.port != 0 && |s| >= 2 && s == PortBytes(v.port) + s[2..]
  {
  }

  lemma AddressWasEncoded(kind: u8, s: seq<u8>)
    requires ParseAddress(kind, s).verdict.Accepted?
    ensures var r := ParseAddress(kind, s);
      var v := r.verdict;
      && v.port != 0 && (v.target.Domain? ==> |v.target.name| <= 255 && HostName(v.target.name))
      && r.output == [] && r.consumed <= |s|
      && [kind] + s[..r.consumed] == TargetBytes(v.target) + PortBytes(v.port)
  {
    match kind {
      case 1 => PortWasEncoded(Ip(V4(s[..4])), s[4..]);
      case 4 => PortWasEncoded(Ip(V6(s[..16])), s[16..]);
      case _ =>
        var n: nat := s[0];
        assert s[1..][..n] == s[1..n + 1] && s[1..][n..] == s[n + 1..];
        PortWasEncoded(Domain(s[1..n + 1]), s[n + 1..]);
    }
  }

  lemma RequestWasEncoded(s: seq<u8>)
    requires ParseRequest(s).verdict.Accepted?
    ensures var r := ParseRequest(s);
      var v := r.verdict;
      && v.port != 0 && (v.target.Domain? ==> |v.target.name| <= 255 && HostName(v.target.name))
      && r.output == [] && r.consumed <= |s|
      && s[..r.consumed] == RequestBytes(v.target, v.port)
  {
    AddressWasEncoded(s[3], s[4..]);
    var r := ParseAddress(s[3], s[4..]);
    assert s[..4 + r.consumed] == [5, 1, 0] + ([s[3]] + s[4..][..r.consumed]);
    ConcatAssoc([5, 1, 0], TargetBytes(r.verdict.target), PortBytes(r.verdict.port));
  }

  /** A stream that is accepted begins with a greeting that offers the method chosen. */
  lemma GreetingWasRead(s: seq<u8>) returns (methods: seq<u8>, rest: seq<u8>)
    requires Parse(s).verdict.Accepted?
    ensures |methods| <= 255 && 0 in methods && s == [5, |methods|] + methods + rest
    ensures Parse(s) == Then(2 + |methods|, CHOSEN, ParseRequest(rest))
  {
    var n: nat := s[1];
    methods, rest := s[2..][..n], s[2..][n..];
  }

  /** Whatever is accepted is the encoding of what it is accepted as. */
  lemma AcceptedWasEncoded(s: seq<u8>) returns (methods: seq<u8>)
    requires Parse(s).verdict.Accepted?
    ensures var r := Parse(s);
      && Encodable(methods, r.verdict.target, r.verdict.port)
      && r.output == CHOSEN && r.consumed <= |s|
      && s[..r.consumed] == Encode(methods, r.verdict.target, r.verdict.port)
  {
    var rest;
    methods, rest := GreetingWasRead(s);
    RequestWasEncoded(rest);
    var k := ParseRequest(rest).consumed;
    assert s[..2 + |methods| + k] == [5, |methods|] + methods + rest[..k];
  }

  /** Acceptance, both ways: a stream is accepted as a request exactly if it begins with an
      encoding of that request. */
  lemma AcceptedIffEncoded(s: seq<u8>, target: Target, port: u16)
    ensures Parse(s).verdict == Accepted(target, port)
       <==> exists methods :: Encodable(methods, target, port) && Encode(methods, target, port) <= s
  {
    if Parse(s).verdict == Accepted(target, port) {
      var methods := AcceptedWasEncoded(s);
    }
    if methods :| Encodable(methods, target, port) && Encode(methods, target, port) <= s {
      var e := Encode(methods, target, port);
      assert s == e + s[|e|..];
      RoundTrip(methods, target, port, s[|e|..]);
    }
  }

  // ---- A verdict depends on nothing that comes later ----

  lemma PortIsFinal(target: Target, s: seq<u8>, more: seq<u8>)
    ensures !ParsePort(target, s).verdict.Truncated? ==> ParsePort(target, s + more) == ParsePort(target, s)
    ensures ParsePort(target, s).verdict.Truncated? ==> ParsePort(target, s).consumed == |s|
  {
    assert |s| >= 2 ==> (s + more)[..2] == s[..2];
  }

  lemma NameIsFinal(length: u8, s: seq<u8>, more: seq<u8>)
    ensures !ParseName(length, s).verdict.Truncated? ==> ParseName(length, s + more) == ParseName(length, s)
    ensures ParseName(length, s).verdict.Truncated? ==> ParseName(length, s).consumed == |s|
  {
    if |s| >= length {
      assert (s + more)[..length] == s[..length] && (s + more)[length..] == s[length..] + more;
      PortIsFinal(Domain(s[..length]), s[length..], more);
    }
  }

  lemma AddressIsFinal(kind: u8, s: seq<u8>, more: seq<u8>)
    ensures !ParseAddress(kind, s).verdict.Truncated? ==> ParseAddress(kind, s + more) == ParseAddress(kind, s)
    ensures ParseAddress(kind, s).verdict.Truncated? ==> ParseAddress(kind, s).consumed == |s|
  {
    var all := s + more;
    match kind {
      case 1 =>
        if |s| >= 4 {
          assert all[..4] == s[..4] && all[4..] == s[4..] + more;
          PortIsFinal(Ip(V4(s[..4])), s[4..], more);
        }
      case 4 =>
        if |s| >= 16 {
          assert all[..16] == s[..16] && all[16..] == s[16..] + more;
          PortIsFinal(Ip(V6(s[..16])), s[16..], more);
        }
      case 3 =>
        if |s| >= 1 {
          assert all[1..] == s[1..] + more;
          NameIsFinal(s[0], s[1..], more);
        }
      case _ =>
    }
  }

  lemma RequestIsFinal(s: seq<u8>, more: seq<u8>)
    ensures !ParseRequest(s).verdict.Truncated? ==> ParseRequest(s + more) == ParseRequest(s)
    ensures ParseRequest(s).verdict.Truncated? ==> ParseRequest(s).consumed == |s|
  {
    if |s| >= 4 {
      assert (s + more)[4..] == s[4..] + more;
      AddressIsFinal(s[3], s[4..], more);
    }
  }

  /** A verdict, once there is one, does not depend on what the client sends next; and without
      one everything sent so far has been read. */
  lemma VerdictIsFinal(s: seq<u8>, more: seq<u8>)
    ensures !Parse(s).verdict.Truncated? ==> Parse(s + more) == Parse(s)
    ensures Parse(s).verdict.Truncated? ==> Parse(s).consumed == |s|
  {
    if |s| >= 2 {
      var n: nat := s[1];
      assert (s + more)[2..] == s[2..] + more;
      if |s| >= 2 + n {
        assert (s[2..] + more)[..n] == s[2..][..n] && (s[2..] + more)[n..] == s[2..][n..] + more;
        RequestIsFinal(s[2..][n..], more);
      }
    }
  }

  /** The reply that goes with a refused request. */
  function ReplyTo(refusal: Refusal): seq<u8>
    requires !refusal.BadGreeting? && !refusal.NoMethod?
  {
    match refusal
    case BadRequest => Reply(1, None)
    case BadCommand => Reply(7, None)
    case BadAddressType => Reply(8, None)
    case BadName => Reply(4, None)
    case ZeroPort => Reply(1, None)
  }

  /** A session of the request phase writes one reply if it refuses, and nothing otherwise. */
  predicate WritesOneReply(r: Session) {
    match r.verdict
    case Refused(refusal) => !refusal.BadGreeting? && !refusal.NoMethod? && r.output == ReplyTo(refusal)
    case _ => r.output == []
  }

  lemma AddressOutput(kind: u8, s: seq<u8>)
    ensures WritesOneReply(ParseAddress(kind, s))
  {
  }

  lemma RequestOutput(s: seq<u8>)
    ensures WritesOneReply(ParseRequest(s))
  {
    if |s| >= 4 {
      AddressOutput(s[3], s[4..]);
    }
  }

  /** Everything ever written: the method choice, and then at most one reply, which always
      carries an error code. */
  lemma OutputShape(s: seq<u8>)
    ensures var r := Parse(s);
      match r.verdict
      case Accepted(_, _) => r.output == CHOSEN
      case Truncated => r.output == [] || r.output == CHOSEN
      case Refused(BadGreeting) => r.output == []
      case Refused(NoMethod) => r.output == NONE_CHOSEN
      case Refused(refusal) => r.output == CHOSEN + ReplyTo(refusal)
  {
    if |s| >= 2 && s[0] == 5 && s[1] != 0 && |s[2..]| >= s[1] && 0 in s[2..][..s[1]] {
      RequestOutput(s[2..][s[1]..]);
    }
  }
}
