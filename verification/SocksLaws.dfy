/** RFC 1928 by its bytes: which streams are refused and how, and which are accepted and as what,
    with every byte written out. Line numbers refer to src/socks.rs. */
module SocksLaws {
  import opened Wrappers
  import opened Net
  import opened Vectors
  import opened Socks

  /** A greeting that offers the methods `methods`. */
  function Hello(methods: seq<u8>): seq<u8>
    requires |methods| <= 255
  {
    [5, |methods|] + methods
  }

  /** No-auth is among the methods offered. */
  predicate Offers(methods: seq<u8>) {
    |methods| <= 255 && 0 in methods
  }

  /** ASCII letters and digits, `-`, `.` and `_`, and at least one of them. */
  predicate HostLetters(name: seq<u8>) {
    |name| > 0 && forall k | 0 <= k < |name| ::
      48 <= name[k] <= 57 || 65 <= name[k] <= 90 || 97 <= name[k] <= 122 || name[k] in {45, 46, 95}
  }

  /** What follows the address type: 4 bytes, 16 bytes, or a length and that many name bytes. */
  predicate AddressForm(kind: u8, address: seq<u8>) {
    || (kind == 1 && |address| == 4)
    || (kind == 4 && |address| == 16)
    || (kind == 3 && |address| > 0 && |address| - 1 == address[0] && HostLetters(address[1..]))
  }

  function Names(kind: u8, address: seq<u8>): Target
    requires AddressForm(kind, address)
  {
    if kind == 1 then Ip(V4(address)) else if kind == 4 then Ip(V6(address)) else Domain(address[1..])
  }

  /** An error reply: the code, and the address 0.0.0.0:0. */
  function Error(code: u8): seq<u8> {
    [5, code, 0, 1, 0, 0, 0, 0, 0, 0]
  }

  lemma HostNameIff(name: seq<u8>)
    ensures HostName(name) <==> HostLetters(name)
  {
    forall k | 0 <= k < |name| ensures name[k] in name {}
  }

  lemma ErrorReply(code: u8)
    ensures Reply(code, None) == Error(code)
  {
  }

  /** A reply in bytes: the code, the address with its type, and the port, high byte first. */
  lemma ReplyLayout(code: u8, ip: IpAddr, high: u8, low: u8)
    ensures Reply(code, Some(SocketAddr(ip, 256 * high + low)))
         == [5, code, 0, if ip.V4? then 1 else 4] + ip.Octets() + [high, low]
  {
    assert PortBytes(256 * high + low) == [high, low];
    assert [5, code, 0] + AddressBytes(ip) == [5, code, 0, if ip.V4? then 1 else 4] + ip.Octets();
  }

  // ---- The greeting ----

  lemma GreetingRefused(version: u8, count: u8, rest: seq<u8>)
    requires version != 5 || count == 0
    ensures Parse([version, count] + rest) == Session(Refused(BadGreeting), 2, [])
  {
  }

  lemma MethodsRefused(methods: seq<u8>, rest: seq<u8>)
    requires 0 < |methods| <= 255 && 0 !in methods
    ensures Parse(Hello(methods) + rest) == Session(Refused(NoMethod), 2 + |methods|, [5, 255])
  {
    var s := Hello(methods) + rest;
    assert s[2..] == methods + rest;
    assert s[2..][..|methods|] == methods;
  }

  /** After a greeting that offers no-auth, 05 00 is written and the request decides. */
  lemma Greeted(methods: seq<u8>, request: seq<u8>)
    requires Offers(methods)
    ensures Parse(Hello(methods) + request) == Then(2 + |methods|, [5, 0], ParseRequest(request))
  {
    GreetingReads(methods, request);
  }

  // ---- The request, whatever follows ----

  lemma RequestRefused(version: u8, command: u8, reserved: u8, kind: u8, rest: seq<u8>)
    requires version != 5 || reserved != 0
    ensures ParseRequest([version, command, reserved, kind] + rest) == Session(Refused(BadRequest), 4, Error(1))
  {
    ErrorReply(1);
  }

  /** BIND, UDP ASSOCIATE, or anything else but CONNECT. */
  lemma CommandRefused(command: u8, kind: u8, rest: seq<u8>)
    requires command != 1
    ensures ParseRequest([5, command, 0, kind] + rest) == Session(Refused(BadCommand), 4, Error(7))
  {
    ErrorReply(7);
  }

  lemma AddressTypeRefused(kind: u8, rest: seq<u8>)
    requires kind !in {1, 3, 4}
    ensures ParseRequest([5, 1, 0, kind] + rest) == Session(Refused(BadAddressType), 4, Error(8))
  {
    HeaderReads(kind, rest);
    ErrorReply(8);
  }

  lemma NameRefused(name: seq<u8>, rest: seq<u8>)
    requires |name| <= 255 && !HostLetters(name)
    ensures ParseAddress(3, [|name|] + (name + rest)) == Session(Refused(BadName), 1 + |name|, Error(4))
  {
    var body := [|name|] + (name + rest);
    assert body[1..] == name + rest && (name + rest)[..|name|] == name;
    HostNameIff(name);
    ErrorReply(4);
  }

  lemma NameThenPort(name: seq<u8>, tail: seq<u8>)
    requires |name| <= 255 && HostLetters(name)
    ensures ParseAddress(3, [|name|] + (name + tail)) == Then(1 + |name|, [], ParsePort(Domain(name), tail))
  {
    var s := [|name|] + (name + tail);
    assert s[1..] == name + tail;
    assert (name + tail)[..|name|] == name && (name + tail)[|name|..] == tail;
    HostNameIff(name);
  }

  /** An address in good form leaves the two bytes after it to decide. */
  lemma AddressThenPort(kind: u8, address: seq<u8>, tail: seq<u8>)
    requires AddressForm(kind, address)
    ensures ParseAddress(kind, address + tail) == Then(|address|, [], ParsePort(Names(kind, address), tail))
  {
    var s := address + tail;
    if kind == 3 {
      var name := address[1..];
      assert address == [|name|] + name;
      ConcatAssoc([|name|], name, tail);
      NameThenPort(name, tail);
    } else {
      assert s[..|address|] == address && s[|address|..] == tail;
    }
  }

  lemma PortDecides(target: Target, high: u8, low: u8, rest: seq<u8>)
    ensures ParsePort(target, [high, low] + rest) ==
      if high == 0 && low == 0 then Session(Refused(ZeroPort), 2, Error(1))
      else Session(Accepted(target, 256 * high + low), 2, [])
  {
    assert ([high, low] + rest)[..2] == [high, low];
    ErrorReply(1);
  }

  /** A CONNECT whose address is in good form: accepted for exactly that address and port, the high
      byte of the port first; or refused for port zero. */
  lemma PortLaw(kind: u8, address: seq<u8>, high: u8, low: u8, rest: seq<u8>)
    requires AddressForm(kind, address)
    ensures ParseAddress(kind, address + ([high, low] + rest)) ==
      if high == 0 && low == 0 then Session(Refused(ZeroPort), 2 + |address|, Error(1))
      else Session(Accepted(Names(kind, address), 256 * high + low), 2 + |address|, [])
  {
    AddressThenPort(kind, address, [high, low] + rest);
    PortDecides(Names(kind, address), high, low, rest);
  }

  // ---- These are all the streams there are ----

  /** What a request consists of, as far as that is needed to answer it. */
  datatype Request =
    | Header(version: u8, command: u8, reserved: u8, kind: u8)
    | BadHost(name: seq<u8>)
    | Full(kind: u8, address: seq<u8>, high: u8, low: u8)
  {
    /** It is enough to be answered. */
    predicate Answered() {
      match this
      case Header(version, command, reserved, kind) =>
        version != 5 || reserved != 0 || command != 1 || kind !in {1, 3, 4}
      case BadHost(name) => |name| <= 255 && !HostLetters(name)
      case Full(kind, address, _, _) => AddressForm(kind, address)
    }

    function Bytes(): seq<u8>
      requires Answered()
    {
      match this
      case Header(version, command, reserved, kind) => [version, command, reserved, kind]
      case BadHost(name) => [5, 1, 0, 3] + ([|name|] + name)
      case Full(kind, address, high, low) => [5, 1, 0, kind] + (address + [high, low])
    }

    function Verdict(): Socks.Verdict
      requires Answered()
    {
      match this
      case Header(version, command, reserved, _) =>
        if version != 5 || reserved != 0 then Refused(BadRequest)
        else if command != 1 then Refused(BadCommand)
        else Refused(BadAddressType)
      case BadHost(_) => Refused(BadName)
      case Full(kind, address, high, low) =>
        if high == 0 && low == 0 then Refused(ZeroPort) else Accepted(Names(kind, address), 256 * high + low)
    }

    /** The reply in bytes, if the request is refused. */
    function Reply(): seq<u8>
      requires Answered()
    {
      match this
      case Header(version, command, reserved, _) =>
        if version != 5 || reserved != 0 then [5, 1, 0, 1, 0, 0, 0, 0, 0, 0]
        else if command != 1 then [5, 7, 0, 1, 0, 0, 0, 0, 0, 0]
        else [5, 8, 0, 1, 0, 0, 0, 0, 0, 0]
      case BadHost(_) => [5, 4, 0, 1, 0, 0, 0, 0, 0, 0]
      case Full(_, _, high, low) => if high == 0 && low == 0 then [5, 1, 0, 1, 0, 0, 0, 0, 0, 0] else []
    }
  }

  lemma BytesThen(r: Request, rest: seq<u8>)
    requires r.Answered()
    ensures r.Header? ==> r.Bytes() + rest == [r.version, r.command, r.reserved, r.kind] + rest
    ensures r.BadHost? ==> r.Bytes() + rest == [5, 1, 0, 3] + ([|r.name|] + (r.name + rest))
    ensures r.Full? ==> r.Bytes() + rest == [5, 1, 0, r.kind] + (r.address + ([r.high, r.low] + rest))
  {
  }

  lemma BodyDecides(kind: u8, body: seq<u8>, r: Session)
    requires r == ParseAddress(kind, body)
    ensures ParseRequest([5, 1, 0, kind] + body) == Session(r.verdict, 4 + r.consumed, r.output)
  {
    HeaderReads(kind, body);
  }

  /** A request that begins in one of these forms is answered so, with exactly those bytes read. */
  lemma RequestDecides(r: Request, rest: seq<u8>)
    requires r.Answered()
    ensures ParseRequest(r.Bytes() + rest) == Session(r.Verdict(), |r.Bytes()|, r.Reply())
  {
    BytesThen(r, rest);
    match r {
      case Header(version, command, reserved, kind) =>
        if version != 5 || reserved != 0 {
          RequestRefused(version, command, reserved, kind, rest);
        } else if command != 1 {
          CommandRefused(command, kind, rest);
        } else {
          AddressTypeRefused(kind, rest);
        }
      case BadHost(name) =>
        NameRefused(name, rest);
        BodyDecides(3, [|name|] + (name + rest), ParseAddress(3, [|name|] + (name + rest)));
      case Full(kind, address, high, low) =>
        var body := address + ([high, low] + rest);
        PortLaw(kind, address, high, low, rest);
        BodyDecides(kind, body, ParseAddress(kind, body));
    }
  }

  lemma FullForm(kind: u8, address: seq<u8>, tail: seq<u8>) returns (r: Request, rest: seq<u8>)
    requires AddressForm(kind, address) && |tail| >= 2
    ensures r.Answered() && [5, 1, 0, kind] + (address + tail) == r.Bytes() + rest
  {
    r, rest := Full(kind, address, tail[0], tail[1]), tail[2..];
    assert tail == [tail[0], tail[1]] + rest;
  }

  lemma NameHasForm(length: u8, s: seq<u8>) returns (r: Request, rest: seq<u8>)
    requires !ParseName(length, s).verdict.Truncated?
    ensures r.Answered() && [5, 1, 0, 3] + ([length] + s) == r.Bytes() + rest
  {
    var name := s[..length];
    HostNameIff(name);
    assert s == name + s[length..];
    if !HostLetters(name) {
      r, rest := BadHost(name), s[length..];
    } else {
      assert ([length] + name)[1..] == name;
      r, rest := FullForm(3, [length] + name, s[length..]);
      ConcatAssoc([length], name, s[length..]);
    }
  }

  lemma AddressHasForm(kind: u8, s: seq<u8>) returns (r: Request, rest: seq<u8>)
    requires kind in {1, 3, 4} && !ParseAddress(kind, s).verdict.Truncated?
    ensures r.Answered() && [5, 1, 0, kind] + s == r.Bytes() + rest
  {
    if kind == 3 {
      assert s == [s[0]] + s[1..];
      r, rest := NameHasForm(s[0], s[1..]);
    } else {
      var n := if kind == 1 then 4 else 16;
      assert s == s[..n] + s[n..];
      r, rest := FullForm(kind, s[..n], s[n..]);
    }
  }

  lemma RequestHasForm(s: seq<u8>) returns (r: Request, rest: seq<u8>)
    requires !ParseRequest(s).verdict.Truncated?
    ensures r.Answered() && s == r.Bytes() + rest
  {
    r, rest := Header(s[0], s[1], s[2], s[3]), s[4..];
    assert s == [s[0], s[1], s[2], s[3]] + rest;
    if !r.Answered() {
      r, rest := AddressHasForm(s[3], s[4..]);
    }
  }

  /** What a stream consists of, as far as that is needed to answer it. */
  datatype Form =
    | Greeting(version: u8, count: u8)
    | NoneOffered(methods: seq<u8>)
    | Asking(methods: seq<u8>, request: Request)
  {
    predicate Answered() {
      match this
      case Greeting(version, count) => version != 5 || count == 0
      case NoneOffered(methods) => 0 < |methods| <= 255 && 0 !in methods
      case Asking(methods, request) => Offers(methods) && request.Answered()
    }

    function Bytes(): seq<u8>
      requires Answered()
    {
      match this
      case Greeting(version, count) => [version, count]
      case NoneOffered(methods) => [5, |methods|] + methods
      case Asking(methods, request) => [5, |methods|] + methods + request.Bytes()
    }

    function Verdict(): Socks.Verdict
      requires Answered()
    {
      match this
      case Greeting(_, _) => Refused(BadGreeting)
      case NoneOffered(_) => Refused(NoMethod)
      case Asking(_, request) => request.Verdict()
    }

    /** What is written back. */
    function Written(): seq<u8>
      requires Answered()
    {
      match this
      case Greeting(_, _) => []
      case NoneOffered(_) => [5, 255]
      case Asking(_, request) => [5, 0] + request.Reply()
    }
  }

  /** A stream that begins in one of these forms is answered so, with exactly those bytes read,
      whatever follows. */
  lemma FormDecides(f: Form, rest: seq<u8>)
    requires f.Answered()
    ensures Parse(f.Bytes() + rest) == Session(f.Verdict(), |f.Bytes()|, f.Written())
  {
    match f {
      case Greeting(version, count) => GreetingRefused(version, count, rest);
      case NoneOffered(methods) => MethodsRefused(methods, rest);
      case Asking(methods, request) => AskingDecides(methods, request, rest);
    }
  }

  lemma AskingDecides(methods: seq<u8>, request: Request, rest: seq<u8>)
    requires Offers(methods) && request.Answered()
    ensures Parse([5, |methods|] + methods + request.Bytes() + rest)
         == Session(request.Verdict(), 2 + |methods| + |request.Bytes()|, [5, 0] + request.Reply())
  {
    ConcatAssoc(Hello(methods), request.Bytes(), rest);
    Greeted(methods, request.Bytes() + rest);
    RequestDecides(request, rest);
  }

  lemma StreamHasForm(s: seq<u8>) returns (f: Form, rest: seq<u8>)
    requires !Parse(s).verdict.Truncated?
    ensures f.Answered() && s == f.Bytes() + rest
  {
    if s[0] != 5 || s[1] == 0 {
      f, rest := Greeting(s[0], s[1]), s[2..];
      return;
    }
    var n: nat := s[1];
    var methods := s[2..][..n];
    rest := s[2..][n..];
    assert s == Hello(methods) + rest;
    if 0 !in methods {
      f := NoneOffered(methods);
      return;
    }
    Greeted(methods, rest);
    var request, after := RequestHasForm(rest);
    f := Asking(methods, request);
    ConcatAssoc(Hello(methods), request.Bytes(), after);
    rest := after;
  }

  /** All of it: a stream gets an answer exactly if it begins in one of these forms, and then the one
      above; every other stream is waited for, and has been read to its end. */
  lemma EveryStream(s: seq<u8>)
    ensures Parse(s).verdict.Truncated? <==> !exists f: Form :: f.Answered() && f.Bytes() <= s
    ensures forall f: Form | f.Answered() && f.Bytes() <= s ::
      Parse(s) == Session(f.Verdict(), |f.Bytes()|, f.Written())
    ensures Parse(s).verdict.Truncated? ==> Parse(s).consumed == |s|
  {
    VerdictIsFinal(s, []);
    forall f: Form | f.Answered() && f.Bytes() <= s
      ensures Parse(s) == Session(f.Verdict(), |f.Bytes()|, f.Written())
    {
      assert s == f.Bytes() + s[|f.Bytes()|..];
      FormDecides(f, s[|f.Bytes()|..]);
    }
    if !Parse(s).verdict.Truncated? {
      var f, rest := StreamHasForm(s);
    }
  }
}
