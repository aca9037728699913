/** The proxy's side of a SOCKS connection: the handshake read from a stream that may come in
    pieces, stop or fail at any point, and the reply that depends on the tunnel. Line numbers refer to src/socks.rs
    unless they name another file. */
module ProxyModel {
  import opened Wrappers
  import opened Net
  import opened Tcp
  import opened Vectors
  import opened Socks
  import opened SocksLaws
  import opened Oneshot
  import opened ChannelsModel
  import P = Protocol

  /** Why a stream operation gives up: the client has stopped sending, the stream fails, or the
      handshake has taken too long. */
  datatype Fault = EndOfFile | Broken | TooLate

  datatype Failure = Rejected(refusal: Refusal) | Interrupted(fault: Fault)

  datatype ReadPart = Got(bytes: seq<u8>) | Fails(fault: Fault)

  datatype WritePart = Took(count: nat) | WriteFails(fault: Fault)

  datatype Destination = Destination(target: Target, port: u16)

  /** What has gone wrong with a stream so far, after one more operation; that the client has
      stopped sending is nothing wrong. */
  function Trouble(before: Option<Fault>, fault: Option<Fault>): Option<Fault> {
    if fault.Some? && !fault.value.EndOfFile? then fault else before
  }

  function FaultOf<T>(r: Result<T, Fault>): Option<Fault> {
    if r.Err? then Some(r.error) else None
  }

  function FaultIn(r: Result<Destination, Failure>): Option<Fault> {
    if r.Err? && r.error.Interrupted? then Some(r.error.fault) else None
  }

  class ByteStream {
    var incoming: seq<u8>             // what the client sends before it stops, as far as not yet read
    var output: seq<u8>               // what has been written to it
    var timed: bool                   // the time for the handshake is running
    ghost var trouble: Option<Fault>  // the last read or write that failed, other than at the end

    /** A read or write may break the stream at any time, and run out of time while that is limited. */
    predicate MayFailWith(fault: Fault)
      reads `timed
    {
      fault.Broken? || (fault.TooLate? && timed)
    }

    /** Some of the bytes that come next. */
    method Read(limit: nat) returns (r: ReadPart)
      requires limit > 0
      modifies `incoming, `trouble
      ensures r.Got? ==> 0 < |r.bytes| <= limit && r.bytes + incoming == old(incoming)
      ensures r.Fails? ==> incoming == old(incoming) && (r.fault.EndOfFile? || MayFailWith(r.fault))
      ensures r.Fails? && r.fault.EndOfFile? ==> incoming == []
      ensures trouble == Trouble(old(trouble), if r.Fails? then Some(r.fault) else None)
    {
      var fault: Fault := *;
      if MayFailWith(fault) {
        trouble := Some(fault);
        return Fails(fault);
      }
      if incoming == [] {
        return Fails(EndOfFile);
      }
      var n: nat :| 0 < n <= limit && n <= |incoming|;
      r := Got(incoming[..n]);
      incoming := incoming[n..];
    }

    /** `read_exact`, however the bytes come in. */
    method ReadExact(n: nat) returns (r: Result<seq<u8>, Fault>)
      modifies `incoming, `trouble
      ensures r.Ok? ==> |r.value| == n && r.value + incoming == old(incoming)
      ensures r.Err? ==> r.error.EndOfFile? || MayFailWith(r.error)
      ensures r.Err? && r.error.EndOfFile? ==> |old(incoming)| < n && incoming == []
      ensures trouble == Trouble(old(trouble), FaultOf(r))
      ensures Suffix(incoming, old(incoming)) && |old(incoming)| - |incoming| <= n
    {
      var bytes := [];
      while |bytes| < n
        invariant |bytes| <= n && bytes + incoming == old(incoming) && trouble == old(trouble)
      {
        var part := Read(n - |bytes|);
        if part.Fails? {
          return Err(part.fault);
        }
        bytes := bytes + part.bytes;
      }
      r := Ok(bytes);
    }

    /** The stream may take any part of what it is given. */
    method Write(data: seq<u8>) returns (r: WritePart)
      requires data != []
      modifies `output, `trouble
      ensures r.Took? ==> 0 < r.count <= |data| && output == old(output) + data[..r.count]
      ensures r.WriteFails? ==> output == old(output) && MayFailWith(r.fault)
      ensures trouble == Trouble(old(trouble), if r.WriteFails? then Some(r.fault) else None)
    {
      var fault: Fault := *;
      if MayFailWith(fault) {
        trouble := Some(fault);
        return WriteFails(fault);
      }
      var n: nat :| 0 < n <= |data|;
      output := output + data[..n];
      r := Took(n);
    }

    /** `write_all`, in as many pieces as it takes. */
    method WriteAll(data: seq<u8>) returns (fault: Option<Fault>)
      modifies `output, `trouble
      ensures fault.None? ==> output == old(output) + data
      ensures fault.Some? ==> MayFailWith(fault.value) && old(output) <= output <= old(output) + data
      ensures trouble == Trouble(old(trouble), fault)
    {
      var n := 0;
      while n < |data|
        invariant n <= |data| && output == old(output) + data[..n] && trouble == old(trouble)
      {
        var r := Write(data[n..]);
        if r.WriteFails? {
          return Some(r.fault);
        }
        assert data[..n + r.count] == data[..n] + data[n..][..r.count];
        n := n + r.count;
      }
      assert data[..n] == data;
      fault := None;
    }
  }

  predicate Suffix(left: seq<u8>, all: seq<u8>) {
    |left| <= |all| && left == all[|all| - |left|..]
  }

  /** A handshake, or part of one, that was given `input`, left `left` unread and wrote `wrote`
      has done what `s` says; if the stream failed on the way, no more than that. */
  predicate Realizes(r: Result<Destination, Failure>, input: seq<u8>, left: seq<u8>, wrote: seq<u8>, s: Session) {
    && Suffix(left, input)
    && match r
       case Ok(ask) => s == Session(Accepted(ask.target, ask.port), |input| - |left|, wrote)
       case Err(Rejected(refusal)) => s == Session(Refused(refusal), |input| - |left|, wrote)
       case Err(Interrupted(EndOfFile)) => s == Session(Truncated, |input| - |left|, wrote)
       case Err(Interrupted(_)) => |input| - |left| <= s.consumed && wrote <= s.output
  }

  /** The whole of what `s` says, and nothing else. */
  predicate Exactly(r: Result<Destination, Failure>, input: seq<u8>, left: seq<u8>, wrote: seq<u8>, s: Session) {
    && Suffix(left, input) && s.consumed == |input| - |left| && s.output == wrote
    && r == match s.verdict
            case Accepted(target, port) => Ok(Destination(target, port))
            case Refused(refusal) => Err(Rejected(refusal))
            case Truncated => Err(Interrupted(EndOfFile))
  }

  lemma RealizesAfter(r: Result<Destination, Failure>, n: nat, output: seq<u8>, input: seq<u8>, left: seq<u8>,
                      wrote: seq<u8>, s: Session)
    requires n <= |input| && Realizes(r, input[n..], left, wrote, s)
    ensures Realizes(r, input, left, output + wrote, Then(n, output, s))
  {
    assert input[n..][|input| - n - |left|..] == input[|input| - |left|..];
  }

  /** The stream has failed while `n` more bytes were being read. */
  lemma CutShort(fault: Fault, n: nat, input: seq<u8>, left: seq<u8>, s: Session)
    requires Suffix(left, input) && |input| - |left| <= n
    requires fault.EndOfFile? ==> |input| < n && left == []
    requires if |input| < n then s == CutOff(input) else n <= s.consumed
    ensures Realizes(Err(Interrupted(fault)), input, left, [], s)
  {
  }

  /** Lines 150 to 163. */
  method SendReply(stream: ByteStream, code: u8, bound: Option<SocketAddr>) returns (fault: Option<Fault>)
    modifies stream`output, stream`trouble
    ensures fault.None? ==> stream.output == old(stream.output) + Reply(code, bound)
    ensures fault.Some? ==>
      && stream.MayFailWith(fault.value)
      && old(stream.output) <= stream.output <= old(stream.output) + Reply(code, bound)
    ensures stream.trouble == Trouble(old(stream.trouble), fault)
  {
    var b := if bound.Some? then bound.value else ANY;
    var response: seq<u8> := [5, code, 0];
    match b.ip {
      case V4(octets) =>
        response := response + [1];
        response := response + octets;
      case V6(octets) =>
        response := response + [4];
        response := response + octets;
    }
    response := response + PortBytes(b.port);
    assert response == Reply(code, bound);
    fault := stream.WriteAll(response);
  }

  /** A reply, and then the error it stands for. */
  method RefuseWith(stream: ByteStream, refusal: Refusal, consumed: nat, code: u8, ghost input: seq<u8>)
    returns (r: Result<Destination, Failure>, ghost wrote: seq<u8>)
    requires Suffix(stream.incoming, input) && |input| - |stream.incoming| == consumed
    modifies stream`output, stream`trouble
    ensures stream.output == old(stream.output) + wrote && stream.trouble == Trouble(old(stream.trouble), FaultIn(r))
    ensures Realizes(r, input, stream.incoming, wrote, Refuse(refusal, consumed, code))
  {
    var fault := SendReply(stream, code, None);
    wrote := stream.output[|old(stream.output)|..];
    r := Err(if fault.Some? then Interrupted(fault.value) else Rejected(refusal));
  }

  /** Lines 137 to 142. */
  method ReadPort(stream: ByteStream, target: Target) returns (r: Result<Destination, Failure>, ghost wrote: seq<u8>)
    modifies stream`incoming, stream`output, stream`trouble
    ensures stream.output == old(stream.output) + wrote && stream.trouble == Trouble(old(stream.trouble), FaultIn(r))
    ensures Realizes(r, old(stream.incoming), stream.incoming, wrote, ParsePort(target, old(stream.incoming)))
  {
    ghost var input := stream.incoming;
    var bytes := stream.ReadExact(2);
    if bytes.Err? {
      CutShort(bytes.error, 2, input, stream.incoming, ParsePort(target, input));
      return Err(Interrupted(bytes.error)), [];
    }
    assert input[..2] == bytes.value && input[2..] == stream.incoming;
    if PortOf(bytes.value) == 0 {
      r, wrote := RefuseWith(stream, ZeroPort, 2, 1, input);
      return;
    }
    return Ok(Destination(target, PortOf(bytes.value))), [];
  }

  /** Lines 120 to 130. */
  method ReadName(stream: ByteStream, length: u8) returns (r: Result<Destination, Failure>, ghost wrote: seq<u8>)
    modifies stream`incoming, stream`output, stream`trouble
    ensures stream.output == old(stream.output) + wrote && stream.trouble == Trouble(old(stream.trouble), FaultIn(r))
    ensures Realizes(r, old(stream.incoming), stream.incoming, wrote, ParseName(length, old(stream.incoming)))
  {
    ghost var input := stream.incoming;
    var name := stream.ReadExact(length);
    if name.Err? {
      CutShort(name.error, length, input, stream.incoming, ParseName(length, input));
      return Err(Interrupted(name.error)), [];
    }
    assert input[..length] == name.value && input[length..] == stream.incoming;
    if !HostName(name.value) {
      r, wrote := RefuseWith(stream, BadName, length, 4, input);
      return;
    }
    r, wrote := ReadPort(stream, Domain(name.value));
    RealizesAfter(r, length, [], input, stream.incoming, wrote, ParsePort(Domain(name.value), input[length..]));
  }

  /** Lines 108 to 112. */
  method ReadIpv4(stream: ByteStream) returns (r: Result<Destination, Failure>, ghost wrote: seq<u8>)
    modifies stream`incoming, stream`output, stream`trouble
    ensures stream.output == old(stream.output) + wrote && stream.trouble == Trouble(old(stream.trouble), FaultIn(r))
    ensures Realizes(r, old(stream.incoming), stream.incoming, wrote, ParseAddress(1, old(stream.incoming)))
  {
    ghost var input := stream.incoming;
    var octets := stream.ReadExact(4);
    if octets.Err? {
      CutShort(octets.error, 4, input, stream.incoming, ParseAddress(1, input));
      return Err(Interrupted(octets.error)), [];
    }
    assert input[..4] == octets.value && input[4..] == stream.incoming;
    r, wrote := ReadPort(stream, Ip(V4(octets.value)));
    RealizesAfter(r, 4, [], input, stream.incoming, wrote, ParsePort(Ip(V4(input[..4])), input[4..]));
  }

  /** Lines 113 to 117. */
  method ReadIpv6(stream: ByteStream) returns (r: Result<Destination, Failure>, ghost wrote: seq<u8>)
    modifies stream`incoming, stream`output, stream`trouble
    ensures stream.output == old(stream.output) + wrote && stream.trouble == Trouble(old(stream.trouble), FaultIn(r))
    ensures Realizes(r, old(stream.incoming), stream.incoming, wrote, ParseAddress(4, old(stream.incoming)))
  {
    ghost var input := stream.incoming;
    var octets := stream.ReadExact(16);
    if octets.Err? {
      CutShort(octets.error, 16, input, stream.incoming, ParseAddress(4, input));
      return Err(Interrupted(octets.error)), [];
    }
    assert input[..16] == octets.value && input[16..] == stream.incoming;
    r, wrote := ReadPort(stream, Ip(V6(octets.value)));
    RealizesAfter(r, 16, [], input, stream.incoming, wrote, ParsePort(Ip(V6(input[..16])), input[16..]));
  }

  /** Lines 118 to 131. */
  method ReadDomain(stream: ByteStream) returns (r: Result<Destination, Failure>, ghost wrote: seq<u8>)
    modifies stream`incoming, stream`output, stream`trouble
    ensures stream.output == old(stream.output) + wrote && stream.trouble == Trouble(old(stream.trouble), FaultIn(r))
    ensures Realizes(r, old(stream.incoming), stream.incoming, wrote, ParseAddress(3, old(stream.incoming)))
  {
    ghost var input := stream.incoming;
    var length := stream.ReadExact(1);
    if length.Err? {
      CutShort(length.error, 1, input, stream.incoming, ParseAddress(3, input));
      return Err(Interrupted(length.error)), [];
    }
    assert input[..1] == length.value && input[1..] == stream.incoming;
    r, wrote := ReadName(stream, length.value[0]);
    RealizesAfter(r, 1, [], input, stream.incoming, wrote, ParseName(input[0], input[1..]));
  }

  /** Lines 107 to 136. */
  method ReadAddress(stream: ByteStream, kind: u8) returns (r: Result<Destination, Failure>, ghost wrote: seq<u8>)
    modifies stream`incoming, stream`output, stream`trouble
    ensures stream.output == old(stream.output) + wrote && stream.trouble == Trouble(old(stream.trouble), FaultIn(r))
    ensures Realizes(r, old(stream.incoming), stream.incoming, wrote, ParseAddress(kind, old(stream.incoming)))
  {
    match kind {
      case 1 => r, wrote := ReadIpv4(stream);
      case 4 => r, wrote := ReadIpv6(stream);
      case 3 => r, wrote := ReadDomain(stream);
      case _ => r, wrote := RefuseWith(stream, BadAddressType, 0, 8, stream.incoming);
    }
  }

  /** Lines 97 to 106, and on. */
  method ReadRequest(stream: ByteStream) returns (r: Result<Destination, Failure>, ghost wrote: seq<u8>)
    modifies stream`incoming, stream`output, stream`trouble
    ensures stream.output == old(stream.output) + wrote && stream.trouble == Trouble(old(stream.trouble), FaultIn(r))
    ensures Realizes(r, old(stream.incoming), stream.incoming, wrote, ParseRequest(old(stream.incoming)))
  {
    ghost var input := stream.incoming;
    var header := stream.ReadExact(4);
    if header.Err? {
      CutShort(header.error, 4, input, stream.incoming, ParseRequest(input));
      return Err(Interrupted(header.error)), [];
    }
    var request := header.value;
    assert input[..4] == request && input[4..] == stream.incoming;
    if request[0] != 5 || request[2] != 0 {
      r, wrote := RefuseWith(stream, BadRequest, 4, 1, input);
      return;
    }
    if request[1] != 1 {
      r, wrote := RefuseWith(stream, BadCommand, 4, 7, input);
      return;
    }
    r, wrote := ReadAddress(stream, request[3]);
    RealizesAfter(r, 4, [], input, stream.incoming, wrote, ParseAddress(input[3], input[4..]));
  }

  /** Lines 89 to 95. */
  method RefuseMethods(stream: ByteStream, count: u8, ghost input: seq<u8>)
    returns (r: Result<Destination, Failure>, ghost wrote: seq<u8>)
    requires Suffix(stream.incoming, input) && |input| - |stream.incoming| == count
    modifies stream`output, stream`trouble
    ensures stream.output == old(stream.output) + wrote && stream.trouble == Trouble(old(stream.trouble), FaultIn(r))
    ensures Realizes(r, input, stream.incoming, wrote, Session(Refused(NoMethod), count, NONE_CHOSEN))
  {
    var fault := stream.WriteAll(NONE_CHOSEN);
    wrote := stream.output[|old(stream.output)|..];
    r := Err(if fault.Some? then Interrupted(fault.value) else Rejected(NoMethod));
  }

  lemma ChoiceCutShort(fault: Fault, input: seq<u8>, wrote: seq<u8>, rest: Session)
    requires wrote <= CHOSEN && !fault.EndOfFile?
    ensures Realizes(Err(Interrupted(fault)), input, input, wrote, Then(0, CHOSEN, rest))
  {
  }

  /** Line 96, and on. */
  method ChooseMethod(stream: ByteStream) returns (r: Result<Destination, Failure>, ghost wrote: seq<u8>)
    modifies stream`incoming, stream`output, stream`trouble
    ensures stream.output == old(stream.output) + wrote && stream.trouble == Trouble(old(stream.trouble), FaultIn(r))
    ensures Realizes(r, old(stream.incoming), stream.incoming, wrote,
                     Then(0, CHOSEN, ParseRequest(old(stream.incoming))))
  {
    ghost var input, before := stream.incoming, stream.output;
    var fault := stream.WriteAll(CHOSEN);
    if fault.Some? {
      wrote := stream.output[|before|..];
      ChoiceCutShort(fault.value, input, wrote, ParseRequest(input));
      return Err(Interrupted(fault.value)), wrote;
    }
    ghost var more;
    r, more := ReadRequest(stream);
    wrote := CHOSEN + more;
    ConcatAssoc(before, CHOSEN, more);
    RealizesAfter(r, 0, CHOSEN, input, stream.incoming, more, ParseRequest(input));
  }

  /** Lines 87 to 96, and on. */
  method ReadMethods(stream: ByteStream, count: u8) returns (r: Result<Destination, Failure>, ghost wrote: seq<u8>)
    modifies stream`incoming, stream`output, stream`trouble
    ensures stream.output == old(stream.output) + wrote && stream.trouble == Trouble(old(stream.trouble), FaultIn(r))
    ensures Realizes(r, old(stream.incoming), stream.incoming, wrote, ParseMethods(count, old(stream.incoming)))
  {
    ghost var input := stream.incoming;
    var methods := stream.ReadExact(count);
    if methods.Err? {
      CutShort(methods.error, count, input, stream.incoming, ParseMethods(count, input));
      return Err(Interrupted(methods.error)), [];
    }
    assert input[..count] == methods.value && input[count..] == stream.incoming;
    if 0 !in methods.value {
      r, wrote := RefuseMethods(stream, count, input);
      return;
    }
    r, wrote := ChooseMethod(stream);
    RealizesAfter(r, count, [], input, stream.incoming, wrote, Then(0, CHOSEN, ParseRequest(input[count..])));
  }

  lemma CountCutShort(fault: Fault, input: seq<u8>, left: seq<u8>)
    requires input != [] && Suffix(left, input[1..]) && |input| - |left| <= 2
    requires fault.EndOfFile? ==> |input| == 1 && left == []
    ensures Realizes(Err(Interrupted(fault)), input, left, [], Parse(input))
  {
    assert left == input[|input| - |left|..];
    CutShort(fault, 2, input, left, Parse(input));
  }

  lemma CountRead(input: seq<u8>, bytes: seq<u8>, left: seq<u8>)
    requires input != [] && |bytes| == 1 && bytes + left == input[1..]
    ensures |input| >= 2 && input[1] == bytes[0] && input[2..] == left
  {
    assert (bytes + left)[0] == input[1];
    assert input[2..] == input[1..][1..];
  }

  lemma BadlyGreeted(input: seq<u8>)
    requires |input| >= 2 && (input[0] != 5 || input[1] == 0)
    ensures Realizes(Err(Rejected(BadGreeting)), input, input[2..], [], Parse(input))
  {
  }

  lemma AfterGreeting(r: Result<Destination, Failure>, input: seq<u8>, left: seq<u8>, wrote: seq<u8>)
    requires |input| >= 2 && input[0] == 5 && input[1] != 0
    requires Realizes(r, input[2..], left, wrote, ParseMethods(input[1], input[2..]))
    ensures Realizes(r, input, left, wrote, Parse(input))
  {
    RealizesAfter(r, 2, [], input, left, wrote, ParseMethods(input[1], input[2..]));
    assert [] + wrote == wrote;
  }

  /** Lines 83 to 86, and on, where the version has been read. */
  method ReadCount(stream: ByteStream, version: u8, ghost input: seq<u8>)
    returns (r: Result<Destination, Failure>, ghost wrote: seq<u8>)
    requires input != [] && input[0] == version && input[1..] == stream.incoming
    modifies stream`incoming, stream`output, stream`trouble
    ensures stream.output == old(stream.output) + wrote && stream.trouble == Trouble(old(stream.trouble), FaultIn(r))
    ensures Realizes(r, input, stream.incoming, wrote, Parse(input))
  {
    var count := stream.ReadExact(1);
    if count.Err? {
      CountCutShort(count.error, input, stream.incoming);
      return Err(Interrupted(count.error)), [];
    }
    CountRead(input, count.value, stream.incoming);
    if version != 5 || count.value[0] == 0 {
      BadlyGreeted(input);
      return Err(Rejected(BadGreeting)), [];
    }
    r, wrote := ReadMethods(stream, count.value[0]);
    AfterGreeting(r, input, stream.incoming, wrote);
  }

  /** Lines 82 to 86, and on. */
  method Greet(stream: ByteStream) returns (r: Result<Destination, Failure>, ghost wrote: seq<u8>)
    modifies stream`incoming, stream`output, stream`trouble
    ensures stream.output == old(stream.output) + wrote && stream.trouble == Trouble(old(stream.trouble), FaultIn(r))
    ensures Realizes(r, old(stream.incoming), stream.incoming, wrote, Parse(old(stream.incoming)))
  {
    ghost var input := stream.incoming;
    var version := stream.ReadExact(1);
    if version.Err? {
      CutShort(version.error, 1, input, stream.incoming, Parse(input));
      return Err(Interrupted(version.error)), [];
    }
    assert input[..1] == version.value && input[1..] == stream.incoming;
    r, wrote := ReadCount(stream, version.value[0], input);
  }

  /** Lines 78 to 143: whatever the pieces, the handshake comes to what the bytes mean, exactly and
      in full unless an operation on the stream has failed. */
  method Handshake(stream: ByteStream) returns (r: Result<Destination, Failure>, ghost wrote: seq<u8>)
    modifies stream`incoming, stream`output, stream`trouble
    ensures stream.output == old(stream.output) + wrote && stream.trouble == Trouble(old(stream.trouble), FaultIn(r))
    ensures Realizes(r, old(stream.incoming), stream.incoming, wrote, Parse(old(stream.incoming)))
    ensures stream.trouble.None? ==>
      Exactly(r, old(stream.incoming), stream.incoming, wrote, Parse(old(stream.incoming)))
  {
    ghost var input, before := stream.incoming, stream.trouble;
    r, wrote := Greet(stream);
    WithoutTrouble(before, r, input, stream.incoming, wrote, Parse(input));
  }

  /** Nothing but trouble excuses a handshake from all that its bytes mean. */
  lemma WithoutTrouble(before: Option<Fault>, r: Result<Destination, Failure>, input: seq<u8>, left: seq<u8>,
                       wrote: seq<u8>, s: Session)
    requires Realizes(r, input, left, wrote, s)
    ensures Trouble(before, FaultIn(r)).None? ==> Exactly(r, input, left, wrote, s)
  {
  }

  /** The law the front end is for: an encoded request, in whatever pieces it comes and whatever
      follows it, is returned exactly, with just the method choice written and with every byte
      that follows left unread; otherwise some read or write has failed or run out of time, and
      that is what is reported. */
  lemma EncodedRequestIsServed(methods: seq<u8>, target: Target, port: u16, payload: seq<u8>, trouble: Option<Fault>,
                               r: Result<Destination, Failure>, left: seq<u8>, wrote: seq<u8>)
    requires Encodable(methods, target, port) && trouble == Trouble(None, FaultIn(r))
    requires var input := Encode(methods, target, port) + payload;
      Realizes(r, input, left, wrote, Parse(input))
    ensures trouble.None? ==> r == Ok(Destination(target, port)) && left == payload && wrote == CHOSEN
    ensures trouble.Some? ==> r == Err(Interrupted(trouble.value)) && wrote <= CHOSEN && Suffix(payload, left)
  {
    var e := Encode(methods, target, port);
    var input := e + payload;
    RoundTrip(methods, target, port, payload);
    var n := |input| - |left|;
    if r.Ok? {
      assert left == input[|e|..] == payload;
    } else {
      assert n <= |e|;
    }
  }

  /** The handshake by its bytes: on a healthy stream that begins in one of the forms, what follows
      is left unread, exactly the answer of that form is written, and its verdict is the result. */
  lemma HandshakeByBytes(f: Form, rest: seq<u8>, r: Result<Destination, Failure>, left: seq<u8>, wrote: seq<u8>)
    requires f.Answered() && Exactly(r, f.Bytes() + rest, left, wrote, Parse(f.Bytes() + rest))
    ensures left == rest && wrote == f.Written()
    ensures match f.Verdict()
      case Accepted(target, port) => r == Ok(Destination(target, port))
      case Refused(refusal) => r == Err(Rejected(refusal))
      case Truncated => false
  {
    FormDecides(f, rest);
    assert (f.Bytes() + rest)[|f.Bytes()|..] == rest;
  }

  // ---- One client ----

  /** How a client's connection ends, or that it is being relayed. */
  datatype End =
    | NoRequest(failure: Failure)           // the handshake has failed
    | Unanswered(fault: Fault)              // the reply could not be written in full
    | Denied(code: u8)                      // an error reply has been written
    | Relaying(local: SocketAddr)           // the success reply has been written

  function CodeFor(kind: ErrorKind): (code: u8)
    ensures code != 0
  {
    match kind
    case NetworkUnreachable => 3
    case NotConnected => 3
    case NotFound => 4
    case HostUnreachable => 4
    case TimedOut => 4
    case ConnectionRefused => 5
    case _ => 1
  }

  /** The reply a client gets for the tunnel's answer. */
  function ReplyFor(answer: Answer): seq<u8> {
    match answer
    case Connected(local) => Reply(0, Some(local))
    case Failed(kind) => Reply(CodeFor(kind), None)
  }

  /** Read by the client, the reply is a success exactly for a connection, and then names its
      local address; whatever was refused, timed out or lost reads as an error. */
  lemma SuccessIffConnected(answer: Answer, rest: seq<u8>)
    ensures ReadReply(ReplyFor(answer) + rest).Some?
    ensures var read := ReadReply(ReplyFor(answer) + rest).value;
      && read.length == |ReplyFor(answer)|
      && (read.code == 0 <==> answer.Connected?)
      && (answer.Connected? ==> read.bound == answer.local)
      && (answer.Failed? ==>
            && read.bound == SocketAddr(V4([0, 0, 0, 0]), 0)
            && (read.code == 3 <==> answer.kind in {NetworkUnreachable, NotConnected})
            && (read.code == 4 <==> answer.kind in {NotFound, HostUnreachable, TimedOut})
            && (read.code == 5 <==> answer.kind == ConnectionRefused)
            && read.code in {1, 3, 4, 5})
  {
    match answer {
      case Connected(local) => ReplyReadsBack(0, Some(local), rest);
      case Failed(kind) => ReplyReadsBack(CodeFor(kind), None, rest);
    }
  }

  /** The request has been answered with a connection because the socket made for it was
      established, and `local` is that socket's own address. */
  ghost predicate ByOwnSocket(id: RequestId, local: SocketAddr, seen: map<RequestId, Sighting>) {
    && id in seen && seen[id].state.Established?
    && seen[id].socket.owner == id && seen[id].socket.local == local
  }

  /** A client reads success only if its own request's socket was established, and then reads that
      socket's address; a refusal, a timeout or a lost engine reads as an error. */
  lemma CodeZeroMeansEstablished(id: RequestId, settled: map<RequestId, Outcome>, seen: map<RequestId, Sighting>,
                                 rest: seq<u8>)
    requires id in settled && SoundAt(id, settled, seen)
    ensures ReadReply(ReplyFor(Response(settled[id])) + rest).Some?
    ensures var read := ReadReply(ReplyFor(Response(settled[id])) + rest).value;
      && (read.code == 0 <==> IsConnected(settled[id]))
      && (read.code == 0 ==> ByOwnSocket(id, read.bound, seen))
      && (settled[id] == Dropped ==> read.code == 3)
  {
    SuccessIffConnected(Response(settled[id]), rest);
  }

  /** Lines 58 to 73: one reply, which the outcome of the client's own request decides. */
  method AnswerClient(stream: ByteStream, ledger: Ledger, ghost id: RequestId, answer: Answer)
    returns (end: End, ghost wrote: seq<u8>)
    requires ledger.Sound() && id in ledger.settled && answer == Response(ledger.settled[id])
    modifies stream`output, stream`trouble
    ensures stream.output == old(stream.output) + wrote && wrote <= ReplyFor(answer)
    ensures if end.Unanswered? then stream.trouble == Some(end.fault) && stream.MayFailWith(end.fault)
            else stream.trouble == old(stream.trouble) && wrote == ReplyFor(answer)
    ensures !end.NoRequest?
    ensures end.Relaying? ==> answer == Connected(end.local) && ByOwnSocket(id, end.local, ledger.seen)
    ensures end.Denied? ==> answer.Failed? && end.code == CodeFor(answer.kind)
  {
    assert SoundAt(id, ledger.settled, ledger.seen);
    ghost var before := stream.output;
    var fault;
    match answer {
      case Failed(kind) =>
        fault := SendReply(stream, CodeFor(kind), None);
        end := Denied(CodeFor(kind));
      case Connected(local) =>
        fault := SendReply(stream, 0, Some(local));
        end := Relaying(local);
    }
    wrote := stream.output[|before|..];
    if fault.Some? {
      end := Unanswered(fault.value);
    }
  }

  /** Lines 55 to 58, and lines 140 to 148 of src/netstack.rs: the handshake, for which the time is
      limited, and the request it accepts, if it accepts one, is made for exactly the target it
      names. */
  method Admit(stream: ByteStream, tunnel: Channels, ledger: Ledger, id: RequestId)
    returns (r: Result<Destination, Failure>, ghost wrote: seq<u8>)
    requires tunnel.Valid() && id !in tunnel.view.requested && id !in ledger.settled && ledger.Sound()
    modifies stream, tunnel, ledger`settled
    ensures tunnel.Valid() && ledger.Sound() && stream.output == old(stream.output) + wrote
    ensures stream.trouble == Trouble(old(stream.trouble), FaultIn(r)) && !stream.timed
    ensures Realizes(r, old(stream.incoming), stream.incoming, wrote, Parse(old(stream.incoming)))
    ensures stream.trouble.None? ==>
      Exactly(r, old(stream.incoming), stream.incoming, wrote, Parse(old(stream.incoming)))
    ensures r.Err? ==> unchanged(tunnel) && unchanged(ledger)
    ensures r.Ok? ==> tunnel.history == old(tunnel.history) + [P.Request(r.value.target, r.value.port, id)]
    ensures r.Ok? ==> id !in ledger.settled || ledger.settled[id] == Dropped
  {
    stream.timed := true;
    r, wrote := Handshake(stream);
    stream.timed := false;
    if r.Ok? {
      var sent := tunnel.Request(r.value.target, r.value.port, id, ledger);
    }
  }

  /** Line 148 of src/netstack.rs: everybody else acts until the request is settled, and its outcome
      is what the requester gets. This body is one way for that to go. */
  method Await(tunnel: Channels, ledger: Ledger, ghost id: RequestId) returns (answer: Answer)
    requires tunnel.Valid() && ledger.Sound() && (id in ledger.settled ==> ledger.settled[id] == Dropped)
    modifies tunnel, ledger
    ensures tunnel.Valid() && old(tunnel.history) <= tunnel.history
    ensures ledger.Sound() && id in ledger.settled && answer == Response(ledger.settled[id])
  {
    if id !in ledger.settled {
      ledger.DropAll({id});
    }
    answer := Failed(NotConnected);
  }

  /** Lines 51 to 76. The request is made exactly when the handshake accepts one; the client is
      relayed only after a success reply in full, with its payload unread, and only if the socket
      made for its own request was established, whose address the reply names. Unless the stream
      fails, or the handshake runs out of time, all of that happens, and the reply is written in full. */
  method Handle(stream: ByteStream, tunnel: Channels, ledger: Ledger, id: RequestId)
    returns (end: End, ghost asked: Option<Destination>, ghost wrote: seq<u8>, ghost replied: seq<u8>)
    requires tunnel.Valid() && id !in tunnel.view.requested && id !in ledger.settled && ledger.Sound()
    modifies stream, tunnel, ledger
    ensures tunnel.Valid() && ledger.Sound() && stream.output == old(stream.output) + wrote + replied
    ensures asked.None? ==>
      && end.NoRequest? && replied == [] && unchanged(tunnel) && unchanged(ledger)
      && Realizes(Err(end.failure), old(stream.incoming), stream.incoming, wrote, Parse(old(stream.incoming)))
    ensures asked.Some? ==>
      && Realizes(Ok(asked.value), old(stream.incoming), stream.incoming, wrote, Parse(old(stream.incoming)))
      && old(tunnel.history) + [P.Request(asked.value.target, asked.value.port, id)] <= tunnel.history
    ensures asked.Some? ==>
      && id in ledger.settled && !end.NoRequest?
      && var answer := Response(ledger.settled[id]);
      && replied <= ReplyFor(answer) && (end.Unanswered? || replied == ReplyFor(answer))
      && (end.Relaying? ==> answer == Connected(end.local) && ByOwnSocket(id, end.local, ledger.seen))
      && (end.Denied? ==> answer.Failed? && end.code == CodeFor(answer.kind))
    ensures stream.trouble.None? ==>
      && var s := Parse(old(stream.incoming));
      && wrote == s.output && |old(stream.incoming)| - |stream.incoming| == s.consumed
      && asked == (if s.verdict.Accepted? then Some(Destination(s.verdict.target, s.verdict.port)) else None)
      && !end.Unanswered?
    ensures end.Unanswered? ==> end.fault.Broken? && stream.trouble == Some(Broken)
  {
    var r;
    r, wrote := Admit(stream, tunnel, ledger, id);
    asked, replied := None, [];
    if r.Err? {
      return NoRequest(r.error), asked, wrote, replied;
    }
    asked := Some(r.value);
    var answer := Await(tunnel, ledger, id);
    end, replied := AnswerClient(stream, ledger, id, answer);
  }
}
