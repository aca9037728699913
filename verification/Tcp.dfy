/** The TCP socket of the embedded stack, as far as its contract goes. The network and the
    peer are arbitrary: method bodies choose, callers see the contracts only. */
module Tcp {
  import opened Wrappers
  import opened Net

  const BUFFER_SIZE := 65536

  datatype TcpState =
    | Closed | SynSent | SynReceived | Established
    | FinWait1 | FinWait2 | CloseWait | Closing | LastAck | TimeWait

  predicate Connecting(s: TcpState) {
    s.SynSent? || s.SynReceived?
  }

  /** States in which the peer may still send. */
  predicate Receiving(s: TcpState) {
    s.Established? || s.FinWait1? || s.FinWait2?
  }

  /** States in which this side may still send. */
  predicate Sending(s: TcpState) {
    s.Established? || s.CloseWait?
  }

  /** A phase that has been left is never entered again. */
  predicate Follows(s: TcpState, t: TcpState) {
    && (Connecting(t) ==> Connecting(s))
    && (Receiving(t) ==> Connecting(s) || Receiving(s))
    && (Sending(t) ==> Connecting(s) || Sending(s))
    && (s.Closed? ==> t.Closed?)
  }

  class TcpSocket {
    ghost const owner: RequestId
    const local: SocketAddr
    const remote: SocketAddr
    var state: TcpState
    var rx: seq<u8>              // received, not yet read by the owner
    var tx: seq<u8>              // enqueued, not yet acknowledged
    ghost var received: seq<u8>  // everything the peer's stream has delivered
    ghost var enqueued: seq<u8>  // everything the owner has enqueued
    ghost var closing: bool      // `close` has been called
    ghost var aborted: bool      // `abort` has closed it, nothing else

    /** A socket on which `connect` has succeeded. */
    constructor (ghost owner: RequestId, local: SocketAddr, remote: SocketAddr)
      ensures this.owner == owner && this.local == local && this.remote == remote
      ensures state == SynSent && rx == tx == received == enqueued == [] && !closing && !aborted
    {
      this.owner, this.local, this.remote := owner, local, remote;
      state, rx, tx := SynSent, [], [];
      received, enqueued, closing, aborted := [], [], false, false;
    }

    predicate MayRecv()
      reads this
    {
      Receiving(state) || rx != []
    }

    predicate CanRecv()
      reads this
    {
      rx != []
    }

    predicate CanSend()
      reads this
    {
      Sending(state) && |tx| < BUFFER_SIZE
    }

    /** What one poll of the interface may do to a socket: deliver bytes, acknowledge bytes,
        change state. */
    method Network() returns (ghost delivered: seq<u8>)
      modifies this
      ensures Follows(old(state), state)
      ensures rx == old(rx) + delivered && received == old(received) + delivered
      ensures delivered != [] ==> Connecting(old(state)) || Receiving(old(state))
      ensures enqueued == old(enqueued) && closing == old(closing) && aborted == old(aborted)
    {
      var next: TcpState := *;
      var bytes: seq<u8> := *;
      var acknowledged: nat :| acknowledged <= |tx|;
      delivered := [];
      if Connecting(state) || Receiving(state) {
        delivered := bytes;
        rx, received := rx + bytes, received + bytes;
      }
      if Follows(state, next) {
        state := next;
      }
      tx := tx[acknowledged..];
    }

    /** The slice handed to the `recv` closure: a nonempty contiguous part of the buffer. */
    method Peek() returns (data: seq<u8>)
      requires CanRecv()
      ensures 0 < |data| <= |rx| && data == rx[..|data|]
    {
      var n: nat :| 0 < n <= |rx|;
      data := rx[..n];
    }

    /** What the `recv` closure reports as read leaves the buffer. */
    method Consume(count: nat)
      requires count <= |rx|
      modifies `rx
      ensures rx == old(rx)[count..]
    {
      rx := rx[count..];
    }

    /** The length of the slice handed to the `send` closure. */
    method Window() returns (n: nat)
      requires CanSend()
      ensures 0 < n && |tx| + n <= BUFFER_SIZE
    {
      n :| 0 < n <= BUFFER_SIZE - |tx|;
    }

    /** What the `send` closure has filled in is enqueued; never after `close`. */
    method Enqueue(bytes: seq<u8>)
      requires CanSend() && |tx| + |bytes| <= BUFFER_SIZE && !closing
      modifies `tx, `enqueued
      ensures enqueued == old(enqueued) + bytes
    {
      tx, enqueued := tx + bytes, enqueued + bytes;
    }

    /** Half-close: no more sending, receiving goes on. */
    method Close()
      modifies `state, `closing
      ensures closing && Follows(old(state), state)
      ensures !Sending(state) && !Connecting(state)
      ensures Receiving(old(state)) ==> Receiving(state)
      ensures state.Closed? ==> old(state).SynSent? || old(state).Closed?
    {
      closing := true;
      state := match state
        case SynSent => Closed
        case SynReceived => FinWait1
        case Established => FinWait1
        case CloseWait => LastAck
        case other => other;
    }

    method Abort()
      modifies `state, `aborted
      ensures state == Closed && aborted == (old(aborted) || !old(state).Closed?)
    {
      aborted := aborted || state != Closed;
      state := Closed;
    }
  }

  /** The stack's interface, with the addresses it was given. */
  class Interface {
    const ipv4: Option<Ipv4>
    const ipv6: Option<Ipv6>
    ghost var refused: set<SocketAddr>   // every destination it would not connect to

    constructor (ipv4: Option<Ipv4>, ipv6: Option<Ipv6>)
      ensures this.ipv4 == ipv4 && this.ipv6 == ipv6 && refused == {}
    {
      this.ipv4, this.ipv6, refused := ipv4, ipv6, {};
    }

    /** The interface's own address of the family of `ip`. */
    function Source(ip: IpAddr): IpAddr
      requires if ip.V4? then ipv4.Some? else ipv6.Some?
    {
      if ip.V4? then V4(ipv4.value) else V6(ipv6.value)
    }

    /** A socket connecting from the interface's own address, unless the stack refuses. */
    method Connect(ghost owner: RequestId, localPort: u16, remote: SocketAddr) returns (r: Option<TcpSocket>)
      requires if remote.ip.V4? then ipv4.Some? else ipv6.Some?
      modifies `refused
      ensures refused == old(refused) + if r.None? then {remote} else {}
      ensures r.Some? ==>
        var s := r.value;
        && fresh(s) && s.owner == owner && s.remote == remote
        && s.local == SocketAddr(Source(remote.ip), localPort)
        && s.state == SynSent && s.rx == s.tx == s.received == s.enqueued == [] && !s.closing && !s.aborted
    {
      var refuses: bool := *;
      if refuses {
        refused := refused + {remote};
        return None;
      }
      var socket := new TcpSocket(owner, SocketAddr(Source(remote.ip), localPort), remote);
      r := Some(socket);
    }
  }
}
