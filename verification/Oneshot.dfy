/** One-shot reply channels. A request's sender is used at most once and then it is gone; a
    sender that is destroyed unused shows at the receiver as a closed channel. */
module Oneshot {
  import opened Net
  import opened Tcp

  datatype Answer = Connected(local: SocketAddr) | Failed(kind: ErrorKind)

  datatype Outcome = Answered(answer: Answer) | Dropped

  predicate IsConnected(outcome: Outcome) {
    outcome.Answered? && outcome.answer.Connected?
  }

  /** What the requester's `connect` returns for an outcome of its sender. */
  function Response(outcome: Outcome): Answer {
    match outcome
    case Answered(answer) => answer
    case Dropped => Failed(NotConnected)
  }

  /** What a socket was found to be when its request was answered on account of it. */
  datatype Sighting = Sighting(socket: TcpSocket, state: TcpState, at: nat)

  /** A connection is only ever answered with the local address of the socket made for that very
      request, and that socket was established at that moment. */
  ghost predicate SoundAt(id: RequestId, settled: map<RequestId, Outcome>, seen: map<RequestId, Sighting>) {
    id in settled && IsConnected(settled[id]) ==>
      && id in seen && seen[id].state == Established
      && seen[id].socket.owner == id && seen[id].socket.local == settled[id].answer.local
  }

  /** The fate of every sender so far. The preconditions are ownership: a sender that has been
      used or destroyed cannot be used again. */
  class Ledger {
    ghost var settled: map<RequestId, Outcome>
    var gone: set<RequestId>                   // requests whose receiver has been found gone
    ghost var present: set<RequestId>          // those found present since the round began
    ghost var seen: map<RequestId, Sighting>

    constructor ()
      ensures settled == map[] && Sound()
    {
      settled, gone, present, seen := map[], {}, {}, map[];
    }

    ghost predicate Sound()
      reads `settled, `seen
    {
      forall id {:trigger SoundAt(id, settled, seen)} :: SoundAt(id, settled, seen)
    }

    ghost method BeginRound()
      modifies `present
      ensures present == {}
    {
      present := {};
    }

    /** Whether the receiver has gone away: the requester decides, at any time, and for good. */
    method IsClosed(id: RequestId) returns (closed: bool)
      requires id !in settled
      modifies `gone, `present
      ensures id in old(gone) ==> closed
      ensures gone == old(gone) + if closed then {id} else {}
      ensures present == old(present) + if closed then {} else {id}
    {
      closed := *;
      closed := closed || id in gone;
      if closed {
        gone := gone + {id};
      } else {
        present := present + {id};
      }
    }

    method Fail(ghost id: RequestId, kind: ErrorKind)
      requires Sound()
      requires id !in settled && kind != ConnectionRefused
      modifies `settled
      ensures settled == old(settled)[id := Answered(Failed(kind))]
      ensures Sound()
    {
      settled := settled[id := Answered(Failed(kind))];
      forall x ensures SoundAt(x, settled, seen) {
        assert old(SoundAt(x, settled, seen));
      }
    }

    /** The only way to answer that a connection was refused: the request's own socket is closed
        at this moment. */
    method FailOn(ghost id: RequestId, ghost socket: TcpSocket, now: nat)
      requires Sound()
      requires id !in settled && socket.owner == id && socket.state == Closed
      modifies `settled, `seen
      ensures settled == old(settled)[id := Answered(Failed(ConnectionRefused))]
      ensures seen == old(seen)[id := Sighting(socket, Closed, now)]
      ensures Sound()
    {
      settled := settled[id := Answered(Failed(ConnectionRefused))];
      seen := seen[id := Sighting(socket, Closed, now)];
      forall x ensures SoundAt(x, settled, seen) {
        assert old(SoundAt(x, settled, seen));
      }
    }

    /** The only way to answer with a connection: the request's own socket is established at this
        moment, and the address is its local address. */
    method Succeed(id: RequestId, local: SocketAddr, ghost socket: TcpSocket, now: nat) returns (delivered: bool)
      requires Sound()
      requires id !in settled && socket.owner == id
      requires socket.state == Established && local == socket.local
      modifies `settled, `seen, `gone
      ensures settled == old(settled)[id := Answered(Connected(local))]
      ensures seen == old(seen)[id := Sighting(socket, Established, now)]
      ensures gone == old(gone) + (if delivered then {} else {id}) && (id in old(gone) ==> !delivered)
      ensures Sound()
    {
      settled := settled[id := Answered(Connected(local))];
      seen := seen[id := Sighting(socket, Established, now)];
      delivered := *;
      delivered := delivered && id !in gone;
      if !delivered {
        gone := gone + {id};
      }
      forall x ensures SoundAt(x, settled, seen) {
        assert old(SoundAt(x, settled, seen));
      }
    }

    /** The sender goes out of scope unused, because there is nobody left to answer. */
    ghost method Drop(id: RequestId)
      requires Sound()
      requires id !in settled && id in gone
      modifies `settled
      ensures settled == old(settled)[id := Dropped]
      ensures Sound()
    {
      settled := settled[id := Dropped];
      forall x ensures SoundAt(x, settled, seen) {
        assert old(SoundAt(x, settled, seen));
      }
    }

    /** The owner of several senders is destroyed, and they with it. */
    ghost method DropAll(ids: set<RequestId>)
      requires Sound()
      requires forall id | id in ids :: id !in settled
      modifies `settled
      ensures settled == old(settled) + map id | id in ids :: Dropped
      ensures Sound()
    {
      settled := settled + map id | id in ids :: Dropped;
      forall x ensures SoundAt(x, settled, seen) {
        assert old(SoundAt(x, settled, seen));
      }
    }
  }
}
