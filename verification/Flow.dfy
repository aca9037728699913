/** One proxied TCP connection: the bridge between a socket of the stack and a client's pipe. Line
    numbers refer to src/netstack.rs. */
module FlowModel {
  import opened Wrappers
  import opened Net
  import opened Tcp
  import opened Pipe
  import opened Oneshot

  /** `Instant::duration_since`, which never goes below zero. */
  function Since(now: nat, earlier: nat): nat {
    if now >= earlier then now - earlier else 0
  }

  /** How `Flow::poll` goes on after looking at the reply channel. */
  datatype Phase = Open | Waiting | Finished

  /** What one round of a copying loop comes to. */
  datatype Round = Moved | Blocked | Ended | Broken

  const ROUNDS := 64

  /** What decides about a flow that is about to be polled. */
  datatype Snapshot = Snapshot(polls: nat, waiting: bool, activity: nat, written: nat, read: nat)

  class Flow {
    ghost const request: RequestId
    ghost const tcp: TcpSocket
    const socket: nat
    const bridge: Duplex
    const local: SocketAddr
    const deadline: nat
    var client: Option<Duplex>
    var reply: Option<RequestId>
    var activity: nat
    var readClosed: bool
    var writeClosed: bool
    ghost var polls: nat                // how often it has been polled

    /** Both directions, whatever happened to the reply: nothing is lost, duplicated or
        reordered between the socket and the pipe, and each end-of-stream is the true end. */
    ghost predicate Streams()
      reads this, bridge, tcp
    {
      && bridge.Valid()
      && bridge.written + tcp.rx == tcp.received
      && tcp.enqueued == bridge.read
      && (writeClosed <==> bridge.shut)
      && (writeClosed ==> tcp.rx == [] && !Connecting(tcp.state) && !Receiving(tcp.state))
      && (readClosed <==> tcp.closing)
      && (readClosed ==> bridge.eof && bridge.inward == [] && !Connecting(tcp.state) && !Sending(tcp.state))
    }

    /** The reply and the client's end of the pipe are held together, and until they are handed
        out no byte has passed. */
    ghost predicate Valid()
      reads this, bridge, tcp
    {
      && Streams()
      && (reply.Some? <==> client.Some?)
      && (reply.Some? ==> reply.value == request && client.value == bridge)
      && (reply.Some? ==> bridge.Untouched() && !readClosed && !writeClosed)
      && (reply.None? ==> !Connecting(tcp.state))
      && tcp.owner == request && tcp.local == local
      && SameFamily(local.ip, tcp.remote.ip)
    }

    constructor (reply: RequestId, socket: nat, tcp: TcpSocket, bridge: Duplex, local: SocketAddr,
                 deadline: nat, now: nat)
      requires tcp.state == SynSent && tcp.rx == tcp.received == tcp.enqueued == [] && !tcp.closing
      requires bridge.Valid() && bridge.Untouched() && !bridge.shut
      requires tcp.owner == reply && tcp.local == local && SameFamily(local.ip, tcp.remote.ip)
      ensures Valid()
      ensures request == reply && this.reply == Some(reply) && this.socket == socket && this.tcp == tcp
      ensures this.bridge == bridge && this.local == local && this.deadline == deadline
    {
      this.request, this.tcp := reply, tcp;
      this.socket, this.bridge, this.local, this.deadline := socket, bridge, local, deadline;
      this.client, this.reply := Some(bridge), Some(reply);
      this.activity, this.readClosed, this.writeClosed, this.polls := now, false, false, 0;
    }

    /** Lines 576 to 610: answer the request, or keep it waiting. */
    method Answer(socket: TcpSocket, ledger: Ledger, now: nat) returns (phase: Phase)
      requires Valid() && socket == tcp
      requires ledger.Sound() && (reply.Some? ==> request !in ledger.settled)
      modifies this`reply, this`client, this`activity, ledger, tcp`state, tcp`aborted
      ensures Streams() && (!phase.Finished? ==> Valid()) && ledger.Sound()
      ensures !phase.Finished? ==> tcp.state == old(tcp.state)
      ensures old(reply).None? ==> phase == Open && reply.None? && ledger.settled == old(ledger.settled)
      ensures old(reply).None? ==> activity == old(activity)
      ensures phase == Waiting ==>
        && reply.Some? && now < deadline && !old(tcp.state).Established? && !old(tcp.state).Closed?
        && ledger.settled == old(ledger.settled)
      ensures phase == Open && old(reply).Some? ==>
        && reply.None? && now < deadline && old(tcp.state).Established? && activity == now
        && ledger.settled == old(ledger.settled)[request := Answered(Connected(local))]
        && ledger.seen == old(ledger.seen)[request := Sighting(tcp, Established, now)]
      ensures phase == Finished && reply.None? && now < deadline && old(tcp.state).Established? ==>
        request in ledger.gone
      ensures if phase == Finished then Aborted() else tcp.aborted == old(tcp.aborted)
      ensures old(ledger.gone) <= ledger.gone <= old(ledger.gone) + {request}
      ensures phase != Finished ==> ledger.gone == old(ledger.gone)
      // The receiver is asked first.
      ensures old(ledger.present) <= ledger.present
      ensures old(reply).Some? && phase != Finished ==> request in ledger.present && request !in ledger.gone
      ensures old(reply).Some? && request in old(ledger.gone) ==>
        phase == Finished && reply == old(reply) && ledger.settled == old(ledger.settled)
      ensures phase == Waiting || old(reply).None? ==> ledger.seen == old(ledger.seen)
      ensures phase == Finished ==> old(reply).Some? && EndedWith(ledger, old(tcp.state), now)
    {
      if reply.None? {
        return Open;
      }
      var closed := ledger.IsClosed(reply.value);
      if closed {
        socket.Abort();
        return Finished;
      }
      if now >= deadline || socket.state == Closed {
        if now >= deadline {
          ledger.Fail(request, TimedOut);
        } else {
          ledger.FailOn(request, tcp, now);
        }
        reply := None;
        socket.Abort();
        return Finished;
      }
      if socket.state != Established {
        return Waiting;
      }
      client := None;
      var delivered := ledger.Succeed(reply.value, local, tcp, now);
      reply := None;
      if !delivered {
        socket.Abort();
        return Finished;
      }
      activity := now;
      return Open;
    }

    /** What the requester gets when its flow ends before it was opened. */
    twostate predicate EndedWith(ledger: Ledger, state: TcpState, now: nat)
      reads this, ledger
    {
      || (reply == Some(request) && request in ledger.gone
          && ledger.settled == old(ledger.settled) && ledger.seen == old(ledger.seen))
      || (reply.None? && deadline <= now && ledger.seen == old(ledger.seen)
          && ledger.settled == old(ledger.settled)[request := Answered(Failed(TimedOut))])
      || (reply.None? && now < deadline && state == Closed
          && ledger.seen == old(ledger.seen)[request := Sighting(tcp, Closed, now)]
          && ledger.settled == old(ledger.settled)[request := Answered(Failed(ConnectionRefused))])
      || (reply.None? && now < deadline && state == Established
          && ledger.seen == old(ledger.seen)[request := Sighting(tcp, Established, now)]
          && ledger.settled == old(ledger.settled)[request := Answered(Connected(local))])
    }

    ghost function Now(): Snapshot
      reads this, bridge
    {
      Snapshot(polls, reply.Some?, activity, |bridge.written|, |bridge.read|)
    }

    /** Since it was as in `was` an open flow has moved what it could in both directions: until
        nothing was left or there was no room, or 64 times. */
    ghost predicate Pumped(was: Snapshot)
      reads this, bridge, tcp
    {
      reply.None? ==>
        && (writeClosed || tcp.rx == [] || bridge.writeBlocked || was.written + 64 <= |bridge.written|)
        && (readClosed || !tcp.CanSend() || bridge.readBlocked || was.read + 64 <= |bridge.read|)
    }

    /** Why a flow that was as in `was` and has been polled at time `now` need not be kept: its socket has closed by
        itself, nobody wants it, its pipe is unusable, or it has run out of time. */
    ghost predicate Excused(was: Snapshot, gone: set<RequestId>, now: nat, idleTimeout: nat)
      reads bridge`broken, tcp`aborted
    {
      || !tcp.aborted || request in gone || bridge.broken
      || (was.waiting && deadline <= now)
      || (!was.waiting && idleTimeout > 0 && was.activity + idleTimeout <= now)
    }

    /** What `abort` may have done to the socket. */
    twostate predicate Aborted()
      reads tcp
    {
      tcp.state.Closed? && tcp.aborted == (old(tcp.aborted) || !old(tcp.state).Closed?)
    }

    /** One round of the loop of lines 615 to 636. */
    method DeliverOnce(socket: TcpSocket, now: nat) returns (round: Round)
      requires Valid() && reply.None? && socket == tcp && socket.CanRecv() && !writeClosed
      modifies this`activity, bridge, tcp`rx, tcp`state, tcp`aborted
      ensures Valid() && !round.Ended?
      ensures bridge.read == old(bridge.read) && bridge.shut == old(bridge.shut)
      ensures round == Moved ==> |bridge.written| > |old(bridge.written)| && activity == now
      ensures round == Moved ==> bridge.written[..|old(bridge.written)|] == old(bridge.written)
      ensures round != Moved ==> bridge.written == old(bridge.written) && activity == old(activity)
      ensures round == Blocked ==> bridge.writeBlocked
      ensures if round == Broken then bridge.broken && Aborted()
              else tcp.state == old(tcp.state) && tcp.aborted == old(tcp.aborted)
    {
      var data := socket.Peek();
      var r := bridge.PollWrite(data);
      match r {
        case Wrote(count) =>
          if count == 0 {
            socket.Abort();
            return Broken;
          }
          socket.Consume(count);
          activity := now;
          return Moved;
        case WriteFailed =>
          socket.Abort();
          return Broken;
        case WritePending =>
          return Blocked;
      }
    }

    /** Lines 615 to 636: socket to pipe. */
    method Deliver(socket: TcpSocket, now: nat) returns (ok: bool, ghost rounds: nat)
      requires Valid() && reply.None? && socket == tcp
      modifies this`activity, bridge, tcp`rx, tcp`state, tcp`aborted
      ensures Valid()
      ensures if ok then tcp.state == old(tcp.state) && tcp.aborted == old(tcp.aborted) else bridge.broken && Aborted()
      ensures bridge.read == old(bridge.read) && old(bridge.written) <= bridge.written
      ensures activity == if bridge.written == old(bridge.written) then old(activity) else now
      ensures ok ==> writeClosed || tcp.rx == [] || bridge.writeBlocked || rounds == 64
      ensures |old(bridge.written)| + rounds <= |bridge.written|
      ensures bridge.shut == old(bridge.shut)
    {
      rounds := 0;
      ghost var start := bridge.written;
      for i := 0 to ROUNDS
        invariant Valid() && tcp.state == old(tcp.state) && tcp.aborted == old(tcp.aborted) && rounds == i
        invariant bridge.read == old(bridge.read) && bridge.shut == old(bridge.shut)
        invariant |start| + rounds <= |bridge.written| && bridge.written[..|start|] == start
        invariant activity == if |bridge.written| == |start| then old(activity) else now
      {
        if !socket.CanRecv() || writeClosed {
          return true, rounds;
        }
        var round := DeliverOnce(socket, now);
        if round != Moved {
          return round != Broken, rounds;
        }
        rounds := rounds + 1;
      }
      return true, rounds;
    }

    /** Lines 637 to 646: once nothing more can arrive, tell the client so. */
    method SignalEnd(socket: TcpSocket) returns (ok: bool)
      requires Valid() && reply.None? && socket == tcp
      modifies this`writeClosed, bridge, tcp`state, tcp`aborted
      ensures Valid()
      ensures if ok then tcp.state == old(tcp.state) && tcp.aborted == old(tcp.aborted) else bridge.broken && Aborted()
      ensures bridge.read == old(bridge.read) && bridge.written == old(bridge.written)
      ensures old(writeClosed) ==> writeClosed
      ensures writeClosed && !old(writeClosed) ==> !old(tcp.MayRecv()) && bridge.written == tcp.received
      ensures ok && !writeClosed ==> tcp.MayRecv() || bridge.shutBlocked
      ensures bridge.writeBlocked == old(bridge.writeBlocked)
    {
      if socket.MayRecv() || writeClosed {
        return true;
      }
      var r := bridge.PollShutdown();
      match r {
        case Wrote(_) => writeClosed := true;
        case WriteFailed =>
          socket.Abort();
          return false;
        case WritePending =>
      }
      return true;
    }

    /** One round of the loop of lines 647 to 675. */
    method CollectOnce(socket: TcpSocket, now: nat) returns (round: Round)
      requires Valid() && reply.None? && socket == tcp && socket.CanSend() && !readClosed
      modifies this`activity, this`readClosed, bridge, tcp`tx, tcp`enqueued, tcp`state, tcp`closing, tcp`aborted
      ensures Valid()
      ensures bridge.written == old(bridge.written)
      ensures round == Moved ==> |bridge.read| > |old(bridge.read)| && activity == now
      ensures round == Moved ==> bridge.read[..|old(bridge.read)|] == old(bridge.read)
      ensures round != Moved ==> bridge.read == old(bridge.read) && activity == old(activity)
      ensures round == Blocked ==> bridge.readBlocked
      ensures round == Ended ==> bridge.eof && tcp.enqueued == bridge.clientWrote
      ensures round == Ended ==> (Receiving(old(tcp.state)) ==> Receiving(tcp.state))
      ensures round == Moved || round == Blocked ==> tcp.state == old(tcp.state)
      ensures round == Ended ==> (tcp.state.Closed? ==> old(tcp.state).Closed?)
      ensures if round == Broken then bridge.broken && Aborted() else tcp.aborted == old(tcp.aborted)
      ensures readClosed <==> round == Ended
      ensures bridge.writeBlocked == old(bridge.writeBlocked) && bridge.shutBlocked == old(bridge.shutBlocked)
    {
      var n := socket.Window();
      var r := bridge.PollRead(n);
      match r {
        case Read(bytes) =>
          if bytes == [] {
            readClosed := true;
            socket.Close();
            return Ended;
          }
          socket.Enqueue(bytes);
          activity := now;
          return Moved;
        case ReadFailed =>
          socket.Abort();
          return Broken;
        case ReadPending =>
          return Blocked;
      }
    }

    /** Lines 647 to 675: pipe to socket. */
    method Collect(socket: TcpSocket, now: nat) returns (ok: bool, ghost rounds: nat)
      requires Valid() && reply.None? && socket == tcp
      modifies this`activity, this`readClosed, bridge, tcp`tx, tcp`enqueued, tcp`state, tcp`closing, tcp`aborted
      ensures Valid()
      ensures bridge.written == old(bridge.written) && old(bridge.read) <= bridge.read
      ensures activity == if bridge.read == old(bridge.read) then old(activity) else now
      ensures old(readClosed) ==> readClosed && bridge.read == old(bridge.read)
      ensures readClosed && !old(readClosed) ==> bridge.eof && tcp.enqueued == bridge.clientWrote
      ensures ok ==> readClosed || !tcp.CanSend() || bridge.readBlocked || rounds == 64
      ensures |old(bridge.read)| + rounds <= |bridge.read|
      ensures ok && Receiving(old(tcp.state)) ==> Receiving(tcp.state)
      ensures ok ==> (tcp.state.Closed? ==> old(tcp.state).Closed?)
      ensures if ok then tcp.aborted == old(tcp.aborted) else bridge.broken && Aborted()
      ensures bridge.writeBlocked == old(bridge.writeBlocked) && bridge.shutBlocked == old(bridge.shutBlocked)
    {
      rounds := 0;
      ghost var start := bridge.read;
      for i := 0 to ROUNDS
        invariant Valid() && reply.None? && rounds == i
        invariant tcp.state == old(tcp.state) && tcp.aborted == old(tcp.aborted)
        invariant readClosed == old(readClosed)
        invariant bridge.written == old(bridge.written)
        invariant |start| + rounds <= |bridge.read| && bridge.read[..|start|] == start
        invariant readClosed ==> bridge.read == start
        invariant activity == if |bridge.read| == |start| then old(activity) else now
        invariant bridge.writeBlocked == old(bridge.writeBlocked) && bridge.shutBlocked == old(bridge.shutBlocked)
      {
        if !socket.CanSend() || readClosed {
          return true, rounds;
        }
        var round := CollectOnce(socket, now);
        if round != Moved {
          return round != Broken, rounds;
        }
        rounds := rounds + 1;
      }
      return true, rounds;
    }

    /** Lines 615 to 676: both directions, once the flow is open. */
    method Pump(socket: TcpSocket, now: nat) returns (keep: bool, ghost delivered: nat, ghost collected: nat)
      requires Valid() && reply.None? && socket == tcp
      modifies this`activity, this`readClosed, this`writeClosed, bridge, tcp
      ensures Valid() && (keep <==> !tcp.state.Closed?)
      ensures if keep then tcp.aborted == old(tcp.aborted)
              else bridge.broken || tcp.aborted == old(tcp.aborted)
      ensures old(bridge.written) <= bridge.written && old(bridge.read) <= bridge.read
      ensures old(writeClosed) ==> writeClosed && bridge.written == old(bridge.written)
      ensures old(readClosed) ==> readClosed && bridge.read == old(bridge.read)
      ensures writeClosed && !old(writeClosed) ==> bridge.written == tcp.received
      ensures readClosed && !old(readClosed) ==> bridge.eof && tcp.enqueued == bridge.clientWrote
      ensures keep && !writeClosed ==> tcp.rx == [] || bridge.writeBlocked || delivered == 64
      ensures keep ==> Pumped(old(Now()))
      ensures keep && !writeClosed && tcp.rx == [] && !bridge.shutBlocked ==> Receiving(old(tcp.state))
      ensures keep && !readClosed ==> !tcp.CanSend() || bridge.readBlocked || collected == 64
      ensures keep ==>
        activity == if bridge.written != old(bridge.written) || bridge.read != old(bridge.read)
                    then now else old(activity)
    {
      var ok;
      collected := 0;
      ok, delivered := Deliver(socket, now);
      if !ok {
        return false, delivered, collected;
      }
      ok := SignalEnd(socket);
      if !ok {
        return false, delivered, collected;
      }
      ok, collected := Collect(socket, now);
      keep := ok && socket.state != Closed;
    }

    /** One poll. The flow is kept exactly while the answer is `true`. */
    method Poll(socket: TcpSocket, ledger: Ledger, now: nat, idleTimeout: nat)
      returns (keep: bool, ghost delivered: nat, ghost collected: nat)
      requires Valid() && socket == tcp && !tcp.aborted
      requires ledger.Sound() && (reply.Some? ==> request !in ledger.settled)
      modifies this, bridge, tcp, ledger
      ensures Streams() && (keep ==> Valid()) && polls == old(polls) + 1 && ledger.Sound()
      // The reply.
      ensures old(reply).None? ==>
        reply.None? && ledger.settled == old(ledger.settled) && ledger.seen == old(ledger.seen)
      ensures keep && reply.Some? ==>
        && now < deadline && !old(tcp.state).Established? && !old(tcp.state).Closed?
        && ledger.settled == old(ledger.settled) && ledger.seen == old(ledger.seen)
      ensures old(reply).Some? && reply.None? && keep ==>
        && now < deadline && old(tcp.state).Established?
        && ledger.settled == old(ledger.settled)[request := Answered(Connected(local))]
        && ledger.seen == old(ledger.seen)[request := Sighting(tcp, Established, now)]
      ensures old(ledger.gone) <= ledger.gone <= old(ledger.gone) + {request}
      ensures old(ledger.present) <= ledger.present
      ensures old(reply).Some? && keep ==> request in ledger.present && request !in ledger.gone
      ensures old(reply).Some? && request in old(ledger.gone) ==> !keep && ledger.settled == old(ledger.settled)
      ensures old(reply).None? ==> ledger.gone == old(ledger.gone)
      ensures old(reply).Some? && !keep ==> EndedWith(ledger, old(tcp.state), now)
      // The streams.
      ensures old(bridge.written) <= bridge.written && old(bridge.read) <= bridge.read
      ensures reply.Some? ==> bridge.Untouched()
      ensures old(writeClosed) ==> writeClosed && bridge.written == old(bridge.written)
      ensures old(readClosed) ==> readClosed && bridge.read == old(bridge.read)
      ensures writeClosed && !old(writeClosed) ==> bridge.written == tcp.received
      ensures readClosed && !old(readClosed) ==> bridge.eof && tcp.enqueued == bridge.clientWrote
      // Why a flow is not kept.
      ensures keep <==> !tcp.state.Closed?
      ensures keep ==> !tcp.aborted
      ensures !keep ==> Excused(old(Now()), ledger.gone, now, idleTimeout)
      // Each direction goes as far as it can, whatever state the other one is in.
      ensures keep ==> Pumped(old(Now()))
      ensures keep && reply.None? && !writeClosed ==>
        tcp.rx == [] || bridge.writeBlocked || delivered == 64
      ensures keep && reply.None? && !writeClosed && tcp.rx == [] && !bridge.shutBlocked ==> Receiving(old(tcp.state))
      ensures keep && reply.None? && !readClosed ==>
        !tcp.CanSend() || bridge.readBlocked || collected == 64
      // The idle timeout.
      ensures keep && reply.None? ==>
        activity == if old(reply).Some? || bridge.written != old(bridge.written) || bridge.read != old(bridge.read)
                    then now else old(activity)
      ensures keep && reply.None? && idleTimeout > 0 ==> now < activity + idleTimeout
    {
      delivered, collected := 0, 0;
      polls := polls + 1;
      var phase := Answer(socket, ledger, now);
      if phase != Open {
        return phase == Waiting, delivered, collected;
      }
      if idleTimeout != 0 && Since(now, activity) >= idleTimeout {
        socket.Abort();
        return false, delivered, collected;
      }
      keep, delivered, collected := Pump(socket, now);
    }

    /** End to end, in every state: what the client has read is the beginning of what the peer
        sent, what the peer's side was given is the beginning of what the client wrote, and each
        end-of-stream comes after everything. */
    lemma EndToEnd()
      requires Streams()
      ensures bridge.taken <= tcp.received && tcp.enqueued <= bridge.clientWrote
      ensures writeClosed ==> bridge.taken + bridge.outward == tcp.received
      ensures readClosed ==> tcp.enqueued == bridge.clientWrote
    {
      assert bridge.taken + (bridge.outward + tcp.rx) == tcp.received;
    }
  }
}
