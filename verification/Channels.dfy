/** The queues between the callbacks and the stack worker, and the tunnel's end of them. Line
    numbers refer to src/netstack.rs. */
module ChannelsModel {
  import opened Wrappers
  import opened Net
  import opened Oneshot
  import P = Protocol

  /** The two queues, and the protocol state they are part of. `history` is the run so far. */
  class Channels {
    var commands: seq<P.Command>
    var packets: seq<P.Tagged>
    var open: bool                        // the worker's ends exist
    ghost var view: P.State
    ghost var history: seq<P.Event>

    ghost predicate Valid()
      reads this
    {
      && P.IsRun(P.INIT, history, view)
      && view.commands == commands && view.packets == packets && view.running == open
    }

    constructor ()
      ensures Valid() && view == P.INIT && history == []
    {
      commands, packets, open, view, history := [], [], true, P.INIT, [];
    }

    /** The protocol takes a step. */
    ghost method Happens(e: P.Event)
      requires P.IsRun(P.INIT, history, view) && P.Enabled(view, e)
      modifies `view, `history
      ensures view == P.Next(old(view), e) && history == old(history) + [e]
      ensures P.IsRun(P.INIT, history, view)
    {
      P.RunAppend(P.INIT, history, view, e);
      view, history := P.Next(view, e), history + [e];
    }

    /** The first command leaves its queue. */
    method Receive(ghost verdict: Option<Outcome>) returns (command: P.Command)
      requires Valid() && P.Enabled(view, P.Take(verdict)) && !commands[0].Shutdown?
      modifies this
      ensures Valid() && command == old(commands[0])
      ensures view == P.Next(old(view), P.Take(verdict)) && history == old(history) + [P.Take(verdict)]
    {
      command, commands := commands[0], commands[1..];
      Happens(P.Take(verdict));
    }

    /** The worker's ends are destroyed, and what is still queued with them. */
    method Close()
      requires Valid() && P.Enabled(view, P.Take(None)) && commands[0].Shutdown?
      modifies this
      ensures Valid() && commands == [] && !open
      ensures view == P.Next(old(view), P.Take(None)) && history == old(history) + [P.Take(None)]
    {
      commands, open := [], false;
      Happens(P.Take(None));
    }

    /** The first packets leave theirs. */
    method ReceivePackets(count: nat, ghost e: P.Event) returns (batch: seq<P.Tagged>)
      requires Valid() && P.Enabled(view, e) && count <= |packets|
      requires e == P.Drain(count) || (e == P.TakePacket && count == 1)
      modifies this
      ensures Valid() && batch == old(packets)[..count]
      ensures view == P.Next(old(view), e) && history == old(history) + [e]
    {
      batch, packets := packets[..count], packets[count..];
      Happens(e);
    }

    // ---- The tunnel's end ----

    /** Put a command into the queue; this fails once the worker has gone. */
    method Submit(command: P.Command, ghost e: P.Event) returns (sent: bool)
      requires Valid() && P.Enabled(view, e) && !P.IsWorker(e)
      requires P.Next(view, e).commands == P.Push(view, command).commands
      modifies `commands, `view, `history
      ensures Valid() && sent == open
      ensures view == P.Next(old(view), e) && history == old(history) + [e]
    {
      sent := open;
      if open {
        commands := commands + [command];
      }
      Happens(e);
    }

    /** `Tunnel::receive`, lines 136 to 138, for a packet of the tunnel `session`: `true` exactly if
        the packet is now in the queue. */
    method Receives(generation: nat, session: P.Session, bytes: seq<u8>) returns (accepted: bool)
      requires Valid() && view.io == Some(session) && generation == view.generation
      modifies `packets, `view, `history
      ensures Valid()
      ensures accepted <==> |bytes| <= 65535 && |old(packets)| < 1024 && open
      ensures view == P.Next(old(view), P.Send(bytes)) && history == old(history) + [P.Send(bytes)]
    {
      accepted := |bytes| <= P.MAX_PACKET && |packets| < P.MAX_PACKETS && open;
      if accepted {
        packets := packets + [P.Tagged(generation, P.Packet(session, bytes))];
      }
      Happens(P.Send(bytes));
    }

    /** `Tunnel::connect`, lines 140 to 150, up to the wait for the answer. If the worker has
        gone the sender goes nowhere. */
    method Request(target: Target, port: u16, reply: RequestId, ledger: Ledger) returns (sent: bool)
      requires Valid() && reply !in view.requested && reply !in ledger.settled && ledger.Sound()
      modifies `commands, `view, `history, ledger`settled
      ensures Valid() && sent == open && ledger.Sound()
      ensures view == P.Next(old(view), P.Request(target, port, reply))
      ensures history == old(history) + [P.Request(target, port, reply)]
      ensures commands == old(commands) + if open then [P.Connect(target, port, reply)] else []
      ensures ledger.settled == if sent then old(ledger.settled) else old(ledger.settled)[reply := Dropped]
    {
      sent := Submit(P.Connect(target, port, reply), P.Request(target, port, reply));
      if !sent {
        ledger.DropAll({reply});
        assert ledger.settled == old(ledger.settled)[reply := Dropped];
      }
    }
  }
}
