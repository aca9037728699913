/** The stack worker's loop, statement by statement a run of the protocol. Line numbers refer to
    src/netstack.rs. */
module WorkerModel {
  import opened Wrappers
  import opened Net
  import opened Ports
  import opened SettingsModel
  import opened Oneshot
  import opened Tables
  import opened FlowModel
  import opened EngineModel
  import opened ChannelsModel
  import P = Protocol

  class Worker {
    const channels: Channels
    const clock: Clock
    const ledger: Ledger
    const connectTimeout: nat
    const idleTimeout: nat
    const maxConnections: nat
    var engine: Engine?
    var generation: nat
    ghost var session: P.Session
    ghost var birth: nat
    ghost var delivered: seq<P.Packet>

    ghost function Core(): set<object>
      reads this
    {
      if engine == null then {} else {engine, engine.resolver, engine.iface}
    }

    ghost function Footprint(): set<object>
      reads this, engine
    {
      if engine == null then {}
      else Core() + Members(engine.flows) + Bridges(engine.flows) + TcpSockets(engine.flows)
    }

    ghost function StackView(): Option<P.Stack>
      reads this, engine
    {
      if engine == null then None
      else Some(P.Stack(generation, session, engine.settings, birth, delivered, engine.Parked()))
    }

    /** The engine holds together, shares this worker's ledger and clock, and still has all the
        packets it was given but those its stack has used up. */
    ghost predicate EngineOk()
      reads this, engine, ledger, clock, Footprint()
    {
      && ledger.Sound()
      && (engine != null ==>
        && engine.ledger == ledger && engine.clock == clock && engine.Valid()
        && engine.connectTimeout == connectTimeout && engine.idleTimeout == idleTimeout
        && engine.maxConnections == maxConnections
        && engine.eaten <= |delivered| && engine.incoming == delivered[engine.eaten..])
    }

    /** The worker's part of the protocol state is what the worker really has. */
    ghost predicate Mirrors(view: P.State)
      reads this, engine, ledger
    {
      view.stack == StackView() && view.settled == ledger.settled
    }

    ghost predicate Valid()
      reads this, channels, engine, ledger, clock, Footprint()
    {
      channels.Valid() && Mirrors(channels.view) && EngineOk() && maxConnections <= COUNT
    }

    constructor (channels: Channels, connectTimeout: nat, idleTimeout: nat, maxConnections: nat)
      requires channels.Valid() && channels.view == P.INIT && maxConnections <= COUNT
      ensures Valid() && this.channels == channels && channels.open && engine == null
    {
      this.channels := channels;
      this.clock := new Clock();
      this.ledger := new Ledger();
      this.connectTimeout, this.idleTimeout, this.maxConnections := connectTimeout, idleTimeout, maxConnections;
      this.engine, this.generation := null, 0;
      this.session, this.birth, this.delivered := 0, 0, [];
    }

    /** Nothing old has become part of the engine. */
    twostate predicate OnlyNew()
      reads this, engine
    {
      forall o | o in Footprint() :: o in old(Footprint()) || fresh(o)
    }

    twostate predicate NewEngineOnly()
      reads this, engine
    {
      engine != null && fresh(engine) && fresh(engine.resolver) && fresh(engine.iface) && engine.flows == []
    }

    twostate lemma IsNew()
      requires NewEngineOnly()
      ensures OnlyNew()
    {
    }

    /** The worker, its engine and all that is made of is untouched. */
    twostate predicate Untouched()
      reads this, clock, engine, Footprint()
    {
      && unchanged(this) && unchanged(clock)
      && (engine != null ==> unchanged(engine) && unchanged(engine.resolver) && unchanged(engine.iface))
      && (engine != null ==> forall f | f in engine.flows :: unchanged(f) && unchanged(f.bridge) && unchanged(f.tcp))
    }

    twostate lemma SameEngine()
      requires old(EngineOk()) && Untouched() && unchanged(ledger)
      ensures EngineOk()
    {
      if engine != null {
        engine.KeepFlows();
      }
    }

    /** The engine, if any, goes out of scope. */
    method DropEngine()
      requires EngineOk()
      modifies `engine, ledger`settled
      ensures engine == null && EngineOk()
      ensures ledger.settled == P.DropAll(old(ledger.settled), P.ParkedIn(old(StackView())))
    {
      if engine != null {
        engine.Discard();
        engine := null;
      }
    }

    method NewEngine(settings: Settings) returns (made: Engine)
      requires maxConnections <= COUNT && ledger.Sound()
      ensures fresh(made) && fresh(made.resolver) && fresh(made.iface) && made.Valid()
      ensures made.ledger == ledger && made.clock == clock && made.settings == settings
      ensures 49152 <= made.nextPort < 65535
      ensures made.connectTimeout == connectTimeout && made.idleTimeout == idleTimeout
      ensures made.maxConnections == maxConnections
      ensures made.flows == [] && made.incoming == [] && made.eaten == 0 && made.Parked() == {}
    {
      var dns: nat := *;
      var firstPort: Port :| FIRST <= firstPort < LAST;
      made := new Engine(settings, connectTimeout, idleTimeout, maxConnections, clock, ledger, dns, firstPort);
    }

    /** Lines 183 to 186: a new engine takes the place of any old one. */
    method GoOnline(generation: nat, ghost session: P.Session, settings: Settings, ghost birth: nat)
      requires EngineOk() && maxConnections <= COUNT
      modifies `engine, `generation, `session, `birth, `delivered, ledger`settled
      ensures EngineOk() && StackView() == Some(P.Stack(generation, session, settings, birth, [], {}))
      ensures unchanged(channels) && NewEngineOnly()
      ensures ledger.settled == P.DropAll(old(ledger.settled), P.ParkedIn(old(StackView())))
    {
      DropEngine();
      this.generation, this.session, this.birth, this.delivered := generation, session, birth, [];
      engine := NewEngine(settings);
    }

    /** Nothing that an engine has which is still there has gone: no flow, and no packet. */
    twostate predicate Keeps()
      reads this, engine
    {
      && KeepsDevice()
      && (engine != null && engine == old(engine) ==> forall f | f in old(engine.flows) :: f in engine.flows)
    }

    twostate predicate KeepsDevice()
      reads this, engine
    {
      engine != null && engine == old(engine) ==>
        engine.eaten == old(engine.eaten) && old(delivered) <= delivered
    }

    /** Of an engine that is still there only packets may have gone, used up in their order. */
    twostate predicate Consumes()
      reads this, engine
    {
      engine != null ==> engine == old(engine) && delivered == old(delivered) && engine.Ate()
    }

    /** Line 191, with an engine there. */
    method AskEngine(target: Target, port: u16, reply: RequestId) returns (ghost verdict: Option<Outcome>)
      requires EngineOk() && engine != null && reply !in ledger.settled && reply !in engine.Parked()
      modifies ledger, clock, Core()
      ensures EngineOk() && unchanged(this) && unchanged(channels) && OnlyNew() && Keeps()
      ensures engine.Received(target, port, reply)
      ensures verdict.Some? ==> !IsConnected(verdict.value)
      ensures verdict.None? ==>
        && ledger.settled == old(ledger.settled)
        && engine.Parked() == old(engine.Parked()) + {reply}
      ensures verdict.Some? ==>
        ledger.settled == old(ledger.settled)[reply := verdict.value] && engine.Parked() == old(engine.Parked())
    {
      engine.ParkedMeans();
      assert Spot(reply, engine.lookups, engine.flows, engine.waiting, ledger.settled, engine.asked, {});
      ghost var ls, w, parked := engine.lookups, engine.waiting, engine.Parked();
      engine.Connect(target, port, reply);
      FlowsAdded();
      engine.ParkedMeans();
      verdict := None;
      if reply in ledger.settled {
        verdict := Some(ledger.settled[reply]);
      } else {
        OneMoreParked(ls, w, parked, engine.lookups, engine.waiting, engine.Parked(), reply);
      }
    }

    twostate lemma FlowsAdded()
      requires engine != null && engine == old(engine) && engine.FlowsOnlyAdded() && KeepsDevice()
      ensures OnlyNew() && Keeps()
    {
      forall f | f in old(engine.flows) ensures f in engine.flows {
        assert f in engine.flows[..|old(engine.flows)|];
      }
    }

    static lemma OneMoreParked(ls: seq<Lookup>, w: set<RequestId>, parked: set<RequestId>,
                               ls': seq<Lookup>, w': set<RequestId>, parked': set<RequestId>, reply: RequestId)
      requires forall id :: id in parked <==> IsParked(id, ls, w)
      requires forall id :: id in parked' <==> IsParked(id, ls', w')
      requires forall id | id != reply :: IsParked(id, ls', w') <==> IsParked(id, ls, w)
      requires IsParked(reply, ls', w')
      ensures parked' == parked + {reply}
    {
    }

    /** Lines 190 to 193. */
    method TakeRequest(target: Target, port: u16, reply: RequestId) returns (ghost verdict: Option<Outcome>)
      requires EngineOk() && reply !in ledger.settled && (engine != null ==> reply !in engine.Parked())
      modifies ledger, clock, Core()
      ensures EngineOk() && unchanged(this) && unchanged(channels) && OnlyNew() && Keeps()
      ensures engine != null ==> engine.Received(target, port, reply)
      ensures engine == null ==> ledger.settled == old(ledger.settled)[reply := Answered(Failed(NotConnected))]
      ensures verdict.Some? ==> !IsConnected(verdict.value)
      ensures engine != null && verdict.None? ==>
        && ledger.settled == old(ledger.settled)
        && StackView() == Some(old(StackView()).value.(parked := old(engine.Parked()) + {reply}))
      ensures engine != null && verdict.Some? ==>
        ledger.settled == old(ledger.settled)[reply := verdict.value] && StackView() == old(StackView())
    {
      if engine == null {
        ledger.Fail(reply, NotConnected);
        return None;
      }
      verdict := AskEngine(target, port, reply);
    }

    /** What a run guarantees about the requests. */
    lemma RunFacts()
      requires P.IsRun(P.INIT, channels.history, channels.view)
      ensures P.Conserved(channels.view)
    {
      P.RequestConservation(channels.history, channels.view);
    }

    lemma HeadRequest(cs: seq<P.Command>, view: P.State)
      requires P.Conserved(view) && view.commands == cs && cs != [] && cs[0].Connect?
      ensures cs[0].reply !in view.settled && cs[0].reply !in P.ParkedIn(view.stack)
    {
      var id := cs[0].reply;
      assert P.OnePlace(id, view.commands, P.ParkedIn(view.stack), view.settled, view.requested);
      assert cs == [cs[0]] + cs[1..];
      P.CountTail(id, cs[0], cs[1..]);
    }

    /** Line 194: the engine goes, and the senders of the requests still queued. */
    method Finish(ghost queued: set<RequestId>, ghost next: P.State)
      requires EngineOk() && next.stack.None?
      requires next.settled == P.DropAll(P.DropAll(ledger.settled, P.ParkedIn(StackView())), queued)
      requires forall id | id in queued :: id !in ledger.settled && id !in P.ParkedIn(StackView())
      modifies `engine, ledger`settled
      ensures EngineOk() && engine == null && Mirrors(next)
    {
      DropEngine();
      ledger.DropAll(queued);
    }

    lemma QueuedElsewhere(view: P.State)
      requires P.Conserved(view) && view.commands != []
      ensures forall id | id in P.QueuedIds(view.commands[1..]) ::
        id !in view.settled && id !in P.ParkedIn(view.stack)
    {
      forall id | id in P.QueuedIds(view.commands[1..])
        ensures id !in view.settled && id !in P.ParkedIn(view.stack)
      {
        assert P.OnePlace(id, view.commands, P.ParkedIn(view.stack), view.settled, view.requested);
        assert view.commands == [view.commands[0]] + view.commands[1..];
        P.CountTail(id, view.commands[0], view.commands[1..]);
        P.CountQueued(id, view.commands[1..]);
      }
    }

    /** The worker is about to take a command of its queue. */
    ghost predicate Taking()
      reads this, channels, engine, ledger, clock, Footprint()
    {
      Valid() && channels.open && channels.view.phase.Selecting? && channels.commands != []
    }

    /** The engine the command asks for, where the protocol state is to be `next`. */
    method Renew(command: P.Command, ghost birth: nat, ghost next: P.State)
      requires EngineOk() && maxConnections <= COUNT && command.Online?
      requires next.stack == Some(P.Stack(command.generation, command.session, command.settings, birth, [], {}))
      requires next.settled == P.DropAll(ledger.settled, P.ParkedIn(StackView()))
      modifies `engine, `generation, `session, `birth, `delivered, ledger`settled
      ensures EngineOk() && NewEngineOnly() && unchanged(channels) && Mirrors(next)
    {
      GoOnline(command.generation, command.session, command.settings, birth);
    }

    /** Lines 183 to 186. */
    method TakeOnline()
      requires Taking() && channels.commands[0].Online?
      modifies this, channels, ledger`settled
      ensures NewEngineOnly() && Valid() && channels.history == old(channels.history) + [P.Take(None)]
      ensures channels.view == P.Next(old(channels.view), P.Take(None))
    {
      var command := channels.Receive(None);
      SameEngine();
      Renew(command, P.Consumed(old(channels.view)), channels.view);
    }

    /** Lines 187 to 189: an older generation's `Offline` comes too late to matter. */
    method TakeOffline()
      requires Taking() && channels.commands[0].Offline?
      modifies this, channels, ledger`settled
      ensures OnlyNew() && Keeps() && Valid() && channels.history == old(channels.history) + [P.Take(None)]
      ensures channels.view == P.Next(old(channels.view), P.Take(None))
    {
      var command := channels.Receive(None);
      SameEngine();
      if engine != null && generation == command.generation {
        DropEngine();
      }
    }

    /** The request at the head of the queue gets its verdict. */
    method ServeHead() returns (ghost verdict: Option<Outcome>)
      requires Taking() && channels.commands[0].Connect?
      modifies ledger, clock, Core()
      ensures EngineOk() && unchanged(this) && unchanged(channels) && OnlyNew() && Keeps()
      ensures var c := channels.commands[0]; engine != null ==> engine.Received(c.target, c.port, c.reply)
      ensures Mirrors(P.Next(channels.view, P.Take(verdict)))
      ensures verdict.Some? ==> !IsConnected(verdict.value)
    {
      var command := channels.commands[0];
      RunFacts();
      HeadRequest(channels.commands, channels.view);
      verdict := TakeRequest(command.target, command.port, command.reply);
      P.ConnectTaken(channels.view, verdict);
    }

    /** If a request was at the head of the queue, the engine has received it, as it was made. */
    twostate predicate RequestReceived()
      requires old(channels.commands) != []
      reads this, engine, Core(), if engine == null then {} else {engine.ledger, engine.clock}
    {
      var c := old(channels.commands)[0];
      c.Connect? && engine != null ==> engine == old(engine) && engine.Received(c.target, c.port, c.reply)
    }

    /** Lines 190 to 193. */
    method TakeConnect() returns (ghost verdict: Option<Outcome>)
      requires Taking() && channels.commands[0].Connect?
      modifies channels, ledger, clock, Core()
      ensures OnlyNew() && Valid() && channels.history == old(channels.history) + [P.Take(verdict)]
      ensures channels.view == P.Next(old(channels.view), P.Take(verdict))
      ensures Keeps() && RequestReceived() && (verdict.Some? ==> !IsConnected(verdict.value))
    {
      verdict := ServeHead();
      label served:
      var taken := channels.Receive(verdict);
      SameEngine@served();
    }

    /** Line 194. */
    method TakeShutdown()
      requires Taking() && channels.commands[0].Shutdown?
      modifies this, channels, ledger`settled
      ensures OnlyNew() && Valid() && !channels.open && channels.history == old(channels.history) + [P.Take(None)]
      ensures channels.view == P.Next(old(channels.view), P.Take(None))
    {
      RunFacts();
      QueuedElsewhere(channels.view);
      ghost var queued := P.QueuedIds(channels.commands[1..]);
      channels.Close();
      SameEngine();
      Finish(queued, channels.view);
    }

    /** Lines 182 to 195: one command is taken from its queue. */
    method TakeCommand() returns (ghost verdict: Option<Outcome>)
      requires Taking()
      modifies this, channels, ledger, clock, Core()
      ensures OnlyNew() && Valid() && channels.history == old(channels.history) + [P.Take(verdict)]
      ensures channels.view == P.Next(old(channels.view), P.Take(verdict))
      ensures Keeps() && RequestReceived()
    {
      verdict := None;
      match channels.commands[0] {
        case Online(_, _, _) =>
          TakeOnline();
          IsNew();
        case Offline(_) => TakeOffline();
        case Connect(_, _, _) => verdict := TakeConnect();
        case Shutdown => TakeShutdown();
      }
    }

    /** Line 200, and line 208: a packet of the engine's own generation goes to its device. */
    method Offer(packet: P.Tagged)
      requires EngineOk() && engine != null
      modifies `delivered, engine`incoming
      ensures EngineOk()
      ensures delivered == old(delivered) + if packet.generation == generation then [packet.packet] else []
      ensures engine.incoming == old(engine.incoming) + if packet.generation == generation then [packet.packet] else []
      ensures StackView() == Some(old(StackView()).value.(delivered := delivered))
    {
      if packet.generation == generation {
        engine.Push(packet.packet);
        delivered := delivered + [packet.packet];
      }
    }

    /** Lines 196 to 201: one packet is taken from the other queue. */
    method TakePacket()
      requires Valid() && channels.open && channels.view.phase.Selecting? && channels.packets != []
      modifies `delivered, channels, Core()
      ensures OnlyNew() && Keeps() && Valid()
      ensures channels.history == old(channels.history) + [P.TakePacket]
      ensures channels.view == P.Next(old(channels.view), P.TakePacket)
      ensures var t := old(channels.packets)[0];
        engine != null ==>
          engine.incoming == old(engine.incoming) + if t.generation == generation then [t.packet] else []
    {
      var batch := channels.ReceivePackets(1, P.TakePacket);
      SameEngine();
      if engine != null {
        MatchingOne(batch[0], generation);
        Offer(batch[0]);
      }
    }

    lemma MatchingOne(packet: P.Tagged, g: nat)
      ensures P.Matching([packet], g) == if packet.generation == g then [packet.packet] else []
    {
      assert [packet][..0] == [];
    }

    /** Lines 206 to 210: up to 256 more packets go the same way. */
    method Drain() returns (count: nat)
      requires Valid() && channels.open && channels.view.phase.Draining?
      modifies `delivered, channels, Core()
      ensures OnlyNew() && Keeps() && Valid()
      ensures channels.history == old(channels.history) + [P.Drain(count)]
      ensures P.Enabled(old(channels.view), P.Drain(count))
      ensures engine != null ==>
        && count == (if |old(channels.packets)| < 256 then |old(channels.packets)| else 256)
        && engine.incoming == old(engine.incoming) + P.Matching(old(channels.packets)[..count], generation)
      ensures channels.view == P.Next(old(channels.view), P.Drain(count))
    {
      count := if engine == null then 0 else if |channels.packets| < P.BATCH then |channels.packets| else P.BATCH;
      var batch := channels.ReceivePackets(count, P.Drain(count));
      SameEngine();
      if engine != null {
        OfferAll(batch);
      }
    }

    method OfferAll(batch: seq<P.Tagged>)
      requires EngineOk() && engine != null
      modifies `delivered, engine`incoming
      ensures EngineOk() && engine == old(engine)
      ensures StackView() ==
        Some(old(StackView()).value.(delivered := old(delivered) + P.Matching(batch, generation)))
      ensures engine.incoming == old(engine.incoming) + P.Matching(batch, generation)
    {
      for i := 0 to |batch|
        invariant engine.incoming == old(engine.incoming) + P.Matching(batch[..i], generation)
        invariant EngineOk() && delivered == old(delivered) + P.Matching(batch[..i], generation)
        invariant StackView() == Some(old(StackView()).value.(delivered := delivered))
      {
        assert batch[..i + 1][..i] == batch[..i];
        Offer(batch[i]);
      }
      assert batch[..|batch|] == batch;
    }

    /** What is parked in the engine, and that none of it is settled. */
    lemma ParkedHere()
      requires EngineOk() && engine != null
      ensures forall id :: id in engine.Parked() <==> IsParked(id, engine.lookups, engine.waiting)
      ensures forall id | id in engine.Parked() :: id !in ledger.settled
    {
      engine.ParkedMeans();
      forall id | id in engine.Parked() ensures id !in ledger.settled {
        assert Spot(id, engine.lookups, engine.flows, engine.waiting, ledger.settled, engine.asked, {});
      }
    }

    method Advance() returns (now: nat)
      requires EngineOk() && engine != null
      modifies ledger, clock, Footprint()
      ensures OnlyNew() && EngineOk() && unchanged(this) && unchanged(channels)
      ensures old(clock.time) <= now <= clock.time && engine.Tended(old(engine.flows), old(engine.Snapshots()), now)
      ensures engine.Ate()
      ensures Progress(old(engine.lookups), old(engine.waiting), old(ledger.settled),
                       engine.lookups, engine.waiting, ledger.settled)
    {
      now := CallStep();
      StillOk();
    }

    twostate lemma StillOk()
      requires old(EngineOk()) && engine != null && unchanged(this) && engine.Valid()
      requires engine.Ate()
      ensures EngineOk()
    {
    }

    /** The call itself. */
    method CallStep() returns (now: nat)
      requires EngineOk() && engine != null
      modifies ledger, clock, Footprint()
      ensures unchanged(this) && unchanged(channels)
      ensures engine.Ate()
      ensures old(clock.time) <= now <= clock.time && engine.Tended(old(engine.flows), old(engine.Snapshots()), now)
      ensures Progress(old(engine.lookups), old(engine.waiting), old(ledger.settled),
                       engine.lookups, engine.waiting, ledger.settled)
      ensures engine.Valid() && OnlyNew()
    {
      now := engine.Step();
      PartsAreNew();
    }

    twostate lemma PartsAreNew()
      requires engine != null && engine == old(engine) && engine.PartsOnlyNew()
      ensures OnlyNew()
    {
    }

    /** Line 211. What was parked in the engine is parked there still, or settled. */
    method RunEngine() returns (now: nat, ghost outcomes: map<RequestId, Outcome>)
      requires EngineOk() && engine != null
      modifies ledger, clock, Footprint()
      ensures OnlyNew() && EngineOk() && unchanged(this) && unchanged(channels)
      ensures old(clock.time) <= now <= clock.time && engine.Tended(old(engine.flows), old(engine.Snapshots()), now)
      ensures engine.Ate()
      ensures outcomes.Keys <= old(engine.Parked()) && ledger.settled == old(ledger.settled) + outcomes
      ensures StackView() == Some(old(StackView()).value.(parked := old(engine.Parked()) - outcomes.Keys))
    {
      ghost var parked, before := engine.Parked(), ledger.settled;
      ParkedHere();
      now := Advance();
      ParkedHere();
      outcomes := OutcomesOf(parked, ledger.settled);
      OutcomesAccount(old(engine.lookups), old(engine.waiting), before, engine.lookups, engine.waiting, ledger.settled,
                      parked, engine.Parked());
    }

    static ghost function OutcomesOf(parked: set<RequestId>, after: map<RequestId, Outcome>): map<RequestId, Outcome> {
      map id | id in parked && id in after :: after[id]
    }

    static lemma OutcomesAccount(ls: seq<Lookup>, w: set<RequestId>, before: map<RequestId, Outcome>,
                                 ls': seq<Lookup>, w': set<RequestId>, after: map<RequestId, Outcome>,
                                 parked: set<RequestId>, parked': set<RequestId>)
      requires Progress(ls, w, before, ls', w', after)
      requires forall id :: id in parked <==> IsParked(id, ls, w)
      requires forall id :: id in parked' <==> IsParked(id, ls', w')
      requires forall id | id in parked :: id !in before
      requires forall id | id in parked' :: id !in after
      ensures OutcomesOf(parked, after).Keys <= parked
      ensures after == before + OutcomesOf(parked, after)
      ensures parked' == parked - OutcomesOf(parked, after).Keys
    {
      var outcomes := OutcomesOf(parked, after);
      forall id
        ensures id in before ==> id in after && after[id] == before[id]
        ensures id in after ==> id in before || id in parked
        ensures id in parked' <==> id in parked && id !in after
      {
        assert Moves(id, ls, w, before, ls', w', after);
      }
      assert parked' == parked - outcomes.Keys;
      assert after == before + outcomes;
    }

    ghost function FlowsHere(): seq<Flow>
      reads this, engine
    {
      if engine == null then [] else engine.flows
    }

    ghost function SnapshotsHere(): map<Flow, Snapshot>
      reads this, engine, FlowsHere(), Bridges(FlowsHere())
    {
      if engine == null then map[] else engine.Snapshots()
    }

    /** This flow is here, as it was in `start`. */
    ghost predicate Here(f: Flow, start: map<Flow, Snapshot>)
      reads this, engine, f, f.bridge
    {
      f in FlowsHere() && f in start && start[f] == f.Now()
    }

    ghost predicate Has(fs: seq<Flow>, start: map<Flow, Snapshot>)
      reads this, engine, fs, Bridges(fs)
    {
      forall f {:trigger Here(f, start)} | f in fs :: Here(f, start)
    }

    lemma HasMeans(fs: seq<Flow>, start: map<Flow, Snapshot>)
      requires Has(fs, start)
      ensures forall f | f in fs :: f in FlowsHere() && f in start && start[f] == f.Now()
      ensures forall f | f in FlowsHere() :: f !in Core() && f.bridge !in Core()
    {
      forall f | f in fs ensures f in FlowsHere() && f in start && start[f] == f.Now() {
        assert Here(f, start);
      }
    }

    twostate lemma StillHere(new fs: seq<Flow>, new start: map<Flow, Snapshot>)
      requires forall f | f in fs :: f in old(FlowsHere()) && f in start && start[f] == old(f.Now())
      requires engine == old(engine) && Keeps()
      requires forall f | f in old(FlowsHere()) :: unchanged(f) && unchanged(f.bridge)
      ensures Has(fs, start)
    {
      forall f | f in fs ensures Here(f, start) {}
    }

    lemma HasAll()
      ensures Has(FlowsHere(), SnapshotsHere())
    {
      forall f | f in FlowsHere() ensures Here(f, SnapshotsHere()) {}
    }

    /** The engine there was has taken its step at the time `now`, and is gone exactly if its device
        has failed. */
    ghost predicate Stepped(was: Engine?, fs: seq<Flow>, start: map<Flow, Snapshot>, now: nat)
      reads this, was, if was == null then {} else {was.ledger, was.resolver} + Members(was.flows)
      reads fs, Bridges(fs), TcpSockets(fs)
    {
      if was == null then engine == null
      else was.Tended(fs, start, now) && engine == if was.failed then null else was
    }

    /** Lines 213 to 215. */
    method CheckDevice(ghost fs: seq<Flow>, ghost start: map<Flow, Snapshot>, ghost now: nat)
      requires EngineOk() && engine != null && engine.Tended(fs, start, now)
      modifies `engine, ledger`settled
      ensures EngineOk() && Stepped(old(engine), fs, start, now)
      ensures StackView() == if old(engine.failed) then None else old(StackView())
      ensures ledger.settled == if !old(engine.failed) then old(ledger.settled)
                                else P.DropAll(old(ledger.settled), P.ParkedIn(old(StackView())))
    {
      if engine.failed {
        DropEngine();
      }
    }

    /** The engine steps, and goes if its device has failed. */
    method RunAndCheck() returns (now: nat, ghost outcomes: map<RequestId, Outcome>, ghost failed: bool)
      requires EngineOk() && engine != null
      modifies this, ledger, clock, Footprint()
      ensures OnlyNew() && EngineOk() && unchanged(channels) && outcomes.Keys <= old(engine.Parked())
      ensures old(clock.time) <= now <= clock.time && failed == old(engine).failed
      ensures Stepped(old(engine), old(FlowsHere()), old(SnapshotsHere()), now) && Consumes()
      ensures var k := old(StackView()).value.(parked := old(engine.Parked()) - outcomes.Keys);
        && StackView() == (if failed then None else Some(k))
        && var settled := old(ledger.settled) + outcomes;
          ledger.settled == if failed then P.DropAll(settled, k.parked) else settled
    {
      now, outcomes := RunEngine();
      failed := engine.failed;
      CheckDevice(old(FlowsHere()), old(SnapshotsHere()), now);
    }

    /** Lines 211 to 215, seen as a step from the protocol state `view`. */
    method StepIfAny(ghost view: P.State) returns (now: nat, ghost e: P.Event)
      requires EngineOk() && Mirrors(view) && view.running && view.phase.Stepping?
      modifies this, ledger, clock, Footprint()
      ensures OnlyNew() && EngineOk() && unchanged(channels)
      ensures old(clock.time) <= now <= clock.time
      ensures Stepped(old(engine), old(FlowsHere()), old(SnapshotsHere()), now) && Consumes()
      ensures e.Step? && P.Enabled(view, e) && Mirrors(P.Next(view, e))
    {
      e, now := P.Step(map[], false), clock.time;
      if engine != null {
        ghost var outcomes, failed;
        now, outcomes, failed := RunAndCheck();
        e := P.Step(outcomes, failed);
      }
    }

    method StepEngine() returns (now: nat, ghost e: P.Event)
      requires Valid() && channels.open && channels.view.phase.Stepping?
      modifies this, channels, ledger, clock, Footprint()
      ensures old(clock.time) <= now <= clock.time
      ensures Stepped(old(engine), old(FlowsHere()), old(SnapshotsHere()), now) && Consumes()
      ensures OnlyNew() && Valid() && channels.history == old(channels.history) + [e]
      ensures e.Step? && P.Enabled(old(channels.view), e) && channels.view == P.Next(old(channels.view), e)
    {
      now, e := StepIfAny(channels.view);
      Record(e);
    }

    /** The protocol takes the step that the worker has just taken. */
    ghost method Record(e: P.Event)
      requires channels.Valid() && EngineOk() && maxConnections <= COUNT && P.Enabled(channels.view, e)
      requires e.Step? && Mirrors(P.Next(channels.view, e))
      modifies channels`view, channels`history
      ensures Valid() && Footprint() == old(Footprint())
      ensures channels.view == P.Next(old(channels.view), e) && channels.history == old(channels.history) + [e]
    {
      channels.Happens(e);
      SameEngine();
    }

    /** Lines 202 and 203: a wake-up, or 20 milliseconds have passed. */
    ghost method Wait()
      requires Valid() && channels.open && channels.view.phase.Selecting?
      modifies channels
      ensures OnlyNew() && Keeps() && Valid() && channels.history == old(channels.history) + [P.Idle]
      ensures channels.view == P.Next(old(channels.view), P.Idle)
    {
      channels.Happens(P.Idle);
      SameEngine();
    }

    /** Lines 181 to 204: a command, a packet, or neither, whichever `select!` picks. */
    method Select() returns (ghost e: P.Event)
      requires Valid() && channels.open && channels.view.phase.Selecting?
      modifies this, channels, ledger, clock, Core()
      ensures OnlyNew() && Keeps() && Valid() && channels.history == old(channels.history) + [e]
      ensures (e.Take? || e.TakePacket? || e.Idle?) && P.Enabled(old(channels.view), e)
      ensures e.Take? ==> RequestReceived()
      ensures channels.view == P.Next(old(channels.view), e)
    {
      var arm: nat := *;
      if arm == 0 && channels.commands != [] {
        var verdict := TakeCommand();
        e := P.Take(verdict);
      } else if arm == 1 && channels.packets != [] {
        TakePacket();
        e := P.TakePacket;
      } else {
        Wait();
        e := P.Idle;
      }
    }

    // The same, as far as the others see it: one more event.

    method Selects(ghost fs: seq<Flow>, ghost start: map<Flow, Snapshot>) returns (ghost e: P.Event)
      requires Has(fs, start) && Valid() && channels.open && channels.view.phase.Selecting?
      modifies this, channels, ledger, clock, Core()
      ensures OnlyNew() && Valid() && channels.history == old(channels.history) + [e]
      ensures engine == old(engine) ==> Has(fs, start)
      ensures KeepsDevice()
      ensures (e.Take? && old(channels.commands) != [] && RequestReceived()) || e.TakePacket? || e.Idle?
    {
      HasMeans(fs, start);
      e := Select();
      if engine == old(engine) {
        StillHere(fs, start);
      }
    }

    method Drains(ghost fs: seq<Flow>, ghost start: map<Flow, Snapshot>) returns (ghost e: P.Event)
      requires Has(fs, start) && Valid() && channels.open && channels.view.phase.Draining?
      modifies `delivered, channels, Core()
      ensures OnlyNew() && KeepsDevice() && Has(fs, start) && Valid()
      ensures channels.history == old(channels.history) + [e] && e.Drain?
    {
      HasMeans(fs, start);
      var count := Drain();
      e := P.Drain(count);
      StillHere(fs, start);
    }

    method Steps(ghost fs: seq<Flow>, ghost start: map<Flow, Snapshot>) returns (now: nat, ghost e: P.Event)
      requires Has(fs, start) && Valid() && channels.open && channels.view.phase.Stepping?
      modifies this, channels, ledger, clock, Footprint()
      ensures old(clock.time) <= now <= clock.time
      ensures Stepped(old(engine), fs, start, now) && Consumes()
      ensures OnlyNew() && Valid() && channels.history == old(channels.history) + [e] && e.Step?
    {
      ghost var all, snapshots := FlowsHere(), SnapshotsHere();
      HasMeans(fs, start);
      now, e := StepEngine();
      if old(engine) != null {
        old(engine).TendedSome(all, snapshots, fs, start, now);
      }
    }

    /** Nothing the callbacks and requesters do moves the worker; a request that finds it gone is
        settled by the requester itself. */
    lemma OthersKeepMirrors(view: P.State, e: P.Event)
      requires Mirrors(view) && P.Enabled(view, e) && !P.IsWorker(e) && (e.Request? ==> view.running)
      ensures Mirrors(P.Next(view, e))
      ensures P.Next(view, e).phase == view.phase && P.Next(view, e).running == view.running
    {
    }

    /** The worker after others have acted. */
    twostate lemma OthersActed(e: P.Event)
      requires old(Valid()) && channels.Valid() && !P.IsWorker(e)
      requires P.Enabled(old(channels.view), e) && channels.view == P.Next(old(channels.view), e)
      requires Untouched() && ledger.Sound()
      requires if e.Request? && !old(channels.open) then ledger.settled == old(ledger.settled)[e.reply := Dropped]
               else unchanged(ledger)
      ensures Valid() && channels.view.phase == old(channels.view.phase) && channels.open == old(channels.open)
    {
      if e.Request? && !old(channels.open) {
        P.RequestConservation(old(channels.history), old(channels.view));
      } else {
        OthersKeepMirrors(old(channels.view), e);
        SameEngine();
      }
    }

    // ---- What the runs of the protocol mean for the real worker ----

    /** Every packet waiting in the engine's device was sent under the tunnel the engine was made
        for, and that tunnel is the only one with its generation. */
    lemma IncomingIsOwn()
      requires Valid() && engine != null
      ensures forall p | p in engine.incoming :: p.origin == session
      ensures P.Owns(channels.view.begun, generation, session) && P.OneEach(channels.view.begun)
    {
      P.PacketIsolation(channels.history, channels.view);
      assert channels.view.stack == StackView();
      forall p | p in engine.incoming ensures p.origin == session {
        assert p in delivered;
      }
    }

    /** The device holds exactly what the queue has brought for this tunnel since the engine was made,
        in the order accepted, but for what the stack has used up, the oldest first. */
    lemma DeviceHasTheRest()
      requires Valid() && engine != null
      ensures var view := channels.view;
        var brought := |view.accepted| - |channels.packets|;
        && birth <= brought <= |view.accepted| && channels.packets == view.accepted[brought..]
        && var given := P.Matching(view.accepted[birth..brought], generation);
          engine.eaten <= |given| && engine.incoming == given[engine.eaten..]
    {
      P.DeliveredInOrder(channels.history, channels.view);
    }

    /** Every request ever made is in exactly one place: queued once, parked in the engine in a
        single lookup or flow, or settled. */
    lemma RequestsAccounted(id: RequestId)
      requires Valid()
      ensures P.Count(id, channels.commands)
            + P.Tally(engine != null && id in engine.Parked())
            + P.Tally(id in ledger.settled) == P.Tally(id in channels.view.requested)
      ensures engine != null && id in engine.Parked() ==>
        Spot(id, engine.lookups, engine.flows, engine.waiting, ledger.settled, engine.asked, {})
    {
      P.RequestConservation(channels.history, channels.view);
      ghost var view := channels.view;
      assert P.OnePlace(id, view.commands, P.ParkedIn(view.stack), view.settled, view.requested);
      if engine != null {
        assert Spot(id, engine.lookups, engine.flows, engine.waiting, ledger.settled, engine.asked, {});
      }
    }
  }
}
