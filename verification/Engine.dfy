/** One engine: the IP stack of one tunnel, with its lookups, flows and port cursor. Line numbers
    refer to src/netstack.rs. */
module EngineModel {
  import opened Wrappers
  import opened Net
  import opened Vectors
  import opened Ports
  import opened SettingsModel
  import opened Oneshot
  import opened Tcp
  import opened Pipe
  import opened Resolver
  import opened FlowModel
  import opened Tables
  import opened EvidenceModel
  import SettingsLaws
  import Protocol

  class Clock {
    var time: nat

    constructor () {
      time := 0;
    }

    /** `Instant::now`: never goes back. */
    method Now() returns (now: nat)
      modifies this
      ensures now == time && old(time) <= time
    {
      var passed: nat := *;
      if passed >= 0 {
        time := time + passed;
      }
      now := time;
    }
  }

  class Engine {
    const settings: Settings
    const connectTimeout: nat
    const idleTimeout: nat
    const maxConnections: nat
    const clock: Clock
    const ledger: Ledger
    const dns: nat
    const resolver: DnsSocket
    const iface: Interface
    var sockets: map<nat, SocketSlot>
    var flows: seq<Flow>
    var lookups: seq<Lookup>
    var nextPort: u16
    var incoming: seq<Protocol.Packet>
    var failed: bool
    ghost var eaten: nat                      // how many packets of the device have been used up
    ghost const start: nat                    // where the port cursor began
    ghost var visits: seq<Visit>              // the ports it has looked at
    ghost var waiting: set<RequestId>         // requests whose flow still holds the reply
    ghost var asked: map<RequestId, Ask>      // every request given to this engine
    ghost var issued: map<RequestId, nat>     // how many DNS queries each has caused

    ghost function Parked(): set<RequestId>
      reads this
    {
      waiting + set l | l in lookups :: l.reply
    }

    ghost predicate CursorOk()
      reads this
    {
      && nextPort == Cyclic(start + |visits|)
      && Trace(visits, start, maxConnections)
      && PortsOf(flows) <= After(visits)
    }

    ghost predicate FlowsFit()
      reads this, resolver
    {
      forall f {:trigger FlowFits(f, asked, resolver.answers, settings)} | f in flows ::
        FlowFits(f, asked, resolver.answers, settings)
    }

    ghost predicate FlowOk(f: Flow)
      reads this, ledger, f, f.bridge, f.tcp
    {
      && f.Valid() && !f.tcp.aborted && (f.reply.Some? <==> f.request in waiting)
      && AnsweredOpen(f, waiting, ledger.settled, ledger.seen)
    }

    ghost predicate FlowsOk()
      reads this, ledger, flows, Bridges(flows), TcpSockets(flows)
    {
      forall f {:trigger FlowOk(f)} | f in flows :: FlowOk(f)
    }

    ghost function Observed(): Evidence
      reads this, ledger, resolver, clock, iface
    {
      Evidence(asked, clock.time, ledger.gone, ledger.seen,
               resolver.answers, resolver.barren, resolver.refused, iface.refused)
    }

    /** Every outcome this engine has given is justified by what has been observed, and so are
        second questions. */
    ghost predicate Reasons()
      reads this, ledger, resolver, clock, iface
    {
      && AllJustified(ledger.settled, settings, Observed())
      && (forall l {:trigger SecondAsked(l, settings, resolver.barren)} | l in lookups ::
            SecondAsked(l, settings, resolver.barren))
      && ledger.Sound()
      && iface.ipv4 == settings.ipv4 && iface.ipv6 == settings.ipv6
    }

    /** The invariant apart from the state of the flows themselves, while the requests in
        `inHand` are being worked on. */
    ghost predicate Shell(inHand: set<RequestId>)
      reads this, ledger, resolver, clock, iface
    {
      && Reasons()
      && maxConnections <= COUNT
      && |flows| + |lookups| + |inHand| <= maxConnections
      && LookupTable(lookups, resolver.slots, asked, issued, settings)
      && FlowTable(flows, sockets, dns, resolver)
      && FlowsFit()
      && Placed(lookups, flows, waiting, ledger.settled, asked, inHand)
      && (forall id | id in issued :: id in asked && issued[id] <= 2)
      && CursorOk()
    }

    ghost predicate Consistent(inHand: set<RequestId>)
      reads this, ledger, resolver, clock, iface, flows, Bridges(flows), TcpSockets(flows)
    {
      Held(inHand) && Attended(lookups, waiting, inHand, ledger.gone)
    }

    ghost predicate Held(inHand: set<RequestId>)
      reads this, ledger, resolver, clock, iface, flows, Bridges(flows), TcpSockets(flows)
    {
      Shell(inHand) && FlowsOk()
    }

    ghost predicate Valid()
      reads this, ledger, resolver, clock, iface, flows, Bridges(flows), TcpSockets(flows)
    {
      Consistent({})
    }

    /** `start` is the random first port; the limit is what lets the port search end. */
    constructor (settings: Settings, connectTimeout: nat, idleTimeout: nat, maxConnections: nat,
                 clock: Clock, ledger: Ledger, dns: nat, firstPort: Port)
      requires maxConnections <= COUNT && ledger.Sound()
      ensures Valid() && flows == [] && lookups == [] && incoming == [] && eaten == 0 && !failed
      ensures Parked() == {} && asked == map[] && nextPort == firstPort
      ensures this.settings == settings && this.ledger == ledger && this.clock == clock
      ensures this.connectTimeout == connectTimeout && this.idleTimeout == idleTimeout
      ensures this.maxConnections == maxConnections
      ensures fresh(resolver) && fresh(iface)
    {
      this.settings := settings;
      this.connectTimeout, this.idleTimeout, this.maxConnections := connectTimeout, idleTimeout, maxConnections;
      this.clock, this.ledger, this.dns := clock, ledger, dns;
      var socket := new DnsSocket();
      this.resolver := socket;
      this.iface := new Interface(settings.ipv4, settings.ipv6);
      this.sockets := map[dns := DnsSlot(socket)];
      this.flows, this.lookups, this.incoming, this.failed := [], [], [], false;
      this.nextPort := firstPort;
      this.start, this.visits := firstPort - FIRST, [];
      this.waiting, this.asked, this.issued, this.eaten := {}, map[], map[], 0;
      new;
      EmptyTables(dns, resolver, resolver.slots, asked, issued, settings, ledger.settled);
      assert CursorOk() by {
        CyclicStart(firstPort);
      }
      forall id ensures JustifiedAt(id, ledger.settled, settings, Observed()) {}
    }

    /** One look at the port under the cursor, which moves on. */
    method LookAtPort() returns (port: Port, taken: bool)
      requires CursorOk() && |flows| < maxConnections
      modifies `nextPort, `visits
      ensures CursorOk()
      ensures port == Cyclic(start + |old(visits)|) && visits == old(visits) + [Visit(port, !taken, PortsOf(flows))]
      ensures taken <==> port in PortsOf(flows)
      ensures After(visits) == if taken then PortsOf(flows) else PortsOf(flows) + {port}
    {
      port := nextPort;
      CyclicNext(start + |visits|);
      nextPort := if port == 65535 then 49152 else port + 1;
      taken := exists f | f in flows :: f.local.port == port;
      PortsCount(flows);
      ghost var visit := Visit(port, !taken, PortsOf(flows));
      TraceExtends(visits, visit, start, maxConnections);
      visits := visits + [visit];
    }

    /** Since `before` no port was picked. */
    static predicate NothingPicked(before: seq<Visit>, after: seq<Visit>) {
      before <= after && forall k | |before| <= k < |after| :: !after[k].picked
    }

    /** Since `before` one port was picked, and that at the end. */
    static predicate FirstFree(before: seq<Visit>, after: seq<Visit>, port: Port) {
      && |before| < |after| && NothingPicked(before, after[..|after| - 1])
      && after[|after| - 1].picked && after[|after| - 1].port == port
    }

    /** Lines 454 to 460: the first free port from the cursor on. The search ends because ports
        within a lap differ and fewer than a lap's worth are taken. */
    method PickPort() returns (port: Port)
      requires CursorOk() && |flows| < maxConnections <= COUNT
      modifies `nextPort, `visits
      ensures CursorOk() && After(visits) == PortsOf(flows) + {port}
      ensures port !in PortsOf(flows) && FirstFree(old(visits), visits, port) && 49152 <= port <= 65535
    {
      ghost var first, live := start + |visits|, PortsOf(flows);
      ghost var steps := 0;
      PortsCount(flows);
      while true
        invariant CursorOk() && start + |visits| == first + steps
        invariant Lap(first, steps) <= live && steps <= |live|
        invariant NothingPicked(old(visits), visits)
        decreases |live| - steps
      {
        var taken;
        port, taken := LookAtPort();
        if !taken {
          return;
        }
        SearchBound(first, steps + 1, live);
        steps := steps + 1;
      }
    }

    /** What was settled still is, and as it was. */
    twostate predicate OutcomesStay()
      reads ledger
    {
      && (forall id | id in old(ledger.settled) ::
            id in ledger.settled && ledger.settled[id] == old(ledger.settled)[id])
      && (forall id | id in old(ledger.settled) && id in old(ledger.seen) ::
            id in ledger.seen && ledger.seen[id] == old(ledger.seen)[id])
    }

    /** Observing more keeps the reasons. */
    twostate lemma KeepReasons()
      requires old(Reasons()) && ledger.Sound() && ledger.settled == old(ledger.settled)
      requires Later(old(Observed()), Observed(), ledger.settled)
      requires forall l | l in lookups :: l in old(lookups) || SecondAsked(l, settings, resolver.barren)
      ensures Reasons()
    {
      JustifiedLater(ledger.settled, settings, old(Observed()), Observed());
      forall l | l in lookups ensures SecondAsked(l, settings, resolver.barren) {
        assert l in old(lookups) ==> SecondAsked(l, settings, old(resolver.barren));
      }
    }

    /** One more request has been settled, with good reason if it was this engine's. */
    twostate lemma SettledForReason(id: RequestId)
      requires old(Reasons()) && ledger.Sound() && id !in old(ledger.settled) && id in ledger.settled
      requires ledger.settled == old(ledger.settled)[id := ledger.settled[id]]
      requires Later(old(Observed()), Observed(), old(ledger.settled)) && lookups == old(lookups)
      requires id in asked ==> Justified(ledger.settled[id], id, settings, Observed())
      ensures Reasons()
    {
      JustifiedLater(old(ledger.settled), settings, old(Observed()), Observed());
      JustifiedMore(old(ledger.settled), settings, Observed(), id, ledger.settled[id]);
      forall l | l in lookups ensures SecondAsked(l, settings, resolver.barren) {
        assert SecondAsked(l, settings, old(resolver.barren));
      }
    }

    /** Flows nobody has touched are as valid as before. */
    twostate lemma KeepFlows()
      requires old(FlowsOk()) && flows == old(flows) && waiting == old(waiting) && OutcomesStay()
      requires forall f | f in flows :: unchanged(f) && unchanged(f.bridge) && unchanged(f.tcp)
      ensures FlowsOk()
    {
      forall f | f in flows ensures FlowOk(f) {
        assert old(FlowOk(f));
      }
    }

    method ReadClock(ghost inHand: set<RequestId>) returns (now: nat)
      requires Consistent(inHand)
      modifies clock
      ensures Consistent(inHand) && old(clock.time) <= clock.time == now
    {
      now := clock.Now();
      KeepReasons();
      KeepFlows();
    }

    /** Whether the requester of something that is not parked has gone. */
    method ReceiverGone(id: RequestId) returns (closed: bool)
      requires Valid() && id !in ledger.settled && !InLookup(id, lookups) && id !in waiting
      modifies ledger`gone, ledger`present
      ensures Valid() && ledger.gone == old(ledger.gone) + if closed then {id} else {}
      ensures (id in old(ledger.gone) ==> closed) && (closed || (id in ledger.present && id !in ledger.gone))
    {
      closed := ledger.IsClosed(id);
      KeepReasons();
      KeepFlows();
    }

    /** Answer the request in hand with an error. */
    method Refuse(ghost reply: RequestId, kind: ErrorKind)
      requires Held({reply}) && Attended(lookups, waiting, {}, ledger.gone) && kind != ConnectionRefused
      requires Justified(Answered(Failed(kind)), reply, settings, Observed())
      modifies ledger`settled
      ensures Valid()
      ensures ledger.settled == old(ledger.settled)[reply := Answered(Failed(kind))]
    {
      PlacedSettled(lookups, flows, waiting, ledger.settled, asked, reply, Answered(Failed(kind)));
      ledger.Fail(reply, kind);
      SettledForReason(reply);
      KeepFlows();
    }

    /** The request in hand has been given a flow of its own. */
    ghost predicate Opened(before: seq<Flow>, reply: RequestId, wasWaiting: set<RequestId>)
      reads this
    {
      && |flows| == |before| + 1 && flows[..|before|] == before
      && flows[|before|].request == reply
      && waiting == wasWaiting + {reply}
    }

    method NextPort(ghost reply: RequestId) returns (port: Port)
      requires Consistent({reply})
      modifies `nextPort, `visits
      ensures Consistent({reply}) && port !in PortsOf(flows) && port in After(visits)
    {
      port := PickPort();
      KeepFlows();
    }

    /** Lines 461 to 474: a socket that connects, unless the stack refuses. */
    method TryConnect(ip: IpAddr, port: u16, ghost reply: RequestId, localPort: Port) returns (r: Option<TcpSocket>)
      requires Consistent({reply}) && settings.SupportsFamily(ip)
      modifies iface
      ensures Consistent({reply})
      ensures r.None? ==> SocketAddr(ip, port) in iface.refused
      ensures r.Some? ==>
        var socket := r.value;
        && fresh(socket) && socket.owner == reply && socket.remote == SocketAddr(ip, port)
        && socket.local == SocketAddr(LocalIp(settings, ip), localPort)
        && socket.state == SynSent && !socket.closing && !socket.aborted
        && socket.rx == socket.tx == socket.received == socket.enqueued == []
    {
      r := iface.Connect(reply, localPort, SocketAddr(ip, port));
      KeepReasons();
      KeepFlows();
    }

    /** Lines 475 to 491: a pipe and a flow for the request in hand and its socket. */
    method NewFlow(ip: IpAddr, reply: RequestId, deadline: nat, localPort: Port, socket: TcpSocket) returns (flow: Flow)
      requires Consistent({reply}) && settings.SupportsFamily(ip) && socket.remote.ip == ip && socket.owner == reply
      requires socket.local == SocketAddr(LocalIp(settings, ip), localPort)
      requires socket.state == SynSent && !socket.closing
      requires socket.rx == socket.tx == socket.received == socket.enqueued == []
      modifies clock
      ensures Consistent({reply}) && old(clock.time) <= clock.time
      ensures fresh(flow) && fresh(flow.bridge) && flow.tcp == socket && flow.Valid()
      ensures flow.request == reply && flow.reply == Some(reply) && flow.socket !in sockets
      ensures flow.deadline == deadline && flow.local == SocketAddr(LocalIp(settings, ip), localPort)
    {
      var handle := FreeSlot(sockets.Keys);
      var bridge := new Duplex();
      var now := ReadClock({reply});
      flow := new Flow(reply, handle, socket, bridge, SocketAddr(LocalIp(settings, ip), localPort), deadline, now);
    }

    /** The request in hand has been given a flow, made for it, with its own socket, pipe and port. */
    twostate lemma FlowParked(flow: Flow)
      requires old(Consistent({flow.request})) && flows == old(flows) + [flow]
      requires waiting == old(waiting) + {flow.request}
      requires flow.Valid() && !flow.tcp.aborted && flow.reply.Some? && flow.socket !in old(sockets)
      requires sockets == old(sockets)[flow.socket := TcpSlot(flow.tcp)]
      requires FlowFits(flow, asked, resolver.answers, settings)
      requires forall g | g in old(flows) :: g != flow && g.bridge != flow.bridge && g.tcp != flow.tcp
      requires FIRST <= flow.local.port <= LAST && flow.local.port !in old(PortsOf(flows))
      requires flow.local.port in After(visits)
      requires lookups == old(lookups) && issued == old(issued) && asked == old(asked)
      requires nextPort == old(nextPort) && visits == old(visits)
      requires unchanged(ledger) && unchanged(resolver) && unchanged(clock) && unchanged(iface)
      requires forall g | g in old(flows) :: unchanged(g) && unchanged(g.bridge) && unchanged(g.tcp)
      ensures Valid()
    {
      PlacedInFlow(lookups, old(flows), old(waiting), ledger.settled, asked, flow);
      FlowAdded(old(flows), flow, old(sockets), dns, resolver);
      PortsAfterAdding(old(flows), flow);
      forall f | f in flows ensures FlowFits(f, asked, resolver.answers, settings) {
        assert f != flow ==> old(FlowFits(f, asked, resolver.answers, settings));
      }
      KeepReasons();
      forall f | f in flows ensures FlowOk(f) {
        assert f != flow ==> old(FlowOk(f));
      }
    }

    method AddFlow(flow: Flow, socket: TcpSocket)
      requires Consistent({flow.request}) && flow.Valid() && !flow.tcp.aborted && flow.reply.Some? && socket == flow.tcp
      requires FlowFits(flow, asked, resolver.answers, settings) && flow.socket !in sockets
      requires forall g | g in flows :: g != flow && g.bridge != flow.bridge && g.tcp != flow.tcp
      requires FIRST <= flow.local.port <= LAST && flow.local.port !in PortsOf(flows)
      requires flow.local.port in After(visits)
      modifies `flows, `sockets, `waiting
      ensures Valid()
      ensures flows == old(flows) + [flow] && waiting == old(waiting) + {flow.request}
    {
      sockets := sockets[flow.socket := TcpSlot(socket)];
      flows := flows + [flow];
      waiting := waiting + {flow.request};
      FlowParked(flow);
    }

    /** An address the engine will connect to. */
    predicate Acceptable(ip: IpAddr, port: u16) {
      settings.SupportsFamily(ip) && port != 0 && Plain(ip)
    }

    /** Why a request fails at once, if it does. */
    function TargetError(target: Target, port: u16): ErrorKind {
      match target
      case Ip(ip) => AddressError(ip, port, settings)
      case Domain(_) => if settings.dns == [] then NotFound else InvalidInput
    }

    /** The request in hand has got a flow of its own, made for it, or an error from the stack. */
    twostate predicate OpenedOrRefused(ip: IpAddr, port: u16, reply: RequestId)
      reads this, ledger
    {
      || (Opened(old(flows), reply, old(waiting)) && ledger.settled == old(ledger.settled)
          && fresh(flows[|flows| - 1]) && fresh(flows[|flows| - 1].bridge) && fresh(flows[|flows| - 1].tcp)
          && flows[|flows| - 1].tcp.remote == SocketAddr(ip, port))
      || (flows == old(flows) && waiting == old(waiting)
          && ledger.settled == old(ledger.settled)[reply := Answered(Failed(AddressError(ip, port, settings)))])
    }

    /** The request in hand has got a flow, or this error. */
    twostate predicate OpenedOr(reply: RequestId, kind: ErrorKind)
      reads this, ledger
    {
      || Opened(old(flows), reply, old(waiting))
      || (flows == old(flows) && ledger.settled == old(ledger.settled)[reply := Answered(Failed(kind))])
    }

    /** Lines 475 to 491. */
    method Adopt(ip: IpAddr, port: u16, reply: RequestId, deadline: nat, localPort: Port, socket: TcpSocket)
      requires Consistent({reply}) && Acceptable(ip, port)
      requires reply in asked && asked[reply].deadline == deadline
      requires Leads(asked[reply], SocketAddr(ip, port), resolver.answers)
      requires socket.owner == reply && socket.remote == SocketAddr(ip, port)
      requires socket.local == SocketAddr(LocalIp(settings, ip), localPort)
      requires socket.state == SynSent && !socket.closing && !socket.aborted
      requires socket.rx == socket.tx == socket.received == socket.enqueued == []
      requires forall g | g in flows :: g.tcp != socket
      requires localPort !in PortsOf(flows) && localPort in After(visits)
      modifies `flows, `sockets, `waiting, clock
      ensures Valid() && old(clock.time) <= clock.time && Opened(old(flows), reply, old(waiting))
      ensures var f := flows[|flows| - 1]; fresh(f) && fresh(f.bridge) && f.tcp == socket
    {
      var flow := NewFlow(ip, reply, deadline, localPort, socket);
      AddFlow(flow, socket);
    }

    /** Lines 454 to 491. */
    method OpenFlow(ip: IpAddr, port: u16, reply: RequestId, deadline: nat)
      requires Consistent({reply}) && Acceptable(ip, port)
      requires reply in asked && asked[reply].deadline == deadline
      requires Leads(asked[reply], SocketAddr(ip, port), resolver.answers)
      modifies `flows, `sockets, `nextPort, `visits, `waiting, ledger`settled, clock, iface
      ensures Valid() && old(clock.time) <= clock.time
      ensures OpenedOrRefused(ip, port, reply)
      ensures OpenedOr(reply, Other) && (flows == old(flows) ==> SocketAddr(ip, port) in iface.refused)
    {
      var localPort := NextPort(reply);
      var socket := TryConnect(ip, port, reply, localPort);
      if socket.None? {
        assert AddressFails(SocketAddr(ip, port), Other, settings, iface.refused);
        Refuse(reply, Other);
        return;
      }
      Adopt(ip, port, reply, deadline, localPort, socket.value);
    }

    /** Lines 439 to 492: start connecting to an address. */
    method ConnectIp(ip: IpAddr, port: u16, reply: RequestId, deadline: nat)
      requires Consistent({reply})
      requires reply in asked && asked[reply].deadline == deadline
      requires Leads(asked[reply], SocketAddr(ip, port), resolver.answers)
      modifies `flows, `sockets, `nextPort, `visits, `waiting, ledger`settled, clock, iface
      ensures Valid() && old(clock.time) <= clock.time
      ensures OpenedOrRefused(ip, port, reply)
      ensures !Acceptable(ip, port) ==> reply in ledger.settled
      ensures reply !in old(ledger.settled)
      ensures
        if (if ip.V4? then settings.ipv4.None? else settings.ipv6.None?) then
          ledger.settled == old(ledger.settled)[reply := Answered(Failed(NetworkUnreachable))]
        else if port == 0 || !SettingsLaws.Ordinary(ip) then
          ledger.settled == old(ledger.settled)[reply := Answered(Failed(InvalidInput))]
        else
          OpenedOr(reply, Other) && (flows == old(flows) ==> SocketAddr(ip, port) in iface.refused)
    {
      assert Spot(reply, lookups, flows, waiting, ledger.settled, asked, {reply});
      if !settings.SupportsFamily(ip) {
        assert AddressFails(SocketAddr(ip, port), NetworkUnreachable, settings, iface.refused);
        Refuse(reply, NetworkUnreachable);
        return;
      }
      if port == 0 || ip.IsUnspecified() || ip.IsMulticast() {
        assert AddressFails(SocketAddr(ip, port), InvalidInput, settings, iface.refused);
        Refuse(reply, InvalidInput);
        return;
      }
      OpenFlow(ip, port, reply, deadline);
    }

    // ---- Taking a request ----

    /** A request the engine does not take up is answered at once. */
    method RefuseNew(ghost reply: RequestId, kind: ErrorKind)
      requires Valid() && reply !in asked && reply !in ledger.settled && kind != ConnectionRefused
      modifies ledger`settled
      ensures Valid() && ledger.settled == old(ledger.settled)[reply := Answered(Failed(kind))]
    {
      PlacedNew(lookups, flows, waiting, ledger.settled, asked, reply, Answered(Failed(kind)), Ask(Domain([]), 0, 0));
      ledger.Fail(reply, kind);
      SettledForReason(reply);
      KeepFlows();
    }

    ghost method DropNew(reply: RequestId)
      requires Valid() && reply !in asked && reply !in ledger.settled && reply in ledger.gone
      modifies ledger`settled
      ensures Valid() && ledger.settled == old(ledger.settled)[reply := Dropped]
    {
      PlacedNew(lookups, flows, waiting, ledger.settled, asked, reply, Dropped, Ask(Domain([]), 0, 0));
      ledger.Drop(reply);
      SettledForReason(reply);
      KeepFlows();
    }

    ghost method TakeUp(reply: RequestId, ask: Ask)
      requires Valid() && reply !in asked && reply !in ledger.settled && reply !in ledger.gone
      requires |flows| + |lookups| < maxConnections
      modifies `asked
      ensures Consistent({reply}) && asked == old(asked)[reply := ask] && reply !in issued
    {
      assert reply !in issued;
      PlacedNew(lookups, flows, waiting, ledger.settled, asked, reply, Dropped, ask);
      LookupsAfterAsk(lookups, resolver.slots, asked, asked[reply := ask], issued, settings);
      forall f | f in flows ensures FlowFits(f, asked[reply := ask], resolver.answers, settings) {
        assert FlowFits(f, asked, resolver.answers, settings);
      }
      asked := asked[reply := ask];
      KeepReasons();
      KeepFlows();
    }

    /** The request in hand has been parked on a fresh slot. */
    twostate lemma LookupParked(l: Lookup)
      requires old(Consistent({l.reply})) && lookups == old(lookups) + [l]
      requires l.query !in old(resolver.slots)
      requires resolver.slots == old(resolver.slots)[l.query := QuestionOf(l, settings)]
      requires Later(old(Observed()), Observed(), ledger.settled) && ledger.Sound()
      requires SecondAsked(l, settings, resolver.barren) && ledger.gone == old(ledger.gone)
      requires issued == old(issued)[l.reply := (if l.reply in old(issued) then old(issued)[l.reply] else 0) + 1]
      requires LookupFits(l, resolver.slots, asked, issued, settings)
      requires flows == old(flows) && sockets == old(sockets) && nextPort == old(nextPort) && visits == old(visits)
      requires waiting == old(waiting) && asked == old(asked) && ledger.settled == old(ledger.settled)
      requires forall f | f in flows :: unchanged(f) && unchanged(f.bridge) && unchanged(f.tcp)
      ensures Valid()
    {
      PlacedInLookup(old(lookups), flows, waiting, ledger.settled, asked, l);
      LookupAdded(old(lookups), l, old(resolver.slots), asked, old(issued), issued, settings);
      forall f | f in flows ensures FlowFits(f, asked, resolver.answers, settings) {
        assert FlowFits(f, asked, old(resolver.answers), settings);
      }
      KeepReasons();
      KeepFlows();
    }

    /** Ask the DNS socket; a refusal is all that can be observed. */
    method AskDns(name: seq<u8>, kind: QueryKind, ghost inHand: set<RequestId>) returns (query: Option<nat>)
      requires Consistent(inHand)
      modifies resolver`slots, resolver`refused
      ensures Later(old(Observed()), Observed(), ledger.settled)
      ensures query.None? ==>
        Consistent(inHand) && resolver.slots == old(resolver.slots) && Question(name, kind) in resolver.refused
      ensures query.Some? ==>
        && query.value !in old(resolver.slots)
        && resolver.slots == old(resolver.slots)[query.value := Question(name, kind)]
    {
      query := resolver.StartQuery(name, kind);
      KeepReasons();
      if query.None? {
        KeepFlows();
      }
    }

    /** Ask the DNS socket and park the request in hand on the answer. */
    method StartLookup(name: seq<u8>, kind: QueryKind, fallback: Option<QueryKind>, port: u16,
                       reply: RequestId, deadline: nat) returns (started: bool)
      requires Consistent({reply})
      requires reply in asked && asked[reply] == Ask(Domain(name), port, deadline)
      requires var l := Lookup(0, name, fallback, port, reply, deadline);
        && SecondAsked(l, settings, resolver.barren)
        && QuestionOf(l, settings) == Question(name, kind)
        && (fallback.Some? ==> fallback.value == Aaaa && settings.ipv4.Some? && settings.ipv6.Some?)
        && (if reply in issued then issued[reply] else 0) + 1
           == if fallback.None? && settings.ipv4.Some? && settings.ipv6.Some? then 2 else 1
      modifies `lookups, `issued, resolver`slots, resolver`refused
      ensures !started ==> Consistent({reply}) && lookups == old(lookups) && issued == old(issued)
      ensures !started ==> resolver.slots == old(resolver.slots) && Question(name, kind) in resolver.refused
      ensures started ==>
        && Valid() && |lookups| == |old(lookups)| + 1
        && var l := lookups[|old(lookups)|];
        && l == Lookup(l.query, name, fallback, port, reply, deadline)
        && lookups == old(lookups) + [l] && l.query !in old(resolver.slots)
        && l.query in resolver.slots && resolver.slots[l.query] == Question(name, kind)
        && reply in issued && issued == old(issued)[reply := issued[reply]]
        && (reply in old(issued) ==> issued[reply] > old(issued)[reply])
    {
      var query := AskDns(name, kind, {reply});
      if query.None? {
        return false;
      }
      lookups := lookups + [Lookup(query.value, name, fallback, port, reply, deadline)];
      issued := issued[reply := (if reply in issued then issued[reply] else 0) + 1];
      LookupParked(lookups[|lookups| - 1]);
      started := true;
    }

    /** The flows there were are still there, in place; any further one is new. */
    twostate predicate FlowsOnlyAdded()
      reads this
    {
      && |old(flows)| <= |flows| && flows[..|old(flows)|] == old(flows)
      && forall f | f in flows :: f in old(flows) || (fresh(f) && fresh(f.bridge) && fresh(f.tcp))
    }

    /** The request has been dealt with and no other request has moved. */
    twostate predicate Handled(reply: RequestId)
      reads this, ledger
    {
      && (|| (ledger.settled == old(ledger.settled) && IsParked(reply, lookups, waiting))
          || (lookups == old(lookups) && waiting == old(waiting)
              && reply in ledger.settled && !IsConnected(ledger.settled[reply])
              && ledger.settled == old(ledger.settled)[reply := ledger.settled[reply]]))
      && (forall id {:trigger IsParked(id, lookups, waiting)} | id != reply ::
            IsParked(id, lookups, waiting) <==> IsParked(id, old(lookups), old(waiting)))
    }

    /** Lines 403 to 435: park the request in hand on a lookup of its name. */
    method LookUp(name: seq<u8>, port: u16, reply: RequestId, deadline: nat)
      requires Consistent({reply}) && reply in asked && asked[reply] == Ask(Domain(name), port, deadline)
      requires reply !in issued
      modifies `lookups, `issued, ledger`settled, resolver`slots, resolver`refused
      ensures Valid() && Handled(reply)
      ensures reply in ledger.settled ==>
        ledger.settled[reply] == Answered(Failed(if settings.dns == [] then NotFound else InvalidInput))
      ensures if settings.dns == [] then reply in ledger.settled
              else reply in ledger.settled ==> FirstQuestion(name, settings) in resolver.refused
      ensures reply !in ledger.settled ==>
        && |lookups| == |old(lookups)| + 1
        && var l := lookups[|old(lookups)|];
        && lookups == old(lookups) + [l]
        && l == Lookup(l.query, name, if DualStack(settings) then Some(Aaaa) else None, port, reply, deadline)
        && l.query !in old(resolver.slots) && l.query in resolver.slots
        && resolver.slots[l.query] == Question(name, if settings.ipv4.Some? then A else Aaaa)
    {
      assert Spot(reply, lookups, flows, waiting, ledger.settled, asked, {reply});
      if settings.dns == [] {
        assert NameFails(name, NotFound, settings, resolver.barren, resolver.refused);
        Refuse(reply, NotFound);
        return;
      }
      var kind := if settings.ipv4.Some? then A else Aaaa;
      var fallback := if settings.ipv4.Some? && settings.ipv6.Some? then Some(Aaaa) else None;
      var started := StartLookup(name, kind, fallback, port, reply, deadline);
      if !started {
        assert NameFails(name, InvalidInput, settings, resolver.barren, resolver.refused);
        Refuse(reply, InvalidInput);
      }
    }

    /** Lines 401 to 436, for the request in hand. */
    method Dispatch(target: Target, port: u16, reply: RequestId, deadline: nat)
      requires Consistent({reply}) && reply in asked && asked[reply] == Ask(target, port, deadline)
      requires reply !in issued
      modifies `flows, `sockets, `nextPort, `visits, `waiting, `lookups, `issued,
               ledger`settled, resolver`slots, resolver`refused, clock, iface
      ensures Valid() && old(clock.time) <= clock.time && FlowsOnlyAdded() && Handled(reply)
      ensures reply in ledger.settled ==> ledger.settled[reply] == Answered(Failed(TargetError(target, port)))
      ensures target.Ip? && !Acceptable(target.ip, port) ==> reply in ledger.settled
      ensures target.Domain? && settings.dns == [] ==> reply in ledger.settled
    {
      match target {
        case Ip(ip) => ConnectIp(ip, port, reply, deadline);
        case Domain(name) => LookUp(name, port, reply, deadline);
      }
    }

    /** The request has been taken up, as what was asked for and under the one deadline it will
        keep, and if it has been settled since, it was with reason; or it has not, because its
        requester has gone or the engine is full. */
    twostate predicate Received(target: Target, port: u16, reply: RequestId)
      reads this, ledger, resolver, clock, iface
    {
      var full := |old(flows)| + |old(lookups)| >= maxConnections;
      if reply in asked then
        && !full && asked == old(asked)[reply := asked[reply]]
        && asked[reply].target == target && asked[reply].port == port
        && old(clock.time) + connectTimeout <= asked[reply].deadline <= clock.time + connectTimeout
        && reply in ledger.present && reply !in ledger.gone
        && (reply in ledger.settled ==> Justified(ledger.settled[reply], reply, settings, Observed()))
      else
        && asked == old(asked) && reply in ledger.settled
        && (|| (ledger.settled[reply] == Dropped && reply in ledger.gone)
            || (ledger.settled[reply] == Answered(Failed(Other)) && full))
    }

    /** Lines 392 to 437. The request ends up parked here or settled, and no other is touched. */
    method Connect(target: Target, port: u16, reply: RequestId)
      requires Valid() && reply !in asked && reply !in ledger.settled
      modifies `flows, `sockets, `nextPort, `visits, `waiting, `lookups, `issued, `asked,
               ledger, resolver`slots, resolver`refused, clock, iface
      ensures Valid() && old(clock.time) <= clock.time && FlowsOnlyAdded() && Handled(reply)
      ensures reply in ledger.settled ==>
        || (ledger.settled[reply] == Dropped && reply in ledger.gone)
        || ledger.settled[reply] == Answered(Failed(
             if |old(flows)| + |old(lookups)| >= maxConnections then Other else TargetError(target, port)))
      ensures Received(target, port, reply)
      ensures IsParked(reply, lookups, waiting) ==>
        && reply in asked && (target.Ip? ==> Acceptable(target.ip, port)) && (target.Domain? ==> settings.dns != [])
    {
      assert Spot(reply, lookups, flows, waiting, ledger.settled, asked, {});
      var closed := ReceiverGone(reply);
      if closed {
        DropNew(reply);
        return;
      }
      if |flows| + |lookups| >= maxConnections {
        RefuseNew(reply, Other);
        return;
      }
      var now := ReadClock({});
      TakeUp(reply, Ask(target, port, now + connectTimeout));
      Dispatch(target, port, reply, now + connectTimeout);
      assert JustifiedAt(reply, ledger.settled, settings, Observed());
    }

    // ---- One step ----

    /** The stack has used up packets of the device, the oldest first. */
    twostate predicate Ate()
      reads this
    {
      && old(eaten) <= eaten <= old(eaten) + |old(incoming)|
      && incoming == old(incoming)[eaten - old(eaten)..]
    }

    /** `iface.poll`: every TCP socket may hear from the network, packets are used up, and the
        sink may fail. */
    method PollInterface()
      requires Valid()
      modifies `incoming, `eaten, `failed, TcpSockets(flows)
      ensures Valid()
      ensures Ate()
      ensures old(failed) ==> failed
    {
      UsePackets();
      NetworkAll();
    }

    method UsePackets()
      requires Valid()
      modifies `incoming, `eaten, `failed
      ensures Valid() && Ate() && (old(failed) ==> failed)
    {
      var n: nat :| n <= |incoming|;
      incoming, eaten := incoming[n..], eaten + n;
      var fails: bool := *;
      failed := failed || fails;
      KeepFlows();
    }

    method NetworkAll()
      requires FlowsOk() && FlowTable(flows, sockets, dns, resolver)
      modifies TcpSockets(flows)
      ensures FlowsOk()
    {
      for i := 0 to |flows|
        invariant FlowsOk()
      {
        assert SocketFits(flows[i], sockets, dns);
        NetworkAt(i, sockets[flows[i].socket].tcp);
      }
    }

    method NetworkAt(i: nat, socket: TcpSocket)
      requires i < |flows| && FlowsOk() && AllApart(flows) && socket == flows[i].tcp
      modifies socket
      ensures FlowsOk()
    {
      ghost var f := flows[i];
      assert FlowOk(f);
      ghost var delivered := socket.Network();
      OthersApart(flows, i);
      forall g | g in flows ensures FlowOk(g) {
        if g != f {
          assert Apart(g, f);
          assert old(FlowOk(g));
        }
      }
    }

    /** The lookup at `i` has been taken out of the table, its slot freed. */
    twostate lemma LookupTaken(i: nat)
      requires old(Held({})) && i < |old(lookups)| && lookups == SwapRemove(old(lookups), i)
      requires resolver.slots == old(resolver.slots) - {old(lookups)[i].query}
      requires old(resolver.answers) <= resolver.answers
      requires flows == old(flows) && sockets == old(sockets) && nextPort == old(nextPort) && visits == old(visits)
      requires waiting == old(waiting) && asked == old(asked) && issued == old(issued)
      requires ledger.settled == old(ledger.settled) && ledger.Sound()
      requires Later(old(Observed()), Observed(), ledger.settled)
      requires forall f | f in flows :: unchanged(f) && unchanged(f.bridge) && unchanged(f.tcp)
      ensures Held({old(lookups)[i].reply})
      ensures SecondAsked(old(lookups)[i], settings, resolver.barren)
      ensures LookupFits(old(lookups)[i], old(resolver.slots), asked, issued, settings)
    {
      LookupRemoved(old(lookups), i, old(resolver.slots), asked, issued, settings);
      PlacedTaken(old(lookups), flows, waiting, ledger.settled, asked, i);
      LookupsWithout(old(lookups), i);
      assert SecondAsked(old(lookups)[i], settings, old(resolver.barren));
      KeepReasons();
      forall f | f in flows ensures FlowFits(f, asked, resolver.answers, settings) {
        assert FlowFits(f, asked, old(resolver.answers), settings);
      }
      KeepFlows();
    }

    /** Line 502: whether the requester of the lookup at `i` has gone. */
    method RequesterGone(i: nat) returns (closed: bool)
      requires Valid() && i < |lookups|
      modifies ledger`gone, ledger`present
      ensures Held({}) && Attended(lookups, waiting, {}, ledger.gone - {lookups[i].reply})
      ensures lookups[i].reply !in ledger.settled && Grown(old(ledger.present), ledger.present)
      ensures ledger.gone == old(ledger.gone) + if closed then {lookups[i].reply} else {}
      ensures !closed ==> Valid() && lookups[i].reply in ledger.present
    {
      var lookup := lookups[i];
      assert Spot(lookup.reply, lookups, flows, waiting, ledger.settled, asked, {}) by {
        assert lookup in lookups;
      }
      closed := ledger.IsClosed(lookup.reply);
      KeepReasons();
      KeepFlows();
    }

    /** Lines 502 to 511: an expired lookup, or one whose requester is gone. */
    method ExpireLookup(i: nat, ghost now: nat)
      requires Held({}) && i < |lookups|
      requires Attended(lookups, waiting, {}, ledger.gone - {lookups[i].reply})
      requires lookups[i].reply in ledger.gone || lookups[i].deadline <= now <= clock.time
      modifies `lookups, ledger`settled, resolver`slots, resolver`pending
      ensures Valid() && lookups == SwapRemove(old(lookups), i)
      ensures ledger.settled == old(ledger.settled)[old(lookups)[i].reply := Answered(Failed(TimedOut))]
      ensures resolver.pending == old(resolver.pending) - {old(lookups)[i].query}
      ensures old(lookups)[i].reply !in old(ledger.settled)
    {
      var lookup := lookups[i];
      assert lookup in lookups && Spot(lookup.reply, lookups, flows, waiting, ledger.settled, asked, {});
      assert LookupFits(lookup, resolver.slots, asked, issued, settings);
      ghost var ls := lookups;
      lookups := SwapRemove(lookups, i);
      resolver.CancelQuery(lookup.query);
      LookupTaken(i);
      AttendedTaken(ls, i, waiting, ledger.gone - {lookup.reply}, ledger.gone);
      Refuse(lookup.reply, TimedOut);
    }

    /** The request in hand was settled, or opened a flow; no lookup changed. */
    twostate predicate LetGo(reply: RequestId)
      reads this, ledger
    {
      && lookups == old(lookups)
      && (|| (waiting == old(waiting) && reply in ledger.settled && !IsConnected(ledger.settled[reply])
              && ledger.settled == old(ledger.settled)[reply := ledger.settled[reply]])
          || (waiting == old(waiting) + {reply} && ledger.settled == old(ledger.settled)))
    }

    /** Lines 526 to 548: no address; the remaining question is asked, or the request has failed. */
    method AskAgain(lookup: Lookup) returns (requeued: bool)
      requires Consistent({lookup.reply})
      requires lookup.reply in asked && asked[lookup.reply] == Ask(Domain(lookup.name), lookup.port, lookup.deadline)
      requires lookup.reply in issued
      requires issued[lookup.reply] == if lookup.fallback.None? && DualStack(settings) then 2 else 1
      requires lookup.fallback.Some? ==> lookup.fallback.value == Aaaa && DualStack(settings)
      requires QuestionOf(lookup, settings) in resolver.barren && SecondAsked(lookup, settings, resolver.barren)
      modifies `lookups, `issued, ledger`settled, resolver`slots, resolver`refused
      ensures Valid()
      ensures !requeued ==>
        && lookups == old(lookups) && resolver.slots == old(resolver.slots)
        && ledger.settled == old(ledger.settled)[lookup.reply := Answered(Failed(NotFound))]
        && (lookup.fallback.Some? ==> Question(lookup.name, Aaaa) in resolver.refused)
      ensures requeued ==>
        && lookup.fallback.Some? && ledger.settled == old(ledger.settled)
        && |lookups| == |old(lookups)| + 1
        && var l := lookups[|old(lookups)|];
        && l == lookup.(query := l.query, fallback := None) && lookups == old(lookups) + [l]
        && l.query in resolver.slots && resolver.slots[l.query] == Question(lookup.name, Aaaa)
    {
      if lookup.fallback.Some? {
        requeued := StartLookup(lookup.name, lookup.fallback.value, None, lookup.port, lookup.reply, lookup.deadline);
        if requeued {
          return;
        }
      }
      assert NameFails(lookup.name, NotFound, settings, resolver.barren, resolver.refused);
      Refuse(lookup.reply, NotFound);
      requeued := false;
    }

    /** What becomes of a lookup on a final result that is not to be asked again: its request is
        now a flow to the first address, or has that address's error, or has found nothing. */
    twostate predicate Concluded(lookup: Lookup, result: QueryResult)
      reads this, ledger
    {
      if result.Resolved? && result.addresses != [] then
        || OpenedOrRefused(result.addresses[0], lookup.port, lookup.reply)
      else
        && flows == old(flows) && waiting == old(waiting)
        && ledger.settled == old(ledger.settled)[lookup.reply := Answered(Failed(NotFound))]
    }

    /** Lines 523 to 548: a final result for a lookup already taken out of the table. An address
        is connected to; failing that the remaining question is asked; failing that the request
        has failed. */
    method Resume(lookup: Lookup, result: QueryResult) returns (requeued: bool)
      requires Consistent({lookup.reply}) && !result.Pending?
      requires lookup.reply in asked && asked[lookup.reply] == Ask(Domain(lookup.name), lookup.port, lookup.deadline)
      requires lookup.reply in issued
      requires issued[lookup.reply] == if lookup.fallback.None? && DualStack(settings) then 2 else 1
      requires lookup.fallback.Some? ==> lookup.fallback.value == Aaaa && DualStack(settings)
      requires result.Resolved? ==>
        forall ip | ip in result.addresses :: (QuestionOf(lookup, settings), ip) in resolver.answers
      requires WithoutAddress(result) ==> QuestionOf(lookup, settings) in resolver.barren
      requires SecondAsked(lookup, settings, resolver.barren)
      modifies `flows, `sockets, `nextPort, `visits, `waiting, `lookups, `issued,
               ledger`settled, resolver`slots, resolver`refused, clock, iface
      ensures Valid() && old(clock.time) <= clock.time && FlowsOnlyAdded()
      ensures !requeued ==> LetGo(lookup.reply) && Concluded(lookup, result) && resolver.slots == old(resolver.slots)
      ensures !requeued && WithoutAddress(result) && lookup.fallback.Some? ==>
        Question(lookup.name, Aaaa) in resolver.refused
      ensures requeued ==>
        && lookup.fallback.Some? && WithoutAddress(result)
        && flows == old(flows) && waiting == old(waiting) && ledger.settled == old(ledger.settled)
        && |lookups| == |old(lookups)| + 1
        && var l := lookups[|old(lookups)|];
        && l == lookup.(query := l.query, fallback := None) && lookups == old(lookups) + [l]
        && l.query in resolver.slots && resolver.slots[l.query] == Question(lookup.name, Aaaa)
    {
      assert Spot(lookup.reply, lookups, flows, waiting, ledger.settled, asked, {lookup.reply});
      if result.Resolved? && result.addresses != [] {
        ConnectFirst(lookup, result);
        return false;
      }
      requeued := AskAgain(lookup);
    }

    /** Lines 522 to 524. */
    method ConnectFirst(lookup: Lookup, result: QueryResult)
      requires Consistent({lookup.reply}) && result.Resolved? && result.addresses != []
      requires lookup.reply in asked && asked[lookup.reply] == Ask(Domain(lookup.name), lookup.port, lookup.deadline)
      requires forall ip | ip in result.addresses :: (QuestionOf(lookup, settings), ip) in resolver.answers
      modifies `flows, `sockets, `nextPort, `visits, `waiting, ledger`settled, clock, iface
      ensures Valid() && old(clock.time) <= clock.time && FlowsOnlyAdded()
      ensures LetGo(lookup.reply) && Concluded(lookup, result)
    {
      assert result.addresses[0] in result.addresses;
      ConnectIp(result.addresses[0], lookup.port, lookup.reply, lookup.deadline);
    }

    /** Lines 513 to 522: read the result; a final one takes the lookup out of the table. */
    method ReadResult(i: nat) returns (result: QueryResult)
      requires Valid() && i < |lookups|
      modifies `lookups, resolver
      ensures var l := old(lookups)[i];
        && l.reply in asked && asked[l.reply] == Ask(Domain(l.name), l.port, l.deadline)
        && l.reply in issued && issued[l.reply] == (if l.fallback.None? && DualStack(settings) then 2 else 1)
        && (l.fallback.Some? ==> l.fallback.value == Aaaa && DualStack(settings))
        && l.reply !in ledger.settled && SecondAsked(l, settings, resolver.barren)
        && (result.Resolved? ==>
              forall ip | ip in result.addresses :: (QuestionOf(l, settings), ip) in resolver.answers)
        && (WithoutAddress(result) ==> QuestionOf(l, settings) in resolver.barren)
        && Read(l.query, result)
        && resolver.pending
           == (if result.Pending? then old(resolver.pending) + {l.query} else old(resolver.pending) - {l.query})
        && (if result.Pending? then Valid() && lookups == old(lookups)
            else Consistent({l.reply}) && lookups == SwapRemove(old(lookups), i))
    {
      var lookup := lookups[i];
      assert lookup in lookups;
      assert Spot(lookup.reply, lookups, flows, waiting, ledger.settled, asked, {});
      assert LookupFits(lookup, resolver.slots, asked, issued, settings);
      assert SecondAsked(lookup, settings, resolver.barren);
      result := resolver.GetQueryResult(lookup.query);
      if result.Pending? {
        KeepReasons();
        KeepFlows();
      } else {
        ghost var ls := lookups;
        lookups := SwapRemove(lookups, i);
        LookupTaken(i);
        AttendedTaken(ls, i, waiting, ledger.gone, ledger.gone);
      }
    }

    /** The DNS socket has been asked once, about this slot, and has said this. */
    twostate predicate Read(query: nat, result: QueryResult)
      reads resolver
    {
      && resolver.readings == old(resolver.readings) + 1
      && resolver.lastRead == query && resolver.lastResult == result
    }

    /** Lines 513 to 550: a lookup that is still wanted. */
    method PollLookup(i: nat) returns (ghost d: Verdict<Lookup>, keep: bool, ghost result: QueryResult)
      requires Valid() && i < |lookups|
      modifies `flows, `sockets, `nextPort, `visits, `waiting, `lookups, `issued,
               ledger`settled, resolver, clock, iface
      ensures Valid() && old(clock.time) <= clock.time && FlowsOnlyAdded()
      ensures lookups == Advance(Cursor(old(lookups), i), d).vector
      ensures Progress(old(lookups), old(waiting), old(ledger.settled), lookups, waiting, ledger.settled)
      ensures keep <==> d.Keep?
      ensures d.Keep? ==> resolver.pending == old(resolver.pending) + {lookups[i].query}
      ensures !d.Keep? ==> resolver.pending == old(resolver.pending) - {old(lookups)[i].query}
      ensures Read(old(lookups)[i].query, result) && (d.Keep? <==> result.Pending?)
      ensures d.Requeue? ==> Fallback(old(lookups)[i], d.item) && WithoutAddress(result)
      ensures d.Remove? ==> Concluded(old(lookups)[i], result)
    {
      ghost var before := lookups;
      var lookup := lookups[i];
      var read := ReadResult(i);
      result := read;
      if read.Pending? {
        ProgressNone(lookups, waiting, ledger.settled);
        return Keep, true, result;
      }
      d := TakeResult(i, before, lookup, read);
      keep := false;
    }

    /** Lines 522 to 548, for the lookup that was at `i`. */
    method TakeResult(i: nat, ghost before: seq<Lookup>, lookup: Lookup, result: QueryResult)
      returns (ghost d: Verdict<Lookup>)
      requires i < |before| && lookup == before[i] && DistinctLookups(before) && lookups == SwapRemove(before, i)
      requires Consistent({lookup.reply}) && !result.Pending?
      requires lookup.reply in asked && asked[lookup.reply] == Ask(Domain(lookup.name), lookup.port, lookup.deadline)
      requires lookup.reply in issued
      requires issued[lookup.reply] == if lookup.fallback.None? && DualStack(settings) then 2 else 1
      requires lookup.fallback.Some? ==> lookup.fallback.value == Aaaa && DualStack(settings)
      requires result.Resolved? ==>
        forall ip | ip in result.addresses :: (QuestionOf(lookup, settings), ip) in resolver.answers
      requires WithoutAddress(result) ==> QuestionOf(lookup, settings) in resolver.barren
      requires SecondAsked(lookup, settings, resolver.barren)
      modifies `flows, `sockets, `nextPort, `visits, `waiting, `lookups, `issued,
               ledger`settled, resolver`slots, resolver`refused, clock, iface
      ensures Valid() && old(clock.time) <= clock.time && FlowsOnlyAdded() && !d.Keep?
      ensures lookups == Advance(Cursor(before, i), d).vector
      ensures Progress(before, old(waiting), old(ledger.settled), lookups, waiting, ledger.settled)
      ensures d.Requeue? ==> Fallback(lookup, d.item) && WithoutAddress(result)
      ensures d.Remove? ==> Concluded(lookup, result)
    {
      assert Spot(lookup.reply, lookups, flows, waiting, ledger.settled, asked, {lookup.reply});
      var requeued := Resume(lookup, result);
      if requeued {
        ghost var l := lookups[|before| - 1];
        ProgressRequeued(before, i, l, waiting, ledger.settled);
        return Requeue(l);
      }
      ProgressLetGo(before, i, old(waiting), old(ledger.settled), waiting, ledger.settled);
      return Remove;
    }

    /** A lookup leaves the table only because its requester is gone or its time is up, and then it
        times out, or because a final result for it has been read, and then that decides. */
    twostate predicate LeftFor(lookup: Lookup, now: nat)
      reads this, ledger, resolver
    {
      || ((lookup.reply in ledger.gone || lookup.deadline <= now)
          && ledger.settled == old(ledger.settled)[lookup.reply := Answered(Failed(TimedOut))])
      || (Read(lookup.query, resolver.lastResult) && !resolver.lastResult.Pending?
          && Concluded(lookup, resolver.lastResult))
    }

    /** One iteration of the lookup walk, lines 500 to 551. */
    method StepLookup(i: nat, now: nat) returns (ghost d: Verdict<Lookup>, keep: bool)
      requires Valid() && i < |lookups| && now <= clock.time
      modifies `flows, `sockets, `nextPort, `visits, `waiting, `lookups, `issued,
               ledger, resolver, clock, iface
      ensures Valid() && old(clock.time) <= clock.time && FlowsOnlyAdded()
      ensures lookups == Advance(Cursor(old(lookups), i), d).vector
      ensures Progress(old(lookups), old(waiting), old(ledger.settled), lookups, waiting, ledger.settled)
      ensures keep <==> d.Keep?
      ensures d.Keep? ==> Wanted(lookups[i], now, resolver.pending, ledger.present)
      ensures d.Keep? || d.Requeue? ==> old(lookups)[i].reply in ledger.present && old(lookups)[i].reply !in ledger.gone
      ensures Grown(old(ledger.present), ledger.present)
      ensures OnlyLoses(old(resolver.pending), resolver.pending, old(lookups)[i].query)
      ensures d.Requeue? ==> Fallback(old(lookups)[i], d.item) && WithoutAddress(resolver.lastResult)
      ensures d.Remove? ==> LeftFor(old(lookups)[i], now)
    {
      var lookup := lookups[i];
      var closed := RequesterGone(i);
      if closed || now >= lookup.deadline {
        ExpireLookup(i, now);
        ProgressTaken(old(lookups), i, waiting, old(ledger.settled), waiting, ledger.settled);
        return Remove, false;
      }
      label open:
      ghost var result;
      d, keep, result := PollLookup(i);
      assert d.Remove? ==> Concluded@open(lookup, result);
    }

    /** One iteration, seen as a step of the walk that began at `c`. */
    method WalkLookup(i: nat, now: nat, ghost c: Cursor<Lookup>, ghost ds: seq<Verdict<Lookup>>)
      returns (next: nat, ghost ds': seq<Verdict<Lookup>>)
      requires Valid() && now <= clock.time && i < |lookups|
      requires InRange(c, ds) && Walk(c, ds) == Cursor(lookups, i)
      requires AllWanted(lookups[..i], now, resolver.pending, ledger.present)
      modifies `flows, `sockets, `nextPort, `visits, `waiting, `lookups, `issued,
               ledger, resolver, clock, iface
      ensures Valid() && old(clock.time) <= clock.time && FlowsOnlyAdded()
      ensures Progress(old(lookups), old(waiting), old(ledger.settled), lookups, waiting, ledger.settled)
      ensures next <= |lookups| && InRange(c, ds') && Walk(c, ds') == Cursor(lookups, next)
      ensures AllWanted(lookups[..next], now, resolver.pending, ledger.present)
      ensures Work(lookups[next..]) < Work(old(lookups)[i..])
    {
      ghost var d;
      var keep;
      d, keep := StepLookup(i, now);
      PassedStayWanted(old(lookups), i, d, lookups, old(resolver.pending), resolver.pending,
                       old(ledger.present), ledger.present, now);
      WalkOn(c, ds, old(lookups), i, d, lookups);
      next, ds' := if keep then i + 1 else i, ds + [d];
    }

    /** The lookup walk, lines 499 to 551. It ends although it pushes back onto the vector it is
        walking, it misses no lookup, and what is left is pending and has time left. */
    method StepLookups(now: nat) returns (ghost ds: seq<Verdict<Lookup>>)
      requires Valid() && now <= clock.time
      modifies `flows, `sockets, `nextPort, `visits, `waiting, `lookups, `issued,
               ledger, resolver, clock, iface
      ensures Valid() && old(clock.time) <= clock.time && FlowsOnlyAdded()
      ensures Progress(old(lookups), old(waiting), old(ledger.settled), lookups, waiting, ledger.settled)
      ensures Covers(old(lookups), ds, lookups)
      ensures AllWanted(lookups, now, resolver.pending, ledger.present)
    {
      ds := [];
      resolver.BeginRound();
      ledger.BeginRound();
      KeepFlows();
      ghost var c := Cursor(lookups, 0);
      ProgressNone(lookups, waiting, ledger.settled);
      var i := 0;
      while i < |lookups|
        invariant Valid() && now <= clock.time && old(clock.time) <= clock.time && FlowsOnlyAdded()
        invariant 0 <= i <= |lookups| && InRange(c, ds) && Walk(c, ds) == Cursor(lookups, i)
        invariant Progress(c.vector, old(waiting), old(ledger.settled), lookups, waiting, ledger.settled)
        invariant AllWanted(lookups[..i], now, resolver.pending, ledger.present)
        decreases Work(lookups[i..])
      {
        ghost var ls, w, s := lookups, waiting, ledger.settled;
        i, ds := WalkLookup(i, now, c, ds);
        ProgressComposes(c.vector, old(waiting), old(ledger.settled), ls, w, s, lookups, waiting, ledger.settled);
      }
      assert lookups[..i] == lookups;
      WalkCovers(c.vector, ds);
    }

    ghost predicate OthersOk(i: nat)
      requires i < |flows|
      reads this, ledger, flows, Bridges(flows), TcpSockets(flows)
    {
      forall g {:trigger FlowOk(g)} | g in flows :: g == flows[i] || FlowOk(g)
    }

    /** What touches only the flow at `i` leaves the others as valid as before. */
    twostate lemma KeepOthers(i: nat)
      requires flows == old(flows) && i < |flows| && old(OthersOk(i)) && AllApart(flows) && OutcomesStay()
      requires forall g | g in flows && Apart(g, flows[i]) :: g.request in waiting <==> g.request in old(waiting)
      requires forall g | g in flows && Apart(g, flows[i]) :: unchanged(g) && unchanged(g.bridge) && unchanged(g.tcp)
      ensures OthersOk(i)
    {
      OthersApart(flows, i);
      forall g | g in flows && g != flows[i] ensures FlowOk(g) {
        assert Apart(g, flows[i]);
        assert old(FlowOk(g));
      }
    }

    /** A flow that has been kept at time `now` has time left: for its answer while it waits, and
        then its requester has been found present; before the idle timeout once it is open. */
    ghost predicate InTime(f: Flow, now: nat)
      reads f, ledger`present
    {
      && (f.reply.Some? ==> now < f.deadline && f.request in ledger.present)
      && (f.reply.None? && idleTimeout > 0 ==> now < f.activity + idleTimeout)
    }

    /** The flow has been polled, and its socket tells the answer; if it is not kept there is an
        excuse. */
    twostate predicate Polled(f: Flow, now: nat, keep: bool)
      reads this, ledger, f, f.bridge, f.tcp
    {
      && f.polls == old(f.polls) + 1 && (keep <==> !f.tcp.state.Closed?)
      && if keep then f.Pumped(old(f.Now())) else f.Excused(old(f.Now()), ledger.gone, now, idleTimeout)
    }

    method PollAt(i: nat, now: nat) returns (keep: bool)
      requires Valid() && i < |flows| && now <= clock.time
      requires flows[i].request in waiting ==> flows[i].request !in ledger.settled
      modifies ledger, flows[i], flows[i].bridge, flows[i].tcp
      ensures OthersOk(i) && flows[i].Streams() && Polled(flows[i], now, keep)
      ensures keep ==> flows[i].Valid() && !flows[i].tcp.aborted && InTime(flows[i], now)
      ensures ledger.Sound() && Later(old(Observed()), Observed(), old(ledger.settled))
      ensures Grown(old(ledger.present), ledger.present)
      ensures Grown(ledger.gone, old(ledger.gone) + {flows[i].request})
      ensures keep && flows[i].reply.Some? ==> flows[i].request !in ledger.gone
      ensures !keep && flows[i].reply.Some? ==> flows[i].request in ledger.gone
      ensures var f := flows[i];
        && old(f.reply.Some?) == (f.request in waiting)
        && (f.reply.Some? ==> f.request in waiting && ledger.settled == old(ledger.settled))
        && (f.request !in waiting ==>
              ledger.settled == old(ledger.settled) && AnsweredOpen(f, waiting, ledger.settled, ledger.seen))
        && (f.reply.None? && f.request in waiting ==>
              && f.request in ledger.settled
              && ledger.settled == old(ledger.settled)[f.request := ledger.settled[f.request]]
              && Justified(ledger.settled[f.request], f.request, settings, Observed())
              && (keep ==> AnsweredOpen(f, {}, ledger.settled, ledger.seen)))
    {
      var flow := flows[i];
      assert SocketFits(flow, sockets, dns) && FlowOk(flow);
      assert FlowFits(flow, asked, resolver.answers, settings);
      ghost var delivered, collected;
      keep, delivered, collected := flow.Poll(sockets[flow.socket].tcp, ledger, now, idleTimeout);
      KeepOthers(i);
    }

    /** The request of the flow at `i` has been settled: it waits no longer. */
    ghost method StopWaiting(i: nat, settled: map<RequestId, Outcome>)
      requires i < |flows| && flows[i].request in waiting
      requires LookupTable(lookups, resolver.slots, asked, issued, settings)
      requires FlowTable(flows, sockets, dns, resolver)
      requires Placed(lookups, flows, waiting, settled, asked, {}) && OthersOk(i)
      requires flows[i].request in ledger.settled
      requires ledger.settled == settled[flows[i].request := ledger.settled[flows[i].request]]
      modifies `waiting
      ensures waiting == old(waiting) - {flows[i].request} && OthersOk(i)
      ensures Placed(lookups, flows, waiting, ledger.settled, asked, {})
      ensures Progress(lookups, old(waiting), settled, lookups, waiting, ledger.settled)
    {
      var id := flows[i].request;
      PlacedAnswered(lookups, flows, waiting, settled, asked, i, ledger.settled[id]);
      ProgressAnswered(lookups, id, waiting, settled, ledger.settled);
      waiting := waiting - {id};
      KeepOthers(i);
    }

    /** The flow at `i` is to go with its reply unused. */
    ghost method DropAt(i: nat)
      requires i < |flows| && OthersOk(i) && AllApart(flows) && ledger.Sound()
      requires flows[i].request !in ledger.settled && flows[i].request in ledger.gone
      modifies ledger`settled
      ensures OthersOk(i) && ledger.Sound() && ledger.settled == old(ledger.settled)[flows[i].request := Dropped]
    {
      ledger.Drop(flows[i].request);
      KeepOthers(i);
    }

    /** The request of the flow at `i` has been settled, or is dropped with its flow. */
    ghost method LetRequestGo(i: nat, settled: map<RequestId, Outcome>)
      requires i < |flows| && flows[i].request in waiting && flows[i].request !in settled && ledger.Sound()
      requires LookupTable(lookups, resolver.slots, asked, issued, settings)
      requires FlowTable(flows, sockets, dns, resolver)
      requires Placed(lookups, flows, waiting, settled, asked, {}) && OthersOk(i)
      requires flows[i].reply.Some? ==> ledger.settled == settled && flows[i].request in ledger.gone
      requires flows[i].reply.None? ==>
        && flows[i].request in ledger.settled
        && ledger.settled == settled[flows[i].request := ledger.settled[flows[i].request]]
      modifies `waiting, ledger`settled
      ensures waiting == old(waiting) - {flows[i].request} && OthersOk(i) && ledger.Sound()
      ensures Placed(lookups, flows, waiting, ledger.settled, asked, {})
      ensures Progress(lookups, old(waiting), settled, lookups, waiting, ledger.settled)
      ensures Observed() == old(Observed())
      ensures if flows[i].reply.Some? then ledger.settled == settled[flows[i].request := Dropped]
              else ledger.settled == old(ledger.settled)
    {
      if flows[i].reply.Some? {
        DropAt(i);
      }
      StopWaiting(i, settled);
    }

    /** Lines 554 to 556: poll the flow at `i`. If it is to go, its reply is used up or dropped. */
    method PollFlow(i: nat, now: nat) returns (keep: bool)
      requires Valid() && i < |flows| && now <= clock.time
      modifies `waiting, ledger, flows[i], flows[i].bridge, flows[i].tcp
      ensures Shell({}) && OthersOk(i)
      ensures Progress(lookups, old(waiting), old(ledger.settled), lookups, waiting, ledger.settled)
      ensures keep ==> FlowOk(flows[i]) && InTime(flows[i], now)
      ensures !keep ==> flows[i].request !in waiting
      ensures flows[i].Streams() && Polled(flows[i], now, keep) && Grown(old(ledger.gone), ledger.gone)
      ensures Attended(lookups, waiting, {}, ledger.gone) && Grown(old(ledger.present), ledger.present)
    {
      ghost var settled, id, w, gone := ledger.settled, flows[i].request, waiting, ledger.gone;
      assert Spot(id, lookups, flows, waiting, ledger.settled, asked, {});
      keep := PollAt(i, now);
      ProgressNone(lookups, waiting, settled);
      if id in waiting && !(keep && flows[i].reply.Some?) {
        LetRequestGo(i, settled);
        SettledForReason(id);
      } else {
        KeepReasons();
      }
      AttendedPolled(lookups, w, gone, id, waiting, ledger.gone);
    }

    /** Lines 557 and 558: the flow at `i` and its socket go. */
    method RemoveFlow(i: nat)
      requires Shell({}) && i < |flows| && OthersOk(i) && flows[i].request !in waiting
      requires Attended(lookups, waiting, {}, ledger.gone)
      modifies `flows, `sockets
      ensures Valid() && flows == SwapRemove(old(flows), i)
    {
      var flow := flows[i];
      PlacedGone(lookups, flows, waiting, ledger.settled, asked, i);
      FlowRemoved(flows, i, sockets, dns, resolver);
      PortsAfterRemoval(flows, i);
      FlowsWithout(flows, i);
      forall f | f in SwapRemove(flows, i) ensures FlowFits(f, asked, resolver.answers, settings) {
        assert FlowFits(f, asked, resolver.answers, settings);
      }
      flows := SwapRemove(flows, i);
      sockets := sockets - {flow.socket};
      forall f | f in flows ensures FlowOk(f) {
        assert old(FlowOk(f));
      }
    }

    /** The flows passed by the walk are in time. */
    ghost predicate PassedInTime(n: nat, now: nat)
      requires n <= |flows|
      reads this, flows, ledger`present
    {
      forall k {:trigger InTime(flows[k], now)} | 0 <= k < n :: InTime(flows[k], now)
    }

    twostate lemma StillInTime(i: nat, new now: nat)
      requires flows == old(flows) && i < |flows| && AllApart(flows) && old(PassedInTime(i, now))
      requires Grown(old(ledger.present), ledger.present)
      requires forall g | g in flows && Apart(g, flows[i]) :: unchanged(g)
      ensures PassedInTime(i, now)
    {
      AllApartMeans(flows);
      forall k | 0 <= k < i ensures InTime(flows[k], now) {
        assert Apart(flows[k], flows[i]);
        assert old(InTime(flows[k], now));
      }
    }

    /** One iteration of the flow walk, lines 553 to 562. */
    method StepFlow(i: nat, now: nat) returns (keep: bool)
      requires Valid() && i < |flows| && now <= clock.time && PassedInTime(i, now)
      modifies `flows, `sockets, `waiting, ledger, flows[i], flows[i].bridge, flows[i].tcp
      ensures Valid() && Polled(old(flows)[i], now, keep) && Grown(old(ledger.gone), ledger.gone)
      ensures Grown(old(ledger.present), ledger.present)
      ensures Progress(lookups, old(waiting), old(ledger.settled), lookups, waiting, ledger.settled)
      ensures flows == Advance(Cursor(old(flows), i), if keep then Keep else Remove).vector
      ensures var next := if keep then i + 1 else i;
        next <= |flows| && PassedInTime(next, now)
    {
      keep := PollFlow(i, now);
      StillInTime(i, now);
      KeepOrRemove(i, now, keep);
    }

    method KeepOrRemove(i: nat, ghost now: nat, keep: bool)
      requires Shell({}) && i < |flows| && OthersOk(i) && PassedInTime(i, now)
      requires Attended(lookups, waiting, {}, ledger.gone)
      requires if keep then FlowOk(flows[i]) && InTime(flows[i], now) else flows[i].request !in waiting
      modifies `flows, `sockets
      ensures Valid() && flows == Advance(Cursor(old(flows), i), if keep then Keep else Remove).vector
      ensures var next := if keep then i + 1 else i;
        next <= |flows| && PassedInTime(next, now)
    {
      if keep {
        KeepTogether(i);
      } else {
        RemoveFlow(i);
      }
    }

    lemma KeepTogether(i: nat)
      requires i < |flows| && Shell({}) && OthersOk(i) && FlowOk(flows[i])
      requires Attended(lookups, waiting, {}, ledger.gone)
      ensures Valid()
    {
      forall f | f in flows ensures FlowOk(f) {}
    }

    /** Where the flow walk stands: it began at `c` with the requests as in `w` and `s`, and has
        made the decisions `ds`. */
    ghost predicate Walked(i: nat, now: nat, c: Cursor<Flow>, ds: seq<Verdict<Flow>>,
                           w: set<RequestId>, s: map<RequestId, Outcome>)
      reads this, ledger, flows, resolver
    {
      && i <= |flows| && PassedInTime(i, now) && AllWanted(lookups, now, resolver.pending, ledger.present)
      && InRange(c, ds) && Walk(c, ds) == Cursor(flows, i)
      && (forall k | 0 <= k < |ds| :: !ds[k].Requeue?)
      && (forall f | f in flows :: f in c.vector)
      && Progress(lookups, w, s, lookups, waiting, ledger.settled)
    }

    /** A flow of the walk that stands at `i`: untouched if it is still ahead; otherwise polled once,
        and in the vector still exactly if its socket is not closed, which is what its poll said. */
    ghost predicate PolledOnce(f: Flow, i: nat, now: nat, start: map<Flow, Snapshot>)
      requires f in start && i <= |flows|
      reads this, ledger, f, f.bridge, f.tcp
    {
      if f in flows[i..] then f in flows && f.Now() == start[f]
      else
        && f.polls == start[f].polls + 1 && (f in flows <==> !f.tcp.state.Closed?)
        && if f in flows then f.Pumped(start[f]) else f.Excused(start[f], ledger.gone, now, idleTimeout)
    }

    ghost predicate AllPolled(all: seq<Flow>, i: nat, now: nat, start: map<Flow, Snapshot>)
      requires i <= |flows| && forall f | f in all :: f in start
      reads this, ledger, all, Bridges(all), TcpSockets(all)
    {
      forall f {:trigger PolledOnce(f, i, now, start)} | f in all :: PolledOnce(f, i, now, start)
    }

    /** One iteration, seen as a step of that walk. */
    method WalkFlow(i: nat, now: nat, ghost c: Cursor<Flow>, ghost ds: seq<Verdict<Flow>>,
                    ghost w: set<RequestId>, ghost s: map<RequestId, Outcome>, ghost start: map<Flow, Snapshot>)
      returns (next: nat, ghost ds': seq<Verdict<Flow>>)
      requires Valid() && i < |flows| && now <= clock.time && Walked(i, now, c, ds, w, s)
      requires AllApart(c.vector) && (forall f | f in c.vector :: f in start) && AllPolled(c.vector, i, now, start)
      modifies `flows, `sockets, `waiting, ledger, flows[i], flows[i].bridge, flows[i].tcp
      ensures Valid() && Walked(next, now, c, ds', w, s) && AllPolled(c.vector, next, now, start)
      ensures |flows| - next < |old(flows)| - i
    {
      FlowsWithout(flows, i);
      ghost var g := flows[i];
      var keep := StepFlow(i, now);
      ghost var d := if keep then Keep else Remove;
      WalkAppend(c, ds, d);
      ProgressComposes(lookups, w, s, lookups, old(waiting), old(ledger.settled), lookups, waiting, ledger.settled);
      next, ds' := if keep then i + 1 else i, ds + [d];
      StillWanted(lookups, now, resolver.pending, old(ledger.present), ledger.present);
      AheadAfter(old(flows), i, keep);
      forall f | f in c.vector ensures PolledOnce(f, next, now, start) {
        assert old(PolledOnce(f, i, now, start));
        if f != g {
          ApartWithin(c.vector, f, g);
        }
      }
    }

    /** Each of these flows has been polled exactly once, and those that are still in the vector are
        exactly those whose poll said so; the others have an excuse. */
    twostate predicate EachPolled(fs: seq<Flow>, now: nat)
      reads this, ledger, fs, Bridges(fs), TcpSockets(fs)
    {
      forall f | f in fs ::
        && f.polls == old(f.polls) + 1 && (f in flows <==> !f.tcp.state.Closed?)
        && if f in flows then f.Pumped(old(f.Now())) else f.Excused(old(f.Now()), ledger.gone, now, idleTimeout)
    }

    ghost function Snapshots(): (start: map<Flow, Snapshot>)
      reads this, flows, Bridges(flows)
      ensures forall f | f in flows :: f in start && start[f] == f.Now()
    {
      map f | f in Members(flows) :: f.Now()
    }

    lemma NothingPolled(now: nat)
      ensures AllPolled(flows, 0, now, Snapshots())
    {
      forall f | f in flows ensures PolledOnce(f, 0, now, Snapshots()) {}
    }

    /** At the end of the walk. */
    twostate lemma WalkHasPolled(new now: nat, start: map<Flow, Snapshot>)
      requires forall f | f in old(flows) :: f in start && start[f] == old(f.Now())
      requires AllPolled(old(flows), |flows|, now, start)
      ensures EachPolled(old(flows), now)
    {
      forall f | f in old(flows)
        ensures f.polls == old(f.polls) + 1 && (f in flows <==> !f.tcp.state.Closed?)
        ensures if f in flows then f.Pumped(old(f.Now())) else f.Excused(old(f.Now()), ledger.gone, now, idleTimeout)
      {
        assert PolledOnce(f, |flows|, now, start);
      }
    }

    /** The loop of lines 553 to 562. */
    method PollAll(now: nat, ghost start: map<Flow, Snapshot>) returns (ghost ds: seq<Verdict<Flow>>)
      requires Valid() && now <= clock.time && start == Snapshots()
      requires AllWanted(lookups, now, resolver.pending, ledger.present)
      modifies `flows, `sockets, `waiting, ledger,
               Members(flows), Bridges(flows), TcpSockets(flows)
      ensures Valid() && AllPolled(old(flows), |flows|, now, start)
      ensures Walked(|flows|, now, Cursor(old(flows), 0), ds, old(waiting), old(ledger.settled))
    {
      ds := [];
      ghost var c := Cursor(flows, 0);
      ProgressNone(lookups, waiting, ledger.settled);
      NothingPolled(now);
      var i := 0;
      while i < |flows|
        invariant 0 <= i && Valid() && Walked(i, now, c, ds, old(waiting), old(ledger.settled))
        invariant AllPolled(c.vector, i, now, start)
        decreases |flows| - i
      {
        assert flows[i] in c.vector && flows[i] in Members(c.vector);
        assert flows[i].bridge in Bridges(c.vector) && flows[i].tcp in TcpSockets(c.vector);
        i, ds := WalkFlow(i, now, c, ds, old(waiting), old(ledger.settled), start);
      }
    }

    /** The flow walk, lines 552 to 562: each flow present is polled exactly once, exactly those
        whose poll says so are kept, and those are in time. */
    method StepFlows(now: nat) returns (ghost ds: seq<Verdict<Flow>>)
      requires Valid() && now <= clock.time && AllWanted(lookups, now, resolver.pending, ledger.present)
      modifies `flows, `sockets, `waiting, ledger,
               Members(flows), Bridges(flows), TcpSockets(flows)
      ensures Valid() && PassedInTime(|flows|, now) && EachPolled(old(flows), now)
      ensures AllWanted(lookups, now, resolver.pending, ledger.present)
      ensures Progress(lookups, old(waiting), old(ledger.settled), lookups, waiting, ledger.settled)
      ensures forall f | f in flows :: f in old(flows)
      ensures Covers(old(flows), ds, flows) && |ds| == |old(flows)|
    {
      ghost var start := Snapshots();
      ds := PollAll(now, start);
      WalkCovers(old(flows), ds);
      WalkIsFilter(old(flows), ds, flows);
      WalkHasPolled(now, start);
    }

    /** Nothing old has become part of a flow. */
    twostate predicate PartsOnlyNew()
      reads this
    {
      forall f | f in flows :: f in old(flows) || (fresh(f) && fresh(f.bridge) && fresh(f.tcp))
    }

    /** Every flow has been polled exactly once since `start`, and those no longer there had an
        excuse. */
    ghost predicate EachServed(fs: seq<Flow>, start: map<Flow, Snapshot>, now: nat)
      requires forall f | f in fs :: f in start
      reads this, ledger`gone, fs, Bridges(fs), TcpSockets(fs)
    {
      forall f | f in fs ::
        && f.polls == start[f].polls + 1
        && (f !in flows ==> f.tcp !in TcpSockets(flows) && f.Excused(start[f], ledger.gone, now, idleTimeout))
    }

    /** Both walks, lines 499 to 562. */
    method Walks(now: nat)
      requires Valid() && now <= clock.time
      modifies `flows, `sockets, `nextPort, `visits, `waiting, `lookups, `issued,
               ledger, resolver, clock, iface,
               Members(flows), Bridges(flows), TcpSockets(flows)
      ensures Valid() && old(clock.time) <= clock.time && EachServed(old(flows), old(Snapshots()), now)
      ensures Progress(old(lookups), old(waiting), old(ledger.settled), lookups, waiting, ledger.settled)
      ensures AllWanted(lookups, now, resolver.pending, ledger.present)
      ensures PassedInTime(|flows|, now)
      ensures PartsOnlyNew()
    {
      ghost var start := Snapshots();
      LookupWalk(now);
      ghost var ls, w, s := lookups, waiting, ledger.settled;
      ServeFlows(now, old(flows), start);
      ProgressComposes(old(lookups), old(waiting), old(ledger.settled), ls, w, s, lookups, waiting, ledger.settled);
    }

    /** Lines 499 to 551. */
    method LookupWalk(now: nat)
      requires Valid() && now <= clock.time
      modifies `flows, `sockets, `nextPort, `visits, `waiting, `lookups, `issued,
               ledger, resolver, clock, iface
      ensures Valid() && old(clock.time) <= clock.time && PartsOnlyNew()
      ensures Progress(old(lookups), old(waiting), old(ledger.settled), lookups, waiting, ledger.settled)
      ensures AllWanted(lookups, now, resolver.pending, ledger.present)
      ensures forall f | f in old(flows) :: f in flows && f.Now() == old(f.Now())
    {
      ghost var asks := StepLookups(now);
    }

    method ServeFlows(now: nat, ghost fs: seq<Flow>, ghost start: map<Flow, Snapshot>)
      requires Valid() && now <= clock.time && AllWanted(lookups, now, resolver.pending, ledger.present)
      requires forall f | f in fs :: f in flows && f in start && start[f] == f.Now()
      modifies `flows, `sockets, `waiting, ledger,
               Members(flows), Bridges(flows), TcpSockets(flows)
      ensures Valid() && PassedInTime(|flows|, now) && EachServed(fs, start, now)
      ensures AllWanted(lookups, now, resolver.pending, ledger.present)
      ensures Progress(lookups, old(waiting), old(ledger.settled), lookups, waiting, ledger.settled)
      ensures forall f | f in flows :: f in old(flows)
    {
      ghost var polls := StepFlows(now);
      Served(old(flows), now);
    }

    /** Flows that have left a vector of flows that were all apart share nothing with those left. */
    twostate lemma Served(fs: seq<Flow>, new now: nat)
      requires fs == old(flows) && AllApart(fs) && EachPolled(fs, now) && forall f | f in flows :: f in fs
      ensures EachServed(fs, old(Snapshots()), now)
    {
      forall f | f in fs && f !in flows ensures f.tcp !in TcpSockets(flows) {
        forall g | g in flows ensures g.tcp != f.tcp {
          ApartWithin(fs, g, f);
        }
      }
    }

    /** The second poll of the interface, lines 563 and 564. */
    method PollLast(ghost now: nat, ghost fs: seq<Flow>, ghost start: map<Flow, Snapshot>)
      requires Valid() && PassedInTime(|flows|, now) && AllWanted(lookups, now, resolver.pending, ledger.present)
      requires (forall f | f in fs :: f in start) && EachServed(fs, start, now)
      modifies `incoming, `eaten, `failed, TcpSockets(flows)
      ensures Valid() && Tended(fs, start, now) && Ate() && (old(failed) ==> failed)
    {
      PollInterfaceInTime(now, fs, start);
    }

    /** Polling the interface moves no deadline and counts as no activity. */
    method PollInterfaceInTime(ghost now: nat, ghost fs: seq<Flow>, ghost start: map<Flow, Snapshot>)
      requires Valid() && PassedInTime(|flows|, now)
      requires (forall f | f in fs :: f in start) && EachServed(fs, start, now)
      modifies `incoming, `eaten, `failed, TcpSockets(flows)
      ensures Valid() && PassedInTime(|flows|, now) && EachServed(fs, start, now)
      ensures Ate()
      ensures old(failed) ==> failed
    {
      PollInterface();
      forall k | 0 <= k < |flows| ensures InTime(flows[k], now) {
        assert old(InTime(flows[k], now));
      }
    }

    /** A step at the time `now` has been taken: what is still here is pending and in time, and these
        flows have each been polled once since they were as in `start`. */
    ghost predicate Tended(fs: seq<Flow>, start: map<Flow, Snapshot>, now: nat)
      reads this, ledger`gone, ledger`present, resolver, flows, fs, Bridges(fs), TcpSockets(fs)
    {
      && AllWanted(lookups, now, resolver.pending, ledger.present) && PassedInTime(|flows|, now)
      && (forall f | f in fs :: f in start) && EachServed(fs, start, now)
    }

    lemma TendedSome(all: seq<Flow>, snapshots: map<Flow, Snapshot>, fs: seq<Flow>, start: map<Flow, Snapshot>,
                     now: nat)
      requires Tended(all, snapshots, now)
      requires forall f | f in fs :: f in all && f in start && start[f] == snapshots[f]
      ensures Tended(fs, start, now)
    {
    }

    /** Lines 494 to 566, at the time `now` read in between. Every flow is polled once, and what is
        given up has an excuse; nothing that is still parked has passed its deadline, no open flow
        has been idle for too long; requests parked before are parked still or settled, and with
        the invariant every outcome is justified. */
    method Step() returns (now: nat)
      requires Valid()
      modifies this, ledger, resolver, clock, iface,
               Members(flows), Bridges(flows), TcpSockets(flows)
      ensures Valid() && old(clock.time) <= now <= clock.time && PartsOnlyNew()
      ensures Tended(old(flows), old(Snapshots()), now)
      ensures Progress(old(lookups), old(waiting), old(ledger.settled), lookups, waiting, ledger.settled)
      ensures asked == old(asked) && (old(failed) ==> failed)
      ensures Ate()
    {
      now := PollFirst();
      WalkAndPoll(now);
    }

    /** Lines 495 to 498. */
    method PollFirst() returns (now: nat)
      requires Valid()
      modifies `incoming, `eaten, `failed, clock, TcpSockets(flows)
      ensures Valid() && old(clock.time) <= now <= clock.time && Snapshots() == old(Snapshots())
      ensures Ate()
      ensures old(failed) ==> failed
    {
      PollInterface();
      now := ReadClock({});
      SameSnapshots();
    }

    twostate lemma SameSnapshots()
      requires flows == old(flows) && forall f | f in flows :: unchanged(f) && unchanged(f.bridge)
      ensures Snapshots() == old(Snapshots())
    {
    }

    /** Lines 499 to 564. */
    method WalkAndPoll(now: nat)
      requires Valid() && now <= clock.time
      modifies this, ledger, resolver, clock, iface,
               Members(flows), Bridges(flows), TcpSockets(flows)
      ensures Valid() && old(clock.time) <= clock.time && PartsOnlyNew()
      ensures Tended(old(flows), old(Snapshots()), now)
      ensures Progress(old(lookups), old(waiting), old(ledger.settled), lookups, waiting, ledger.settled)
      ensures asked == old(asked) && (old(failed) ==> failed)
      ensures Ate()
    {
      ghost var start, was := Snapshots(), flows;
      Walks(now);
      PollLast(now, was, start);
    }

    /** The engine is destroyed: every sender parked in it goes with it. */
    ghost method Discard()
      requires Valid()
      modifies ledger`settled
      ensures ledger.settled == old(ledger.settled) + map id | id in Parked() :: Dropped
      ensures ledger.Sound()
      ensures forall id | IsParked(id, lookups, waiting) :: id !in old(ledger.settled) && ledger.settled[id] == Dropped
    {
      forall id | id in Parked() ensures id !in ledger.settled {
        assert Spot(id, lookups, flows, waiting, ledger.settled, asked, {});
      }
      ledger.DropAll(Parked());
      forall id | IsParked(id, lookups, waiting) ensures id in Parked() {}
    }

    /** A packet for the device. */
    method Push(packet: Protocol.Packet)
      requires Valid()
      modifies `incoming
      ensures Valid() && incoming == old(incoming) + [packet]
    {
      incoming := incoming + [packet];
      KeepFlows();
    }

    lemma ParkedMeans()
      ensures forall id :: id in Parked() <==> IsParked(id, lookups, waiting)
    {
    }

    // ---- What the invariant means ----

    /** The occupied DNS slots are exactly the handles the lookups hold, no two lookups hold the
        same one, and each slot is asking its own lookup's question. */
    lemma SlotsAreExact()
      requires Valid()
      ensures forall q :: q in resolver.slots <==> exists l :: l in lookups && l.query == q
      ensures forall i, j | 0 <= i < j < |lookups| ::
        lookups[i].query != lookups[j].query && lookups[i].reply != lookups[j].reply
      ensures forall l | l in lookups :: l.query in resolver.slots && resolver.slots[l.query] == QuestionOf(l, settings)
    {
      forall q ensures q in resolver.slots <==> exists l :: l in lookups && l.query == q {
        assert SlotHeld(q, lookups, resolver.slots);
      }
      DistinctMeans(lookups);
      forall i, j | 0 <= i < j < |lookups|
        ensures lookups[i].query != lookups[j].query && lookups[i].reply != lookups[j].reply
      {
        assert Differ(lookups[i], lookups[j]);
      }
      forall l | l in lookups ensures l.query in resolver.slots && resolver.slots[l.query] == QuestionOf(l, settings) {
        assert LookupFits(l, resolver.slots, asked, issued, settings);
      }
    }

    /** The socket set is exactly the DNS socket and one socket per flow, all different, and live
        flows have different local ports. */
    lemma SocketsAreExact()
      requires Valid()
      ensures forall h :: h in sockets <==> h == dns || exists f :: f in flows && f.socket == h
      ensures forall f | f in flows :: f.socket != dns && f.socket in sockets && sockets[f.socket] == TcpSlot(f.tcp)
      ensures forall i, j | 0 <= i < j < |flows| ::
        && flows[i].socket != flows[j].socket && flows[i].tcp != flows[j].tcp
        && flows[i].local.port != flows[j].local.port && flows[i].request != flows[j].request
    {
      forall h ensures h in sockets <==> h == dns || exists f :: f in flows && f.socket == h {
        assert PlaceHeld(h, flows, sockets, dns);
      }
      forall f | f in flows ensures f.socket != dns && f.socket in sockets && sockets[f.socket] == TcpSlot(f.tcp) {
        assert SocketFits(f, sockets, dns);
      }
      AllApartMeans(flows);
      forall i, j | 0 <= i < j < |flows|
        ensures flows[i].socket != flows[j].socket && flows[i].tcp != flows[j].tcp
        ensures flows[i].local.port != flows[j].local.port && flows[i].request != flows[j].request
      {
        assert Apart(flows[i], flows[j]);
      }
    }

    /** The one deadline of a request stays with it through both name lookups and its flow. */
    lemma DeadlineIsCarried(id: RequestId)
      requires Valid() && id in asked
      ensures forall l | l in lookups && l.reply == id :: l.deadline == asked[id].deadline
      ensures forall f | f in flows && f.request == id :: f.deadline == asked[id].deadline
      ensures id in issued ==> issued[id] <= 2
    {
      forall l | l in lookups && l.reply == id ensures l.deadline == asked[id].deadline {
        assert LookupFits(l, resolver.slots, asked, issued, settings);
      }
      forall f | f in flows && f.request == id ensures f.deadline == asked[id].deadline {
        assert FlowFits(f, asked, resolver.answers, settings);
      }
    }

    /** Whatever this engine has answered, it was entitled to: a drop or a timeout because the
        requester was gone or the deadline had passed, a refusal because the request's own socket
        was found closed in time, a connection because that socket was found established in time,
        and then with its own address; any other error because there was no way to the target. */
    lemma OutcomesAreJustified(id: RequestId)
      requires Valid() && id in asked && id in ledger.settled
      ensures ledger.settled[id] == Dropped ==> id in ledger.gone
      ensures ledger.settled[id] == Answered(Failed(TimedOut)) ==>
        id in ledger.gone || asked[id].deadline <= clock.time
      ensures ledger.settled[id] == Answered(Failed(ConnectionRefused)) ==> SawOwn(id, Closed, Observed())
      ensures IsConnected(ledger.settled[id]) ==>
        && SawOwn(id, Established, Observed())
        && ledger.settled[id].answer.local == ledger.seen[id].socket.local
      ensures ledger.settled[id] == Answered(Failed(NotFound)) ==>
        && asked[id].target.Domain?
        && NameFails(asked[id].target.name, NotFound, settings, resolver.barren, resolver.refused)
    {
      assert JustifiedAt(id, ledger.settled, settings, Observed());
    }

    /** An open flow's request has been answered with a connection from that flow's own address,
        when that flow's own socket was established, and a waiting flow's request has not been answered. */
    lemma OpenFlowsAreAnswered(f: Flow)
      requires Valid() && f in flows
      ensures f.reply.None? ==>
        && f.request in ledger.settled && ledger.settled[f.request] == Answered(Connected(f.local))
        && f.request in ledger.seen && ledger.seen[f.request].socket == f.tcp
        && ledger.seen[f.request].state == Established
      ensures f.reply.Some? ==> f.request !in ledger.settled
    {
      assert FlowOk(f);
      assert Spot(f.request, lookups, flows, waiting, ledger.settled, asked, {});
    }

    /** Nothing is parked here for a requester that has been found gone, and nothing parked has been
        answered. */
    lemma ParkedAreAttended(id: RequestId)
      requires Valid() && id in Parked()
      ensures id !in ledger.gone && id !in ledger.settled
    {
      ParkedMeans();
      assert Spot(id, lookups, flows, waiting, ledger.settled, asked, {});
    }

    /** Between two uses of the same local port the engine uses at least `16384 - maxConnections`
        other ports. */
    lemma PortsAreReusedLate(a: nat, b: nat)
      requires Valid() && a < b < |visits|
      requires visits[a].picked && visits[b].picked && visits[a].port == visits[b].port
      ensures Picks(visits[a + 1..b]) >= 16384 - maxConnections
    {
      ReuseDistance(visits, start, maxConnections, a, b);
    }
  }
}
