/** The VPN's side of the tunnel: the callbacks that start, stop and feed it. Line numbers refer to
    src/vpn.rs. */
module VpnModel {
  import opened Wrappers
  import opened Net
  import opened SettingsModel
  import opened ChannelsModel
  import P = Protocol

  /** What the VPN core is told about the tunnel; addresses are left unprinted. */
  datatype Info = Info(name: string, ipv4: Option<Ipv4>, ipv6: Option<Ipv6>, mtu: nat)

  datatype Started = Rejected(error: SettingsError) | WorkerGone | Activated | Withdrawn

  function Describe(started: Option<Settings>): Info {
    match started
    case None => Info("", None, None, 0)
    case Some(settings) => Info("userspace", settings.ipv4, settings.ipv6, settings.mtu)
  }

  /** The configured MTU is an upper bound: no start gets a larger one, whatever its options say, and
      with less than 576, as before any configuration, every start is rejected. */
  lemma ConfiguredMtuBounds(lines: seq<Fields>, configured: nat, dns: seq<IpAddr>, std: Parsers)
    ensures Meaning(lines, configured, dns, std).Ok? ==>
      576 <= Meaning(lines, configured, dns, std).value.mtu <= configured
    ensures configured < 576 ==> Meaning(lines, configured, dns, std).Err?
  {
    LeastIsMinimum(configured, MtusOf(lines, std));
  }

  class UserspaceVpn {
    const tunnel: Channels
    const dns: seq<IpAddr>
    var generation: nat
    var mtu: nat
    var io: Option<P.Session>
    var info: Info
    ghost var latest: Option<Settings>

    /** The state under the lock is the callbacks' part of the protocol's. */
    ghost predicate Valid()
      reads this, tunnel
    {
      && tunnel.Valid()
      && tunnel.view.generation == generation && tunnel.view.io == io
      && info == Describe(latest) && (latest.Some? ==> latest.value.Usable())
      && (io.Some? ==> latest.Some?)
    }

    constructor (tunnel: Channels, dns: seq<IpAddr>)
      requires tunnel.Valid() && tunnel.view == P.INIT
      ensures Valid() && this.tunnel == tunnel && this.dns == dns && mtu == 0
    {
      this.tunnel, this.dns := tunnel, dns;
      this.generation, this.mtu, this.io, this.info, this.latest := 0, 0, None, Describe(None), None;
    }

    /** Only layer 3 is offered; an MTU that is not positive means the default. */
    method Configure(layer: int, mtu: int) returns (accepted: bool)
      requires Valid()
      modifies `mtu
      ensures Valid() && accepted == (layer == 3)
      ensures this.mtu == if layer != 3 then old(this.mtu) else if mtu > 0 then mtu else 1500
    {
      if layer != 3 {
        return false;
      }
      this.mtu := if mtu > 0 then mtu else 1500;
      return true;
    }

    /** Other callbacks, requesters and the worker may run whenever no lock is held. All a start
        can count on is that nobody else begins it or goes on with it. */
    method OthersAct(ghost session: P.Session)
      requires Valid()
      modifies this, tunnel
      ensures Valid() && old(tunnel.history) <= tunnel.history
      ensures session !in old(tunnel.view.begun) ==> session !in tunnel.view.begun
      ensures session in old(tunnel.view.starting) ==>
        && session in tunnel.view.starting
        && tunnel.view.starting[session] == old(tunnel.view.starting)[session]
    {
      var bytes: seq<u8> := *;
      var sent := Send(bytes);
      var stops: bool := *;
      if stops {
        Stop();
      }
    }

    /** Lines 212 to 224, under the lock: a generation of its own, and the tunnel's description. */
    method Begin(settings: Settings, session: P.Session) returns (mine: nat)
      requires Valid() && session !in tunnel.view.begun && settings.Usable()
      modifies `generation, `info, `io, `latest, tunnel`view, tunnel`history
      ensures Valid() && mine == generation == old(generation) + 1
      ensures io == Some(session) && latest == Some(settings)
      ensures info == Info("userspace", settings.ipv4, settings.ipv6, settings.mtu)
      ensures tunnel.view == P.Next(old(tunnel.view), P.Assign(session))
      ensures tunnel.history == old(tunnel.history) + [P.Assign(session)]
    {
      generation := generation + 1;
      info := Info("userspace", settings.ipv4, settings.ipv6, settings.mtu);
      latest := Some(settings);
      io := Some(session);
      tunnel.Happens(P.Assign(session));
      mine := generation;
    }

    /** Lines 225 to 231: the worker is told, unless it has gone. */
    method Announce(mine: nat, settings: Settings, session: P.Session) returns (sent: bool)
      requires Valid() && session in tunnel.view.starting && tunnel.view.starting[session] == P.Assigned(mine)
      modifies tunnel`commands, tunnel`view, tunnel`history
      ensures Valid() && tunnel.history == old(tunnel.history) + [P.Announce(session, settings)]
      ensures tunnel.view == P.Next(old(tunnel.view), P.Announce(session, settings)) && sent == tunnel.open
      ensures tunnel.commands == old(tunnel.commands) + if tunnel.open then [P.Online(mine, session, settings)] else []
      ensures sent ==> session in tunnel.view.starting && tunnel.view.starting[session] == P.Announced(mine)
      ensures !sent ==> session !in tunnel.view.starting
    {
      sent := tunnel.Submit(P.Online(mine, session, settings), P.Announce(session, settings));
    }

    /** Lines 232 to 240: the VPN core takes the tunnel, or this generation goes offline again. */
    method Activate(mine: nat, session: P.Session) returns (activated: bool)
      requires Valid() && session in tunnel.view.starting && tunnel.view.starting[session] == P.Announced(mine)
      modifies tunnel`commands, tunnel`view, tunnel`history
      ensures Valid() && session !in tunnel.view.starting
      ensures tunnel.history == old(tunnel.history) + [P.Activate(session, activated)]
      ensures tunnel.view == P.Next(old(tunnel.view), P.Activate(session, activated))
      ensures tunnel.commands == old(tunnel.commands) + if !activated && tunnel.open then [P.Offline(mine)] else []
    {
      activated := *;
      if activated {
        tunnel.Happens(P.Activate(session, true));
      } else {
        var withdrawn := tunnel.Submit(P.Offline(mine), P.Activate(session, false));
      }
    }

    /** A start with these settings has run its course: it took a generation, announced the
        engine, and activated the tunnel or withdrew it unless the worker had gone; in this order,
        with anything else before, between and after. */
    twostate predicate Ran(settings: Settings, session: P.Session, r: Started)
      reads tunnel
    {
      && !r.Rejected? && old(tunnel.history) <= tunnel.history && session !in tunnel.view.starting
      && (exists i, j ::
            && |old(tunnel.history)| <= i < j < |tunnel.history|
            && tunnel.history[i] == P.Assign(session) && tunnel.history[j] == P.Announce(session, settings))
      && (!r.WorkerGone? ==> tunnel.history[|tunnel.history| - 1] == P.Activate(session, r.Activated?))
    }

    /** Lines 211 to 241: a start whose options have parsed. Others are free to act in between. */
    method Establish(settings: Settings, session: P.Session) returns (r: Started)
      requires Valid() && session !in tunnel.view.begun && settings.Usable()
      modifies this, tunnel
      ensures Valid() && Ran(settings, session, r)
    {
      OthersAct(session);
      ghost var i := |tunnel.history|;
      var mine := Begin(settings, session);
      assert tunnel.history[i] == P.Assign(session);
      OthersAct(session);
      ghost var j := |tunnel.history|;
      var sent := Announce(mine, settings, session);
      assert tunnel.history[i] == P.Assign(session) && tunnel.history[j] == P.Announce(session, settings);
      if !sent {
        return WorkerGone;
      }
      OthersAct(session);
      var activated := Activate(mine, session);
      assert tunnel.history[i] == P.Assign(session) && tunnel.history[j] == P.Announce(session, settings);
      r := if activated then Activated else Withdrawn;
    }

    /** Line 205. */
    method Read(lines: seq<Fields>, std: Parsers) returns (r: Result<Settings, SettingsError>)
      ensures r == Meaning(lines, mtu, dns, std) && (r.Ok? ==> r.value.Usable())
    {
      r := Parse(lines, mtu, dns, std);
      if r.Ok? {
        AcceptedIsUsable(lines, mtu, dns, std);
      }
    }

    /** Lines 203 to 241. Options that do not parse change nothing at all. */
    method Start(lines: seq<Fields>, session: P.Session, std: Parsers) returns (r: Started)
      requires Valid() && session !in tunnel.view.begun
      modifies this, tunnel
      ensures Valid()
      ensures
        match Meaning(lines, old(mtu), dns, std)
        case Err(error) => unchanged(this) && unchanged(tunnel) && r == Rejected(error)
        case Ok(settings) => Ran(settings, session, r)
    {
      var parsed := Read(lines, std);
      if parsed.Err? {
        return Rejected(parsed.error);
      }
      r := Establish(parsed.value, session);
    }

    /** Nothing the worker does touches the callbacks' side. */
    twostate lemma WorkerActed(e: P.Event)
      requires old(Valid()) && tunnel.Valid() && unchanged(this) && P.IsWorker(e)
      requires P.Enabled(old(tunnel.view), e) && tunnel.view == P.Next(old(tunnel.view), e)
      ensures Valid()
    {
      P.WorkerKeepsCallbacks(old(tunnel.view), e);
    }

    /** Lines 242 to 246: the queue's last command takes the current generation offline. */
    method Stop()
      requires Valid()
      modifies `io, tunnel`commands, tunnel`view, tunnel`history
      ensures Valid() && io == None
      ensures tunnel.view == P.Next(old(tunnel.view), P.Stop) && tunnel.history == old(tunnel.history) + [P.Stop]
      ensures tunnel.commands == old(tunnel.commands) + if tunnel.open then [P.Offline(generation)] else []
    {
      io := None;
      var sent := tunnel.Submit(P.Offline(generation), P.Stop);
    }

    /** Lines 250 to 253. */
    method Send(bytes: seq<u8>) returns (accepted: bool)
      requires Valid()
      modifies tunnel`packets, tunnel`view, tunnel`history
      ensures Valid()
      ensures if io.None? then unchanged(tunnel) else tunnel.history == old(tunnel.history) + [P.Send(bytes)]
      ensures tunnel.view == P.Next(old(tunnel.view), P.Send(bytes))
      ensures accepted ==>
        io.Some? && tunnel.packets == old(tunnel.packets) + [P.Tagged(generation, P.Packet(io.value, bytes))]
      ensures !accepted ==> tunnel.packets == old(tunnel.packets)
      ensures accepted <==> io.Some? && |bytes| <= 65535 && |old(tunnel.packets)| < 1024 && tunnel.open
    {
      if io.None? {
        return false;
      }
      accepted := tunnel.Receives(generation, io.value, bytes);
    }
  }
}
