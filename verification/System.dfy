/** Everything together: the callbacks, the requesters, the two queues and the worker, under an
    arbitrary scheduler. Line numbers refer to src/netstack.rs. */
module SystemModel {
  import opened Wrappers
  import opened Net
  import opened SettingsModel
  import opened Oneshot
  import Ports
  import opened ChannelsModel
  import opened VpnModel
  import opened WorkerModel
  import opened FlowModel
  import P = Protocol
  import Proxy = ProxyModel
  import Socks

  /** How far a `start` callback has come: its options have been read, it has its generation, or it
      has announced it too. */
  datatype Stage = Parsed(settings: Settings) | Begun(mine: nat, settings: Settings) | Told(mine: nat)

  predicate PendingFits(x: P.Session, p: Stage, view: P.State) {
    match p
    case Parsed(settings) => x !in view.begun && x !in view.starting && settings.Usable()
    case Begun(mine, _) => x in view.begun && x in view.starting && view.starting[x] == P.Assigned(mine)
    case Told(mine) => x in view.begun && x in view.starting && view.starting[x] == P.Announced(mine)
  }

  /** The starts under way are exactly those the protocol knows, each as far as it says. */
  predicate AllPending(pending: map<P.Session, Stage>, view: P.State) {
    && (forall x {:trigger PendingFits(x, pending[x], view)} | x in pending :: PendingFits(x, pending[x], view))
    && (forall x | x in view.starting :: x in pending)
  }

  /** Identities not yet given out are new to everybody. */
  predicate Identified(pending: map<P.Session, Stage>, sessions: nat, requests: nat, view: P.State) {
    && (forall x | x in pending :: x < sessions) && (forall x | x in view.begun :: x < sessions)
    && (forall id | id in view.requested :: id < requests)
  }

  lemma IdentitiesStay(pending: map<P.Session, Stage>, sessions: nat, requests: nat, view: P.State, e: P.Event,
                       pending': map<P.Session, Stage>, requests': nat)
    requires Identified(pending, sessions, requests, view) && P.Enabled(view, e)
    requires (forall x | x in pending' :: x in pending) && requests <= requests'
    requires (e.Assign? ==> e.session in pending) && (e.Request? ==> e.reply < requests')
    ensures Identified(pending', sessions, requests', P.Next(view, e))
  {
    if e.Take? {
      P.TakeChanges(view.(commands := view.commands[1..], phase := P.Draining), view.commands[0], e.verdict);
    }
  }

  /** An event that is not part of a start leaves all starts where they are. */
  lemma PendingStay(pending: map<P.Session, Stage>, view: P.State, e: P.Event)
    requires AllPending(pending, view) && P.Enabled(view, e) && !e.Assign? && !e.Announce? && !e.Activate?
    ensures AllPending(pending, P.Next(view, e))
  {
    var t := P.Next(view, e);
    if e.Take? {
      P.TakeChanges(view.(commands := view.commands[1..], phase := P.Draining), view.commands[0], e.verdict);
    }
    forall x | x in pending ensures PendingFits(x, pending[x], t) {
      assert PendingFits(x, pending[x], view);
    }
  }

  /** One start goes on, the others stay where they are. */
  lemma PendingMove(pending: map<P.Session, Stage>, view: P.State, e: P.Event, session: P.Session,
                    pending': map<P.Session, Stage>)
    requires AllPending(pending, view) && P.Enabled(view, e) && session in pending
    requires (e.Assign? || e.Announce? || e.Activate?) && e.session == session
    requires forall x | x != session ::
      (x in pending' <==> x in pending) && (x in pending ==> pending'[x] == pending[x])
    requires session in pending' ==> PendingFits(session, pending'[session], P.Next(view, e))
    requires session in P.Next(view, e).starting ==> session in pending'
    ensures AllPending(pending', P.Next(view, e))
  {
    var t := P.Next(view, e);
    forall x | x in pending' ensures PendingFits(x, pending'[x], t) {
      if x != session {
        assert PendingFits(x, pending[x], view);
      }
    }
  }

  /** One start has read its options. */
  lemma PendingAdded(pending: map<P.Session, Stage>, view: P.State, session: P.Session, settings: Settings)
    requires AllPending(pending, view) && session !in pending && session !in view.begun && session !in view.starting
    requires settings.Usable()
    ensures AllPending(pending[session := Parsed(settings)], view)
  {
    var pending' := pending[session := Parsed(settings)];
    forall x | x in pending' ensures PendingFits(x, pending'[x], view) {
      assert x != session ==> PendingFits(x, pending[x], view);
    }
  }

  /** The run has gone on without the worker. */
  predicate OthersOnly(before: seq<P.Event>, after: seq<P.Event>) {
    before <= after && forall i | |before| <= i < |after| :: !P.IsWorker(after[i])
  }

  predicate IsSelection(e: P.Event) {
    e.Take? || e.TakePacket? || e.Idle?
  }

  /** The run has gone on by one iteration of the worker's loop: a selection, and unless that ended
      the loop a drain and at last a step, with nothing but events of others in between. */
  predicate OneIteration(before: seq<P.Event>, after: seq<P.Event>, open: bool) {
    && before < after && IsSelection(after[|before|])
    && if !open then OthersOnly(after[..|before| + 1], after)
       else
         && after[|after| - 1].Step?
         && exists j | |before| < j < |after| - 1 ::
              && after[j].Drain? && OthersOnly(after[..|before| + 1], after[..j])
              && OthersOnly(after[..j + 1], after[..|after| - 1])
  }

  class System {
    const channels: Channels
    const vpn: UserspaceVpn
    const worker: Worker
    const std: Parsers
    var pending: map<P.Session, Stage>
    var sessions: nat                       // starts so far
    var requests: nat                       // requests so far

    ghost predicate Valid()
      reads this, channels, vpn, worker, worker.engine, worker.ledger, worker.clock, worker.Footprint()
    {
      && vpn.tunnel == channels && worker.channels == channels
      && vpn.Valid() && worker.Valid() && AllPending(pending, channels.view)
      && Identified(pending, sessions, requests, channels.view)
    }

    constructor (dns: seq<IpAddr>, connectTimeout: nat, idleTimeout: nat, maxConnections: nat, std: Parsers)
      requires maxConnections <= Ports.COUNT
      ensures Valid() && channels.view == P.INIT && channels.history == [] && worker.engine == null
    {
      var queues := new Channels();
      this.channels, this.std, this.pending, this.sessions, this.requests := queues, std, map[], 0, 0;
      this.vpn := new UserspaceVpn(queues, dns);
      this.worker := new Worker(queues, connectTimeout, idleTimeout, maxConnections);
    }

    /** What has happened is one more event. */
    twostate predicate Happened(e: P.Event)
      reads channels
    {
      && channels.history == old(channels.history) + [e]
      && P.Enabled(old(channels.view), e) && channels.view == P.Next(old(channels.view), e)
    }

    /** The worker is where it was and what it was. */
    twostate predicate Aside()
      reads channels, worker, worker.clock, worker.engine, worker.Footprint()
    {
      && channels.view.phase == old(channels.view.phase) && channels.open == old(channels.open)
      && worker.Untouched() && OthersOnly(old(channels.history), channels.history)
    }

    /** The callbacks' side after one of their events; the worker is untouched. */
    twostate lemma CallbackDone(e: P.Event)
      requires old(Valid()) && vpn.Valid() && Happened(e) && !P.IsWorker(e) && !e.Request?
      requires AllPending(pending, channels.view) && unchanged(`sessions) && unchanged(`requests)
      requires (forall x | x in pending :: x in old(pending)) && (e.Assign? ==> e.session in old(pending))
      requires worker.Untouched() && unchanged(worker.ledger)
      ensures Valid() && Aside()
    {
      worker.OthersActed(e);
      IdentitiesStay(old(pending), sessions, requests, old(channels.view), e, pending, requests);
    }

    // ---- The callbacks, section by section, and the requesters ----

    method Stop()
      requires Valid()
      modifies vpn, channels
      ensures Valid() && Happened(P.Stop) && Aside()
    {
      vpn.Stop();
      PendingStay(pending, old(channels.view), P.Stop);
      CallbackDone(P.Stop);
    }

    method Send(bytes: seq<u8>)
      requires Valid()
      modifies channels
      ensures Valid() && (unchanged(channels) || Happened(P.Send(bytes)))
      ensures Aside()
    {
      var accepted := vpn.Send(bytes);
      PendingStay(pending, old(channels.view), P.Send(bytes));
      if vpn.io.Some? {
        CallbackDone(P.Send(bytes));
      } else {
        SameWorker();
      }
    }

    twostate lemma SameWorker()
      requires old(Valid()) && vpn.Valid() && unchanged(channels) && AllPending(pending, channels.view)
      requires Identified(pending, sessions, requests, channels.view)
      requires worker.Untouched() && unchanged(worker.ledger)
      ensures Valid() && Aside()
    {
      worker.SameEngine();
    }

    method Configure(layer: int, mtu: int)
      requires Valid()
      modifies vpn`mtu
      ensures Valid() && Aside()
    {
      var accepted := vpn.Configure(layer, mtu);
      SameWorker();
    }

    /** A start begins by reading its options; if they do not parse that is all. */
    method StartReads(lines: seq<Fields>) returns (session: P.Session)
      requires Valid()
      modifies `pending, `sessions
      ensures Valid() && Aside() && session !in channels.view.begun && session !in old(pending)
      ensures var meaning := Meaning(lines, vpn.mtu, vpn.dns, std);
        pending == if meaning.Ok? then old(pending)[session := Parsed(meaning.value)] else old(pending)
    {
      session := sessions;
      sessions := sessions + 1;
      var parsed := vpn.Read(lines, std);
      if parsed.Ok? {
        NotStarting(session);
        PendingAdded(pending, channels.view, session, parsed.value);
        pending := pending[session := Parsed(parsed.value)];
        IdentitiesKept(session);
      }
      SameWorker();
    }

    twostate lemma IdentitiesKept(session: P.Session)
      requires Identified(old(pending), old(sessions), old(requests), channels.view)
      requires session == old(sessions) && sessions == session + 1 && requests == old(requests)
      requires forall x | x in pending :: x in old(pending) || x == session
      ensures Identified(pending, sessions, requests, channels.view)
    {
    }

    lemma NotStarting(session: P.Session)
      requires AllPending(pending, channels.view) && session !in pending
      ensures session !in channels.view.starting
    {
    }

    method StartBegins(session: P.Session)
      requires Valid() && session in pending && pending[session].Parsed?
      modifies `pending, vpn, channels
      ensures Valid() && Happened(P.Assign(session)) && Aside()
      ensures pending == old(pending)[session := Begun(vpn.generation, old(pending)[session].settings)]
    {
      assert PendingFits(session, pending[session], channels.view);
      var settings := pending[session].settings;
      var mine := vpn.Begin(settings, session);
      pending := pending[session := Begun(mine, settings)];
      PendingMove(old(pending), old(channels.view), P.Assign(session), session, pending);
      CallbackDone(P.Assign(session));
    }

    method StartAnnounces(session: P.Session)
      requires Valid() && session in pending && pending[session].Begun?
      modifies `pending, vpn, channels
      ensures Valid() && Happened(P.Announce(session, old(pending)[session].settings)) && Aside()
      ensures pending ==
        if channels.open then old(pending)[session := Told(old(pending)[session].mine)] else old(pending) - {session}
    {
      assert PendingFits(session, pending[session], channels.view);
      var mine, settings := pending[session].mine, pending[session].settings;
      var sent := vpn.Announce(mine, settings, session);
      pending := if sent then pending[session := Told(mine)] else pending - {session};
      PendingMove(old(pending), old(channels.view), P.Announce(session, settings), session, pending);
      CallbackDone(P.Announce(session, settings));
    }

    method StartActivates(session: P.Session) returns (activated: bool)
      requires Valid() && session in pending && pending[session].Told?
      modifies `pending, vpn, channels
      ensures Valid() && Happened(P.Activate(session, activated)) && Aside() && pending == old(pending) - {session}
    {
      assert PendingFits(session, pending[session], channels.view);
      activated := vpn.Activate(pending[session].mine, session);
      pending := pending - {session};
      PendingMove(old(pending), old(channels.view), P.Activate(session, activated), session, pending);
      CallbackDone(P.Activate(session, activated));
    }

    /** `Tunnel::connect`, lines 140 to 150. */
    method Connect(target: Target, port: u16) returns (id: RequestId, sent: bool)
      requires Valid()
      modifies `requests, channels, worker.ledger`settled
      ensures Valid() && Happened(P.Request(target, port, id)) && Aside()
    {
      id := requests;
      NotSettled(id);
      sent := channels.Request(target, port, id, worker.ledger);
      requests := requests + 1;
      RequestDone(P.Request(target, port, id));
    }

    twostate lemma RequestDone(e: P.Event)
      requires old(Valid()) && channels.Valid() && Happened(e) && e.Request? && worker.Untouched()
      requires unchanged(vpn) && pending == old(pending) && sessions == old(sessions)
      requires e.reply == old(requests) && requests == old(requests) + 1
      requires worker.ledger.Sound() && e.reply !in old(worker.ledger.settled)
      requires if !old(channels.open) then worker.ledger.settled == old(worker.ledger.settled)[e.reply := Dropped]
               else unchanged(worker.ledger)
      ensures Valid() && Aside()
    {
      PendingStay(pending, old(channels.view), e);
      IdentitiesStay(pending, sessions, e.reply, old(channels.view), e, pending, requests);
      worker.OthersActed(e);
    }

    lemma NotSettled(id: RequestId)
      requires Valid() && id !in channels.view.requested
      ensures id !in worker.ledger.settled
    {
      worker.RequestsAccounted(id);
    }

    /** `StackWorker::drop`, line 108. */
    method Quit()
      requires Valid()
      modifies channels
      ensures Valid() && Happened(P.Quit) && Aside()
    {
      var sent := channels.Submit(P.Shutdown, P.Quit);
      PendingStay(pending, old(channels.view), P.Quit);
      CallbackDone(P.Quit);
    }

    // ---- The worker, between its atomic actions ----

    /** The history has grown by one event of the worker's. */
    twostate lemma WorkerDone(e: P.Event)
      requires old(Valid()) && worker.Valid() && P.IsWorker(e) && channels.history == old(channels.history) + [e]
      requires unchanged(vpn) && unchanged(this)
      ensures Valid()
      ensures e.Take? || e.TakePacket? || e.Idle? ==> channels.open ==> channels.view.phase.Draining?
      ensures e.Drain? ==> channels.view.phase.Stepping? && channels.open
      ensures e.Step? ==> channels.view.phase.Selecting? && channels.open
    {
      P.RunStep(P.INIT, old(channels.history), old(channels.view), e, channels.view);
      P.PhasesFollow(old(channels.view), e);
      vpn.WorkerActed(e);
      PendingStay(pending, old(channels.view), e);
      IdentitiesStay(pending, sessions, requests, old(channels.view), e, pending, requests);
    }

    lemma Apart()
      ensures vpn !in worker.Footprint() && this !in worker.Footprint() && channels !in worker.Footprint()
      ensures worker !in worker.Footprint() && worker.ledger !in worker.Footprint()
    {
    }

    /** Lines 181 to 204. */
    method WorkerSelects(ghost fs: seq<Flow>, ghost start: map<Flow, Snapshot>) returns (ghost e: P.Event)
      requires worker.Has(fs, start) && Valid() && channels.open && channels.view.phase.Selecting?
      modifies channels, worker, worker.ledger, worker.clock, worker.Core()
      ensures e.Take? ==> old(channels.commands) != [] && worker.RequestReceived()
      ensures Valid() && worker.OnlyNew() && (worker.engine == old(worker.engine) ==> worker.Has(fs, start))
      ensures worker.KeepsDevice()
      ensures channels.history == old(channels.history) + [e] && IsSelection(e)
      ensures channels.open ==> channels.view.phase.Draining?
    {
      Apart();
      e := worker.Selects(fs, start);
      WorkerDone(e);
    }

    /** Lines 205 to 210. */
    method WorkerDrains(ghost fs: seq<Flow>, ghost start: map<Flow, Snapshot>) returns (ghost e: P.Event)
      requires worker.Has(fs, start) && Valid() && channels.open && channels.view.phase.Draining?
      modifies channels, worker`delivered, worker.Core()
      ensures Valid() && worker.OnlyNew() && worker.Has(fs, start) && worker.KeepsDevice()
      ensures channels.history == old(channels.history) + [e] && e.Drain?
      ensures channels.open && channels.view.phase.Stepping?
    {
      Apart();
      e := worker.Drains(fs, start);
      WorkerDone(e);
    }

    /** Lines 211 to 215. */
    method WorkerSteps(ghost fs: seq<Flow>, ghost start: map<Flow, Snapshot>) returns (now: nat, ghost e: P.Event)
      requires worker.Has(fs, start) && Valid() && channels.open && channels.view.phase.Stepping?
      modifies channels, worker, worker.ledger, worker.clock, worker.Footprint()
      ensures Valid() && worker.OnlyNew() && channels.history == old(channels.history) + [e] && e.Step?
      ensures channels.open && channels.view.phase.Selecting?
      ensures old(worker.clock.time) <= now <= worker.clock.time
      ensures worker.Stepped(old(worker.engine), fs, start, now) && worker.Consumes()
    {
      Apart();
      now, e := worker.Steps(fs, start);
      WorkerDone(e);
    }

    // ---- An arbitrary scheduler ----

    /** Some callback gets to run one of its sections, or some requester asks. */
    method ActOutside()
      requires Valid()
      modifies this, vpn, channels, worker.ledger`settled
      ensures Valid() && Aside()
    {
      var arm: nat, session: P.Session := *, *;
      if arm == 0 {
        if session in pending {
          StartGoesOn(session);
        }
      } else if arm == 1 {
        Stop();
      } else if arm == 2 {
        var bytes: seq<u8> := *;
        Send(bytes);
      } else if arm == 3 {
        var layer: int, mtu: int := *, *;
        Configure(layer, mtu);
      } else if arm == 4 {
        Quit();
      } else if arm == 5 {
        var lines: seq<Fields> := *;
        var begun := StartReads(lines);
      } else {
        var target: Target, port: u16 := *, *;
        var id, sent := Connect(target, port);
      }
    }

    method StartGoesOn(session: P.Session)
      requires Valid() && session in pending
      modifies `pending, vpn, channels
      ensures Valid() && Aside()
    {
      match pending[session] {
        case Parsed(_) => StartBegins(session);
        case Begun(_, _) => StartAnnounces(session);
        case Told(_) => var activated := StartActivates(session);
      }
    }

    /** Any number of these, one after the other. */
    method OthersAct(n: nat)
      requires Valid()
      modifies this, vpn, channels, worker.ledger`settled
      ensures Valid() && Aside()
    {
      for k := 0 to n
        invariant Valid() && Aside()
      {
        ActOutside();
      }
    }

    /** They leave the flows alone too. */
    method OthersActAround(n: nat, ghost fs: seq<Flow>, ghost start: map<Flow, Snapshot>)
      requires Valid() && worker.Has(fs, start)
      modifies this, vpn, channels, worker.ledger`settled
      ensures Valid() && Aside() && worker.Has(fs, start)
    {
      OthersAct(n);
    }

    /** The device of an engine that is still there has been given packets, and packets have been used
        up, in their order; with `Valid()` everything else is still in it. */
    twostate predicate DeviceUsed()
      reads worker, worker.engine
    {
      worker.engine != null && worker.engine == old(worker.engine) ==>
        old(worker.delivered) <= worker.delivered && old(worker.engine.eaten) <= worker.engine.eaten
    }

    /** One iteration of the worker's loop, lines 181 to 215, with anything the others do in between. */
    method Iterate(m: nat, n: nat) returns (now: nat)
      requires Valid() && channels.open && channels.view.phase.Selecting?
      modifies this, vpn, channels, worker, worker.ledger, worker.clock, worker.Footprint()
      ensures Valid() && worker.OnlyNew()
      ensures channels.open ==> channels.view.phase.Selecting?
      ensures OneIteration(old(channels.history), channels.history, channels.open)
      ensures channels.open && worker.engine != null ==>
        && !worker.engine.failed
        && if worker.engine == old(worker.engine) then
             worker.engine.Tended(old(worker.FlowsHere()), old(worker.SnapshotsHere()), now)
           else worker.engine.Tended([], map[], now)
      ensures channels.open ==> DeviceUsed()
    {
      ghost var fs, start, was := worker.FlowsHere(), worker.SnapshotsHere(), worker.engine;
      worker.HasAll();
      ghost var e := Selected(m, fs, start);
      now := 0;
      if channels.open {
        ghost var same, before := worker.engine == was, channels.history;
        ghost var d, between, last;
        now, d, between, last := DrainedAndFinished(n, if same then fs else [], if same then start else map[]);
        IterationMade(old(channels.history), e, before, d, between, last);
      }
    }

    /** The second part of an iteration, in which the flows `fs` are among those served. */
    method DrainedAndFinished(n: nat, ghost fs: seq<Flow>, ghost start: map<Flow, Snapshot>)
      returns (now: nat, ghost d: P.Event, ghost between: seq<P.Event>, ghost last: P.Event)
      requires Valid() && channels.open && channels.view.phase.Draining? && worker.Has(fs, start)
      modifies this, vpn, channels, worker, worker.ledger, worker.clock, worker.Footprint()
      ensures Valid() && worker.OnlyNew() && channels.open && channels.view.phase.Selecting?
      ensures d.Drain? && OthersOnly(old(channels.history) + [d], between)
      ensures last.Step? && channels.history == between + [last]
      ensures worker.engine != null ==>
        worker.engine == old(worker.engine) && !worker.engine.failed && worker.engine.Tended(fs, start, now)
      ensures DeviceUsed()
    {
      Apart();
      d, between := Drained(n, fs, start);
      now, last := Finished(fs, start);
    }

    static lemma IterationMade(start: seq<P.Event>, e: P.Event, before: seq<P.Event>, d: P.Event,
                               between: seq<P.Event>, last: P.Event)
      requires IsSelection(e) && OthersOnly(start + [e], before) && d.Drain?
      requires OthersOnly(before + [d], between) && last.Step?
      ensures OneIteration(start, between + [last], true)
    {
      var after, j := between + [last], |before|;
      assert after[..|start| + 1] == start + [e] && after[..j] == before;
      assert after[..j + 1] == before + [d] && after[..|after| - 1] == between;
    }

    method Selected(m: nat, ghost fs: seq<Flow>, ghost start: map<Flow, Snapshot>) returns (ghost e: P.Event)
      requires Valid() && channels.open && channels.view.phase.Selecting? && worker.Has(fs, start)
      modifies this, vpn, channels, worker, worker.ledger, worker.clock, worker.Core()
      ensures Valid() && worker.OnlyNew()
      ensures channels.open ==> channels.view.phase.Draining?
      ensures (worker.engine == old(worker.engine) ==> worker.Has(fs, start)) && worker.KeepsDevice()
      ensures IsSelection(e) && OthersOnly(old(channels.history) + [e], channels.history)
    {
      Apart();
      ghost var was := worker.engine;
      e := WorkerSelects(fs, start);
      OthersActAround(m, if worker.engine == was then fs else [], start);
    }

    method Drained(n: nat, ghost fs: seq<Flow>, ghost start: map<Flow, Snapshot>)
      returns (ghost d: P.Event, ghost after: seq<P.Event>)
      requires Valid() && channels.open && channels.view.phase.Draining? && worker.Has(fs, start)
      modifies this, vpn, channels, worker`delivered, worker.ledger`settled, worker.Core()
      ensures Valid() && worker.OnlyNew() && worker.Has(fs, start) && worker.KeepsDevice()
      ensures channels.open && channels.view.phase.Stepping?
      ensures d.Drain? && OthersOnly(old(channels.history) + [d], after) && after == channels.history
    {
      Apart();
      d := WorkerDrains(fs, start);
      OthersActAround(n, fs, start);
      after := channels.history;
    }

    method Finished(ghost fs: seq<Flow>, ghost start: map<Flow, Snapshot>) returns (now: nat, ghost e: P.Event)
      requires Valid() && channels.open && channels.view.phase.Stepping? && worker.Has(fs, start)
      modifies channels, worker, worker.ledger, worker.clock, worker.Footprint()
      ensures Valid() && worker.OnlyNew() && channels.open && channels.view.phase.Selecting?
      ensures e.Step? && channels.history == old(channels.history) + [e]
      ensures old(worker.clock.time) <= now <= worker.clock.time
      ensures worker.engine != null ==>
        worker.engine == old(worker.engine) && !worker.engine.failed && worker.engine.Tended(fs, start, now)
      ensures worker.Consumes()
      ensures old(worker.engine) != null && !old(worker.engine).failed ==> worker.engine != null
    {
      now, e := WorkerSteps(fs, start);
    }

    /** Any schedule: callbacks, requesters and worker iterations in any number and order. */
    method Run(steps: nat)
      requires Valid() && (channels.open ==> channels.view.phase.Selecting?)
      modifies this, vpn, channels, worker, worker.ledger, worker.clock, worker.Footprint()
      ensures Valid()
    {
      for k := 0 to steps
        invariant Valid() && worker.OnlyNew() && (channels.open ==> channels.view.phase.Selecting?)
      {
        var iterates: bool, m: nat, n: nat := *, *, *;
        if iterates && channels.open {
          var now := Iterate(m, n);
        } else {
          OthersAct(m);
        }
      }
    }

    // ---- What holds of the real objects, in every state any schedule leads to ----

    /** Every packet waiting in the engine's device was sent under the tunnel the engine was made
        for, and no other tunnel has its generation. */
    lemma IncomingIsOwn()
      requires Valid() && worker.engine != null
      ensures forall p | p in worker.engine.incoming :: p.origin == worker.session
      ensures P.Owns(channels.view.begun, worker.generation, worker.session) && P.OneEach(channels.view.begun)
    {
      worker.IncomingIsOwn();
    }

    /** The device holds exactly what the queue has brought for this tunnel since the engine was made,
        in the order accepted, but for what the stack has used up, the oldest first. */
    lemma DeviceHasTheRest()
      requires Valid() && worker.engine != null
      ensures var view, engine := channels.view, worker.engine;
        var brought := |view.accepted| - |channels.packets|;
        && worker.birth <= brought <= |view.accepted| && channels.packets == view.accepted[brought..]
        && var given := P.Matching(view.accepted[worker.birth..brought], worker.generation);
          engine.eaten <= |given| && engine.incoming == given[engine.eaten..]
    {
      worker.DeviceHasTheRest();
    }

    /** The engine is the one that was asked for: it has the settings with which its tunnel was
        announced, and this worker's limit and timeouts. */
    lemma EngineAsAnnounced()
      requires Valid() && worker.engine != null
      ensures P.Announce(worker.session, worker.engine.settings) in channels.history
      ensures worker.engine.connectTimeout == worker.connectTimeout && worker.engine.idleTimeout == worker.idleTimeout
      ensures |worker.engine.flows| + |worker.engine.lookups| <= worker.maxConnections
    {
      P.EngineAsAnnounced(channels.history, channels.view);
    }

    /** Every request made is in exactly one place: queued, parked in the engine, or settled. */
    lemma RequestsAccounted(id: RequestId)
      requires Valid()
      ensures P.Count(id, channels.commands)
            + P.Tally(worker.engine != null && id in worker.engine.Parked())
            + P.Tally(id in worker.ledger.settled) == P.Tally(id in channels.view.requested)
    {
      worker.RequestsAccounted(id);
    }

    /** The generation of the engine the worker ends up with once it has taken what is queued. */
    function Coming(): Option<nat>
      reads worker, channels
    {
      P.Fold(if worker.engine == null then None else Some(worker.generation), channels.commands)
    }

    /** No start is between taking its generation and its end. */
    predicate NoStartUnderWay()
      reads this
    {
      forall x | x in pending :: pending[x].Parsed?
    }

    /** The two sides agree: what is coming is the callbacks' open tunnel. */
    predicate Agreed()
      reads worker, channels, vpn
    {
      Coming().Some? ==> Coming().value == vpn.generation && vpn.io.Some?
    }

    lemma ViewIsReal()
      requires Valid()
      ensures Coming() == P.Outlook(channels.view) && (Agreed() <==> P.Agree(channels.view))
      ensures NoStartUnderWay() ==> channels.view.starting == map[]
    {
      if NoStartUnderWay() {
        forall x ensures x !in channels.view.starting {
          assert x in pending ==> PendingFits(x, pending[x], channels.view);
        }
      }
    }

    /** If every start so far was announced in time, and none is under way, the real sides agree:
        with an empty queue the worker's engine, if any, is that of the latest start, whose tunnel
        is open. */
    lemma TimelyStartsAgree()
      requires Valid() && NoStartUnderWay() && P.IsTimelyRun(P.INIT, channels.history, channels.view)
      ensures Agreed()
      ensures channels.commands == [] && worker.engine != null ==> worker.generation == vpn.generation && vpn.io.Some?
    {
      ViewIsReal();
      P.TimelyAgreement(channels.history, channels.view);
    }

    /** The exact condition, whatever has overlapped: with no start under way the real sides agree if
        and only if the last announcement was made in time, or nobody was to act on it, or its engine
        has been taken away again; and in the last two cases there is nothing to come. */
    lemma AgreedIff(before: seq<P.Event>, session: P.Session, settings: Settings, after: seq<P.Event>)
      returns (s: P.State)
      requires Valid() && NoStartUnderWay()
      requires channels.history == before + ([P.Announce(session, settings)] + after)
      requires forall e | e in after :: !e.Announce?
      ensures P.IsRun(P.INIT, before, s) && P.Enabled(s, P.Announce(session, settings))
      ensures var e, g := P.Announce(session, settings), s.starting[session].generation;
        && (Coming().None? <==> P.Deaf(s) || P.Lost(P.Next(s, e), after, g))
        && (Agreed() <==> P.Timely(s, e) || P.Deaf(s) || P.Lost(P.Next(s, e), after, g))
    {
      ViewIsReal();
      var e := P.Announce(session, settings);
      s := P.RunSplit(P.INIT, before, [e] + after, channels.view);
      assert ([e] + after)[1..] == after;
      P.AnnouncementLostIff(before, s, session, settings, after, channels.view);
      P.AgreementIff(before, s, session, settings, after, channels.view);
    }

    /** After a stop that found the two sides in agreement, whatever else has happened but the
        announcement of another start: with an empty queue there is no engine. */
    lemma StopLeavesNoEngine(before: seq<P.Event>, s: P.State, after: seq<P.Event>)
      requires Valid() && channels.history == before + ([P.Stop] + after)
      requires P.IsRun(P.INIT, before, s) && P.Agree(s) && forall e | e in after :: !e.Announce?
      ensures Coming().None? && (channels.commands == [] ==> worker.engine == null)
    {
      ViewIsReal();
      var m := P.RunSplit(P.INIT, before, [P.Stop] + after, channels.view);
      P.SameRun(P.INIT, before, s, m);
      assert ([P.Stop] + after)[1..] == after;
      P.StopDrains(before, s, after, channels.view);
    }

    /** A connection has only ever been answered on account of the request's own socket, when that
        was established, and with its address. */
    lemma SuccessMeansEstablished(id: RequestId)
      requires Valid() && id in worker.ledger.settled && IsConnected(worker.ledger.settled[id])
      ensures var ledger := worker.ledger;
        && id in ledger.seen && ledger.seen[id].state.Established?
        && ledger.seen[id].socket.owner == id && ledger.seen[id].socket.local == ledger.settled[id].answer.local
    {
      assert SoundAt(id, worker.ledger.settled, worker.ledger.seen);
    }

    /** What a client reads for its own request, in every state: success only for an established
        socket of its own, with that socket's address. */
    lemma ClientsReadTheTruth(id: RequestId, rest: seq<u8>)
      requires Valid() && id in worker.ledger.settled
      ensures var read := Socks.ReadReply(Proxy.ReplyFor(Response(worker.ledger.settled[id])) + rest);
        read.Some? && (read.value.code == 0 ==> Proxy.ByOwnSocket(id, read.value.bound, worker.ledger.seen))
    {
      assert SoundAt(id, worker.ledger.settled, worker.ledger.seen);
      Proxy.CodeZeroMeansEstablished(id, worker.ledger.settled, worker.ledger.seen, rest);
    }
  }
}
