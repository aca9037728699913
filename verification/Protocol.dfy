/** The generation protocol between the VPN's callbacks and the stack worker, as a state machine
    over atomic steps. The two queues are independent, callbacks may run concurrently, and the
    worker may be anywhere in its loop. */
module Protocol {
  import opened Wrappers
  import opened Net
  import opened SettingsModel
  import opened Oneshot

  const MAX_PACKETS := 1024
  const MAX_PACKET := 65535
  /** A drain takes at most a quarter of what the queue can hold, so whatever is sent while it
      runs can be put before it or after it: it is one step. */
  const BATCH := 256

  /** The identity of one `start` callback, and of the tunnel it starts. */
  type Session = nat

  /** An IP packet; `origin` names the tunnel it was sent under. */
  datatype Packet = Packet(origin: Session, bytes: seq<u8>)

  /** A queued packet carries the generation that was current when it was sent. */
  datatype Tagged = Tagged(generation: nat, packet: Packet)

  datatype Command =
    | Online(generation: nat, session: Session, settings: Settings)
    | Offline(generation: nat)
    | Connect(target: Target, port: u16, reply: RequestId)
    | Shutdown

  /** How far a `start` callback has come: it has its generation, or has announced it too. */
  datatype Starting = Assigned(generation: nat) | Announced(generation: nat)

  /** The worker's engine. `birth` counts the packets consumed before it was made, `delivered`
      is every packet put into its device. */
  datatype Stack = Stack(generation: nat, session: Session, settings: Settings, birth: nat,
                         delivered: seq<Packet>, parked: set<RequestId>)

  /** Where the worker is in its loop: waiting in `select!`, draining packets, or stepping. */
  datatype Phase = Selecting | Draining | Stepping

  datatype State = State(
    generation: nat,
    io: Option<Session>,
    begun: seq<Session>,                 // begun[g - 1] was given generation g
    starting: map<Session, Starting>,
    commands: seq<Command>,
    packets: seq<Tagged>,
    accepted: seq<Tagged>,               // every packet the queue ever took
    running: bool,
    phase: Phase,
    stack: Option<Stack>,
    requested: set<RequestId>,
    settled: map<RequestId, Outcome>)

  datatype Event =
    // Callbacks and requesters.
    | Assign(session: Session)
    | Announce(session: Session, settings: Settings)
    | Activate(session: Session, ok: bool)
    | Stop
    | Send(bytes: seq<u8>)
    | Request(target: Target, port: u16, reply: RequestId)
    | Quit
    // The worker.
    | Take(verdict: Option<Outcome>)
    | TakePacket
    | Idle
    | Drain(count: nat)
    | Step(outcomes: map<RequestId, Outcome>, failed: bool)

  predicate IsWorker(e: Event) {
    e.Take? || e.TakePacket? || e.Idle? || e.Drain? || e.Step?
  }

  const INIT := State(0, None, [], map[], [], [], [], true, Selecting, None, {}, map[])

  predicate Enabled(s: State, e: Event) {
    match e
    case Assign(session) => session !in s.begun
    case Announce(session, _) => session in s.starting && s.starting[session].Assigned?
    case Activate(session, _) => session in s.starting && s.starting[session].Announced?
    case Stop => true
    case Send(_) => true
    case Request(_, _, reply) => reply !in s.requested
    case Quit => true
    case Take(_) => s.running && s.phase.Selecting? && s.commands != []
    case TakePacket => s.running && s.phase.Selecting? && s.packets != []
    case Idle => s.running && s.phase.Selecting?
    case Drain(count) =>
      s.running && s.phase.Draining? && count <= BATCH && count <= |s.packets| && (s.stack.None? ==> count == 0)
    case Step(outcomes, _) =>
      && s.running && s.phase.Stepping?
      && (if s.stack.Some? then outcomes.Keys <= s.stack.value.parked else outcomes == map[])
  }

  /** `commands.send`, which fails once the worker has gone. */
  function Push(s: State, c: Command): State {
    if s.running then s.(commands := s.commands + [c]) else s
  }

  /** Everything in `ids` is destroyed unanswered. */
  function DropAll(settled: map<RequestId, Outcome>, ids: set<RequestId>): map<RequestId, Outcome> {
    settled + map id | id in ids :: Dropped
  }

  function ParkedIn(stack: Option<Stack>): set<RequestId> {
    if stack.Some? then stack.value.parked else {}
  }

  /** The worker's engine, if any, is destroyed and replaced. */
  function Replace(s: State, stack: Option<Stack>): State {
    s.(stack := stack, settled := DropAll(s.settled, ParkedIn(s.stack)))
  }

  function QueuedIds(cs: seq<Command>): set<RequestId> {
    set c | c in cs && c.Connect? :: c.reply
  }

  /** The packets of `ps` that carry the generation `g`, in order. */
  function Matching(ps: seq<Tagged>, g: nat): seq<Packet> {
    if ps == [] then []
    else Matching(ps[..|ps| - 1], g) + if ps[|ps| - 1].generation == g then [ps[|ps| - 1].packet] else []
  }

  /** The worker consumes `count` packets; matching ones go to the engine's device. */
  function Consume(s: State, count: nat): State
    requires count <= |s.packets|
  {
    var stack := match s.stack
      case None => None
      case Some(k) => Some(k.(delivered := k.delivered + Matching(s.packets[..count], k.generation)));
    s.(packets := s.packets[count..], stack := stack)
  }

  function Consumed(s: State): nat {
    if |s.packets| <= |s.accepted| then |s.accepted| - |s.packets| else 0
  }

  function TakeCommand(s: State, c: Command, verdict: Option<Outcome>): State {
    match c
    case Online(generation, session, settings) =>
      Replace(s, Some(Stack(generation, session, settings, Consumed(s), [], {})))
    case Offline(generation) =>
      if s.stack.Some? && s.stack.value.generation == generation then Replace(s, None) else s
    case Connect(_, _, reply) =>
      if s.stack.None? then s.(settled := s.settled[reply := Answered(Failed(NotConnected))])
      else if verdict.Some? then s.(settled := s.settled[reply := verdict.value])
      else s.(stack := Some(s.stack.value.(parked := s.stack.value.parked + {reply})))
    case Shutdown =>
      var t := Replace(s, None);
      t.(running := false, commands := [], settled := DropAll(t.settled, QueuedIds(t.commands)))
  }

  function Next(s: State, e: Event): State
    requires Enabled(s, e)
  {
    match e
    case Assign(session) =>
      s.(generation := s.generation + 1, begun := s.begun + [session], io := Some(session),
         starting := s.starting[session := Assigned(s.generation + 1)])
    case Announce(session, settings) =>
      var g := s.starting[session].generation;
      if s.running then Push(s, Online(g, session, settings)).(starting := s.starting[session := Announced(g)])
      else s.(starting := s.starting - {session})
    case Activate(session, ok) =>
      var t := if ok then s else Push(s, Offline(s.starting[session].generation));
      t.(starting := s.starting - {session})
    case Stop => Push(s, Offline(s.generation)).(io := None)
    case Send(bytes) =>
      if s.io.Some? && |bytes| <= MAX_PACKET && |s.packets| < MAX_PACKETS && s.running then
        var t := Tagged(s.generation, Packet(s.io.value, bytes));
        s.(packets := s.packets + [t], accepted := s.accepted + [t])
      else s
    case Request(target, port, reply) =>
      var t := s.(requested := s.requested + {reply});
      if s.running then Push(t, Connect(target, port, reply))
      else t.(settled := t.settled[reply := Dropped])
    case Quit => Push(s, Shutdown)
    case Take(verdict) => TakeCommand(s.(commands := s.commands[1..], phase := Draining), s.commands[0], verdict)
    case TakePacket => Consume(s, 1).(phase := Draining)
    case Idle => s.(phase := Draining)
    case Drain(count) => Consume(s, count).(phase := Stepping)
    case Step(outcomes, failed) =>
      var t := s.(settled := s.settled + outcomes, phase := Selecting);
      if s.stack.None? then t
      else
        var u := t.(stack := Some(s.stack.value.(parked := s.stack.value.parked - outcomes.Keys)));
        if failed then Replace(u, None) else u
  }

  /** A run: a sequence of events, each enabled where it happens. */
  ghost predicate IsRun(s: State, es: seq<Event>, t: State)
    decreases |es|
  {
    if es == [] then s == t
    else Enabled(s, es[0]) && IsRun(Next(s, es[0]), es[1..], t)
  }

  lemma {:induction false} RunAppend(s: State, es: seq<Event>, t: State, e: Event)
    requires IsRun(s, es, t) && Enabled(t, e)
    ensures IsRun(s, es + [e], Next(t, e))
    decreases |es|
  {
    if es == [] {
      assert (es + [e])[1..] == [];
      assert IsRun(Next(t, e), [], Next(t, e));
    } else {
      assert (es + [e])[1..] == es[1..] + [e];
      RunAppend(Next(s, es[0]), es[1..], t, e);
    }
  }

  /** The history determines the state. */
  lemma {:induction false} RunStep(s: State, es: seq<Event>, m: State, e: Event, t: State)
    requires IsRun(s, es, m) && IsRun(s, es + [e], t)
    ensures Enabled(m, e) && t == Next(m, e)
    decreases |es|
  {
    if es == [] {
      assert es + [e] == [e] && [e][1..] == [];
    } else {
      assert (es + [e])[1..] == es[1..] + [e];
      RunStep(Next(s, es[0]), es[1..], m, e, t);
    }
  }

  lemma {:induction false} SameRun(s: State, es: seq<Event>, t: State, u: State)
    requires IsRun(s, es, t) && IsRun(s, es, u)
    ensures t == u
    decreases |es|
  {
    if es != [] {
      SameRun(Next(s, es[0]), es[1..], t, u);
    }
  }

  /** A run of two parts has a state in between. */
  lemma {:induction false} RunSplit(s: State, a: seq<Event>, b: seq<Event>, t: State) returns (m: State)
    requires IsRun(s, a + b, t)
    ensures IsRun(s, a, m) && IsRun(m, b, t)
    decreases |a|
  {
    if a == [] {
      assert a + b == b;
      m := s;
    } else {
      assert (a + b)[1..] == a[1..] + b;
      m := RunSplit(Next(s, a[0]), a[1..], b, t);
    }
  }

  /** The worker's loop: it picks, drains and steps, in this order, until it is shut down. */
  lemma PhasesFollow(s: State, e: Event)
    requires Enabled(s, e) && IsWorker(e)
    ensures var t := Next(s, e);
      && (e.Take? || e.TakePacket? || e.Idle? ==> s.phase.Selecting? && t.phase.Draining?)
      && (e.Drain? ==> s.phase.Draining? && t.phase.Stepping? && t.running)
      && (e.Step? ==> s.phase.Stepping? && t.phase.Selecting? && t.running)
  {
  }

  /** The worker by itself changes nothing of what belongs to the callbacks and requesters. */
  lemma WorkerKeepsCallbacks(s: State, e: Event)
    requires Enabled(s, e) && IsWorker(e)
    ensures var t := Next(s, e);
      && t.generation == s.generation && t.io == s.io && t.begun == s.begun && t.starting == s.starting
      && t.requested == s.requested
  {
    if e.Take? {
      TakeChanges(s.(commands := s.commands[1..], phase := Draining), s.commands[0], e.verdict);
    }
  }

  // ---- Packet isolation ----

  /** `session` was given generation `g`. */
  predicate Owns(begun: seq<Session>, g: nat, session: Session) {
    1 <= g <= |begun| && begun[g - 1] == session
  }

  predicate TagFits(begun: seq<Session>, t: Tagged) {
    Owns(begun, t.generation, t.packet.origin)
  }

  predicate CommandFits(begun: seq<Session>, c: Command) {
    c.Online? ==> Owns(begun, c.generation, c.session)
  }

  predicate StackFits(begun: seq<Session>, k: Stack) {
    && Owns(begun, k.generation, k.session)
    && forall p | p in k.delivered :: p.origin == k.session
  }

  ghost predicate CommandsFit(begun: seq<Session>, cs: seq<Command>) {
    forall c {:trigger CommandFits(begun, c)} | c in cs :: CommandFits(begun, c)
  }

  ghost predicate TagsFit(begun: seq<Session>, ps: seq<Tagged>) {
    forall t {:trigger TagFits(begun, t)} | t in ps :: TagFits(begun, t)
  }

  ghost predicate StartsFit(begun: seq<Session>, starting: map<Session, Starting>) {
    forall x {:trigger Owns(begun, starting[x].generation, x)} | x in starting :: Owns(begun, starting[x].generation, x)
  }

  /** No session has two generations. */
  ghost predicate OneEach(begun: seq<Session>) {
    forall g, h, x {:trigger Owns(begun, g, x), Owns(begun, h, x)} ::
      Owns(begun, g, x) && Owns(begun, h, x) ==> g == h
  }

  /** Every generation belongs to one session, and everything that carries one belongs to that
      session too. */
  ghost predicate Tagging(s: State) {
    && |s.begun| == s.generation && OneEach(s.begun)
    && (s.io.Some? ==> Owns(s.begun, s.generation, s.io.value))
    && StartsFit(s.begun, s.starting)
    && CommandsFit(s.begun, s.commands)
    && TagsFit(s.begun, s.packets)
    && (s.stack.Some? ==> StackFits(s.begun, s.stack.value))
  }

  lemma {:induction false} MatchingMembers(begun: seq<Session>, ps: seq<Tagged>, g: nat, session: Session)
    requires Owns(begun, g, session) && TagsFit(begun, ps)
    ensures forall p | p in Matching(ps, g) :: p.origin == session
  {
    if ps != [] {
      var front := ps[..|ps| - 1];
      TagsFitSome(begun, ps, front);
      MatchingMembers(begun, front, g, session);
      assert TagFits(begun, ps[|ps| - 1]);
    }
  }

  lemma TagsFitSome(begun: seq<Session>, ps: seq<Tagged>, qs: seq<Tagged>)
    requires TagsFit(begun, ps) && forall t | t in qs :: t in ps
    ensures TagsFit(begun, qs)
  {
    forall t | t in qs ensures TagFits(begun, t) {
      assert TagFits(begun, t);
    }
  }

  lemma CommandsFitSome(begun: seq<Session>, cs: seq<Command>, ds: seq<Command>)
    requires CommandsFit(begun, cs) && forall c | c in ds :: c in cs || !c.Online?
    ensures CommandsFit(begun, ds)
  {
    forall c | c in ds ensures CommandFits(begun, c) {
      assert c in cs ==> CommandFits(begun, c);
    }
  }

  lemma ConsumeKeepsTagging(s: State, count: nat)
    requires Tagging(s) && count <= |s.packets|
    ensures Tagging(Consume(s, count))
  {
    TagsFitSome(s.begun, s.packets, s.packets[..count]);
    TagsFitSome(s.begun, s.packets, s.packets[count..]);
    if s.stack.Some? {
      MatchingMembers(s.begun, s.packets[..count], s.stack.value.generation, s.stack.value.session);
    }
  }

  lemma TakeKeepsTagging(s: State, verdict: Option<Outcome>)
    requires Tagging(s) && s.commands != []
    ensures Tagging(TakeCommand(s.(commands := s.commands[1..], phase := Draining), s.commands[0], verdict))
  {
    var c, rest := s.commands[0], s.commands[1..];
    assert CommandFits(s.begun, c);
    CommandsFitSome(s.begun, s.commands, rest);
    TakeChanges(s.(commands := rest, phase := Draining), c, verdict);
  }

  /** What taking a command can do to the state outside the requests. */
  lemma TakeChanges(s: State, c: Command, verdict: Option<Outcome>)
    ensures var t := TakeCommand(s, c, verdict);
      && t.begun == s.begun && t.generation == s.generation && t.io == s.io && t.starting == s.starting
      && t.packets == s.packets && t.accepted == s.accepted && t.requested == s.requested
      && (t.commands == s.commands || t.commands == [])
      && (t.stack.Some? ==>
            || (c.Online? && t.stack.value.generation == c.generation && t.stack.value.session == c.session
                && t.stack.value.settings == c.settings && t.stack.value.delivered == []
                && t.stack.value.birth == Consumed(s))
            || (s.stack.Some? && t.stack.value == s.stack.value.(parked := t.stack.value.parked)))
  {
  }

  /** What taking a request comes to. */
  lemma ConnectTaken(s: State, verdict: Option<Outcome>)
    requires Enabled(s, Take(verdict)) && s.commands[0].Connect?
    ensures var t, id := Next(s, Take(verdict)), s.commands[0].reply;
      if s.stack.None? then t.stack.None? && t.settled == s.settled[id := Answered(Failed(NotConnected))]
      else if verdict.Some? then t.stack == s.stack && t.settled == s.settled[id := verdict.value]
      else t.settled == s.settled && t.stack == Some(s.stack.value.(parked := s.stack.value.parked + {id}))
  {
  }

  lemma AssignKeepsTagging(s: State, session: Session)
    requires Tagging(s) && session !in s.begun
    ensures Tagging(Next(s, Assign(session)))
  {
    var t := Next(s, Assign(session));
    forall g: nat, h: nat, x | Owns(t.begun, g, x) && Owns(t.begun, h, x) ensures g == h {
      assert g <= s.generation ==> Owns(s.begun, g, x) && x in s.begun;
      assert h <= s.generation ==> Owns(s.begun, h, x) && x in s.begun;
    }
    forall x | x in t.starting ensures Owns(t.begun, t.starting[x].generation, x) {
      assert x != session ==> Owns(s.begun, s.starting[x].generation, x);
    }
    forall c | c in t.commands ensures CommandFits(t.begun, c) {
      assert CommandFits(s.begun, c);
    }
    forall p | p in t.packets ensures TagFits(t.begun, p) {
      assert TagFits(s.begun, p);
    }
  }

  lemma StartsFitSome(begun: seq<Session>, a: map<Session, Starting>, b: map<Session, Starting>)
    requires StartsFit(begun, a) && forall x | x in b :: x in a && b[x].generation == a[x].generation
    ensures StartsFit(begun, b)
  {
    forall x | x in b ensures Owns(begun, b[x].generation, x) {
      assert Owns(begun, a[x].generation, x);
    }
  }

  lemma AnnounceKeepsTagging(s: State, session: Session, settings: Settings)
    requires Tagging(s) && Enabled(s, Announce(session, settings))
    ensures Tagging(Next(s, Announce(session, settings)))
  {
    var t := Next(s, Announce(session, settings));
    assert Owns(s.begun, s.starting[session].generation, session);
    StartsFitSome(s.begun, s.starting, t.starting);
    forall c | c in t.commands ensures CommandFits(t.begun, c) {
      assert c in s.commands ==> CommandFits(s.begun, c);
    }
  }

  lemma StepKeepsTagging(s: State, e: Event)
    requires Tagging(s) && Enabled(s, e)
    ensures Tagging(Next(s, e))
  {
    var t := Next(s, e);
    match e {
      case Assign(session) => AssignKeepsTagging(s, session);
      case Announce(session, settings) => AnnounceKeepsTagging(s, session, settings);
      case Activate(session, ok) =>
        StartsFitSome(s.begun, s.starting, t.starting);
        CommandsFitSome(s.begun, s.commands, t.commands);
      case Send(bytes) =>
        forall p | p in t.packets ensures TagFits(t.begun, p) {
          assert p in s.packets ==> TagFits(s.begun, p);
        }
      case Stop => CommandsFitSome(s.begun, s.commands, t.commands);
      case Request(_, _, _) => CommandsFitSome(s.begun, s.commands, t.commands);
      case Quit => CommandsFitSome(s.begun, s.commands, t.commands);
      case Take(verdict) => TakeKeepsTagging(s, verdict);
      case TakePacket => ConsumeKeepsTagging(s, 1);
      case Drain(count) => ConsumeKeepsTagging(s, count);
      case _ =>
    }
  }

  lemma {:induction false} RunKeepsTagging(s: State, es: seq<Event>, t: State)
    requires Tagging(s) && IsRun(s, es, t)
    ensures Tagging(t)
    decreases |es|
  {
    if es != [] {
      StepKeepsTagging(s, es[0]);
      RunKeepsTagging(Next(s, es[0]), es[1..], t);
    }
  }

  /** Packet isolation, for every interleaving: a packet sent under one tunnel is only ever
      delivered to the stack of that tunnel, and no two tunnels share a generation. */
  lemma PacketIsolation(es: seq<Event>, t: State)
    requires IsRun(INIT, es, t)
    ensures t.stack.Some? ==> forall p | p in t.stack.value.delivered :: p.origin == t.stack.value.session
    ensures t.stack.Some? ==> Owns(t.begun, t.stack.value.generation, t.stack.value.session)
    ensures OneEach(t.begun)
  {
    RunKeepsTagging(INIT, es, t);
  }

  // ---- Engines are what was announced ----

  /** What the worker has been told, by now or not yet taken, has been announced, and what it has
      been asked for has been requested. */
  ghost predicate OnlyAnnounced(done: seq<Event>, s: State) {
    && (forall c | c in s.commands :: c.Online? ==> Announce(c.session, c.settings) in done)
    && (forall c | c in s.commands :: c.Connect? ==> Request(c.target, c.port, c.reply) in done)
    && (s.stack.Some? ==> Announce(s.stack.value.session, s.stack.value.settings) in done)
  }

  lemma AnnouncedStep(done: seq<Event>, s: State, e: Event)
    requires OnlyAnnounced(done, s) && Enabled(s, e)
    ensures OnlyAnnounced(done + [e], Next(s, e))
  {
    if e.Take? {
      assert s.commands[0] in s.commands;
    }
  }

  lemma {:induction false} AnnouncedRun(done: seq<Event>, s: State, es: seq<Event>, t: State)
    requires OnlyAnnounced(done, s) && IsRun(s, es, t)
    ensures OnlyAnnounced(done + es, t)
    decreases |es|
  {
    if es == [] {
      assert done + es == done;
    } else {
      AnnouncedStep(done, s, es[0]);
      AnnouncedRun(done + [es[0]], Next(s, es[0]), es[1..], t);
      assert done + es == done + [es[0]] + es[1..];
    }
  }

  /** The worker's engine has the settings with which its tunnel was announced. */
  lemma EngineAsAnnounced(es: seq<Event>, t: State)
    requires IsRun(INIT, es, t) && t.stack.Some?
    ensures Announce(t.stack.value.session, t.stack.value.settings) in es
  {
    AnnouncedRun([], INIT, es, t);
    assert [] + es == es;
  }

  /** A request comes to the worker with the target and port it was made for. */
  lemma RequestsAsMade(es: seq<Event>, t: State, c: Command)
    requires IsRun(INIT, es, t) && c in t.commands && c.Connect?
    ensures Request(c.target, c.port, c.reply) in es
  {
    AnnouncedRun([], INIT, es, t);
    assert [] + es == es;
  }

  // ---- Packets arrive in order ----

  /** The queue holds the packets accepted last; the engine's device has got exactly those
      consumed since the engine was made that carry its generation, in the order sent. */
  ghost predicate InOrder(s: State) {
    && QueueIsLast(s.packets, s.accepted)
    && (s.stack.Some? ==> GotItsPackets(s.stack.value, s.accepted, Consumed(s)))
  }

  predicate QueueIsLast(packets: seq<Tagged>, accepted: seq<Tagged>) {
    && |packets| <= |accepted| && |packets| <= MAX_PACKETS
    && packets == accepted[|accepted| - |packets|..]
  }

  predicate GotItsPackets(k: Stack, accepted: seq<Tagged>, consumed: nat) {
    && k.birth <= consumed <= |accepted|
    && k.delivered == Matching(accepted[k.birth..consumed], k.generation)
  }

  /** The matching packets are those at the positions, in increasing order, that carry the
      generation, and no others. */
  lemma {:induction false} MatchingMeans(ps: seq<Tagged>, g: nat) returns (at: seq<nat>)
    ensures |at| == |Matching(ps, g)|
    ensures forall k | 0 <= k < |at| ::
      at[k] < |ps| && ps[at[k]].generation == g && ps[at[k]].packet == Matching(ps, g)[k]
    ensures forall j, k | 0 <= j < k < |at| :: at[j] < at[k]
    ensures forall n: nat | n < |ps| && ps[n].generation == g :: n in at
  {
    at := [];
    if ps != [] {
      var n := |ps| - 1;
      at := MatchingMeans(ps[..n], g);
      if ps[n].generation == g {
        var before := at;
        at := at + [n];
        assert at[|before|] == n && forall k | 0 <= k < |before| :: at[k] == before[k];
      }
    }
  }

  lemma {:induction false} MatchingConcat(a: seq<Tagged>, b: seq<Tagged>, g: nat)
    ensures Matching(a + b, g) == Matching(a, g) + Matching(b, g)
    decreases |b|
  {
    if b == [] {
      assert a + b == a;
    } else {
      var n := |b| - 1;
      assert (a + b)[..|a + b| - 1] == a + b[..n];
      MatchingConcat(a, b[..n], g);
    }
  }

  lemma ConsumeKeepsOrder(s: State, count: nat)
    requires InOrder(s) && count <= |s.packets|
    ensures InOrder(Consume(s, count))
  {
    var t, c := Consume(s, count), Consumed(s);
    assert s.packets[..count] == s.accepted[c..c + count];
    if s.stack.Some? {
      var k := s.stack.value;
      assert s.accepted[k.birth..c + count] == s.accepted[k.birth..c] + s.accepted[c..c + count];
      MatchingConcat(s.accepted[k.birth..c], s.accepted[c..c + count], k.generation);
    }
  }

  lemma SendKeepsOrder(s: State, bytes: seq<u8>)
    requires InOrder(s)
    ensures InOrder(Next(s, Send(bytes)))
  {
    var t := Next(s, Send(bytes));
    if s.stack.Some? && t != s {
      var k := s.stack.value;
      assert t.accepted[k.birth..Consumed(s)] == s.accepted[k.birth..Consumed(s)];
    }
  }

  lemma TakeKeepsOrder(s: State, verdict: Option<Outcome>)
    requires InOrder(s) && Enabled(s, Take(verdict))
    ensures InOrder(Next(s, Take(verdict)))
  {
    TakeChanges(s.(commands := s.commands[1..], phase := Draining), s.commands[0], verdict);
    assert s.accepted[Consumed(s)..Consumed(s)] == [];
  }

  /** What has no hand in the packets leaves them alone. */
  lemma OthersKeepPackets(s: State, e: Event)
    requires Enabled(s, e) && !e.Send? && !e.Take? && !e.TakePacket? && !e.Drain?
    ensures var t := Next(s, e);
      && t.packets == s.packets && t.accepted == s.accepted
      && (t.stack.Some? ==>
            s.stack.Some? && t.stack.value == s.stack.value.(parked := t.stack.value.parked))
  {
  }

  lemma SamePackets(s: State, t: State)
    requires InOrder(s) && t.packets == s.packets && t.accepted == s.accepted
    requires t.stack.Some? ==> s.stack.Some? && t.stack.value == s.stack.value.(parked := t.stack.value.parked)
    ensures InOrder(t)
  {
  }

  lemma StepKeepsOrder(s: State, e: Event)
    requires InOrder(s) && Enabled(s, e)
    ensures InOrder(Next(s, e))
  {
    match e {
      case Send(bytes) => SendKeepsOrder(s, bytes);
      case Take(verdict) => TakeKeepsOrder(s, verdict);
      case TakePacket =>
        ConsumeKeepsOrder(s, 1);
        SamePackets(Consume(s, 1), Next(s, e));
      case Drain(count) =>
        ConsumeKeepsOrder(s, count);
        SamePackets(Consume(s, count), Next(s, e));
      case _ =>
        OthersKeepPackets(s, e);
        SamePackets(s, Next(s, e));
    }
  }

  lemma {:induction false} RunKeepsOrder(s: State, es: seq<Event>, t: State)
    requires InOrder(s) && IsRun(s, es, t)
    ensures InOrder(t)
    decreases |es|
  {
    if es != [] {
      StepKeepsOrder(s, es[0]);
      RunKeepsOrder(Next(s, es[0]), es[1..], t);
    }
  }

  /** In every run the queue holds the packets accepted last, and the engine's device has been
      given exactly those of its generation that were consumed since it was made, in order. */
  lemma DeliveredInOrder(es: seq<Event>, t: State)
    requires IsRun(INIT, es, t)
    ensures |t.packets| <= 1024 && |t.packets| <= |t.accepted|
    ensures t.packets == t.accepted[|t.accepted| - |t.packets|..]
    ensures t.stack.Some? ==>
      var k, consumed := t.stack.value, |t.accepted| - |t.packets|;
      k.birth <= consumed && k.delivered == Matching(t.accepted[k.birth..consumed], k.generation)
  {
    RunKeepsOrder(INIT, es, t);
  }

  // ---- Requests are conserved ----

  function Count(id: RequestId, cs: seq<Command>): nat {
    if cs == [] then 0
    else Count(id, cs[..|cs| - 1]) + if cs[|cs| - 1].Connect? && cs[|cs| - 1].reply == id then 1 else 0
  }

  function Tally(b: bool): nat {
    if b then 1 else 0
  }

  /** A request that has been made is in exactly one place: once in the queue, parked in the
      engine, or settled. One that has not been made is nowhere. */
  predicate OnePlace(id: RequestId, cs: seq<Command>, parked: set<RequestId>,
                     settled: map<RequestId, Outcome>, requested: set<RequestId>) {
    Count(id, cs) + Tally(id in parked) + Tally(id in settled) == Tally(id in requested)
  }

  ghost predicate Conserved(s: State) {
    && (forall id {:trigger OnePlace(id, s.commands, ParkedIn(s.stack), s.settled, s.requested)} ::
          OnePlace(id, s.commands, ParkedIn(s.stack), s.settled, s.requested))
    && (!s.running ==> s.commands == [] && s.stack.None?)
  }

  lemma {:induction false} CountTail(id: RequestId, c: Command, cs: seq<Command>)
    ensures Count(id, [c] + cs) == Tally(c.Connect? && c.reply == id) + Count(id, cs)
  {
    var all := [c] + cs;
    if cs == [] {
      assert all[..0] == [];
    } else {
      var n := |cs| - 1;
      assert all[..|all| - 1] == [c] + cs[..n];
      CountTail(id, c, cs[..n]);
    }
  }

  lemma CountPush(id: RequestId, cs: seq<Command>, c: Command)
    ensures Count(id, cs + [c]) == Count(id, cs) + Tally(c.Connect? && c.reply == id)
  {
    assert (cs + [c])[..|cs|] == cs;
  }

  lemma {:induction false} CountQueued(id: RequestId, cs: seq<Command>)
    ensures id in QueuedIds(cs) <==> Count(id, cs) > 0
  {
    if cs != [] {
      var n := |cs| - 1;
      CountQueued(id, cs[..n]);
      assert cs == cs[..n] + [cs[n]];
    }
  }

  lemma TakeConserves(s: State, c: Command, rest: seq<Command>, verdict: Option<Outcome>)
    requires Conserved(s) && s.running && s.commands == [c] + rest
    ensures Conserved(TakeCommand(s.(commands := rest, phase := Draining), c, verdict))
  {
    var t := TakeCommand(s.(commands := rest, phase := Draining), c, verdict);
    forall id ensures OnePlace(id, t.commands, ParkedIn(t.stack), t.settled, t.requested) {
      assert OnePlace(id, s.commands, ParkedIn(s.stack), s.settled, s.requested);
      CountTail(id, c, rest);
      CountQueued(id, rest);
    }
  }

  lemma PushConserves(s: State, c: Command)
    requires Conserved(s) && !c.Connect?
    ensures Conserved(Push(s, c))
  {
    var t := Push(s, c);
    forall id ensures OnePlace(id, t.commands, ParkedIn(t.stack), t.settled, t.requested) {
      assert OnePlace(id, s.commands, ParkedIn(s.stack), s.settled, s.requested);
      CountPush(id, s.commands, c);
    }
  }

  lemma RequestConserves(s: State, target: Target, port: u16, reply: RequestId)
    requires Conserved(s) && reply !in s.requested
    ensures Conserved(Next(s, Request(target, port, reply)))
  {
    var t := Next(s, Request(target, port, reply));
    forall id ensures OnePlace(id, t.commands, ParkedIn(t.stack), t.settled, t.requested) {
      assert OnePlace(id, s.commands, ParkedIn(s.stack), s.settled, s.requested);
      CountPush(id, s.commands, Connect(target, port, reply));
    }
  }

  lemma StepConserves(s: State, e: Event)
    requires Conserved(s) && Enabled(s, e)
    ensures Conserved(Next(s, e))
  {
    var t := Next(s, e);
    match e {
      case Announce(session, settings) => PushConserves(s, Online(s.starting[session].generation, session, settings));
      case Activate(session, _) => PushConserves(s, Offline(s.starting[session].generation));
      case Stop => PushConserves(s, Offline(s.generation));
      case Request(target, port, reply) => RequestConserves(s, target, port, reply);
      case Quit => PushConserves(s, Shutdown);
      case Take(verdict) =>
        assert s.commands == [s.commands[0]] + s.commands[1..];
        TakeConserves(s, s.commands[0], s.commands[1..], verdict);
      case Step(outcomes, failed) =>
        forall id ensures OnePlace(id, t.commands, ParkedIn(t.stack), t.settled, t.requested) {
          assert OnePlace(id, s.commands, ParkedIn(s.stack), s.settled, s.requested);
        }
      case _ =>
        assert ParkedIn(t.stack) == ParkedIn(s.stack);
    }
  }

  lemma {:induction false} RunConserves(s: State, es: seq<Event>, t: State)
    requires Conserved(s) && IsRun(s, es, t)
    ensures Conserved(t)
    decreases |es|
  {
    if es != [] {
      StepConserves(s, es[0]);
      RunConserves(Next(s, es[0]), es[1..], t);
    }
  }

  /** Request conservation over all runs, and no request outlives the worker unanswered. */
  lemma RequestConservation(es: seq<Event>, t: State)
    requires IsRun(INIT, es, t)
    ensures Conserved(t)
    ensures !t.running ==> forall id | id in t.requested :: id in t.settled
  {
    assert Conserved(INIT) by {
      forall id ensures OnePlace(id, INIT.commands, ParkedIn(INIT.stack), INIT.settled, INIT.requested) {}
    }
    RunConserves(INIT, es, t);
    if !t.running {
      forall id | id in t.requested ensures id in t.settled {
        assert OnePlace(id, t.commands, ParkedIn(t.stack), t.settled, t.requested);
      }
    }
  }

  predicate Stays(id: RequestId, before: map<RequestId, Outcome>, after: map<RequestId, Outcome>) {
    id in before ==> id in after && after[id] == before[id]
  }

  lemma TakeKeepsSettled(s: State, c: Command, rest: seq<Command>, verdict: Option<Outcome>, id: RequestId)
    requires OnePlace(id, s.commands, ParkedIn(s.stack), s.settled, s.requested) && s.commands == [c] + rest
    ensures Stays(id, s.settled, TakeCommand(s.(commands := rest, phase := Draining), c, verdict).settled)
  {
    CountTail(id, c, rest);
    CountQueued(id, rest);
  }

  /** An outcome is final: no event changes or forgets one. */
  lemma SettledStays(s: State, e: Event, id: RequestId)
    requires Conserved(s) && Enabled(s, e)
    ensures Stays(id, s.settled, Next(s, e).settled)
  {
    assert OnePlace(id, s.commands, ParkedIn(s.stack), s.settled, s.requested);
    if e.Take? {
      assert s.commands == [s.commands[0]] + s.commands[1..];
      TakeKeepsSettled(s, s.commands[0], s.commands[1..], e.verdict, id);
    }
  }

  lemma {:induction false} OutcomesStay(s: State, es: seq<Event>, t: State, id: RequestId)
    requires Conserved(s) && IsRun(s, es, t)
    ensures Stays(id, s.settled, t.settled)
    decreases |es|
  {
    if es != [] {
      SettledStays(s, es[0], id);
      StepConserves(s, es[0]);
      OutcomesStay(Next(s, es[0]), es[1..], t, id);
    }
  }

  /** A request is answered once: from any reachable state on its outcome is final, and it is
      never again queued or parked. */
  lemma AnsweredOnce(before: seq<Event>, s: State, after: seq<Event>, t: State, id: RequestId)
    requires IsRun(INIT, before, s) && IsRun(s, after, t) && id in s.settled
    ensures id in t.settled && t.settled[id] == s.settled[id]
    ensures id !in ParkedIn(t.stack) && id !in QueuedIds(t.commands)
  {
    RequestConservation(before, s);
    OutcomesStay(s, after, t, id);
    RunConserves(s, after, t);
    assert OnePlace(id, t.commands, ParkedIn(t.stack), t.settled, t.requested);
    CountQueued(id, t.commands);
  }

  lemma TakeDropsParked(s: State, c: Command, rest: seq<Command>, verdict: Option<Outcome>, id: RequestId)
    requires OnePlace(id, s.commands, ParkedIn(s.stack), s.settled, s.requested) && s.commands == [c] + rest
    requires id in ParkedIn(s.stack)
    ensures var t := TakeCommand(s.(commands := rest, phase := Draining), c, verdict);
      t.stack.None? || c.Online? ==> id in t.settled && t.settled[id] == Dropped
  {
    CountTail(id, c, rest);
    CountQueued(id, rest);
  }

  /** When the engine is replaced, taken offline, fails or ends with the worker, every request
      parked in it is settled: its caller sees "not connected", unless the engine's last step
      has just answered it. None moves to another engine. */
  lemma LosingTheEngine(before: seq<Event>, s: State, e: Event, id: RequestId)
    requires IsRun(INIT, before, s) && Enabled(s, e) && id in ParkedIn(s.stack)
    requires Next(s, e).stack.None? || (e.Take? && s.commands[0].Online?)
    ensures ParkedIn(Next(s, e).stack) == {} && id in Next(s, e).settled
    ensures !(e.Step? && id in e.outcomes) ==> Response(Next(s, e).settled[id]) == Failed(NotConnected)
  {
    RequestConservation(before, s);
    assert OnePlace(id, s.commands, ParkedIn(s.stack), s.settled, s.requested);
    if e.Take? {
      assert s.commands == [s.commands[0]] + s.commands[1..];
      TakeDropsParked(s, s.commands[0], s.commands[1..], e.verdict, id);
    }
  }

  // ---- Start and stop agree with the worker ----

  function GenerationOf(stack: Option<Stack>): Option<nat> {
    if stack.Some? then Some(stack.value.generation) else None
  }

  function Apply(engine: Option<nat>, c: Command): Option<nat> {
    match c
    case Online(generation, _, _) => Some(generation)
    case Offline(generation) => if engine == Some(generation) then None else engine
    case Connect(_, _, _) => engine
    case Shutdown => None
  }

  /** The generation the worker ends up with once it has taken all of `cs`. */
  function Fold(engine: Option<nat>, cs: seq<Command>): Option<nat>
    decreases |cs|
  {
    if cs == [] then engine
    else if cs[0].Shutdown? then None
    else Fold(Apply(engine, cs[0]), cs[1..])
  }

  function Outlook(s: State): Option<nat> {
    Fold(GenerationOf(s.stack), s.commands)
  }

  /** Once the queue has drained there is no engine, or the one of the latest start, and then
      the callbacks' side has an open tunnel too. */
  predicate Agree(s: State) {
    Outlook(s).Some? ==> Outlook(s) == Some(s.generation) && s.io.Some?
  }

  predicate Halted(s: State) {
    !s.running ==> s.commands == [] && s.stack.None?
  }

  lemma {:induction false} FoldAppend(engine: Option<nat>, cs: seq<Command>, c: Command)
    ensures Fold(engine, cs + [c]) == if Shutdown in cs then None else Apply(Fold(engine, cs), c)
    decreases |cs|
  {
    if cs == [] {
      assert cs + [c] == [c];
    } else {
      assert (cs + [c])[1..] == cs[1..] + [c];
      assert cs == [cs[0]] + cs[1..];
      FoldAppend(Apply(engine, cs[0]), cs[1..], c);
    }
  }

  lemma {:induction false} FoldShut(engine: Option<nat>, cs: seq<Command>)
    requires Shutdown in cs
    ensures Fold(engine, cs) == None
    decreases |cs|
  {
    if !cs[0].Shutdown? {
      assert cs == [cs[0]] + cs[1..];
      FoldShut(Apply(engine, cs[0]), cs[1..]);
    }
  }

  /** Losing the engine early loses it, or makes no difference. */
  lemma {:induction false} FoldFromNone(engine: Option<nat>, cs: seq<Command>)
    ensures Fold(None, cs).None? || Fold(None, cs) == Fold(engine, cs)
    decreases |cs|
  {
    if cs != [] && !cs[0].Shutdown? && !cs[0].Online? {
      FoldFromNone(Apply(engine, cs[0]), cs[1..]);
    }
  }

  /** The worker by itself never changes what it will end up with, except by losing it. */
  lemma WorkerKeepsOutlook(s: State, e: Event)
    requires IsWorker(e) && Enabled(s, e)
    ensures Outlook(Next(s, e)).None? || Outlook(Next(s, e)) == Outlook(s)
    ensures !(e.Step? && e.failed) ==> Outlook(Next(s, e)) == Outlook(s)
  {
    FoldFromNone(GenerationOf(s.stack), s.commands);
    if e.Take? {
      var c := s.commands[0];
      assert Outlook(s) == if c.Shutdown? then None else Fold(Apply(GenerationOf(s.stack), c), s.commands[1..]);
    }
  }

  lemma WorkerKeepsHalted(s: State, e: Event)
    requires Halted(s) && Enabled(s, e)
    ensures Halted(Next(s, e))
  {
  }

  /** The one place where the callbacks decide what the worker ends up with: announcing a start
      makes the two sides agree exactly if, at that moment, the start is still the latest one
      and has not been stopped. */
  lemma AnnounceAgreesIff(s: State, session: Session, settings: Settings)
    requires Enabled(s, Announce(session, settings)) && s.running && Shutdown !in s.commands
    ensures Agree(Next(s, Announce(session, settings)))
       <==> s.starting[session].generation == s.generation && s.io.Some?
  {
    FoldAppend(GenerationOf(s.stack), s.commands, Online(s.starting[session].generation, session, settings));
  }

  /** Every other event but the beginning of a start keeps the agreement. */
  lemma OthersKeepAgreement(s: State, e: Event)
    requires Halted(s) && Agree(s) && Enabled(s, e) && !e.Assign? && !e.Announce?
    ensures Agree(Next(s, e))
    ensures e.Stop? ==> Outlook(Next(s, e)).None?
  {
    match e {
      case Activate(session, _) =>
        FoldAppend(GenerationOf(s.stack), s.commands, Offline(s.starting[session].generation));
      case Stop => FoldAppend(GenerationOf(s.stack), s.commands, Offline(s.generation));
      case Request(target, port, reply) =>
        FoldAppend(GenerationOf(s.stack), s.commands, Connect(target, port, reply));
        if Shutdown in s.commands {
          FoldShut(GenerationOf(s.stack), s.commands);
        }
      case Quit => FoldAppend(GenerationOf(s.stack), s.commands, Shutdown);
      case Send(_) =>
      case _ => WorkerKeepsOutlook(s, e);
    }
  }

  /** A start under way is carried on by nobody but itself. */
  lemma OthersKeepStart(s: State, e: Event, session: Session)
    requires Enabled(s, e) && session in s.starting && session in s.begun
    requires !(e.Announce? && e.session == session) && !(e.Activate? && e.session == session)
    ensures session in Next(s, e).starting && Next(s, e).starting[session] == s.starting[session]
  {
    if e.Take? {
      TakeChanges(s.(commands := s.commands[1..], phase := Draining), s.commands[0], e.verdict);
    }
  }

  /** Callbacks are serialised: none begins while a start is under way. */
  predicate InTurn(s: State, e: Event) {
    e.Assign? || e.Stop? ==> s.starting == map[]
  }

  ghost predicate IsSerialRun(s: State, es: seq<Event>, t: State)
    decreases |es|
  {
    if es == [] then s == t
    else Enabled(s, es[0]) && InTurn(s, es[0]) && IsSerialRun(Next(s, es[0]), es[1..], t)
  }

  /** At most one start is under way, and it is the latest. */
  ghost predicate OneStart(s: State) {
    forall x | x in s.starting ::
      s.starting == map[x := s.starting[x]] && s.starting[x].generation == s.generation && s.io == Some(x)
  }

  ghost predicate Announcing(s: State) {
    exists x :: x in s.starting && s.starting[x].Assigned?
  }

  /** Between taking its generation and announcing it a start may find the worker with the
      previous engine; otherwise the two sides agree. */
  ghost predicate Serial(s: State) {
    Halted(s) && OneStart(s) && (Announcing(s) || Agree(s))
  }

  lemma OneStartStays(s: State, e: Event)
    requires OneStart(s) && Enabled(s, e) && InTurn(s, e)
    ensures OneStart(Next(s, e))
  {
    if e.Take? {
      TakeChanges(s.(commands := s.commands[1..], phase := Draining), s.commands[0], e.verdict);
    }
  }

  /** A start that is announced in its turn brings the two sides together. */
  lemma AnnounceInTurn(s: State, session: Session, settings: Settings)
    requires Halted(s) && OneStart(s) && Enabled(s, Announce(session, settings))
    ensures Agree(Next(s, Announce(session, settings)))
  {
    if s.running && Shutdown !in s.commands {
      AnnounceAgreesIff(s, session, settings);
    } else if s.running {
      FoldAppend(GenerationOf(s.stack), s.commands, Online(s.starting[session].generation, session, settings));
    }
  }

  lemma SerialStep(s: State, e: Event)
    requires Serial(s) && Enabled(s, e) && InTurn(s, e)
    ensures Serial(Next(s, e))
  {
    var t := Next(s, e);
    WorkerKeepsHalted(s, e);
    OneStartStays(s, e);
    if e.Assign? {
      assert e.session in t.starting && t.starting[e.session].Assigned?;
    } else if e.Announce? {
      AnnounceInTurn(s, e.session, e.settings);
    } else if Agree(s) {
      OthersKeepAgreement(s, e);
    } else {
      StillAnnouncing(s, e);
    }
  }

  lemma StillAnnouncing(s: State, e: Event)
    requires Announcing(s) && OneStart(s) && Enabled(s, e) && !e.Announce?
    ensures Announcing(Next(s, e))
  {
    var x :| x in s.starting && s.starting[x].Assigned?;
    if e.Take? {
      TakeChanges(s.(commands := s.commands[1..], phase := Draining), s.commands[0], e.verdict);
    }
    assert x in Next(s, e).starting && Next(s, e).starting[x].Assigned?;
  }

  lemma {:induction false} SerialRun(s: State, es: seq<Event>, t: State)
    requires Serial(s) && IsSerialRun(s, es, t)
    ensures Serial(t)
    decreases |es|
  {
    if es != [] {
      SerialStep(s, es[0]);
      SerialRun(Next(s, es[0]), es[1..], t);
    }
  }

  /** Serialised start/stop agreement, over all runs: whenever no start is under way, the queue
      drains to no engine, or to the latest started one with its tunnel open. */
  lemma StartStopAgreement(es: seq<Event>, t: State)
    requires IsSerialRun(INIT, es, t) && t.starting == map[]
    ensures Agree(t)
    ensures t.io.None? ==> Outlook(t).None?
  {
    SerialRun(INIT, es, t);
  }

  // ---- Overlapping callbacks ----

  /** A start that is announced while it is still the latest one and has not been stopped. */
  predicate Timely(s: State, e: Event)
    requires Enabled(s, e)
  {
    e.Announce? ==> s.starting[e.session].generation == s.generation && s.io.Some?
  }

  ghost predicate IsTimelyRun(s: State, es: seq<Event>, t: State)
    decreases |es|
  {
    if es == [] then s == t
    else Enabled(s, es[0]) && Timely(s, es[0]) && IsTimelyRun(Next(s, es[0]), es[1..], t)
  }

  /** The latest start has not been announced yet. */
  ghost predicate LatestUnannounced(s: State) {
    exists x :: x in s.starting && s.starting[x] == Assigned(s.generation)
  }

  lemma TimelyAnnounce(s: State, session: Session, settings: Settings)
    requires Halted(s) && Enabled(s, Announce(session, settings)) && Timely(s, Announce(session, settings))
    ensures Agree(Next(s, Announce(session, settings)))
  {
    if s.running && Shutdown !in s.commands {
      AnnounceAgreesIff(s, session, settings);
    } else if s.running {
      FoldAppend(GenerationOf(s.stack), s.commands, Online(s.starting[session].generation, session, settings));
    }
  }

  lemma UnannouncedStays(s: State, e: Event)
    requires LatestUnannounced(s) && Enabled(s, e) && !e.Assign? && !e.Announce?
    ensures LatestUnannounced(Next(s, e))
  {
    var x :| x in s.starting && s.starting[x] == Assigned(s.generation);
    if e.Take? {
      TakeChanges(s.(commands := s.commands[1..], phase := Draining), s.commands[0], e.verdict);
    }
    assert x in Next(s, e).starting && Next(s, e).starting[x] == Assigned(Next(s, e).generation);
  }

  lemma TimelyStep(s: State, e: Event)
    requires Halted(s) && (Agree(s) || LatestUnannounced(s)) && Enabled(s, e) && Timely(s, e)
    ensures Halted(Next(s, e)) && (Agree(Next(s, e)) || LatestUnannounced(Next(s, e)))
  {
    WorkerKeepsHalted(s, e);
    if e.Assign? {
      var t := Next(s, e);
      assert e.session in t.starting && t.starting[e.session] == Assigned(t.generation);
    } else if e.Announce? {
      TimelyAnnounce(s, e.session, e.settings);
    } else if Agree(s) {
      OthersKeepAgreement(s, e);
    } else {
      UnannouncedStays(s, e);
    }
  }

  lemma {:induction false} TimelyRun(s: State, es: seq<Event>, t: State)
    requires Halted(s) && (Agree(s) || LatestUnannounced(s)) && IsTimelyRun(s, es, t)
    ensures Agree(t) || LatestUnannounced(t)
    decreases |es|
  {
    if es != [] {
      TimelyStep(s, es[0]);
      TimelyRun(Next(s, es[0]), es[1..], t);
    }
  }

  /** Start/stop agreement over every run, overlapping callbacks included, in which each start is
      announced in time. */
  lemma TimelyAgreement(es: seq<Event>, t: State)
    requires IsTimelyRun(INIT, es, t) && t.starting == map[]
    ensures Agree(t)
    ensures t.io.None? ==> Outlook(t).None?
  {
    TimelyRun(INIT, es, t);
  }

  ghost predicate SomeUnannounced(s: State) {
    exists x :: x in s.starting && s.starting[x].Assigned?
  }

  /** What is left, after other events, of the announcement of generation `mine` at a moment when
      the latest generation was `latest` and the tunnel open or not. */
  ghost predicate Standing(mine: nat, latest: nat, open: bool, s: State) {
    && Halted(s) && latest <= s.generation
    && (s.generation == latest || SomeUnannounced(s))
    && (Outlook(s).Some? ==> Outlook(s) == Some(mine))
    && (s.generation == latest && s.io.Some? ==> open)
    && (s.generation == latest == mine && open && Outlook(s).Some? ==> s.io.Some?)
  }

  lemma JustAnnounced(s: State, session: Session, settings: Settings)
    requires Halted(s) && Enabled(s, Announce(session, settings))
    ensures Standing(s.starting[session].generation, s.generation, s.io.Some?, Next(s, Announce(session, settings)))
  {
    var g := s.starting[session].generation;
    FoldAppend(GenerationOf(s.stack), s.commands, Online(g, session, settings));
  }

  /** An event that announces nothing adds nothing to the outlook, and a stop empties it if it
      was of the current generation. */
  lemma OutlookOnlyLost(s: State, e: Event)
    requires Halted(s) && Enabled(s, e) && !e.Announce?
    ensures Outlook(Next(s, e)).None? || Outlook(Next(s, e)) == Outlook(s)
    ensures e.Stop? && Outlook(s) == Some(s.generation) ==> Outlook(Next(s, e)).None?
  {
    var engine := GenerationOf(s.stack);
    if Shutdown in s.commands {
      FoldShut(engine, s.commands);
    }
    match e {
      case Activate(session, _) => FoldAppend(engine, s.commands, Offline(s.starting[session].generation));
      case Stop => FoldAppend(engine, s.commands, Offline(s.generation));
      case Request(target, port, reply) => FoldAppend(engine, s.commands, Connect(target, port, reply));
      case Quit => FoldAppend(engine, s.commands, Shutdown);
      case Assign(_) =>
      case Send(_) =>
      case _ => WorkerKeepsOutlook(s, e);
    }
  }

  /** What an event that announces nothing does on the callbacks' side. */
  lemma CallbackSide(s: State, e: Event)
    requires Enabled(s, e) && !e.Announce?
    ensures var t := Next(s, e);
      && (if e.Assign? then t.generation == s.generation + 1 && SomeUnannounced(t)
          else t.generation == s.generation && t.io == if e.Stop? then None else s.io)
      && (SomeUnannounced(s) ==> SomeUnannounced(t))
  {
    var t := Next(s, e);
    if e.Take? {
      TakeChanges(s.(commands := s.commands[1..], phase := Draining), s.commands[0], e.verdict);
    }
    if e.Assign? {
      assert e.session in t.starting && t.starting[e.session].Assigned?;
    }
    if SomeUnannounced(s) {
      var x :| x in s.starting && s.starting[x].Assigned?;
      assert x in t.starting && t.starting[x].Assigned?;
    }
  }

  lemma StandingStep(mine: nat, latest: nat, open: bool, s: State, e: Event)
    requires Standing(mine, latest, open, s) && Enabled(s, e) && !e.Announce?
    ensures Standing(mine, latest, open, Next(s, e))
  {
    WorkerKeepsHalted(s, e);
    OutlookOnlyLost(s, e);
    CallbackSide(s, e);
  }

  lemma {:induction false} StandingRun(mine: nat, latest: nat, open: bool, s: State, es: seq<Event>, t: State)
    requires Standing(mine, latest, open, s) && IsRun(s, es, t) && forall e | e in es :: !e.Announce?
    ensures Standing(mine, latest, open, t)
    decreases |es|
  {
    if es != [] {
      StandingStep(mine, latest, open, s, es[0]);
      StandingRun(mine, latest, open, Next(s, es[0]), es[1..], t);
    }
  }

  lemma {:induction false} NothingAnnounced(s: State, es: seq<Event>, t: State)
    requires Halted(s) && Outlook(s).None? && IsRun(s, es, t) && forall e | e in es :: !e.Announce?
    ensures Outlook(t).None?
    decreases |es|
  {
    if es != [] {
      WorkerKeepsHalted(s, es[0]);
      OutlookOnlyLost(s, es[0]);
      NothingAnnounced(Next(s, es[0]), es[1..], t);
    }
  }

  // What can become of an announcement, event by event.

  predicate NoOnline(g: nat, cs: seq<Command>) {
    forall c | c in cs :: c.Online? ==> c.generation != g
  }

  /** A generation that has been announced is told to the worker once. */
  predicate ToldOnce(g: nat, s: State) {
    && (GenerationOf(s.stack) == Some(g) ==> NoOnline(g, s.commands))
    && forall i, j | 0 <= i < j < |s.commands| ::
         !(s.commands[i].Online? && s.commands[j].Online? && s.commands[i].generation == s.commands[j].generation == g)
  }

  /** A start that has not been announced has not been told to the worker. */
  ghost predicate Unheard(s: State) {
    forall x | x in s.starting && s.starting[x].Assigned? ::
      NoOnline(s.starting[x].generation, s.commands) && GenerationOf(s.stack) != Some(s.starting[x].generation)
  }

  lemma UnheardStep(s: State, e: Event)
    requires Tagging(s) && Unheard(s) && Enabled(s, e)
    ensures Unheard(Next(s, e))
  {
    var t := Next(s, e);
    if e.Take? {
      TakeChanges(s.(commands := s.commands[1..], phase := Draining), s.commands[0], e.verdict);
    }
    forall x | x in t.starting && t.starting[x].Assigned?
      ensures NoOnline(t.starting[x].generation, t.commands) && GenerationOf(t.stack) != Some(t.starting[x].generation)
    {
      if e.Assign? && x == e.session {
        assert forall c | c in s.commands :: CommandFits(s.begun, c);
      } else if e.Announce? {
        assert Owns(s.begun, s.starting[x].generation, x);
        assert Owns(s.begun, s.starting[e.session].generation, e.session);
      }
    }
  }

  lemma {:induction false} UnheardRun(s: State, es: seq<Event>, t: State)
    requires Tagging(s) && Unheard(s) && IsRun(s, es, t)
    ensures Unheard(t)
    decreases |es|
  {
    if es != [] {
      UnheardStep(s, es[0]);
      StepKeepsTagging(s, es[0]);
      UnheardRun(Next(s, es[0]), es[1..], t);
    }
  }

  /** The events that take away the engine of generation `g`, where that is what is to come: a stop
      while it is the latest, its own withdrawal, the failure of its device, and the shutdown. */
  predicate Loses(s: State, e: Event, g: nat)
    requires Enabled(s, e)
  {
    match e
    case Stop => s.generation == g
    case Activate(session, ok) => !ok && s.starting[session].generation == g
    case Step(_, failed) => failed && GenerationOf(s.stack) == Some(g)
    case Quit => true
    case _ => false
  }

  /** Such an event is part of the run. */
  ghost predicate Lost(s: State, es: seq<Event>, g: nat)
    decreases |es|
  {
    es != [] && Enabled(s, es[0]) && (Loses(s, es[0], g) || Lost(Next(s, es[0]), es[1..], g))
  }

  /** What is to come and is not told again is there already. */
  lemma {:induction false} FoldUntold(engine: Option<nat>, cs: seq<Command>, g: nat)
    requires Fold(engine, cs) == Some(g) && NoOnline(g, cs)
    ensures engine == Some(g)
    decreases |cs|
  {
    if cs != [] {
      FoldUntold(Apply(engine, cs[0]), cs[1..], g);
    }
  }

  /** What is to come and is not there yet does not depend on what is there. */
  lemma {:induction false} FoldElsewhere(engine: Option<nat>, cs: seq<Command>, g: nat)
    requires Fold(engine, cs) == Some(g) && engine != Some(g)
    ensures Fold(None, cs) == Some(g)
    decreases |cs|
  {
    if !cs[0].Online? {
      FoldElsewhere(Apply(engine, cs[0]), cs[1..], g);
    }
  }

  /** Losing the engine at hand loses what is to come exactly if that is the engine at hand. */
  lemma FailureLosesIff(s: State, g: nat)
    requires ToldOnce(g, s) && Outlook(s) == Some(g)
    ensures Fold(None, s.commands).None? <==> GenerationOf(s.stack) == Some(g)
  {
    FoldFromNone(GenerationOf(s.stack), s.commands);
    if GenerationOf(s.stack) != Some(g) {
      FoldElsewhere(GenerationOf(s.stack), s.commands, g);
    } else if Fold(None, s.commands) == Some(g) {
      FoldUntold(None, s.commands, g);
    }
  }

  lemma LosesIff(s: State, e: Event, g: nat)
    requires Halted(s) && ToldOnce(g, s) && Outlook(s) == Some(g) && Enabled(s, e) && !e.Announce?
    ensures Outlook(Next(s, e)) == if Loses(s, e, g) then None else Some(g)
  {
    var engine := GenerationOf(s.stack);
    if Shutdown in s.commands {
      FoldShut(engine, s.commands);
    }
    match e {
      case Activate(session, _) => FoldAppend(engine, s.commands, Offline(s.starting[session].generation));
      case Stop => FoldAppend(engine, s.commands, Offline(s.generation));
      case Request(target, port, reply) => FoldAppend(engine, s.commands, Connect(target, port, reply));
      case Quit => FoldAppend(engine, s.commands, Shutdown);
      case Step(_, _) =>
        FailureLosesIff(s, g);
        FoldFromNone(engine, s.commands);
      case Assign(_) =>
      case Send(_) =>
      case _ => WorkerKeepsOutlook(s, e);
    }
  }

  lemma ToldOnceStays(s: State, e: Event, g: nat)
    requires ToldOnce(g, s) && Enabled(s, e) && !e.Announce?
    ensures ToldOnce(g, Next(s, e))
  {
    if e.Take? {
      forall c | c in s.commands[1..] && s.commands[0].Online? && s.commands[0].generation == g
        ensures c.Online? ==> c.generation != g
      {
        var k :| 1 <= k < |s.commands| && s.commands[k] == c;
      }
      TakeChanges(s.(commands := s.commands[1..], phase := Draining), s.commands[0], e.verdict);
    }
  }

  lemma {:induction false} LostIff(s: State, es: seq<Event>, t: State, g: nat)
    requires Halted(s) && ToldOnce(g, s) && Outlook(s) == Some(g)
    requires IsRun(s, es, t) && forall e | e in es :: !e.Announce?
    ensures Outlook(t).None? <==> Lost(s, es, g)
    decreases |es|
  {
    if es != [] {
      WorkerKeepsHalted(s, es[0]);
      LosesIff(s, es[0], g);
      if Loses(s, es[0], g) {
        NothingAnnounced(Next(s, es[0]), es[1..], t);
      } else {
        ToldOnceStays(s, es[0], g);
        LostIff(Next(s, es[0]), es[1..], t, g);
      }
    }
  }

  /** Nobody will act on what is announced: the worker has gone or has been told to go. */
  predicate Deaf(s: State) {
    !s.running || Shutdown in s.commands
  }

  /** Nothing is left of the last announcement exactly if nobody was to act on it or one of the
      events that take its engine away has happened since. */
  lemma AnnouncementLostIff(before: seq<Event>, s: State, session: Session, settings: Settings,
                            after: seq<Event>, t: State)
    requires IsRun(INIT, before, s) && Enabled(s, Announce(session, settings))
    requires IsRun(Next(s, Announce(session, settings)), after, t) && forall e | e in after :: !e.Announce?
    ensures Outlook(t).None?
       <==> Deaf(s) || Lost(Next(s, Announce(session, settings)), after, s.starting[session].generation)
  {
    RequestConservation(before, s);
    RunKeepsTagging(INIT, before, s);
    UnheardRun(INIT, before, s);
    var g, a := s.starting[session].generation, Next(s, Announce(session, settings));
    FoldAppend(GenerationOf(s.stack), s.commands, Online(g, session, settings));
    WorkerKeepsHalted(s, Announce(session, settings));
    if Deaf(s) {
      NothingAnnounced(a, after, t);
    } else {
      LostIff(a, after, t, g);
    }
  }

  /** The exact condition, over every run whatever overlaps: once no start is under way, the two
      sides agree if and only if the last announcement was made in time, or nobody was to act on
      it, or its engine has been taken away again. Without any announcement there is nothing to
      disagree about. */
  lemma AgreementIff(before: seq<Event>, s: State, session: Session, settings: Settings, after: seq<Event>, t: State)
    requires IsRun(INIT, before, s) && Enabled(s, Announce(session, settings))
    requires IsRun(Next(s, Announce(session, settings)), after, t) && forall e | e in after :: !e.Announce?
    requires t.starting == map[]
    ensures Agree(t)
       <==> || Timely(s, Announce(session, settings)) || Deaf(s)
            || Lost(Next(s, Announce(session, settings)), after, s.starting[session].generation)
  {
    RequestConservation(before, s);
    JustAnnounced(s, session, settings);
    var a := Next(s, Announce(session, settings));
    StandingRun(s.starting[session].generation, s.generation, s.io.Some?, a, after, t);
    AnnouncementLostIff(before, s, session, settings, after, t);
  }

  /** A stop leaves nothing to come exactly if what there was is of the current generation. */
  lemma StopEmptiesIff(s: State)
    requires Halted(s)
    ensures Outlook(Next(s, Stop)).None? <==> (Outlook(s).Some? ==> Outlook(s).value == s.generation)
  {
    FoldAppend(GenerationOf(s.stack), s.commands, Offline(s.generation));
    if Shutdown in s.commands {
      FoldShut(GenerationOf(s.stack), s.commands);
    }
  }

  /** After a stop, whatever else happens, there is no engine once the queue has drained, until
      another start is announced; exactly if the engine that was to come was of the generation
      stopped. Agreement before the stop is enough for that. */
  lemma StopDrains(before: seq<Event>, s: State, es: seq<Event>, t: State)
    requires IsRun(INIT, before, s) && (Outlook(s).Some? ==> Outlook(s).value == s.generation)
    requires IsRun(Next(s, Stop), es, t) && forall e | e in es :: !e.Announce?
    ensures Outlook(t).None?
    ensures t.commands == [] ==> t.stack.None?
  {
    RequestConservation(before, s);
    WorkerKeepsHalted(s, Stop);
    StopEmptiesIff(s);
    NothingAnnounced(Next(s, Stop), es, t);
  }

  // ---- Offlines for other generations ----

  /** An event that neither starts, stops, withdraws nor breaks the engine of generation `g`. */
  predicate Spares(s: State, e: Event, g: nat)
    requires Enabled(s, e)
  {
    match e
    case Announce(_, _) => false
    case Quit => false
    case Stop => s.generation != g
    case Activate(session, ok) => ok || s.starting[session].generation != g
    case Step(_, failed) => !failed
    case _ => true
  }

  predicate QueueSpares(cs: seq<Command>, g: nat) {
    forall c | c in cs :: c.Connect? || (c.Offline? && c.generation != g)
  }

  ghost predicate IsSparingRun(s: State, es: seq<Event>, t: State, g: nat)
    decreases |es|
  {
    if es == [] then s == t
    else Enabled(s, es[0]) && Spares(s, es[0], g) && IsSparingRun(Next(s, es[0]), es[1..], t, g)
  }

  lemma SparingStep(s: State, e: Event, g: nat)
    requires s.stack.Some? && s.stack.value.generation == g && QueueSpares(s.commands, g)
    requires Enabled(s, e) && Spares(s, e, g)
    ensures var t := Next(s, e);
      && t.stack.Some? && t.stack.value.generation == g && t.stack.value.session == s.stack.value.session
      && QueueSpares(t.commands, g)
  {
    if e.Take? {
      assert s.commands[0] in s.commands;
    }
  }

  /** An engine survives any number of `Offline`s for other generations, older or newer, queued
      already or still to come, over whole runs: it goes only when its own is taken, when it is
      replaced, fails, or is shut down. */
  lemma {:induction false} OtherOfflinesAreHarmless(s: State, es: seq<Event>, t: State, g: nat)
    requires s.stack.Some? && s.stack.value.generation == g && QueueSpares(s.commands, g)
    requires IsSparingRun(s, es, t, g)
    ensures t.stack.Some? && t.stack.value.generation == g && t.stack.value.session == s.stack.value.session
    decreases |es|
  {
    if es != [] {
      SparingStep(s, es[0], g);
      OtherOfflinesAreHarmless(Next(s, es[0]), es[1..], t, g);
    }
  }

  /** Without serialisation the agreement fails: a stop that comes between a start's taking its
      generation and its announcement is lost, and the start still goes through. All is over then,
      the tunnel is closed, and the worker is left with an engine that no callback under way is
      going to take away. */
  lemma ConcurrentStopBreaksAgreement(settings: Settings) returns (es: seq<Event>, t: State)
    ensures IsRun(INIT, es, t) && !Agree(t)
    ensures t.starting == map[] && t.io.None? && Outlook(t) == Some(1)
  {
    var a, b := Next(INIT, Assign(0)), Next(Next(INIT, Assign(0)), Stop);
    var c := Next(b, Announce(0, settings));
    assert IsRun(INIT, [], INIT);
    RunAppend(INIT, [], INIT, Assign(0));
    RunAppend(INIT, [] + [Assign(0)], a, Stop);
    RunAppend(INIT, [] + [Assign(0)] + [Stop], b, Announce(0, settings));
    RunAppend(INIT, [] + [Assign(0)] + [Stop] + [Announce(0, settings)], c, Activate(0, true));
    es := [] + [Assign(0)] + [Stop] + [Announce(0, settings)] + [Activate(0, true)];
    t := Next(c, Activate(0, true));
    assert b.commands == [Offline(1)];
    FoldAppend(None, [Offline(1)], Online(1, 0, settings));
  }
}
