/** The two tables of an engine, as values: what keeps them consistent, and what adding and
    removing an entry does to that. Nothing here reads the heap. */
module Tables {
  import opened Wrappers
  import opened Net
  import opened Vectors
  import opened Ports
  import opened SettingsModel
  import opened Oneshot
  import opened Tcp
  import opened Pipe
  import opened Resolver
  import opened FlowModel

  /** A parked name lookup. */
  datatype Lookup = Lookup(query: nat, name: seq<u8>, fallback: Option<QueryKind>,
                           port: u16, reply: RequestId, deadline: nat)

  /** What a request asked for, and its one deadline. */
  datatype Ask = Ask(target: Target, port: u16, deadline: nat)

  /** The stack's socket set holds sockets of two types. */
  datatype SocketSlot = DnsSlot(dns: DnsSocket) | TcpSlot(tcp: TcpSocket)

  // ---- Lookups ----

  /** The question a lookup is waiting on: A as long as a fallback remains. */
  function QuestionOf(l: Lookup, s: Settings): Question {
    Question(l.name, if l.fallback.Some? || (s.ipv4.Some? && s.ipv6.None?) then A else Aaaa)
  }

  predicate LookupFits(l: Lookup, slots: map<nat, Question>, asked: map<RequestId, Ask>,
                       issued: map<RequestId, nat>, s: Settings) {
    && l.query in slots && slots[l.query] == QuestionOf(l, s)
    && l.reply in asked && asked[l.reply] == Ask(Domain(l.name), l.port, l.deadline)
    && l.reply in issued && issued[l.reply] == (if l.fallback.None? && s.ipv4.Some? && s.ipv6.Some? then 2 else 1)
    && (l.fallback.Some? ==> l.fallback.value == Aaaa && s.ipv4.Some? && s.ipv6.Some?)
  }

  /** A slot is occupied exactly if a lookup holds its handle. */
  ghost predicate SlotHeld(q: nat, ls: seq<Lookup>, slots: map<nat, Question>) {
    q in slots <==> exists l :: l in ls && l.query == q
  }

  /** The occupied slots are exactly the handles the lookups hold, each holding its own. */
  ghost predicate LookupTable(ls: seq<Lookup>, slots: map<nat, Question>, asked: map<RequestId, Ask>,
                              issued: map<RequestId, nat>, s: Settings) {
    && DistinctLookups(ls)
    && (forall q {:trigger SlotHeld(q, ls, slots)} :: SlotHeld(q, ls, slots))
    && (forall l {:trigger LookupFits(l, slots, asked, issued, s)} | l in ls :: LookupFits(l, slots, asked, issued, s))
  }

  ghost predicate DistinctLookups(ls: seq<Lookup>) {
    ls == [] ||
    var others, last := ls[..|ls| - 1], ls[|ls| - 1];
    DistinctLookups(others) && forall l | l in others :: Differ(l, last)
  }

  predicate Differ(l: Lookup, m: Lookup) {
    l.query != m.query && l.reply != m.reply
  }

  lemma {:induction false} DistinctMeans(ls: seq<Lookup>)
    ensures DistinctLookups(ls) <==> forall i, j | 0 <= i < j < |ls| :: Differ(ls[i], ls[j])
  {
    if ls != [] {
      var n := |ls| - 1;
      DistinctMeans(ls[..n]);
      if DistinctLookups(ls) {
        forall i, j | 0 <= i < j < |ls| ensures Differ(ls[i], ls[j]) {
          assert ls[i] == ls[..n][i];
          if j < n {
            assert ls[j] == ls[..n][j];
          }
        }
      }
      if forall i, j | 0 <= i < j < |ls| :: Differ(ls[i], ls[j]) {
        forall i, j | 0 <= i < j < n ensures Differ(ls[..n][i], ls[..n][j]) {
          assert ls[i] == ls[..n][i] && ls[j] == ls[..n][j];
        }
        assert forall l | l in ls[..n] :: Differ(l, ls[n]);
      }
    }
  }

  lemma DistinctAfterRemoval(ls: seq<Lookup>, i: nat)
    requires i < |ls| && DistinctLookups(ls)
    ensures DistinctLookups(SwapRemove(ls, i))
  {
    SwapRemoveOrigin(ls, i);
    var r := SwapRemove(ls, i);
    DistinctMeans(ls);
    DistinctMeans(r);
    forall a, b | 0 <= a < b < |r| ensures Differ(r[a], r[b]) {
      var j, k := Origin(|ls|, i, a), Origin(|ls|, i, b);
      if j < k {
        assert Differ(ls[j], ls[k]);
      } else {
        assert Differ(ls[k], ls[j]);
      }
    }
  }

  lemma LookupsWithout(ls: seq<Lookup>, i: nat)
    requires i < |ls| && DistinctLookups(ls)
    ensures forall l :: l in SwapRemove(ls, i) <==> l in ls && l.query != ls[i].query
    ensures forall l :: l in SwapRemove(ls, i) <==> l in ls && l.reply != ls[i].reply
  {
    SwapRemoveMembers(ls, i);
    DistinctMeans(ls);
    forall k | 0 <= k < |ls| && k != i ensures Differ(ls[k], ls[i]) {
      if k < i {
        assert Differ(ls[k], ls[i]);
      } else {
        assert Differ(ls[i], ls[k]);
      }
    }
  }

  lemma LookupRemoved(ls: seq<Lookup>, i: nat, slots: map<nat, Question>, asked: map<RequestId, Ask>,
                      issued: map<RequestId, nat>, s: Settings)
    requires i < |ls| && LookupTable(ls, slots, asked, issued, s)
    ensures LookupFits(ls[i], slots, asked, issued, s)
    ensures LookupTable(SwapRemove(ls, i), slots - {ls[i].query}, asked, issued, s)
  {
    assert LookupFits(ls[i], slots, asked, issued, s);
    LookupsWithout(ls, i);
    DistinctAfterRemoval(ls, i);
    var r, slots' := SwapRemove(ls, i), slots - {ls[i].query};
    forall q ensures SlotHeld(q, r, slots') {
      assert SlotHeld(q, ls, slots);
    }
    forall l | l in r ensures LookupFits(l, slots', asked, issued, s) {
      assert LookupFits(l, slots, asked, issued, s);
    }
  }

  lemma LookupAdded(ls: seq<Lookup>, l: Lookup, slots: map<nat, Question>, asked: map<RequestId, Ask>,
                    issued: map<RequestId, nat>, issued': map<RequestId, nat>, s: Settings)
    requires LookupTable(ls, slots, asked, issued, s)
    requires l.query !in slots && forall m | m in ls :: m.reply != l.reply
    requires forall id | id in issued && id != l.reply :: id in issued' && issued'[id] == issued[id]
    requires LookupFits(l, slots[l.query := QuestionOf(l, s)], asked, issued', s)
    ensures LookupTable(ls + [l], slots[l.query := QuestionOf(l, s)], asked, issued', s)
  {
    var slots' := slots[l.query := QuestionOf(l, s)];
    assert (ls + [l])[..|ls|] == ls;
    forall m | m in ls ensures Differ(m, l) && LookupFits(m, slots', asked, issued', s) {
      assert LookupFits(m, slots, asked, issued, s);
    }
    forall q ensures SlotHeld(q, ls + [l], slots') {
      assert SlotHeld(q, ls, slots);
      assert l in ls + [l];
    }
  }

  /** Asking for something new leaves the table alone. */
  lemma LookupsAfterAsk(ls: seq<Lookup>, slots: map<nat, Question>, asked: map<RequestId, Ask>,
                        asked': map<RequestId, Ask>, issued: map<RequestId, nat>, s: Settings)
    requires LookupTable(ls, slots, asked, issued, s)
    requires forall id | id in asked :: id in asked' && asked'[id] == asked[id]
    ensures LookupTable(ls, slots, asked', issued, s)
  {
    forall l | l in ls ensures LookupFits(l, slots, asked', issued, s) {
      assert LookupFits(l, slots, asked, issued, s);
    }
  }

  /** `m` is `l` after its first question failed: same request, same deadline, no fallback left. */
  predicate Fallback(l: Lookup, m: Lookup) {
    l.fallback.Some? && m == l.(query := m.query, fallback := None)
  }

  /** What the lookup walk still has to do: one visit per entry and one more per fallback. */
  function Work(ls: seq<Lookup>): nat {
    if ls == [] then 0 else Weight(ls[0]) + Work(ls[1..])
  }

  function Weight(l: Lookup): nat {
    if l.fallback.Some? then 2 else 1
  }

  lemma {:induction false} WorkConcat(a: seq<Lookup>, b: seq<Lookup>)
    ensures Work(a + b) == Work(a) + Work(b)
  {
    if a == [] {
      assert a + b == b;
    } else {
      assert (a + b)[1..] == a[1..] + b;
      WorkConcat(a[1..], b);
    }
  }

  lemma WorkRemoved(ls: seq<Lookup>, i: nat)
    requires i < |ls|
    ensures Work(SwapRemove(ls, i)[i..]) == Work(ls[i..]) - Weight(ls[i])
  {
    var last := |ls| - 1;
    var r := SwapRemove(ls, i)[i..];
    assert ls[i..] == [ls[i]] + ls[i + 1..];
    if i < last {
      assert r == [ls[last]] + ls[i + 1..last];
      assert ls[i + 1..] == ls[i + 1..last] + [ls[last]];
      WorkConcat(ls[i + 1..last], [ls[last]]);
      WorkConcat([ls[last]], ls[i + 1..last]);
    } else {
      assert r == [] == ls[i + 1..];
    }
  }

  /** Every iteration leaves less to do, push-backs included. */
  lemma WorkShrinks(ls: seq<Lookup>, i: nat, d: Verdict<Lookup>)
    requires i < |ls|
    requires d.Requeue? ==> ls[i].fallback.Some? && d.item.fallback.None?
    ensures var c := Advance(Cursor(ls, i), d);
      c.index <= |c.vector| && Work(c.vector[c.index..]) < Work(ls[i..])
  {
    match d {
      case Keep => assert ls[i..] == [ls[i]] + ls[i + 1..];
      case Remove => WorkRemoved(ls, i);
      case Requeue(l) =>
        WorkRemoved(ls, i);
        var r := SwapRemove(ls, i);
        assert (r + [l])[i..] == r[i..] + [l];
        WorkConcat(r[i..], [l]);
        assert Work([l]) == 1;
    }
  }

  /** A lookup found pending in this round, its requester found present, and with time left. */
  predicate Wanted(l: Lookup, now: nat, pending: set<nat>, present: set<RequestId>) {
    now < l.deadline && l.query in pending && l.reply in present
  }

  predicate AllWanted(ls: seq<Lookup>, now: nat, pending: set<nat>, present: set<RequestId>) {
    forall l {:trigger Wanted(l, now, pending, present)} | l in ls :: Wanted(l, now, pending, present)
  }

  lemma StillWanted(ls: seq<Lookup>, now: nat, pending: set<nat>, present: set<RequestId>, present': set<RequestId>)
    requires AllWanted(ls, now, pending, present) && present <= present'
    ensures AllWanted(ls, now, pending, present')
  {
    forall l | l in ls ensures Wanted(l, now, pending, present') {
      assert Wanted(l, now, pending, present);
    }
  }

  ghost predicate OnlyLoses(pending: set<nat>, pending': set<nat>, q: nat) {
    forall p | p in pending && p != q :: p in pending'
  }

  /** What the walk has passed stays wanted while it works on the lookup at `i`. */
  lemma PassedStayWanted(ls: seq<Lookup>, i: nat, d: Verdict<Lookup>, ls': seq<Lookup>,
                         pending: set<nat>, pending': set<nat>,
                         present: set<RequestId>, present': set<RequestId>, now: nat)
    requires present <= present'
    requires i < |ls| && DistinctLookups(ls) && ls' == Advance(Cursor(ls, i), d).vector
    requires OnlyLoses(pending, pending', ls[i].query)
    requires AllWanted(ls[..i], now, pending, present)
    requires d.Keep? ==> Wanted(ls[i], now, pending', present')
    ensures var next := if d.Keep? then i + 1 else i;
      next <= |ls'| && AllWanted(ls'[..next], now, pending', present')
  {
    SwapRemoveFront(ls, i);
    DistinctMeans(ls);
    forall k | 0 <= k < i ensures ls'[k] == ls[k] && Wanted(ls[k], now, pending', present') {
      assert ls'[k] == ls'[..i][k] == ls[..i][k];
      assert ls[k] in ls[..i] && Wanted(ls[k], now, pending, present);
      assert Differ(ls[k], ls[i]);
    }
  }

  /** One more step of a walk over lookups, and less work left. */
  lemma WalkOn(c: Cursor<Lookup>, ds: seq<Verdict<Lookup>>, ls: seq<Lookup>, i: nat,
               d: Verdict<Lookup>, ls': seq<Lookup>)
    requires InRange(c, ds) && Walk(c, ds) == Cursor(ls, i) && i < |ls|
    requires ls' == Advance(Cursor(ls, i), d).vector
    requires d.Requeue? ==> Fallback(ls[i], d.item)
    ensures var next := if d.Keep? then i + 1 else i;
      && InRange(c, ds + [d]) && Walk(c, ds + [d]) == Cursor(ls', next)
      && next <= |ls'| && Work(ls'[next..]) < Work(ls[i..])
  {
    WalkAppend(c, ds, d);
    WorkShrinks(ls, i, d);
  }

  // ---- Flows ----

  /** The objects the flows consist of. */
  ghost function Members(fs: seq<Flow>): set<Flow> {
    set f | f in fs
  }

  ghost function Bridges(fs: seq<Flow>): set<Duplex> {
    set f | f in fs :: f.bridge
  }

  ghost function TcpSockets(fs: seq<Flow>): set<TcpSocket> {
    set f | f in fs :: f.tcp
  }

  function PortsOf(fs: seq<Flow>): set<Port> {
    set f | f in fs && FIRST <= f.local.port <= LAST :: f.local.port
  }

  ghost predicate Apart(f: Flow, g: Flow) {
    && f != g && f.bridge != g.bridge && f.tcp != g.tcp
    && f.socket != g.socket && f.request != g.request && f.local.port != g.local.port
  }

  ghost predicate AllApart(fs: seq<Flow>) {
    fs == [] ||
    var others, last := fs[..|fs| - 1], fs[|fs| - 1];
    AllApart(others) && forall f | f in others :: Apart(f, last)
  }

  lemma {:induction false} AllApartMeans(fs: seq<Flow>)
    ensures AllApart(fs) <==> forall i, j | 0 <= i < j < |fs| :: Apart(fs[i], fs[j])
  {
    if fs != [] {
      var n := |fs| - 1;
      AllApartMeans(fs[..n]);
      if AllApart(fs) {
        forall i, j | 0 <= i < j < |fs| ensures Apart(fs[i], fs[j]) {
          assert fs[i] == fs[..n][i];
          if j < n {
            assert fs[j] == fs[..n][j];
          }
        }
      }
      if forall i, j | 0 <= i < j < |fs| :: Apart(fs[i], fs[j]) {
        forall i, j | 0 <= i < j < n ensures Apart(fs[..n][i], fs[..n][j]) {
          assert fs[i] == fs[..n][i] && fs[j] == fs[..n][j];
        }
        assert forall f | f in fs[..n] :: Apart(f, fs[n]);
      }
    }
  }

  /** A place in the socket set is used exactly by the DNS socket or by a flow. */
  ghost predicate PlaceHeld(h: nat, fs: seq<Flow>, sockets: map<nat, SocketSlot>, dns: nat) {
    h in sockets <==> h == dns || exists f :: f in fs && f.socket == h
  }

  ghost predicate SocketFits(f: Flow, sockets: map<nat, SocketSlot>, dns: nat) {
    && f.socket != dns && f.socket in sockets && sockets[f.socket] == TcpSlot(f.tcp)
    && FIRST <= f.local.port <= LAST
  }

  /** The socket set is exactly the DNS socket plus one socket of its own per flow. */
  ghost predicate FlowTable(fs: seq<Flow>, sockets: map<nat, SocketSlot>, dns: nat, resolver: DnsSocket) {
    && AllApart(fs)
    && dns in sockets && sockets[dns] == DnsSlot(resolver)
    && (forall h {:trigger PlaceHeld(h, fs, sockets, dns)} :: PlaceHeld(h, fs, sockets, dns))
    && (forall f {:trigger SocketFits(f, sockets, dns)} | f in fs :: SocketFits(f, sockets, dns))
  }

  /** The flow connects where its request wanted to go, from the address the VPN assigned. */
  ghost predicate FlowFits(f: Flow, asked: map<RequestId, Ask>, answers: set<(Question, IpAddr)>, s: Settings) {
    && f.request in asked
    && f.deadline == asked[f.request].deadline
    && Leads(asked[f.request], f.tcp.remote, answers)
    && f.tcp.owner == f.request && f.tcp.local == f.local
    && s.SupportsFamily(f.tcp.remote.ip)
    && f.local.ip == LocalIp(s, f.tcp.remote.ip)
  }

  function LocalIp(s: Settings, ip: IpAddr): IpAddr
    requires s.SupportsFamily(ip)
  {
    if ip.V4? then V4(s.ipv4.value) else V6(s.ipv6.value)
  }

  /** `remote` is what the request asked for: the address itself, or an answer to a question
      about its name. */
  ghost predicate Leads(ask: Ask, remote: SocketAddr, answers: set<(Question, IpAddr)>) {
    && remote.port == ask.port
    && match ask.target
       case Ip(ip) => remote.ip == ip
       case Domain(name) => (Question(name, A), remote.ip) in answers || (Question(name, Aaaa), remote.ip) in answers
  }

  lemma ApartAfterRemoval(fs: seq<Flow>, i: nat)
    requires i < |fs| && AllApart(fs)
    ensures AllApart(SwapRemove(fs, i))
  {
    SwapRemoveOrigin(fs, i);
    var r := SwapRemove(fs, i);
    AllApartMeans(fs);
    AllApartMeans(r);
    forall a, b | 0 <= a < b < |r| ensures Apart(r[a], r[b]) {
      var j, k := Origin(|fs|, i, a), Origin(|fs|, i, b);
      if j < k {
        assert Apart(fs[j], fs[k]);
      } else {
        assert Apart(fs[k], fs[j]);
      }
    }
  }

  lemma FlowsWithout(fs: seq<Flow>, i: nat)
    requires i < |fs| && AllApart(fs)
    ensures forall f | f in SwapRemove(fs, i) :: f in fs && Apart(f, fs[i])
    ensures forall f | f in fs :: f == fs[i] || f in SwapRemove(fs, i)
  {
    SwapRemoveMembers(fs, i);
    AllApartMeans(fs);
    forall f | f in SwapRemove(fs, i) ensures f in fs && Apart(f, fs[i]) {
      var k :| 0 <= k < |fs| && k != i && fs[k] == f;
      if k < i {
        assert Apart(fs[k], fs[i]);
      } else {
        assert Apart(fs[i], fs[k]);
      }
    }
  }

  lemma OthersApart(fs: seq<Flow>, i: nat)
    requires i < |fs| && AllApart(fs)
    ensures forall g {:trigger Apart(g, fs[i])} | g in fs :: g == fs[i] || Apart(g, fs[i])
  {
    FlowsWithout(fs, i);
  }

  /** What is ahead of the flow walk after one iteration, and what is in the vector. */
  lemma AheadAfter(fs: seq<Flow>, i: nat, keep: bool)
    requires i < |fs| && AllApart(fs)
    ensures var rest, next := if keep then fs else SwapRemove(fs, i), if keep then i + 1 else i;
      && next <= |rest|
      && (forall f :: f in rest[next..] <==> f in fs[i..] && f != fs[i])
      && (forall f :: f in rest <==> f in fs && (keep || f != fs[i]))
  {
    AllApartMeans(fs);
    assert fs[i..] == [fs[i]] + fs[i + 1..];
    forall k | i < k < |fs| ensures fs[k] != fs[i] {
      assert Apart(fs[i], fs[k]);
    }
    if !keep {
      SwapRemoveBack(fs, i);
      FlowsWithout(fs, i);
      forall f ensures f in SwapRemove(fs, i)[i..] <==> f in fs[i + 1..] {
        assert f in multiset(SwapRemove(fs, i)[i..]) <==> f in multiset(fs[i + 1..]);
      }
    }
  }

  lemma ApartWithin(fs: seq<Flow>, f: Flow, g: Flow)
    requires AllApart(fs) && f in fs && g in fs && f != g
    ensures Apart(f, g)
  {
    AllApartMeans(fs);
    var i :| 0 <= i < |fs| && fs[i] == f;
    var j :| 0 <= j < |fs| && fs[j] == g;
    if i < j {
      assert Apart(fs[i], fs[j]);
    } else {
      assert Apart(fs[j], fs[i]);
    }
  }

  lemma FlowRemoved(fs: seq<Flow>, i: nat, sockets: map<nat, SocketSlot>, dns: nat, resolver: DnsSocket)
    requires i < |fs| && FlowTable(fs, sockets, dns, resolver)
    ensures FlowTable(SwapRemove(fs, i), sockets - {fs[i].socket}, dns, resolver)
  {
    assert SocketFits(fs[i], sockets, dns);
    FlowsWithout(fs, i);
    ApartAfterRemoval(fs, i);
    var r, sockets' := SwapRemove(fs, i), sockets - {fs[i].socket};
    forall h ensures PlaceHeld(h, r, sockets', dns) {
      assert PlaceHeld(h, fs, sockets, dns);
    }
    forall f | f in r ensures SocketFits(f, sockets', dns) {
      assert SocketFits(f, sockets, dns);
    }
  }

  lemma ApartAfterAdding(fs: seq<Flow>, f: Flow)
    requires AllApart(fs) && forall g | g in fs :: Apart(g, f)
    ensures AllApart(fs + [f])
  {
    assert (fs + [f])[..|fs|] == fs;
  }

  lemma FlowAdded(fs: seq<Flow>, f: Flow, sockets: map<nat, SocketSlot>, dns: nat, resolver: DnsSocket)
    requires FlowTable(fs, sockets, dns, resolver)
    requires f.socket !in sockets && FIRST <= f.local.port <= LAST && f.local.port !in PortsOf(fs)
    requires forall g | g in fs :: f != g && f.request != g.request && f.bridge != g.bridge && f.tcp != g.tcp
    ensures FlowTable(fs + [f], sockets[f.socket := TcpSlot(f.tcp)], dns, resolver)
  {
    var sockets' := sockets[f.socket := TcpSlot(f.tcp)];
    forall g | g in fs ensures Apart(g, f) && SocketFits(g, sockets', dns) {
      assert SocketFits(g, sockets, dns);
    }
    ApartAfterAdding(fs, f);
    forall h ensures PlaceHeld(h, fs + [f], sockets', dns) {
      assert PlaceHeld(h, fs, sockets, dns);
      assert f in fs + [f];
    }
  }

  lemma PortsAfterRemoval(fs: seq<Flow>, i: nat)
    requires i < |fs|
    ensures PortsOf(SwapRemove(fs, i)) <= PortsOf(fs)
  {
    SwapRemoveMembers(fs, i);
  }

  lemma PortsAfterAdding(fs: seq<Flow>, f: Flow)
    requires FIRST <= f.local.port <= LAST
    ensures PortsOf(fs + [f]) == PortsOf(fs) + {f.local.port}
  {
  }

  lemma {:induction false} PortsCount(fs: seq<Flow>)
    ensures |PortsOf(fs)| <= |fs|
  {
    if fs != [] {
      var n := |fs| - 1;
      PortsCount(fs[..n]);
      assert fs == fs[..n] + [fs[n]];
      assert PortsOf(fs) <= PortsOf(fs[..n]) + PortsOf([fs[n]]);
      var p := fs[n].local.port;
      if FIRST <= p <= LAST {
        assert PortsOf([fs[n]]) == {p};
      } else {
        assert PortsOf([fs[n]]) == {};
      }
      SubsetSize(PortsOf(fs), PortsOf(fs[..n]) + PortsOf([fs[n]]));
    }
  }

  // ---- Requests ----

  predicate InLookup(id: RequestId, ls: seq<Lookup>) {
    exists l :: l in ls && l.reply == id
  }

  ghost predicate HasFlow(id: RequestId, fs: seq<Flow>) {
    exists f :: f in fs && f.request == id
  }

  /** No request that is parked or in hand has a requester that has been found gone. */
  ghost predicate Attended(ls: seq<Lookup>, waiting: set<RequestId>, inHand: set<RequestId>, gone: set<RequestId>) {
    forall id {:trigger id in gone} | id in gone :: id !in waiting && id !in inHand && !InLookup(id, ls)
  }

  /** The lookup at `i` is taken out, whose requester may be found gone only now. */
  lemma AttendedTaken(ls: seq<Lookup>, i: nat, waiting: set<RequestId>, gone: set<RequestId>, gone': set<RequestId>)
    requires i < |ls| && DistinctLookups(ls) && Attended(ls, waiting, {}, gone)
    requires gone <= gone' <= gone + {ls[i].reply} && ls[i].reply !in waiting
    ensures Attended(SwapRemove(ls, i), waiting, {}, gone')
    ensures ls[i].reply !in gone
    ensures gone' == gone ==> Attended(SwapRemove(ls, i), waiting, {ls[i].reply}, gone')
  {
    LookupsWithout(ls, i);
    assert ls[i] in ls && InLookup(ls[i].reply, ls);
  }

  /** A flow has been polled, whose requester may have been found gone only now. */
  lemma AttendedPolled(ls: seq<Lookup>, w: set<RequestId>, gone: set<RequestId>, id: RequestId,
                       w': set<RequestId>, gone': set<RequestId>)
    requires Attended(ls, w, {}, gone) && !InLookup(id, ls)
    requires forall x | x in gone' :: x in gone || x == id
    requires forall x | x in w' :: x in w && (x == id ==> id !in gone')
    ensures Attended(ls, w', {}, gone')
  {
    forall x | x in gone' ensures x !in w' && !InLookup(x, ls) {
      assert x != id ==> x in gone;
    }
  }

  /** One request, seen from one engine: it is in a lookup, or in a flow that still holds its
      reply, or settled, or in the hand of the running operation, and never in two of them. */
  ghost predicate Spot(id: RequestId, ls: seq<Lookup>, fs: seq<Flow>, waiting: set<RequestId>,
                       settled: map<RequestId, Outcome>, asked: map<RequestId, Ask>, inHand: set<RequestId>) {
    && (id in waiting ==> HasFlow(id, fs))
    && (HasFlow(id, fs) ==> id in waiting || id in settled)
    && (InLookup(id, ls) ==> !HasFlow(id, fs))
    && (id in settled ==> !InLookup(id, ls) && id !in waiting)
    && (id in inHand ==> !InLookup(id, ls) && !HasFlow(id, fs) && id !in settled)
    && (InLookup(id, ls) || id in waiting || id in inHand ==> id in asked)
    && (id in asked ==> InLookup(id, ls) || id in waiting || id in settled || id in inHand)
  }

  ghost predicate Placed(ls: seq<Lookup>, fs: seq<Flow>, waiting: set<RequestId>, settled: map<RequestId, Outcome>,
                         asked: map<RequestId, Ask>, inHand: set<RequestId>) {
    forall id {:trigger Spot(id, ls, fs, waiting, settled, asked, inHand)} ::
      Spot(id, ls, fs, waiting, settled, asked, inHand)
  }

  lemma PlacedSettled(ls: seq<Lookup>, fs: seq<Flow>, waiting: set<RequestId>, settled: map<RequestId, Outcome>,
                      asked: map<RequestId, Ask>, id: RequestId, outcome: Outcome)
    requires Placed(ls, fs, waiting, settled, asked, {id})
    ensures id !in settled
    ensures Placed(ls, fs, waiting, settled[id := outcome], asked, {})
  {
    assert Spot(id, ls, fs, waiting, settled, asked, {id});
    var settled' := settled[id := outcome];
    forall x ensures Spot(x, ls, fs, waiting, settled', asked, {}) {
      assert Spot(x, ls, fs, waiting, settled, asked, {id});
    }
  }

  lemma PlacedInFlow(ls: seq<Lookup>, fs: seq<Flow>, waiting: set<RequestId>, settled: map<RequestId, Outcome>,
                     asked: map<RequestId, Ask>, f: Flow)
    requires Placed(ls, fs, waiting, settled, asked, {f.request})
    ensures forall g | g in fs :: g.request != f.request
    ensures Placed(ls, fs + [f], waiting + {f.request}, settled, asked, {})
  {
    assert Spot(f.request, ls, fs, waiting, settled, asked, {f.request});
    forall x ensures Spot(x, ls, fs + [f], waiting + {f.request}, settled, asked, {}) {
      assert Spot(x, ls, fs, waiting, settled, asked, {f.request});
      assert f in fs + [f];
      assert HasFlow(x, fs + [f]) <==> HasFlow(x, fs) || x == f.request;
    }
  }

  lemma PlacedInLookup(ls: seq<Lookup>, fs: seq<Flow>, waiting: set<RequestId>, settled: map<RequestId, Outcome>,
                       asked: map<RequestId, Ask>, l: Lookup)
    requires Placed(ls, fs, waiting, settled, asked, {l.reply})
    ensures forall m | m in ls :: m.reply != l.reply
    ensures Placed(ls + [l], fs, waiting, settled, asked, {})
  {
    assert Spot(l.reply, ls, fs, waiting, settled, asked, {l.reply});
    forall x ensures Spot(x, ls + [l], fs, waiting, settled, asked, {}) {
      assert Spot(x, ls, fs, waiting, settled, asked, {l.reply});
      assert l in ls + [l];
      assert InLookup(x, ls + [l]) <==> InLookup(x, ls) || x == l.reply;
    }
  }

  /** A request this engine has not seen is settled by it, or taken up. */
  lemma PlacedNew(ls: seq<Lookup>, fs: seq<Flow>, waiting: set<RequestId>, settled: map<RequestId, Outcome>,
                  asked: map<RequestId, Ask>, id: RequestId, outcome: Outcome, ask: Ask)
    requires Placed(ls, fs, waiting, settled, asked, {}) && id !in asked && id !in settled
    ensures Placed(ls, fs, waiting, settled[id := outcome], asked, {})
    ensures Placed(ls, fs, waiting, settled, asked[id := ask], {id})
  {
    var settled', asked' := settled[id := outcome], asked[id := ask];
    forall x ensures Spot(x, ls, fs, waiting, settled', asked, {}) && Spot(x, ls, fs, waiting, settled, asked', {id}) {
      assert Spot(x, ls, fs, waiting, settled, asked, {});
    }
  }

  lemma PlacedTaken(ls: seq<Lookup>, fs: seq<Flow>, waiting: set<RequestId>, settled: map<RequestId, Outcome>,
                    asked: map<RequestId, Ask>, i: nat)
    requires i < |ls| && DistinctLookups(ls) && Placed(ls, fs, waiting, settled, asked, {})
    ensures Placed(SwapRemove(ls, i), fs, waiting, settled, asked, {ls[i].reply})
  {
    LookupsWithout(ls, i);
    var r := SwapRemove(ls, i);
    assert ls[i] in ls;
    forall x ensures Spot(x, r, fs, waiting, settled, asked, {ls[i].reply}) {
      assert Spot(x, ls, fs, waiting, settled, asked, {});
      assert InLookup(x, ls) <==> InLookup(x, r) || x == ls[i].reply;
      assert InLookup(x, r) ==> x != ls[i].reply;
    }
  }

  /** The flow at `i` has let go of its reply and stays. */
  lemma PlacedAnswered(ls: seq<Lookup>, fs: seq<Flow>, waiting: set<RequestId>, settled: map<RequestId, Outcome>,
                       asked: map<RequestId, Ask>, i: nat, outcome: Outcome)
    requires i < |fs| && fs[i].request in waiting && Placed(ls, fs, waiting, settled, asked, {})
    ensures fs[i].request !in settled
    ensures Placed(ls, fs, waiting - {fs[i].request}, settled[fs[i].request := outcome], asked, {})
  {
    var id := fs[i].request;
    var waiting', settled' := waiting - {id}, settled[id := outcome];
    assert Spot(id, ls, fs, waiting, settled, asked, {});
    forall x ensures Spot(x, ls, fs, waiting', settled', asked, {}) {
      assert Spot(x, ls, fs, waiting, settled, asked, {});
    }
  }

  /** The flow at `i`, which no longer holds a reply, goes. */
  lemma PlacedGone(ls: seq<Lookup>, fs: seq<Flow>, waiting: set<RequestId>, settled: map<RequestId, Outcome>,
                   asked: map<RequestId, Ask>, i: nat)
    requires i < |fs| && AllApart(fs) && fs[i].request !in waiting && Placed(ls, fs, waiting, settled, asked, {})
    ensures Placed(ls, SwapRemove(fs, i), waiting, settled, asked, {})
  {
    FlowsWithout(fs, i);
    var r, id := SwapRemove(fs, i), fs[i].request;
    assert fs[i] in fs;
    forall x ensures Spot(x, ls, r, waiting, settled, asked, {}) {
      assert Spot(x, ls, fs, waiting, settled, asked, {});
      assert HasFlow(x, fs) <==> HasFlow(x, r) || x == id;
    }
  }

  /** Parked: in a lookup, or in a flow that still holds its reply. */
  predicate IsParked(id: RequestId, ls: seq<Lookup>, waiting: set<RequestId>) {
    InLookup(id, ls) || id in waiting
  }

  /** What an operation may do to a request that it was not given: settle it, nothing else. */
  predicate Moves(id: RequestId, ls: seq<Lookup>, waiting: set<RequestId>, settled: map<RequestId, Outcome>,
                     ls': seq<Lookup>, waiting': set<RequestId>, settled': map<RequestId, Outcome>) {
    && (id in settled ==> id in settled' && settled'[id] == settled[id])
    && (IsParked(id, ls', waiting') ==> IsParked(id, ls, waiting))
    && (IsParked(id, ls, waiting) ==> IsParked(id, ls', waiting') || id in settled')
    && (id in settled' ==> id in settled || IsParked(id, ls, waiting))
  }

  ghost predicate Progress(ls: seq<Lookup>, waiting: set<RequestId>, settled: map<RequestId, Outcome>,
                           ls': seq<Lookup>, waiting': set<RequestId>, settled': map<RequestId, Outcome>) {
    forall id {:trigger Moves(id, ls, waiting, settled, ls', waiting', settled')} ::
      Moves(id, ls, waiting, settled, ls', waiting', settled')
  }

  lemma ProgressComposes(ls: seq<Lookup>, w: set<RequestId>, s: map<RequestId, Outcome>,
                         ls': seq<Lookup>, w': set<RequestId>, s': map<RequestId, Outcome>,
                         ls'': seq<Lookup>, w'': set<RequestId>, s'': map<RequestId, Outcome>)
    requires Progress(ls, w, s, ls', w', s') && Progress(ls', w', s', ls'', w'', s'')
    ensures Progress(ls, w, s, ls'', w'', s'')
  {
    forall id ensures Moves(id, ls, w, s, ls'', w'', s'') {
      assert Moves(id, ls, w, s, ls', w', s') && Moves(id, ls', w', s', ls'', w'', s'');
    }
  }

  /** The request of the lookup at `i` is settled, or now waits in a flow. */
  lemma ProgressTaken(ls: seq<Lookup>, i: nat, w: set<RequestId>, s: map<RequestId, Outcome>,
                      w': set<RequestId>, s': map<RequestId, Outcome>)
    requires i < |ls| && DistinctLookups(ls)
    requires || (w' == w && s'.Keys == s.Keys + {ls[i].reply} && ls[i].reply !in s)
             || (w' == w + {ls[i].reply} && s' == s)
    requires forall id | id in s :: id in s' && s'[id] == s[id]
    ensures Progress(ls, w, s, SwapRemove(ls, i), w', s')
  {
    LookupsWithout(ls, i);
    var r := SwapRemove(ls, i);
    assert ls[i] in ls;
    forall id ensures Moves(id, ls, w, s, r, w', s') {
      assert InLookup(id, ls) <==> InLookup(id, r) || id == ls[i].reply;
      assert id in s' <==> id in s || id in s'.Keys - s.Keys;
    }
  }

  lemma ProgressLetGo(ls: seq<Lookup>, i: nat, w: set<RequestId>, s: map<RequestId, Outcome>,
                      w': set<RequestId>, s': map<RequestId, Outcome>)
    requires i < |ls| && DistinctLookups(ls) && ls[i].reply !in s
    requires || (w' == w && ls[i].reply in s' && s' == s[ls[i].reply := s'[ls[i].reply]])
             || (w' == w + {ls[i].reply} && s' == s)
    ensures Progress(ls, w, s, SwapRemove(ls, i), w', s')
  {
    ProgressTaken(ls, i, w, s, w', s');
  }

  /** The lookup at `i` is pushed back with another question. */
  lemma ProgressRequeued(ls: seq<Lookup>, i: nat, l: Lookup, w: set<RequestId>, s: map<RequestId, Outcome>)
    requires i < |ls| && DistinctLookups(ls) && l.reply == ls[i].reply
    ensures Progress(ls, w, s, SwapRemove(ls, i) + [l], w, s)
  {
    LookupsWithout(ls, i);
    var r := SwapRemove(ls, i) + [l];
    assert ls[i] in ls && l in r;
    forall id ensures Moves(id, ls, w, s, r, w, s) {
      assert InLookup(id, ls) <==> InLookup(id, r);
    }
  }

  /** A waiting request is settled. */
  lemma ProgressAnswered(ls: seq<Lookup>, id: RequestId, w: set<RequestId>, s: map<RequestId, Outcome>,
                         s': map<RequestId, Outcome>)
    requires id in w && id !in s && id in s' && s' == s[id := s'[id]]
    ensures Progress(ls, w, s, ls, w - {id}, s')
  {
    var w' := w - {id};
    forall x ensures Moves(x, ls, w, s, ls, w', s') {}
  }

  lemma ProgressNone(ls: seq<Lookup>, w: set<RequestId>, s: map<RequestId, Outcome>)
    ensures Progress(ls, w, s, ls, w, s)
  {
    forall id ensures Moves(id, ls, w, s, ls, w, s) {}
  }

  lemma EmptyTables(dns: nat, resolver: DnsSocket, slots: map<nat, Question>, asked: map<RequestId, Ask>,
                    issued: map<RequestId, nat>, s: Settings, settled: map<RequestId, Outcome>)
    requires slots == map[]
    ensures LookupTable([], slots, asked, issued, s)
    ensures FlowTable([], map[dns := DnsSlot(resolver)], dns, resolver)
    ensures Placed([], [], {}, settled, map[], {})
    ensures PortsOf([]) == {}
  {
    forall q: nat ensures SlotHeld(q, [], slots) {}
    forall h: nat ensures PlaceHeld(h, [], map[dns := DnsSlot(resolver)], dns) {}
    forall id: RequestId ensures Spot(id, [], [], {}, settled, map[], {}) {}
  }
}
