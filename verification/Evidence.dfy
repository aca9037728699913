/** Why requests were answered as they were: for every outcome, what must have been observed. */
module EvidenceModel {
  import opened Wrappers
  import opened Net
  import opened SettingsModel
  import opened Oneshot
  import opened Tcp
  import opened Resolver
  import opened FlowModel
  import opened Tables

  /** All that has been observed so far: the requests, the time, the receivers found gone, the
      sockets looked at, the answers, empty answers and refusals of the DNS socket, and the
      destinations the stack would not connect to. */
  datatype Evidence = Evidence(
    asked: map<RequestId, Ask>, time: nat, gone: set<RequestId>, seen: map<RequestId, Sighting>,
    answers: set<(Question, IpAddr)>, barren: set<Question>, refused: set<Question>, unreachable: set<SocketAddr>)

  predicate DualStack(s: Settings) {
    s.ipv4.Some? && s.ipv6.Some?
  }

  function FirstQuestion(name: seq<u8>, s: Settings): Question {
    Question(name, if s.ipv4.Some? then A else Aaaa)
  }

  /** Why connecting to an address fails at once, if it does; `Other` is the stack's refusal. */
  function AddressError(ip: IpAddr, port: u16, s: Settings): ErrorKind {
    if !s.SupportsFamily(ip) then NetworkUnreachable
    else if port == 0 || !Plain(ip) then InvalidInput
    else Other
  }

  predicate AddressFails(remote: SocketAddr, kind: ErrorKind, s: Settings, unreachable: set<SocketAddr>) {
    kind == AddressError(remote.ip, remote.port, s) && (kind == Other ==> remote in unreachable)
  }

  /** A name fails without servers, if its first question is refused, or if that had no address and
      the second one, where there is one, had none either or was refused. */
  predicate NameFails(name: seq<u8>, kind: ErrorKind, s: Settings, barren: set<Question>, refused: set<Question>) {
    var first, second := FirstQuestion(name, s), Question(name, Aaaa);
    if s.dns == [] then kind == NotFound
    else
      || (kind == InvalidInput && first in refused)
      || (kind == NotFound && first in barren && (DualStack(s) ==> second in barren || second in refused))
  }

  /** The socket made for this request, connecting where it wanted to go, was found in this state
      before its deadline. */
  ghost predicate SawOwn(id: RequestId, state: TcpState, e: Evidence) {
    && id in e.asked && id in e.seen
    && e.seen[id].state == state && e.seen[id].at < e.asked[id].deadline && e.seen[id].socket.owner == id
    && Leads(e.asked[id], e.seen[id].socket.remote, e.answers)
  }

  /** An address the request leads to cannot be connected to. */
  ghost predicate NoWay(id: RequestId, kind: ErrorKind, s: Settings, e: Evidence) {
    && id in e.asked
    && exists remote :: Leads(e.asked[id], remote, e.answers) && AddressFails(remote, kind, s, e.unreachable)
  }

  /** The outcome of a request an engine has taken up is one it was entitled to give. */
  ghost predicate Justified(o: Outcome, id: RequestId, s: Settings, e: Evidence) {
    && id in e.asked
    && match o
       case Dropped => id in e.gone
       case Answered(Connected(local)) => SawOwn(id, Established, e) && local == e.seen[id].socket.local
       case Answered(Failed(kind)) =>
         || (kind == TimedOut && (id in e.gone || e.asked[id].deadline <= e.time))
         || (kind == ConnectionRefused && SawOwn(id, Closed, e))
         || NoWay(id, kind, s, e)
         || (e.asked[id].target.Domain? && NameFails(e.asked[id].target.name, kind, s, e.barren, e.refused))
  }

  ghost predicate JustifiedAt(id: RequestId, settled: map<RequestId, Outcome>, s: Settings, e: Evidence) {
    id in e.asked && id in settled ==> Justified(settled[id], id, s, e)
  }

  ghost predicate AllJustified(settled: map<RequestId, Outcome>, s: Settings, e: Evidence) {
    forall id {:trigger JustifiedAt(id, settled, s, e)} :: JustifiedAt(id, settled, s, e)
  }

  ghost predicate Grown<T>(a: set<T>, b: set<T>) {
    forall x | x in a :: x in b
  }

  /** More has been observed, and nothing about a settled request has changed. */
  ghost predicate Later(e: Evidence, e': Evidence, settled: map<RequestId, Outcome>) {
    && e.time <= e'.time && Grown(e.gone, e'.gone) && Grown(e.answers, e'.answers)
    && Grown(e.barren, e'.barren) && Grown(e.refused, e'.refused) && Grown(e.unreachable, e'.unreachable)
    && (forall id | id in settled && id in e'.asked :: id in e.asked && e.asked[id] == e'.asked[id])
    && (forall id | id in settled && id in e.seen :: id in e'.seen && e'.seen[id] == e.seen[id])
  }

  lemma StillJustified(o: Outcome, id: RequestId, settled: map<RequestId, Outcome>, s: Settings,
                       e: Evidence, e': Evidence)
    requires Later(e, e', settled) && id in settled && id in e'.asked && Justified(o, id, s, e)
    ensures Justified(o, id, s, e')
  {
    if o.Answered? && o.answer.Failed? && NoWay(id, o.answer.kind, s, e) {
      var remote :| Leads(e.asked[id], remote, e.answers) && AddressFails(remote, o.answer.kind, s, e.unreachable);
      assert Leads(e'.asked[id], remote, e'.answers) && AddressFails(remote, o.answer.kind, s, e'.unreachable);
    }
  }

  lemma JustifiedLater(settled: map<RequestId, Outcome>, s: Settings, e: Evidence, e': Evidence)
    requires AllJustified(settled, s, e) && Later(e, e', settled)
    ensures AllJustified(settled, s, e')
  {
    forall id ensures JustifiedAt(id, settled, s, e') {
      assert JustifiedAt(id, settled, s, e);
      if id in settled && id in e'.asked {
        StillJustified(settled[id], id, settled, s, e, e');
      }
    }
  }

  /** One more request is settled, for good reason if this engine has taken it up. */
  lemma JustifiedMore(settled: map<RequestId, Outcome>, s: Settings, e: Evidence, id: RequestId, o: Outcome)
    requires AllJustified(settled, s, e) && (id in e.asked ==> Justified(o, id, s, e))
    ensures AllJustified(settled[id := o], s, e)
  {
    var settled' := settled[id := o];
    forall x ensures JustifiedAt(x, settled', s, e) {
      assert JustifiedAt(x, settled, s, e);
    }
  }

  /** A lookup without a fallback, where both families are assigned, is on its second question:
      the first one had no address. */
  predicate SecondAsked(l: Lookup, s: Settings, barren: set<Question>) {
    l.fallback.None? && DualStack(s) ==> Question(l.name, A) in barren
  }

  /** A flow whose request waits no longer has had it answered with the flow's own address, when
      the flow's own socket was established. */
  ghost predicate AnsweredOpen(f: Flow, waiting: set<RequestId>, settled: map<RequestId, Outcome>,
                               seen: map<RequestId, Sighting>) {
    f.request in waiting ||
      (&& f.request in settled && settled[f.request] == Answered(Connected(f.local))
       && f.request in seen && seen[f.request].socket == f.tcp && seen[f.request].state == Established)
  }
}
