/** The ephemeral-port cursor of one engine, as the sequence of ports it looked at. */
module Ports {
  const FIRST := 49152
  const LAST := 65535
  const COUNT := 16384

  type Port = p: int | FIRST <= p <= LAST witness FIRST

  /** The cursor after `port`: wraps from the last ephemeral port to the first. */
  function Next(port: Port): Port {
    if port == LAST then FIRST else port + 1
  }

  /** The port at position `n` of the endless cyclic sequence. */
  function Cyclic(n: nat): Port {
    FIRST + n % COUNT
  }

  lemma CyclicStart(port: Port)
    ensures Cyclic(port - FIRST) == port
  {
  }

  lemma CyclicNext(n: nat)
    ensures Next(Cyclic(n)) == Cyclic(n + 1)
  {
    if n % COUNT == COUNT - 1 {
      assert (n + 1) % COUNT == 0;
    } else {
      assert (n + 1) % COUNT == n % COUNT + 1;
    }
  }

  lemma CyclicInjective(a: nat, b: nat)
    requires a < b < a + COUNT
    ensures Cyclic(a) != Cyclic(b)
  {
    assert a == COUNT * (a / COUNT) + a % COUNT;
    assert b == COUNT * (b / COUNT) + b % COUNT;
  }

  lemma CyclicPeriod(a: nat, b: nat)
    requires a < b && Cyclic(a) == Cyclic(b)
    ensures a + COUNT <= b
  {
    if b < a + COUNT {
      CyclicInjective(a, b);
    }
  }

  /** One port looked at: whether it was picked, and the ports held by live flows just before. */
  datatype Visit = Visit(port: Port, picked: bool, live: set<Port>)

  /** An upper bound on the ports live after the visits. */
  function After(vs: seq<Visit>): set<Port> {
    if vs == [] then {}
    else
      var v := vs[|vs| - 1];
      if v.picked then v.live + {v.port} else v.live
  }

  /** The next visit looks at the next port, picks it exactly if it is free, finds fewer than
      `limit` flows live, and none whose port has not been picked before. */
  ghost predicate NextVisit(vs: seq<Visit>, v: Visit, start: nat, limit: nat) {
    && v.port == Cyclic(start + |vs|)
    && (v.picked <==> v.port !in v.live)
    && |v.live| < limit
    && v.live <= After(vs)
  }

  /** What the engine does to its cursor, beginning at position `start`. Between two visits
      flows may end. */
  ghost predicate Trace(vs: seq<Visit>, start: nat, limit: nat) {
    vs == [] || (Trace(vs[..|vs| - 1], start, limit) && NextVisit(vs[..|vs| - 1], vs[|vs| - 1], start, limit))
  }

  lemma TraceExtends(vs: seq<Visit>, v: Visit, start: nat, limit: nat)
    requires Trace(vs, start, limit) && NextVisit(vs, v, start, limit)
    ensures Trace(vs + [v], start, limit)
    ensures After(vs + [v]) == if v.picked then v.live + {v.port} else v.live
  {
    assert (vs + [v])[..|vs|] == vs;
  }

  lemma {:induction false} TraceAt(vs: seq<Visit>, start: nat, limit: nat, k: nat)
    requires Trace(vs, start, limit) && k < |vs|
    ensures NextVisit(vs[..k], vs[k], start, limit)
    decreases |vs|
  {
    var n := |vs| - 1;
    if k < n {
      TraceAt(vs[..n], start, limit, k);
      assert vs[..n][..k] == vs[..k];
    }
  }

  /** How many of the visits were picks. */
  function Picks(vs: seq<Visit>): nat {
    if vs == [] then 0
    else Picks(vs[..|vs| - 1]) + if vs[|vs| - 1].picked then 1 else 0
  }

  lemma {:induction false} PicksPrefix(vs: seq<Visit>, n: nat)
    requires n <= |vs|
    ensures Picks(vs[..n]) <= Picks(vs)
    decreases |vs| - n
  {
    if n == |vs| {
      assert vs[..n] == vs;
    } else {
      assert vs[..n + 1][..n] == vs[..n];
      PicksPrefix(vs, n + 1);
    }
  }

  /** A port live within a lap of position `a` was live at `a` or looked at since. */
  lemma {:induction false} LiveHasSource(vs: seq<Visit>, start: nat, limit: nat, a: nat, c: nat, p: Port)
    requires Trace(vs, start, limit) && a <= c < |vs| && p in vs[c].live
    ensures p in vs[a].live || exists k | a <= k < c :: vs[k].port == p
    decreases c
  {
    if a < c {
      TraceAt(vs, start, limit, c);
      assert vs[..c][|vs[..c]| - 1] == vs[c - 1];
      if p in vs[c - 1].live {
        LiveHasSource(vs, start, limit, a, c - 1, p);
      } else {
        assert vs[c - 1].port == p;
      }
    }
  }

  /** A port skipped in the lap after position `a` was already live at `a`. */
  lemma SkippedWasLive(vs: seq<Visit>, start: nat, limit: nat, a: nat, c: nat)
    requires Trace(vs, start, limit) && a < c < |vs| && c < a + COUNT && !vs[c].picked
    ensures vs[c].port in vs[a].live
  {
    TraceAt(vs, start, limit, c);
    LiveHasSource(vs, start, limit, a, c, vs[c].port);
    if k :| a <= k < c && vs[k].port == vs[c].port {
      TraceAt(vs, start, limit, k);
      CyclicInjective(start + k, start + c);
    }
  }

  ghost function Skipped(vs: seq<Visit>, a: nat, n: nat): set<Port>
    requires a + n < |vs|
  {
    if n == 0 then {}
    else Skipped(vs, a, n - 1) + if vs[a + n].picked then {} else {vs[a + n].port}
  }

  lemma {:induction false} SkippedMember(vs: seq<Visit>, start: nat, limit: nat, a: nat, n: nat, p: Port)
    requires Trace(vs, start, limit) && a + n < |vs| && n < COUNT && p in Skipped(vs, a, n)
    ensures p in vs[a].live
    ensures exists k | a < k <= a + n :: vs[k].port == p
  {
    if p in Skipped(vs, a, n - 1) {
      SkippedMember(vs, start, limit, a, n - 1, p);
    } else {
      TraceAt(vs, start, limit, a + n);
      SkippedWasLive(vs, start, limit, a, a + n);
      assert vs[a + n].port == p;
    }
  }

  lemma SkippedAreDistinct(vs: seq<Visit>, start: nat, limit: nat, a: nat, n: nat)
    requires Trace(vs, start, limit) && a + n < |vs| && 0 < n < COUNT
    ensures vs[a + n].port !in Skipped(vs, a, n - 1)
  {
    var p := vs[a + n].port;
    if p in Skipped(vs, a, n - 1) {
      SkippedMember(vs, start, limit, a, n - 1, p);
      var k :| a < k <= a + n - 1 && vs[k].port == p;
      TraceAt(vs, start, limit, k);
      TraceAt(vs, start, limit, a + n);
      CyclicInjective(start + k, start + (a + n));
      assert false;
    }
  }

  lemma PicksNext(vs: seq<Visit>, a: nat, n: nat)
    requires a + n < |vs| && n > 0
    ensures Picks(vs[a + 1..a + 1 + n]) == Picks(vs[a + 1..a + n]) + if vs[a + n].picked then 1 else 0
  {
    var w := vs[a + 1..a + 1 + n];
    assert w[..n - 1] == vs[a + 1..a + n];
    assert w[n - 1] == vs[a + n];
  }

  /** In the first `n` visits after `a`, each port is either picked or skipped, and no skipped
      port repeats. */
  lemma {:induction false} LapCount(vs: seq<Visit>, start: nat, limit: nat, a: nat, n: nat)
    requires Trace(vs, start, limit) && a + n < |vs| && n < COUNT
    ensures Picks(vs[a + 1..a + 1 + n]) + |Skipped(vs, a, n)| == n
  {
    if n > 0 {
      LapCount(vs, start, limit, a, n - 1);
      PicksNext(vs, a, n);
      SkippedAreDistinct(vs, start, limit, a, n);
    }
  }

  lemma SubsetSize<T>(a: set<T>, b: set<T>)
    requires a <= b
    ensures |a| <= |b|
  {
    assert b == a + (b - a);
  }

  lemma SlicePrefix<T>(s: seq<T>, i: nat, j: nat, n: nat)
    requires i + n <= j <= |s|
    ensures s[i..j][..n] == s[i..i + n]
  {
  }

  /** Between two picks of the same port at least `16384 - limit` other picks happen. */
  lemma ReuseDistance(vs: seq<Visit>, start: nat, limit: nat, a: nat, b: nat)
    requires Trace(vs, start, limit) && a < b < |vs|
    requires vs[a].picked && vs[b].picked && vs[a].port == vs[b].port
    ensures Picks(vs[a + 1..b]) >= 16384 - limit
  {
    TraceAt(vs, start, limit, a);
    TraceAt(vs, start, limit, b);
    CyclicPeriod(start + a, start + b);
    LapCount(vs, start, limit, a, COUNT - 1);
    forall p | p in Skipped(vs, a, COUNT - 1) ensures p in vs[a].live {
      SkippedMember(vs, start, limit, a, COUNT - 1, p);
    }
    SubsetSize(Skipped(vs, a, COUNT - 1), vs[a].live);
    SlicePrefix(vs, a + 1, b, COUNT - 1);
    PicksPrefix(vs[a + 1..b], COUNT - 1);
  }

  // ---- The search ----

  /** The `i`-th port a cursor at position `n` looks at. */
  function Upcoming(n: nat, i: nat): Port {
    Cyclic(n + i)
  }

  /** The ports at positions `n` to `n + k - 1`. */
  ghost function Lap(n: nat, k: nat): set<Port> {
    if k == 0 then {} else Lap(n, k - 1) + {Upcoming(n, k - 1)}
  }

  lemma {:induction false} LapMember(n: nat, k: nat, p: Port)
    ensures p in Lap(n, k) <==> exists i | 0 <= i < k :: p == Upcoming(n, i)
  {
    if k > 0 {
      LapMember(n, k - 1, p);
      if p == Upcoming(n, k - 1) {
        var i := k - 1;
        assert p == Upcoming(n, i);
      }
    }
  }

  lemma {:induction false} LapSize(n: nat, k: nat)
    requires k <= COUNT
    ensures |Lap(n, k)| == k
  {
    if k > 0 {
      LapSize(n, k - 1);
      LapMember(n, k - 1, Upcoming(n, k - 1));
      if i :| 0 <= i < k - 1 && Upcoming(n, k - 1) == Upcoming(n, i) {
        CyclicInjective(n + i, n + k - 1);
      }
    }
  }

  /** As long as every port looked at was taken, fewer ports were looked at than are taken. */
  lemma SearchBound(n: nat, k: nat, live: set<Port>)
    requires k <= COUNT && Lap(n, k) <= live
    ensures k <= |live|
  {
    LapSize(n, k);
    SubsetSize(Lap(n, k), live);
  }

  lemma AllPorts(n: nat)
    ensures forall p: Port :: p in Lap(n, COUNT)
  {
    forall p: Port ensures p in Lap(n, COUNT) {
      var i := (p - FIRST - n) % COUNT;
      assert n + i == p - FIRST + COUNT * -((p - FIRST - n) / COUNT);
      assert (n + i) % COUNT == p - FIRST;
      assert p == Upcoming(n, i);
      LapMember(n, COUNT, p);
    }
  }

  /** The search ends, from wherever it starts, exactly if not all ports are taken. */
  lemma SearchEndsIffPortFree(n: nat, live: set<Port>)
    ensures (exists k: nat :: Upcoming(n, k) !in live) <==> |live| < 16384
  {
    LapSize(n, COUNT);
    AllPorts(n);
    if forall k: nat :: Upcoming(n, k) in live {
      forall p | p in Lap(n, COUNT) ensures p in live {
        LapMember(n, COUNT, p);
        var i :| 0 <= i < COUNT && p == Upcoming(n, i);
      }
      SubsetSize(Lap(n, COUNT), live);
    } else {
      var k: nat :| Upcoming(n, k) !in live;
      var p := Upcoming(n, k);
      assert live <= Lap(n, COUNT) - {p};
      SubsetSize(live, Lap(n, COUNT) - {p});
    }
  }
}
