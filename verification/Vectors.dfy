/** Walking a `Vec` while `swap_remove` and `push` change it underneath the index.
    Both loops of the engine's step have this shape; the lookup loop also pushes back. */
module Vectors {
  lemma ConcatFront<T>(a: seq<T>, b: seq<T>)
    requires b != []
    ensures (a + b)[..|a + b| - 1] == a + b[..|b| - 1] && (a + b)[|a + b| - 1] == b[|b| - 1]
  {
  }

  lemma ConcatAssoc<T>(a: seq<T>, b: seq<T>, c: seq<T>)
    ensures (a + b) + c == a + (b + c)
  {
  }

  /** `Vec::swap_remove`: the last element takes the place of the removed one. */
  function SwapRemove<T>(v: seq<T>, i: nat): (r: seq<T>)
    requires i < |v|
    ensures |r| == |v| - 1
  {
    v[i := v[|v| - 1]][..|v| - 1]
  }

  lemma SwapRemoveFront<T>(v: seq<T>, i: nat)
    requires i < |v|
    ensures SwapRemove(v, i)[..i] == v[..i]
  {
  }

  lemma SwapRemoveBack<T>(v: seq<T>, i: nat)
    requires i < |v|
    ensures multiset(SwapRemove(v, i)[i..]) == multiset(v[i + 1..])
  {
    var last := |v| - 1;
    var r := SwapRemove(v, i);
    if i < last {
      assert v[i + 1..] == v[i + 1..last] + [v[last]];
      assert r[i..] == [v[last]] + v[i + 1..last];
    } else {
      assert r[i..] == [] && v[i + 1..] == [];
    }
  }

  /** An element survives exactly if it stands at another index. */
  lemma SwapRemoveMembers<T>(v: seq<T>, i: nat)
    requires i < |v|
    ensures forall x :: x in SwapRemove(v, i) <==> exists k :: 0 <= k < |v| && k != i && v[k] == x
  {
    var r := SwapRemove(v, i);
    forall k | 0 <= k < |v| && k != i ensures v[k] in r {
      if k == |v| - 1 {
        assert r[i] == v[k];
      } else {
        assert r[k] == v[k];
      }
    }
    forall k | 0 <= k < |r| ensures exists j :: 0 <= j < |v| && j != i && v[j] == r[k] {
      assert r[k] == v[if k == i then |v| - 1 else k];
    }
  }

  /** Where the element at index `k` of the shortened vector stood before. */
  function Origin(length: nat, i: nat, k: nat): nat
    requires i < length && k < length - 1
  {
    if k == i then length - 1 else k
  }

  lemma SwapRemoveOrigin<T>(v: seq<T>, i: nat)
    requires i < |v|
    ensures forall k | 0 <= k < |v| - 1 :: SwapRemove(v, i)[k] == v[Origin(|v|, i, k)]
  {
  }

  /** What the loop body does with the entry under the index. */
  datatype Verdict<T> = Keep | Remove | Requeue(item: T)

  /** The vector and the index between iterations. */
  datatype Cursor<T> = Cursor(vector: seq<T>, index: nat) {
    predicate Done() {
      index >= |vector|
    }

    function Current(): T
      requires !Done()
    {
      vector[index]
    }
  }

  function Advance<T>(c: Cursor<T>, d: Verdict<T>): Cursor<T>
    requires !c.Done()
  {
    match d
    case Keep => c.(index := c.index + 1)
    case Remove => c.(vector := SwapRemove(c.vector, c.index))
    case Requeue(x) => c.(vector := SwapRemove(c.vector, c.index) + [x])
  }

  /** No verdict is given after the index has run off the end. */
  predicate InRange<T>(c: Cursor<T>, ds: seq<Verdict<T>>)
    decreases |ds|
  {
    ds == [] || (!c.Done() && InRange(Advance(c, ds[0]), ds[1..]))
  }

  /** The cursor after one iteration per verdict. */
  function Walk<T>(c: Cursor<T>, ds: seq<Verdict<T>>): Cursor<T>
    requires InRange(c, ds)
    decreases |ds|
  {
    if ds == [] then c else Walk(Advance(c, ds[0]), ds[1..])
  }

  /** The entries the walk looks at, in order. */
  function Seen<T>(c: Cursor<T>, ds: seq<Verdict<T>>): (seen: seq<T>)
    requires InRange(c, ds)
    ensures |seen| == |ds|
    decreases |ds|
  {
    if ds == [] then [] else [c.Current()] + Seen(Advance(c, ds[0]), ds[1..])
  }

  /** The seen entries whose verdict was `Keep`, in order. */
  function Kept<T>(seen: seq<T>, ds: seq<Verdict<T>>): seq<T>
    requires |seen| == |ds|
  {
    if ds == [] then []
    else (if ds[0].Keep? then [seen[0]] else []) + Kept(seen[1..], ds[1..])
  }

  function Requeued<T>(ds: seq<Verdict<T>>): seq<T> {
    if ds == [] then []
    else (if ds[0].Requeue? then [ds[0].item] else []) + Requeued(ds[1..])
  }

  /** One more iteration at the end of a walk. */
  lemma {:induction false} WalkAppend<T>(c: Cursor<T>, ds: seq<Verdict<T>>, d: Verdict<T>)
    requires InRange(c, ds) && !Walk(c, ds).Done()
    ensures InRange(c, ds + [d])
    ensures Walk(c, ds + [d]) == Advance(Walk(c, ds), d)
    ensures Seen(c, ds + [d]) == Seen(c, ds) + [Walk(c, ds).Current()]
    decreases |ds|
  {
    var es := ds + [d];
    if ds == [] {
      assert es == [d] && es[1..] == [];
    } else {
      WalkAppend(Advance(c, ds[0]), ds[1..], d);
      assert es[0] == ds[0] && es[1..] == ds[1..] + [d];
    }
  }

  /** What is ahead of the index, as a multiset. */
  ghost function Ahead<T>(c: Cursor<T>): multiset<T>
    requires c.index <= |c.vector|
  {
    multiset(c.vector[c.index..])
  }

  lemma AheadHasCurrent<T>(c: Cursor<T>)
    requires !c.Done()
    ensures Ahead(c) == multiset{c.Current()} + multiset(c.vector[c.index + 1..])
  {
    assert c.vector[c.index..] == [c.Current()] + c.vector[c.index + 1..];
  }

  lemma RemoveAccounts<T>(c: Cursor<T>)
    requires !c.Done()
    ensures var c' := Advance(c, Remove);
      && c'.index <= |c'.vector|
      && multiset{c.Current()} + Ahead(c') == Ahead(c)
  {
    AheadHasCurrent(c);
    SwapRemoveBack(c.vector, c.index);
  }

  lemma RequeueAccounts<T>(c: Cursor<T>, x: T)
    requires !c.Done()
    ensures var c' := Advance(c, Requeue(x));
      && c'.index <= |c'.vector|
      && multiset{c.Current()} + Ahead(c') == Ahead(c) + multiset{x}
  {
    RemoveAccounts(c);
    var r := SwapRemove(c.vector, c.index);
    assert (r + [x])[c.index..] == r[c.index..] + [x];
  }

  lemma AdvanceKeeps<T>(c: Cursor<T>, d: Verdict<T>)
    requires !c.Done()
    ensures var c' := Advance(c, d);
      && c'.index <= |c'.vector|
      && c'.vector[..c'.index] == c.vector[..c.index] + (if d.Keep? then [c.Current()] else [])
  {
    SwapRemoveFront(c.vector, c.index);
  }

  lemma AdvanceAccounts<T>(c: Cursor<T>, d: Verdict<T>)
    requires !c.Done()
    ensures var c' := Advance(c, d);
      && c'.index <= |c'.vector|
      && multiset{c.Current()} + Ahead(c') == Ahead(c) + (if d.Requeue? then multiset{d.item} else multiset{})
  {
    match d {
      case Keep => AheadHasCurrent(c);
      case Remove => RemoveAccounts(c);
      case Requeue(x) => RequeueAccounts(c, x);
    }
  }

  lemma Balance<T>(x: multiset<T>, seen: multiset<T>, ahead: multiset<T>, ahead': multiset<T>,
                   pushed: multiset<T>, pushedRest: multiset<T>, end: multiset<T>)
    requires x + ahead' == ahead + pushed
    requires seen + end == ahead' + pushedRest
    ensures (x + seen) + end == ahead + (pushed + pushedRest)
  {
    assert (x + seen) + end == x + (ahead' + pushedRest) == (x + ahead') + pushedRest;
  }

  /** At every moment what has been seen plus what is still ahead is what was ahead at the
      start plus what was pushed back: `swap_remove` skips nothing and shows nothing twice. */
  lemma {:induction false} WalkAccounts<T>(c: Cursor<T>, ds: seq<Verdict<T>>)
    requires c.index <= |c.vector| && InRange(c, ds)
    ensures Walk(c, ds).index <= |Walk(c, ds).vector|
    ensures multiset(Seen(c, ds)) + Ahead(Walk(c, ds)) == Ahead(c) + multiset(Requeued(ds))
    decreases |ds|
  {
    if ds != [] {
      var c' := Advance(c, ds[0]);
      AdvanceAccounts(c, ds[0]);
      WalkAccounts(c', ds[1..]);
      SeenCons(c, ds);
      RequeuedCons(ds);
      Balance(multiset{c.Current()}, multiset(Seen(c', ds[1..])), Ahead(c), Ahead(c'),
              if ds[0].Requeue? then multiset{ds[0].item} else multiset{},
              multiset(Requeued(ds[1..])), Ahead(Walk(c, ds)));
    }
  }

  /** What lies behind the index is exactly what was kept. */
  lemma {:induction false} WalkKeeps<T>(c: Cursor<T>, ds: seq<Verdict<T>>)
    requires c.index <= |c.vector| && InRange(c, ds)
    ensures Walk(c, ds).index <= |Walk(c, ds).vector|
    ensures Walk(c, ds).vector[..Walk(c, ds).index] == c.vector[..c.index] + Kept(Seen(c, ds), ds)
    decreases |ds|
  {
    if ds != [] {
      var c' := Advance(c, ds[0]);
      AdvanceKeeps(c, ds[0]);
      WalkKeeps(c', ds[1..]);
      SeenCons(c, ds);
      ConcatAssoc(c.vector[..c.index], if ds[0].Keep? then [c.Current()] else [], Kept(Seen(c', ds[1..]), ds[1..]));
    }
  }

  lemma SeenCons<T>(c: Cursor<T>, ds: seq<Verdict<T>>)
    requires ds != [] && InRange(c, ds)
    ensures var rest := Seen(Advance(c, ds[0]), ds[1..]);
      && multiset(Seen(c, ds)) == multiset{c.Current()} + multiset(rest)
      && Kept(Seen(c, ds), ds) == (if ds[0].Keep? then [c.Current()] else []) + Kept(rest, ds[1..])
  {
    assert Seen(c, ds)[1..] == Seen(Advance(c, ds[0]), ds[1..]);
  }

  lemma RequeuedCons<T>(ds: seq<Verdict<T>>)
    requires ds != []
    ensures multiset(Requeued(ds))
         == (if ds[0].Requeue? then multiset{ds[0].item} else multiset{}) + multiset(Requeued(ds[1..]))
  {
  }

  lemma {:induction false} WalkLength<T>(c: Cursor<T>, ds: seq<Verdict<T>>)
    requires InRange(c, ds)
    ensures var e := Walk(c, ds);
      |ds| + |e.vector| - e.index == |c.vector| - c.index + |Requeued(ds)|
    decreases |ds|
  {
    if ds != [] {
      WalkLength(Advance(c, ds[0]), ds[1..]);
    }
  }

  lemma WalkLeaves<T>(v: seq<T>, ds: seq<Verdict<T>>)
    requires InRange(Cursor(v, 0), ds) && Walk(Cursor(v, 0), ds).Done()
    ensures Walk(Cursor(v, 0), ds).index == |Walk(Cursor(v, 0), ds).vector|
    ensures Walk(Cursor(v, 0), ds).vector == Kept(Seen(Cursor(v, 0), ds), ds)
  {
    var e := Walk(Cursor(v, 0), ds);
    WalkKeeps(Cursor(v, 0), ds);
    assert v[..0] == [] && e.vector[..e.index] == e.vector;
  }

  lemma WalkSees<T>(v: seq<T>, ds: seq<Verdict<T>>)
    requires InRange(Cursor(v, 0), ds) && Walk(Cursor(v, 0), ds).Done()
    ensures multiset(Seen(Cursor(v, 0), ds)) == multiset(v) + multiset(Requeued(ds))
  {
    var e := Walk(Cursor(v, 0), ds);
    WalkAccounts(Cursor(v, 0), ds);
    assert v[0..] == v && e.vector[e.index..] == [];
  }

  /** A walk over `v` by the decisions `ds` has ended and left `rest`: it has seen every entry
      present at the start and every entry pushed back, each once, and kept what it said. */
  ghost predicate Covers<T>(v: seq<T>, ds: seq<Verdict<T>>, rest: seq<T>) {
    var c := Cursor(v, 0);
    && InRange(c, ds)
    && |ds| == |v| + |Requeued(ds)|
    && multiset(Seen(c, ds)) == multiset(v) + multiset(Requeued(ds))
    && rest == Kept(Seen(c, ds), ds)
  }

  lemma WalkCovers<T>(v: seq<T>, ds: seq<Verdict<T>>)
    requires InRange(Cursor(v, 0), ds) && Walk(Cursor(v, 0), ds).Done()
    ensures Covers(v, ds, Walk(Cursor(v, 0), ds).vector)
  {
    WalkSees(v, ds);
    WalkLength(Cursor(v, 0), ds);
    WalkLeaves(v, ds);
  }

  /** Without push-backs the walk is a filter up to order: each entry present at the start is
      seen exactly once, and the kept ones stay. */
  lemma WalkIsFilter<T>(v: seq<T>, ds: seq<Verdict<T>>, rest: seq<T>)
    requires Covers(v, ds, rest)
    requires forall k | 0 <= k < |ds| :: !ds[k].Requeue?
    ensures |ds| == |v| && multiset(Seen(Cursor(v, 0), ds)) == multiset(v)
    ensures rest == Kept(Seen(Cursor(v, 0), ds), ds)
  {
    NothingRequeued(ds);
  }

  lemma NothingRequeued<T>(ds: seq<Verdict<T>>)
    requires forall k | 0 <= k < |ds| :: !ds[k].Requeue?
    ensures Requeued(ds) == []
  {
  }
}
