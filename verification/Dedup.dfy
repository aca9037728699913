/** `Vec::dedup`: what it keeps, what it cannot remove. */
module DedupModel {
  import opened Vectors

  /** `Vec::dedup`: of equal neighbours one stays. */
  function Dedup<T(==)>(v: seq<T>): (r: seq<T>)
    ensures |r| <= |v| && (v != [] ==> r != [] && r[|r| - 1] == v[|v| - 1])
  {
    if v == [] then []
    else
      var n := |v| - 1;
      var r := Dedup(v[..n]);
      if r != [] && r[|r| - 1] == v[n] then r else r + [v[n]]
  }

  predicate NoRepeat<T(==)>(v: seq<T>) {
    forall i {:trigger Changes(v, i)} | 0 < i < |v| :: Changes(v, i)
  }

  predicate Changes<T(==)>(v: seq<T>, i: nat)
    requires 0 < i < |v|
  {
    v[i - 1] != v[i]
  }

  lemma {:induction false} DedupMembers<T>(v: seq<T>)
    ensures NoRepeat(Dedup(v))
    ensures forall x :: x in Dedup(v) <==> x in v
  {
    if v != [] {
      var n := |v| - 1;
      assert v == v[..n] + [v[n]];
      DedupMembers(v[..n]);
      var r := Dedup(v[..n]);
      forall i | 0 < i < |Dedup(v)| ensures Changes(Dedup(v), i) {
        assert i < |r| ==> Changes(r, i);
      }
    }
  }

  lemma {:induction false} DedupAll<T>(v: seq<T>)
    requires NoRepeat(v)
    ensures Dedup(v) == v
  {
    if v != [] {
      var n := |v| - 1;
      assert v == v[..n] + [v[n]];
      forall i | 0 < i < n ensures Changes(v[..n], i) {
        assert Changes(v, i);
      }
      DedupAll(v[..n]);
      assert n > 0 ==> Changes(v, n);
    }
  }

  /** `Expand(t, counts)` repeats the k-th entry `counts[k]` times on the spot. */
  function Expand<T(==)>(v: seq<T>, counts: seq<nat>): seq<T>
    requires |v| == |counts|
  {
    if v == [] then []
    else
      var n := |v| - 1;
      Expand(v[..n], counts[..n]) + Repeat(v[n], counts[n])
  }

  function Repeat<T(==)>(x: T, count: nat): seq<T> {
    if count == 0 then [] else Repeat(x, count - 1) + [x]
  }

  lemma ExpandLonger<T>(r: seq<T>, counts: seq<nat>)
    requires |r| == |counts| > 0
    ensures var last := |r| - 1;
      Expand(r, counts[last := counts[last] + 1]) == Expand(r, counts) + [r[last]]
  {
    var last := |r| - 1;
    assert counts[last := counts[last] + 1][..last] == counts[..last];
    ConcatAssoc(Expand(r[..last], counts[..last]), Repeat(r[last], counts[last]), [r[last]]);
  }

  lemma ExpandNew<T>(r: seq<T>, counts: seq<nat>, x: T)
    requires |r| == |counts|
    ensures Expand(r + [x], counts + [1]) == Expand(r, counts) + [x]
  {
    assert (r + [x])[..|r|] == r && (counts + [1])[..|r|] == counts;
    assert Repeat(x, 1) == [x];
  }

  predicate Positive(counts: seq<nat>) {
    forall i | 0 <= i < |counts| :: counts[i] > 0
  }

  /** `counts` says how to get `v` back from what `dedup` left of it. */
  predicate Undoes<T(==)>(v: seq<T>, r: seq<T>, counts: seq<nat>) {
    |r| == |counts| && Positive(counts) && v == Expand(r, counts)
  }

  lemma UndoLonger<T>(v: seq<T>, x: T, r: seq<T>, counts: seq<nat>) returns (counts': seq<nat>)
    requires r != [] && r[|r| - 1] == x && Undoes(v, r, counts)
    ensures Undoes(v + [x], r, counts')
  {
    ExpandLonger(r, counts);
    counts' := counts[|r| - 1 := counts[|r| - 1] + 1];
  }

  lemma UndoNew<T>(v: seq<T>, x: T, r: seq<T>, counts: seq<nat>) returns (counts': seq<nat>)
    requires Undoes(v, r, counts)
    ensures Undoes(v + [x], r + [x], counts')
  {
    ExpandNew(r, counts, x);
    counts' := counts + [1];
  }

  /** Every list is its deduplication with entries repeated on the spot. */
  lemma {:induction false} DedupUndone<T>(v: seq<T>) returns (counts: seq<nat>)
    ensures Undoes(v, Dedup(v), counts)
  {
    counts := [];
    if v != [] {
      var front, x := v[..|v| - 1], v[|v| - 1];
      assert v == front + [x];
      counts := DedupUndone(front);
      var r := Dedup(front);
      if r != [] && r[|r| - 1] == x {
        counts := UndoLonger(front, x, r, counts);
      } else {
        counts := UndoNew(front, x, r, counts);
      }
    }
  }

  // ---- Is every element listed once? ----

  predicate AllDistinct<T(==)>(v: seq<T>) {
    forall i, j {:trigger Unequal(v, i, j)} | 0 <= i < j < |v| :: Unequal(v, i, j)
  }

  predicate Unequal<T(==)>(v: seq<T>, i: nat, j: nat)
    requires i < j < |v|
  {
    v[i] != v[j]
  }

  /** Equal entries stand next to each other. */
  ghost predicate Grouped<T>(v: seq<T>) {
    forall i, j, k {:trigger NotSplit(v, i, j, k)} :: NotSplit(v, i, j, k)
  }

  /** Entries `i` and `k` are not equal around a different one in between. */
  predicate NotSplit<T(==)>(v: seq<T>, i: int, j: int, k: int) {
    0 <= i < j < k < |v| && v[i] == v[k] ==> v[i] == v[j]
  }

  lemma {:induction false} DedupKeepsPlaces<T>(v: seq<T>) returns (at: seq<nat>)
    ensures |at| == |Dedup(v)|
    ensures forall i | 0 <= i < |at| :: at[i] < |v| && v[at[i]] == Dedup(v)[i]
    ensures Rising(at)
  {
    at := [];
    if v != [] {
      var n := |v| - 1;
      var r := Dedup(v[..n]);
      at := DedupKeepsPlaces(v[..n]);
      if !(r != [] && r[|r| - 1] == v[n]) {
        forall i, j | 0 <= i < j < |at| + 1 ensures Before(at + [n], i, j) {
          assert j < |at| ==> Before(at, i, j);
        }
        at := at + [n];
      }
    }
  }

  predicate Rising(at: seq<nat>) {
    forall i, j {:trigger Before(at, i, j)} | 0 <= i < j < |at| :: Before(at, i, j)
  }

  predicate Before(at: seq<nat>, i: nat, j: nat)
    requires i < j < |at|
  {
    at[i] < at[j]
  }

  /** `dedup` removes neighbours only, so an element can stay listed twice: that happens exactly
      if its occurrences are not next to each other. */
  lemma DistinctIffGrouped<T>(v: seq<T>)
    ensures AllDistinct(Dedup(v)) <==> Grouped(v)
  {
    var r := Dedup(v);
    if Grouped(v) {
      var at := DedupKeepsPlaces(v);
      DedupMembers(v);
      forall i, j | 0 <= i < j < |r| ensures Unequal(r, i, j) {
        assert Changes(r, j);
        if i < j - 1 {
          assert Before(at, i, j - 1) && Before(at, j - 1, j);
          assert NotSplit(v, at[i], at[j - 1], at[j]);
        }
      }
    }
    if AllDistinct(r) {
      DistinctMeansGrouped(v);
    }
  }

  lemma {:induction false} DistinctMeansGrouped<T>(v: seq<T>)
    requires AllDistinct(Dedup(v))
    ensures Grouped(v)
  {
    if v != [] {
      var n := |v| - 1;
      var r := Dedup(v[..n]);
      forall i, j | 0 <= i < j < |r| ensures Unequal(r, i, j) {
        assert Unequal(Dedup(v), i, j);
      }
      DistinctMeansGrouped(v[..n]);
      DedupMembers(v[..n]);
      forall i, j, k ensures NotSplit(v, i, j, k) {
        if 0 <= i < j < k < |v| && v[i] == v[k] {
          if k == n {
            LastStretch(v, i, j);
          } else {
            assert NotSplit(v[..n], i, j, k);
          }
        }
      }
    }
  }

  lemma LastStretch<T>(v: seq<T>, i: nat, j: nat)
    requires i < j < |v| - 1 && v[i] == v[|v| - 1]
    requires AllDistinct(Dedup(v)) && Grouped(v[..|v| - 1])
    ensures v[i] == v[j]
  {
    var n := |v| - 1;
    LastOfDistinct(v, i);
    assert NotSplit(v[..n], i, j, n - 1);
  }

  lemma LastOfDistinct<T>(v: seq<T>, i: nat)
    requires i < |v| - 1 && v[i] == v[|v| - 1] && AllDistinct(Dedup(v))
    ensures v[|v| - 2] == v[|v| - 1]
  {
    var n := |v| - 1;
    var s, r := v[..n], Dedup(v[..n]);
    DedupMembers(s);
    assert s[i] in s && s[i] in r;
    var k :| 0 <= k < |r| && r[k] == s[i];
    var d := Dedup(v);
    assert d[k] == r[k] == v[n] == d[|d| - 1];
    assert k < |d| - 1 ==> Unequal(d, k, |d| - 1);
  }
}
