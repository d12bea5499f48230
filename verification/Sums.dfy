/** Finite sums over maps, taken in no particular order.

  The tables of the shop have no row order the code may rely on, so every total in the
  model is a sum over a map; a loop that meets the rows one by one is related to it by
  `SumOnlyStep`, which adds one key to the part already visited. */
module Sums {

  /** Some key of a non-empty map, always the same one for the same map. */
  ghost function Pick<K, V>(m: map<K, V>): (k: K)
    requires m.Keys != {}
    ensures k in m
  {
    var k :| k in m.Keys; k
  }

  ghost function Sum<K>(m: map<K, real>): real
    decreases m.Keys
  {
    if m.Keys == {} then 0.0 else m[Pick(m)] + Sum(m - {Pick(m)})
  }

  ghost function Count<K>(m: map<K, int>): int
    decreases m.Keys
  {
    if m.Keys == {} then 0 else m[Pick(m)] + Count(m - {Pick(m)})
  }

  /** The part of a map whose keys were already visited. */
  function Only<K, V>(m: map<K, V>, seen: set<K>): map<K, V> {
    map k | k in m && k in seen :: m[k]
  }

  lemma {:induction false} OnlyAll<K, V>(m: map<K, V>)
    ensures Only(m, m.Keys) == m
  {
  }

  lemma {:induction false} SumPick<K>(m: map<K, real>, k: K)
    requires k in m
    ensures Sum(m) == m[k] + Sum(m - {k})
    decreases m.Keys
  {
    var j := Pick(m);
    if j != k {
      SumPick(m - {j}, k);
      SumPick(m - {k}, j);
      assert (m - {j}) - {k} == (m - {k}) - {j};
    }
  }

  lemma {:induction false} SumInsert<K>(m: map<K, real>, k: K, v: real)
    requires k !in m
    ensures Sum(m[k := v]) == Sum(m) + v
  {
    SumPick(m[k := v], k);
    assert m[k := v] - {k} == m;
  }

  lemma {:induction false} SumReplace<K>(m: map<K, real>, k: K, v: real)
    requires k in m
    ensures Sum(m[k := v]) == Sum(m) - m[k] + v
  {
    SumPick(m, k);
    SumPick(m[k := v], k);
    assert m[k := v] - {k} == m - {k};
  }

  lemma {:induction false} SumAdd<K>(a: map<K, real>, b: map<K, real>, c: map<K, real>)
    requires a.Keys == b.Keys == c.Keys
    requires forall k :: k in a ==> c[k] == a[k] + b[k]
    ensures Sum(c) == Sum(a) + Sum(b)
    decreases a.Keys
  {
    if a.Keys == {} {
    } else {
      var k :| k in a;
      SumPick(a, k);
      SumPick(b, k);
      SumPick(c, k);
      SumAdd(a - {k}, b - {k}, c - {k});
    }
  }

  /** Dominated term by term means dominated in total; equal totals then mean equal terms. */
  lemma {:induction false} SumBelow<K>(a: map<K, real>, b: map<K, real>)
    requires a.Keys == b.Keys
    requires forall k :: k in a ==> a[k] <= b[k]
    ensures Sum(a) <= Sum(b)
    ensures Sum(a) == Sum(b) ==> a == b
    decreases a.Keys
  {
    if a.Keys == {} {
    } else {
      var k :| k in a;
      SumPick(a, k);
      SumPick(b, k);
      SumBelow(a - {k}, b - {k});
      if Sum(a) == Sum(b) {
        forall j | j in a ensures a[j] == b[j] {
          if j != k { assert a[j] == (a - {k})[j] && b[j] == (b - {k})[j]; }
        }
      }
    }
  }

  lemma {:induction false} SumZero<K>(m: map<K, real>)
    requires forall k :: k in m ==> m[k] == 0.0
    ensures Sum(m) == 0.0
    decreases m.Keys
  {
    if m.Keys == {} {
    } else {
      var k :| k in m;
      SumPick(m, k);
      SumZero(m - {k});
    }
  }

  /** One loop iteration: visiting `k` adds its term to the sum so far. */
  lemma {:induction false} SumOnlyStep<K>(m: map<K, real>, seen: set<K>, k: K)
    requires k in m && k !in seen
    ensures Sum(Only(m, seen + {k})) == Sum(Only(m, seen)) + m[k]
  {
    SumInsert(Only(m, seen), k, m[k]);
    assert Only(m, seen + {k}) == Only(m, seen)[k := m[k]];
  }

  lemma {:induction false} CountPick<K>(m: map<K, int>, k: K)
    requires k in m
    ensures Count(m) == m[k] + Count(m - {k})
    decreases m.Keys
  {
    var j := Pick(m);
    if j != k {
      CountPick(m - {j}, k);
      CountPick(m - {k}, j);
      assert (m - {j}) - {k} == (m - {k}) - {j};
    }
  }

  lemma {:induction false} CountInsert<K>(m: map<K, int>, k: K, v: int)
    requires k !in m
    ensures Count(m[k := v]) == Count(m) + v
  {
    CountPick(m[k := v], k);
    assert m[k := v] - {k} == m;
  }

  lemma {:induction false} CountReplace<K>(m: map<K, int>, k: K, v: int)
    requires k in m
    ensures Count(m[k := v]) == Count(m) - m[k] + v
  {
    CountPick(m, k);
    CountPick(m[k := v], k);
    assert m[k := v] - {k} == m - {k};
  }

  lemma {:induction false} CountZero<K>(m: map<K, int>)
    requires forall k :: k in m ==> m[k] == 0
    ensures Count(m) == 0
    decreases m.Keys
  {
    if m.Keys == {} {
    } else {
      var k := Pick(m);
      CountZero(m - {k});
    }
  }

  // ---- Result sets ----

  /** The next row of a result set; which one is SQLite's choice. */
  method NextRow<K(==)>(rest: set<K>) returns (k: K)
    requires rest != {}
    ensures k in rest
  {
    k :| k in rest;
  }

  /** ORDER BY id DESC: the next row is the one with the largest id. */
  method LargestRow(rest: set<int>) returns (k: int)
    requires rest != {}
    ensures k in rest && forall j :: j in rest ==> j <= k
  {
    k := NextRow(rest);
    var left := rest - {k};
    while left != {}
      invariant left <= rest && k in rest
      invariant forall j :: j in rest && j !in left ==> j <= k
      decreases left
    {
      var j := NextRow(left);
      left := left - {j};
      if k < j { k := j; }
    }
  }

  /** A result set read row by row: every key once, in an order SQLite chooses. */
  predicate Enumerates<K(==)>(ks: seq<K>, all: set<K>) {
    && (forall i, j :: 0 <= i < j < |ks| ==> ks[i] != ks[j])
    && (set k | k in ks) == all
  }

  lemma {:induction false} EnumeratesFront<K>(ks: seq<K>, all: set<K>)
    requires Enumerates(ks, all) && ks != []
    ensures var front, k := ks[..|ks| - 1], ks[|ks| - 1];
      var rest := set j | j in front;
      Enumerates(front, rest) && k !in rest && k in all && rest <= all && rest + {k} == all
  {
  }

  lemma {:induction false} EnumeratesSize<K>(ks: seq<K>, all: set<K>)
    requires Enumerates(ks, all)
    ensures |ks| == |all|
    decreases |ks|
  {
    if ks == [] {
      assert all == {};
    } else {
      var front := ks[..|ks| - 1];
      EnumeratesFront(ks, all);
      EnumeratesSize(front, set j | j in front);
    }
  }

  lemma {:induction false} EnumeratesMore<K>(ks: seq<K>, all: set<K>, k: K)
    requires Enumerates(ks, all) && k !in all
    ensures Enumerates(ks + [k], all + {k})
  {
  }

  /** The rows met before the k-th. */
  function Seen<K(==)>(ks: seq<K>, k: nat): set<K>
    requires k <= |ks|
  {
    set x | x in ks[..k]
  }

  lemma {:induction false} SeenStep<K>(ks: seq<K>, all: set<K>, k: nat)
    requires Enumerates(ks, all) && k < |ks|
    ensures ks[k] in all && ks[k] !in Seen(ks, k)
    ensures Seen(ks, k + 1) == Seen(ks, k) + {ks[k]}
  {
  }

  lemma {:induction false} SeenEnds<K>(ks: seq<K>, all: set<K>)
    requires Enumerates(ks, all)
    ensures Seen(ks, 0) == {} && Seen(ks, |ks|) == all
  {
  }

  /** The sum over the rows met before the k-th. */
  ghost function SumSeen<K>(m: map<K, real>, ks: seq<K>, k: nat): real
    requires k <= |ks|
  {
    Sum(Only(m, Seen(ks, k)))
  }

  lemma {:induction false} SumSeenStep<K>(m: map<K, real>, ks: seq<K>, k: nat)
    requires Enumerates(ks, m.Keys) && k < |ks|
    ensures ks[k] in m && SumSeen(m, ks, k + 1) == SumSeen(m, ks, k) + m[ks[k]]
  {
    SeenStep(ks, m.Keys, k);
    SumOnlyStep(m, Seen(ks, k), ks[k]);
  }

  lemma {:induction false} SumSeenEnds<K>(m: map<K, real>, ks: seq<K>)
    requires Enumerates(ks, m.Keys)
    ensures SumSeen(m, ks, 0) == 0.0 && SumSeen(m, ks, |ks|) == Sum(m)
  {
    SeenEnds(ks, m.Keys);
    assert Only(m, {}).Keys == {};
    assert Only(m, m.Keys) == m;
  }
}
