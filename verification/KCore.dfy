/** Core numbers by peeling: always remove a vertex of the smallest remaining degree. */
module KCore {
  import opened Sequences
  import opened QueryPaths
  import opened Bucket

  /** The number of neighbours of `v` in `R`. */
  ghost function Deg(q: Query, R: set<nat>, v: nat): nat
    requires v < q.N()
  {
    |Near(q, R, v)|
  }

  ghost function Near(q: Query, R: set<nat>, v: nat): set<nat>
    requires v < q.N()
  {
    set x | x in q.nbrs[v] && x in R
  }

  /** Every vertex of `S` has at least `k` neighbours in `S`. */
  ghost predicate Dense(q: Query, S: set<nat>, k: nat) {
    forall v :: v in S ==> v < q.N() && Deg(q, S, v) >= k
  }

  /** `v` lies in a subgraph of minimum degree at least `k`. */
  ghost predicate InCore(q: Query, v: nat, k: nat) {
    exists S :: v in S && Dense(q, S, k)
  }

  lemma DegMonotone(q: Query, R: set<nat>, S: set<nat>, v: nat)
    requires v < q.N() && R <= S
    ensures Deg(q, R, v) <= Deg(q, S, v)
  {
    var a, b := Near(q, R, v), Near(q, S, v);
    assert b == a + (b - a);
  }

  /** Removing a vertex lowers the degrees of its neighbours by one. */
  lemma DegRemove(q: Query, R: set<nat>, u: nat, v: nat)
    requires q.Valid() && v < q.N() && u in R
    ensures Deg(q, R - {u}, v) == Deg(q, R, v) - (if u in q.nbrs[v] then 1 else 0)
  {
    var a, b := Near(q, R - {u}, v), Near(q, R, v);
    if u in q.nbrs[v] {
      assert b == a + {u};
    } else {
      assert b == a;
    }
  }

  /** When no neighbour is missing, the degree is the length of the neighbour list. */
  lemma DegFull(q: Query, R: set<nat>, v: nat)
    requires q.Valid() && v < q.N() && forall x :: x in q.nbrs[v] ==> x in R
    ensures Deg(q, R, v) == |q.nbrs[v]|
  {
    assert Near(q, R, v) == Elements(q.nbrs[v]);
    DistinctFits(q.nbrs[v], Elements(q.nbrs[v]));
  }

  function Max(a: int, b: int): int { if a < b then b else a }

  // ---- The peeling ----

  /** The peeling state: `R` is left, the last popped value is `level`, and `C` is a set of minimum
      degree `level` around what is left. */
  ghost predicate Peeled(q: Query, R: set<nat>, values: seq<int>, level: nat, K: seq<int>, C: set<nat>) {
    && |values| == |K| == q.N()
    && (forall v :: v in R ==> v < q.N() && values[v] == Max(level, Deg(q, R, v)))
    && (forall v :: 0 <= v < q.N() && v !in R ==> 0 <= K[v] <= level && InCore(q, v, K[v]))
    && (forall v :: 0 <= v < q.N() && v !in R && q.nbrs[v] != [] ==> values[v] == -1)
    && Outside(q, R, level, K)
    && R <= C && Dense(q, C, level)
  }

  /** Subgraphs that have lost a vertex are no denser than the level, and their lost vertices are rated accordingly. */
  ghost predicate Outside(q: Query, R: set<nat>, level: nat, K: seq<int>)
    requires |K| == q.N()
  {
    forall S: set<nat>, k: nat :: Dense(q, S, k) && !(S <= R) ==> level >= k && forall v :: v in S && v < |K| && v !in R ==> K[v] >= k
  }

  /** The state while the neighbours of `u` are visited, of which the first `i` have been adjusted. */
  ghost predicate Adjusted(q: Query, R: set<nat>, values: seq<int>, old_: int, level: int, u: nat, i: nat)
    requires u < q.N() && i <= |q.nbrs[u]|
  {
    && |values| == q.N() && u in R
    && (forall v :: v in R && v != u ==> v < q.N())
    && (forall v :: v in R && v != u ==>
         values[v] == if v in q.nbrs[u][..i] then Max(level, Deg(q, R - {u}, v)) else Max(old_, Deg(q, R, v)))
    && (forall v :: 0 <= v < q.N() && (v !in R || v == u) && q.nbrs[v] != [] ==> values[v] == -1)
  }

  /** What one neighbour needs. */
  lemma AdjustOne(q: Query, R: set<nat>, values: seq<int>, values': seq<int>, old_: int, level: int, u: nat, i: nat)
    requires q.Valid() && u < q.N() && i < |q.nbrs[u]| && 0 <= old_ <= level
    requires Adjusted(q, R, values, old_, level, u, i)
    requires forall v :: v in R && v < q.N() ==> Max(old_, Deg(q, R, v)) >= level
    requires var v := q.nbrs[u][i]; v < |values| && values' == if values[v] > level then values[v := values[v] - 1] else values
    ensures Adjusted(q, R, values', old_, level, u, i + 1)
    ensures var v := q.nbrs[u][i]; values[v] > level ==> v in R - {u} && values[v] > 0
  {
    ThisOne(q, R, values, values', old_, level, u, i);
    OnlyOne(q, R, values, values', old_, level, u, i);
  }

  lemma ThisOne(q: Query, R: set<nat>, values: seq<int>, values': seq<int>, old_: int, level: int, u: nat, i: nat)
    requires q.Valid() && u < q.N() && i < |q.nbrs[u]| && 0 <= old_ <= level
    requires Adjusted(q, R, values, old_, level, u, i)
    requires forall v :: v in R && v < q.N() ==> Max(old_, Deg(q, R, v)) >= level
    requires var v := q.nbrs[u][i]; v < |values| && values' == if values[v] > level then values[v := values[v] - 1] else values
    ensures var v := q.nbrs[u][i];
      && v in q.nbrs[u][..i + 1] && v != u && |values'| == |values| && values' == values[v := values'[v]]
      && (v in R ==> v < q.N() && values'[v] == Max(level, Deg(q, R - {u}, v)))
      && (v !in R ==> values' == values)
      && (values[v] > level ==> v in R && values[v] > 0)
  {
    var w := q.nbrs[u][i];
    assert q.Adj(u, w) && q.Adj(w, u);
    assert q.nbrs[u][..i + 1] == q.nbrs[u][..i] + [w];
    assert w !in q.nbrs[u][..i];
    DegRemove(q, R, u, w);
  }

  lemma OnlyOne(q: Query, R: set<nat>, values: seq<int>, values': seq<int>, old_: int, level: int, u: nat, i: nat)
    requires u < q.N() && i < |q.nbrs[u]| && q.nbrs[u][i] < |values|
    requires Adjusted(q, R, values, old_, level, u, i)
    requires |values'| == |values| && values' == values[q.nbrs[u][i] := values'[q.nbrs[u][i]]]
    ensures forall v :: v in R && v != u && v != q.nbrs[u][i] ==>
      v < q.N() && values'[v] == if v in q.nbrs[u][..i + 1] then Max(level, Deg(q, R - {u}, v)) else Max(old_, Deg(q, R, v))
  {
    assert q.nbrs[u][..i + 1] == q.nbrs[u][..i] + [q.nbrs[u][i]];
  }

  lemma AdjustedAll(q: Query, R: set<nat>, values: seq<int>, old_: int, level: int, u: nat)
    requires q.Valid() && u < q.N() && 0 <= old_ <= level
    requires Adjusted(q, R, values, old_, level, u, |q.nbrs[u]|)
    requires forall v :: v in R && v < q.N() ==> Max(old_, Deg(q, R, v)) >= level
    ensures forall v :: v in R - {u} ==> v < q.N() && values[v] == Max(level, Deg(q, R - {u}, v))
  {
    assert q.nbrs[u][..|q.nbrs[u]|] == q.nbrs[u];
    forall v | v in R - {u}
      ensures v < q.N() && values[v] == Max(level, Deg(q, R - {u}, v))
    {
      DegRemove(q, R, u, v);
      if v !in q.nbrs[u] { assert !q.Adj(u, v) && !q.Adj(v, u); }
    }
  }

  /** A popped vertex is rated: from below by the set around it, from above by the order of removal. */
  lemma PopRates(q: Query, R: set<nat>, values: seq<int>, level: nat, K: seq<int>, C: set<nat>, u: nat) returns (C': set<nat>)
    requires q.Valid() && Peeled(q, R, values, level, K, C) && u in R && forall v :: v in R ==> values[u] <= values[v]
    ensures level <= values[u] && R <= C' && Dense(q, C', values[u]) && InCore(q, u, values[u])
    ensures Outside(q, R - {u}, values[u], K[u := values[u]])
  {
    var k := values[u];
    if k > level {
      C' := R;
      assert Dense(q, R, k);
    } else {
      C' := C;
    }
    assert u in C' && Dense(q, C', k);
    OutsidePop(q, R, level, K, u, k);
  }

  lemma OutsidePop(q: Query, R: set<nat>, level: nat, K: seq<int>, u: nat, k: nat)
    requires |K| == q.N() && u in R && u < q.N() && Outside(q, R, level, K) && level <= k && Deg(q, R, u) <= k
    ensures Outside(q, R - {u}, k, K[u := k])
  {
    forall S: set<nat>, j: nat | Dense(q, S, j) && !(S <= R - {u})
      ensures k >= j && forall v :: v in S && v < |K| && v !in R - {u} ==> K[u := k][v] >= j
    {
      if S <= R {
        assert u in S;
        DegMonotone(q, S, R, u);
      }
    }
  }

  /** The queue before peeling: every vertex with a neighbour, under its degree. */
  ghost predicate Filled(q: Query, present: set<nat>, values: seq<int>, K: seq<int>, top: nat) {
    && |values| == |K| == q.N()
    && (forall v: nat :: v in present <==> v < top && v < q.N() && q.nbrs[v] != [])
    && (forall v :: v in present && v < q.N() ==> values[v] == |q.nbrs[v]|)
    && (forall v :: 0 <= v < top && v < q.N() && q.nbrs[v] == [] ==> K[v] == 0)
  }

  method MaxDegree(q: Query) returns (maxDeg: nat)
    ensures forall v :: 0 <= v < q.N() ==> |q.nbrs[v]| <= maxDeg
  {
    maxDeg := 0;
    for v := 0 to q.N()
      invariant forall w :: 0 <= w < v ==> |q.nbrs[w]| <= maxDeg
    {
      if |q.nbrs[v]| > maxDeg { maxDeg := |q.nbrs[v]|; }
    }
  }

  method Fill(q: Query) returns (bucket: NaiveBucket, K: seq<int>)
    ensures fresh(bucket.Repr()) && bucket.Valid() && Filled(q, bucket.present, bucket.values[..], K, q.N())
  {
    var maxDeg := MaxDegree(q);
    bucket := new NaiveBucket(maxDeg, q.N());
    K := seq(q.N(), _ => -1);
    for v := 0 to q.N()
      invariant fresh(bucket.Repr()) && bucket.Valid() && bucket.maxValue == maxDeg
      invariant Filled(q, bucket.present, bucket.values[..], K, v)
    {
      if |q.nbrs[v]| > 0 {
        bucket.Insert(v, |q.nbrs[v]|);
      } else {
        K := K[v := 0];
      }
    }
  }

  lemma StartPeeling(q: Query, R: set<nat>, values: seq<int>, K: seq<int>, C: set<nat>)
    requires q.Valid() && Filled(q, R, values, K, q.N()) && forall v: nat :: v in C <==> v < q.N()
    ensures Peeled(q, R, values, 0, K, C)
  {
    forall v | v in R
      ensures Deg(q, R, v) == |q.nbrs[v]|
    {
      forall x | x in q.nbrs[v]
        ensures x in R
      {
        assert q.Adj(v, x) && q.Adj(x, v);
      }
      DegFull(q, R, v);
    }
    forall v | 0 <= v < q.N() && v !in R
      ensures InCore(q, v, K[v])
    {
      assert Dense(q, C, 0);
    }
    forall S: set<nat>, k: nat | Dense(q, S, k) && !(S <= R)
      ensures 0 >= k
    {
      var v :| v in S && v !in R;
      assert Near(q, S, v) == {};
    }
  }

  /** Lowers the values of the neighbours of a popped vertex that are above its own. */
  method Relax(q: Query, bucket: NaiveBucket, u: nat, val: int, ghost R: set<nat>, ghost old_: int)
    requires q.Valid() && u < q.N() && bucket.Valid() && bucket.present == R - {u} && 0 <= old_ <= val
    requires Adjusted(q, R, bucket.values[..], old_, val, u, 0)
    requires forall v :: v in R && v < q.N() ==> Max(old_, Deg(q, R, v)) >= val
    modifies bucket.Repr()
    ensures bucket.Valid() && bucket.present == R - {u}
    ensures Adjusted(q, R, bucket.values[..], old_, val, u, |q.nbrs[u]|)
  {
    for i := 0 to |q.nbrs[u]|
      invariant bucket.Valid() && bucket.present == R - {u}
      invariant Adjusted(q, R, bucket.values[..], old_, val, u, i)
    {
      RelaxOne(q, bucket, u, val, i, R, old_);
    }
  }

  method RelaxOne(q: Query, bucket: NaiveBucket, u: nat, val: int, i: nat, ghost R: set<nat>, ghost old_: int)
    requires q.Valid() && u < q.N() && i < |q.nbrs[u]| && bucket.Valid() && bucket.present == R - {u} && 0 <= old_ <= val
    requires Adjusted(q, R, bucket.values[..], old_, val, u, i)
    requires forall v :: v in R && v < q.N() ==> Max(old_, Deg(q, R, v)) >= val
    modifies bucket.Repr()
    ensures bucket.Valid() && bucket.present == R - {u}
    ensures Adjusted(q, R, bucket.values[..], old_, val, u, i + 1)
  {
    var v := q.nbrs[u][i];
    ghost var values := bucket.values[..];
    AdjustOne(q, R, values, if values[v] > val then values[v := values[v] - 1] else values, old_, val, u, i);
    var degV := bucket.CurrentValue(v);
    if degV > val {
      bucket.DecVal(v);
    }
  }

  /** The level is the core number of some vertex, unless there is none above 0. */
  ghost predicate Attained(K: seq<int>, level: int) { level == 0 || level in K }

  lemma AttainedAt(K: seq<int>, u: nat)
    requires u < |K|
    ensures Attained(K, K[u])
  {
  }

  /** Core numbers of all vertices. */
  method BaseKcore(q: Query) returns (K: seq<int>, maxCore: nat)
    requires q.Valid()
    ensures |K| == q.N()
    ensures forall v :: 0 <= v < q.N() ==> 0 <= K[v] <= maxCore && InCore(q, v, K[v])
    ensures forall v: nat, k: nat :: v < q.N() && InCore(q, v, k) ==> k <= K[v]
    ensures Attained(K, maxCore)
  {
    var bucket;
    bucket, K := Fill(q);
    ghost var C := Range(q.N());
    maxCore := 0;
    StartPeeling(q, bucket.present, bucket.values[..], K, C);
    var more := true;
    while more
      invariant fresh(bucket.Repr()) && bucket.Valid()
      invariant Peeled(q, bucket.present, bucket.values[..], maxCore, K, C)
      invariant Attained(K, maxCore)
      invariant !more ==> bucket.present == {}
      decreases |bucket.present|, more
    {
      ghost var u;
      more, K, maxCore, C, u := PeelNext(q, bucket, K, maxCore, C);
      if more { AttainedAt(K, u); }
    }
    AllRated(q, bucket.values[..], maxCore, K, C);
  }

  /** Pops a vertex of the smallest value, rates it, and adjusts its neighbours. */
  method PeelNext(q: Query, bucket: NaiveBucket, K: seq<int>, level: nat, ghost C: set<nat>)
    returns (more: bool, K': seq<int>, level': nat, ghost C': set<nat>, ghost u: nat)
    requires q.Valid() && bucket.Valid() && Peeled(q, bucket.present, bucket.values[..], level, K, C)
    modifies bucket.Repr()
    ensures bucket.Valid() && Peeled(q, bucket.present, bucket.values[..], level', K', C')
    ensures if more then u < |K'| && K'[u] == level' else K' == K && level' == level
    ensures more ==> bucket.present < old(bucket.present) && |bucket.present| < |old(bucket.present)|
    ensures !more ==> bucket.present == {} == old(bucket.present)
  {
    hide Dense, Outside, InCore, Deg, NaiveBucket.Valid;
    ghost var R, values := bucket.present, bucket.values[..];
    var top, val;
    more, top, val := bucket.PopMin();
    u := top;
    if !more { return false, K, level, C, 0; }
    C' := PopRates(q, R, values, level, K, C, u);
    PopAdjusts(q, R, values, level, K, C, u);
    Relax(q, bucket, top, val, R, level);
    AdjustedAll(q, R, bucket.values[..], level, val, u);
    K', level' := K[top := val], val;
    RestPeeled(q, R, bucket.values[..], level, val, K, C', u);
  }

  lemma RestPeeled(q: Query, R: set<nat>, values: seq<int>, old_: nat, level: nat, K: seq<int>, C': set<nat>, u: nat)
    requires |K| == q.N() && u < q.N() && old_ <= level && Adjusted(q, R, values, old_, level, u, |q.nbrs[u]|)
    requires forall v :: v in R - {u} ==> v < q.N() && values[v] == Max(level, Deg(q, R - {u}, v))
    requires forall v :: 0 <= v < q.N() && v !in R ==> 0 <= K[v] <= old_ && InCore(q, v, K[v])
    requires R <= C' && Dense(q, C', level) && InCore(q, u, level) && Outside(q, R - {u}, level, K[u := level])
    ensures Peeled(q, R - {u}, values, level, K[u := level], C')
  {
  }

  lemma PopAdjusts(q: Query, R: set<nat>, values: seq<int>, level: nat, K: seq<int>, C: set<nat>, u: nat)
    requires q.Valid() && Peeled(q, R, values, level, K, C) && u in R && forall v :: v in R ==> values[u] <= values[v]
    ensures Adjusted(q, R, values[u := -1], level, values[u], u, 0)
    ensures forall v :: v in R && v < q.N() ==> Max(level, Deg(q, R, v)) >= values[u]
  {
  }

  lemma AllRated(q: Query, values: seq<int>, level: nat, K: seq<int>, C: set<nat>)
    requires Peeled(q, {}, values, level, K, C)
    ensures forall v: nat, k: nat :: v < q.N() && InCore(q, v, k) ==> k <= K[v]
  {
    forall v: nat, k: nat | v < q.N() && InCore(q, v, k)
      ensures k <= K[v]
    {
      var S :| v in S && Dense(q, S, k);
    }
  }
}
