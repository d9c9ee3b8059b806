/** The planner: indexing orders, the global matching order with its backward neighbours, the marks of
    tree-shaped tails, and the rebuild flags of every query edge. */
module Planner {
  import opened Sequences
  import opened QueryPaths
  import opened BreadthFirst
  import opened RebuildFlags
  import opened QueryMeta
  import QueryPlan

  /** An order of the query vertices; `bni[j]` holds the positions of the backward neighbours of position `j`. */
  datatype Order = Order(vs: seq<nat>, bni: seq<seq<nat>>)

  datatype Flags = Ok(vertices: set<nat>) | ErrorInOrderGeneration

  ghost predicate Walk(q: Query, p: seq<nat>, u: nat, v: nat) {
    |p| > 0 && p[0] == u && p[|p| - 1] == v && Linked(q, p)
  }

  ghost predicate HasWalk(q: Query, u: nat, v: nat) {
    exists p :: Walk(q, p, u, v)
  }

  ghost predicate Connected(q: Query) {
    forall u, v :: 0 <= u < q.N() && 0 <= v < q.N() ==> HasWalk(q, u, v)
  }

  /** No edge leaves the vertices of `vs`. */
  ghost predicate Closed(q: Query, vs: seq<nat>) {
    forall u, v :: u in vs && q.Adj(u, v) ==> v in vs
  }

  lemma {:induction false} WalkStays(q: Query, vs: seq<nat>, p: seq<nat>, i: nat)
    requires Closed(q, vs) && Linked(q, p) && i < |p| && p[0] in vs
    ensures p[i] in vs
  {
    if i > 0 { WalkStays(q, vs, p, i - 1); }
  }

  /** In a connected graph a closed order holds every vertex. */
  lemma ClosedIsAll(q: Query, vs: seq<nat>)
    requires Connected(q) && Closed(q, vs) && |vs| > 0 && vs[0] < q.N()
    ensures forall v :: 0 <= v < q.N() ==> v in vs
  {
    forall v | 0 <= v < q.N()
      ensures v in vs
    {
      assert HasWalk(q, vs[0], v);
      var p :| Walk(q, p, vs[0], v);
      WalkStays(q, vs, p, |p| - 1);
    }
  }

  /** An order of different vertices that holds every vertex has one place per vertex. */
  lemma AllMeansN(q: Query, vs: seq<nat>)
    requires Distinct(vs) && (forall i :: 0 <= i < |vs| ==> vs[i] < q.N()) && forall v :: 0 <= v < q.N() ==> v in vs
    ensures |vs| == q.N()
  {
    DistinctFits(vs, Range(q.N()));
    assert Elements(vs) == Range(q.N());
  }

  /** A connected order from `u0` and `u1` that holds all vertices. */
  ghost predicate Complete(q: Query, u0: nat, u1: nat, vs: seq<nat>) {
    Backed(q, u0, u1, vs) && |vs| == q.N() && forall v :: 0 <= v < q.N() ==> v in vs
  }

  lemma Append(q: Query, u0: nat, u1: nat, vs: seq<nat>, v: nat, u: nat)
    requires q.Valid() && Backed(q, u0, u1, vs) && u in vs && q.Adj(u, v) && v !in vs
    ensures Backed(q, u0, u1, vs + [v]) && |vs| < q.N()
  {
    var k :| 0 <= k < |vs| && vs[k] == u;
    var vs' := vs + [v];
    forall i | 2 <= i < |vs'|
      ensures HasEarlier(q, vs', i)
    {
      if i < |vs| {
        assert HasEarlier(q, vs, i);
        var j: nat :| 0 <= j < i && q.Adj(vs[i], vs[j]);
        assert q.Adj(vs'[i], vs'[j]);
      } else {
        assert q.Adj(vs'[i], vs'[k]);
      }
    }
    DistinctFits(vs', Range(q.N()));
  }

  // ---- Breadth first ----

  /** The number of neighbour `i` of `u`, and behind the last one a number that no vertex has. */
  function Neighbour(q: Query, u: nat, i: nat): nat
    requires u < q.N() && i <= |q.nbrs[u]|
  {
    if i < |q.nbrs[u]| then q.nbrs[u][i] else q.N()
  }

  lemma NextNeighbour(q: Query, vs: seq<nat>, c: nat, i: nat)
    requires q.Valid() && c < |vs| && vs[c] < q.N() && i < |q.nbrs[vs[c]]| && q.nbrs[vs[c]][i] in vs
    requires Searched(q, vs, c, q.nbrs[vs[c]][i]) || Searched(q, vs, c, q.nbrs[vs[c]][i] + 1)
    ensures Searched(q, vs, c, Neighbour(q, vs[c], i + 1))
  {
    var list := q.nbrs[vs[c]];
    var x, x' := list[i], Neighbour(q, vs[c], i + 1);
    forall v: nat | x <= v < x' && q.Adj(vs[c], v)
      ensures v in vs
    {
      var k :| 0 <= k < |list| && list[k] == v;
    }
    SearchedPast(q, vs, c, if Searched(q, vs, c, x) then x else x + 1, x');
  }

  lemma FirstNeighbour(q: Query, vs: seq<nat>, c: nat)
    requires q.Valid() && c < |vs| && vs[c] < q.N() && Searched(q, vs, c, 0)
    ensures Searched(q, vs, c, Neighbour(q, vs[c], 0))
  {
    var x := Neighbour(q, vs[c], 0);
    forall v: nat | v < x
      ensures !q.Adj(vs[c], v)
    {
    }
    SearchedPast(q, vs, c, 0, x);
  }

  /** Appends the neighbours of `u`, the vertex at place `c`, that have not been visited. */
  method Visit(q: Query, ghost u0: nat, ghost u1: nat, ghost c: nat, u: nat, order: seq<nat>, visited: set<nat>, level: seq<nat>)
    returns (order': seq<nat>, visited': set<nat>, level': seq<nat>)
    requires q.Valid() && Backed(q, u0, u1, order) && c < |order| && order[c] == u && (forall v :: v in visited <==> v in order)
    requires Searched(q, order, c, 0)
    ensures Backed(q, u0, u1, order') && (forall v :: v in visited' <==> v in order')
    ensures order <= order' && level' == level + order'[|order|..]
    ensures Searched(q, order', c + 1, 0)
  {
    hide Backed, Searched;
    order', visited', level' := order, visited, level;
    InRange(q, u0, u1, order, c);
    FirstNeighbour(q, order, c);
    for i := 0 to |q.nbrs[u]|
      invariant Backed(q, u0, u1, order') && (forall v :: v in visited' <==> v in order')
      invariant order <= order' && level' == level + order'[|order|..]
      invariant Searched(q, order', c, Neighbour(q, u, i))
    {
      var nbr := q.nbrs[u][i];
      if nbr !in visited' {
        Append(q, u0, u1, order', nbr, u);
        SearchedMore(q, order', c, nbr);
        order', visited', level' := order' + [nbr], visited' + {nbr}, level' + [nbr];
      }
      NextNeighbour(q, order', c, i);
    }
    SearchedOn(q, order', c);
  }

  lemma InRange(q: Query, u0: nat, u1: nat, vs: seq<nat>, c: nat)
    requires Backed(q, u0, u1, vs) && c < |vs|
    ensures vs[c] < q.N()
  {
  }

  /** Visits a whole level, which lies in the order from place `c` on. */
  method VisitLevel(q: Query, ghost u0: nat, ghost u1: nat, ghost c: nat, pre: seq<nat>, order: seq<nat>, visited: set<nat>)
    returns (order': seq<nat>, visited': set<nat>, level: seq<nat>)
    requires q.Valid() && Backed(q, u0, u1, order) && (forall v :: v in visited <==> v in order)
    requires c <= |order| && pre == order[c..] && Searched(q, order, c, 0)
    ensures Backed(q, u0, u1, order') && (forall v :: v in visited' <==> v in order')
    ensures order <= order' && level == order'[|order|..] && Searched(q, order', |order|, 0)
  {
    hide Backed, Searched;
    order', visited', level := order, visited, [];
    for i := 0 to |pre|
      invariant Backed(q, u0, u1, order') && (forall v :: v in visited' <==> v in order')
      invariant order <= order' && level == order'[|order|..] && Searched(q, order', c + i, 0)
    {
      assert pre[i] == order[c + i] == order'[c + i];
      order', visited', level := Visit(q, u0, u1, c + i, pre[i], order', visited', level);
    }
  }

  /** The backward neighbours of position `j`, in ascending order. */
  method Backward(q: Query, vs: seq<nat>, j: nat) returns (bni: seq<nat>)
    requires j < |vs|
    ensures forall k: nat :: k in bni <==> k < j && q.Adj(vs[j], vs[k])
    ensures Strict(bni)
  {
    bni := [];
    for k := 0 to j
      invariant forall i: nat :: i in bni <==> i < k && q.Adj(vs[j], vs[i])
      invariant Strict(bni)
    {
      if q.Adj(vs[j], vs[k]) {
        assert forall i :: 0 <= i < |bni| ==> bni[i] in bni;
        bni := bni + [k];
      }
    }
  }

  /** `bni[j]` lists exactly the backward neighbours of position `j`, for every `j` from `from` on. */
  ghost predicate Backwards(q: Query, o: Order, from: nat) {
    && |o.bni| == |o.vs|
    && forall j :: from <= j < |o.vs| ==> Distinct(o.bni[j]) && forall k: nat :: k in o.bni[j] <==> k < j && q.Adj(o.vs[j], o.vs[k])
  }

  /** The backward slices from `from` on are ascending. */
  ghost predicate AscendingSlices(o: Order, from: nat) {
    forall j :: from <= j < |o.bni| ==> Strict(o.bni[j])
  }

  /** The breadth-first order from an edge. */
  method BuildIndexingOrder(q: Query, u0: nat, u1: nat) returns (o: Order)
    requires q.Valid() && Connected(q) && u0 < q.N() && q.Adj(u0, u1)
    ensures Complete(q, u0, u1, o.vs) && Breadth(q, o.vs) && Backwards(q, o, 1) && AscendingSlices(o, 1) && o.bni[0] == [1]
  {
    hide Breadth, Searched, Strict, Backed, Connected;
    var order := SearchBreadthFirst(q, u0, u1);
    var bni := [[1]];
    for j := 1 to q.N()
      invariant |bni| == j && bni[0] == [1]
      invariant forall i :: 1 <= i < j ==> Strict(bni[i]) && forall k: nat :: k in bni[i] <==> k < i && q.Adj(order[i], order[k])
    {
      var list := Backward(q, order, j);
      bni := bni + [list];
    }
    o := Order(order, bni);
    forall j | 1 <= j < q.N()
      ensures Distinct(o.bni[j])
    {
      StrictIsDistinct(o.bni[j]);
    }
  }

  lemma StrictIsDistinct(s: seq<nat>)
    requires Strict(s)
    ensures Distinct(s)
  {
  }

  method SearchBreadthFirst(q: Query, u0: nat, u1: nat) returns (order: seq<nat>)
    requires q.Valid() && Connected(q) && u0 < q.N() && q.Adj(u0, u1)
    ensures Complete(q, u0, u1, order) && Breadth(q, order)
  {
    hide Searched, Connected;
    order := [u0, u1];
    var visited, pre := {u0, u1}, [u0, u1];
    ghost var c := 0;
    NotSearched(q, u0, u1);
    DistinctFits(order, Range(q.N()));
    while pre != []
      invariant Backed(q, u0, u1, order) && (forall v :: v in visited <==> v in order)
      invariant c <= |order| <= q.N() && pre == order[c..] && Searched(q, order, c, 0)
      decreases q.N() - c
    {
      ghost var n := |order|;
      order, visited, pre := VisitLevel(q, u0, u1, c, pre, order, visited);
      c := n;
      DistinctFits(order, Range(q.N()));
    }
    AllSearched(q, order, c);
    ClosedIsAll(q, order);
    AllMeansN(q, order);
  }

  lemma AllSearched(q: Query, vs: seq<nat>, c: nat)
    requires q.Valid() && Searched(q, vs, c, 0) && c >= |vs|
    ensures Closed(q, vs) && Breadth(q, vs)
  {
    forall u, v | u in vs && q.Adj(u, v)
      ensures v in vs
    {
      var i :| 0 <= i < |vs| && vs[i] == u;
    }
  }

  // ---- Rebuild flags of vertices ----

  /** Every backward edge of the vertex at place `i` is marked, or none is. */
  lemma UniformMarks(q: Query, u0: nat, u1: nat, starts: seq<nat>, marks: Marks, o: Order, i: nat, k: nat, k': nat)
    requires q.Valid() && Backed(q, u0, u1, o.vs) && Backwards(q, o, 1) && 1 <= i < |o.vs|
    requires forall x: nat, y: nat :: (x, y) in marks <==> Rebuilt(q, u0, u1, starts, x, y)
    requires k in o.bni[i] && k' in o.bni[i]
    ensures (o.vs[k], o.vs[i]) in marks ==> (o.vs[k'], o.vs[i]) in marks
  {
    if (o.vs[k], o.vs[i]) in marks {
      AllOrNone(q, u0, u1, starts, o.vs, i, k, k');
    }
  }

  /** Counts the marked backward edges of the vertex at place `i`. */
  method MarkedBackward(marks: Marks, o: Order, i: nat) returns (sum: nat)
    requires i < |o.vs| == |o.bni| && forall t :: 0 <= t < |o.bni[i]| ==> o.bni[i][t] < |o.vs|
    ensures sum <= |o.bni[i]|
    ensures sum == 0 <==> forall k :: k in o.bni[i] ==> (o.vs[k], o.vs[i]) !in marks
    ensures sum == |o.bni[i]| <==> forall k :: k in o.bni[i] ==> (o.vs[k], o.vs[i]) in marks
  {
    sum := 0;
    var list := o.bni[i];
    for j := 0 to |list|
      invariant sum <= j
      invariant sum == 0 <==> forall t :: 0 <= t < j ==> (o.vs[list[t]], o.vs[i]) !in marks
      invariant sum == j <==> forall t :: 0 <= t < j ==> (o.vs[list[t]], o.vs[i]) in marks
    {
      if (o.vs[list[j]], o.vs[i]) in marks { sum := sum + 1; }
    }
  }

  /** A vertex is rebuilt when its backward edges are; the error branch is never taken. */
  ghost predicate VertexFlags(q: Query, u0: nat, u1: nat, starts: seq<nat>, o: Order, flags: set<nat>, top: nat)
    requires Backwards(q, o, 1)
  {
    forall i, k :: 1 <= i < top && i < |o.vs| && k in o.bni[i] ==>
      (o.vs[i] in flags <==> Rebuilt(q, u0, u1, starts, o.vs[k], o.vs[i]))
  }

  method GenerateRebuildVFlagsWithOrder(q: Query, u0: nat, u1: nat, ghost starts: seq<nat>, marks: Marks, o: Order)
    returns (r: Flags)
    requires q.Valid() && Backed(q, u0, u1, o.vs) && Backwards(q, o, 1) && q.Adj(u0, u1)
    requires forall x: nat, y: nat :: (x, y) in marks <==> Rebuilt(q, u0, u1, starts, x, y)
    ensures r.Ok? && o.vs[0] in r.vertices && (forall v :: v in r.vertices ==> v in o.vs)
    ensures VertexFlags(q, u0, u1, starts, o, r.vertices, |o.vs|)
  {
    var flags: set<nat> := {o.vs[0]};
    r := Ok(flags);
    for i := 1 to |o.vs|
      invariant r == Ok(flags)
      invariant o.vs[0] in flags && (forall v :: v in flags ==> v in o.vs[..i])
      invariant VertexFlags(q, u0, u1, starts, o, flags, i)
    {
      r := FlagVertex(q, u0, u1, starts, marks, o, i, flags);
      flags := r.vertices;
    }
    assert o.vs[..|o.vs|] == o.vs;
  }

  /** Decides for one vertex. */
  method FlagVertex(q: Query, u0: nat, u1: nat, ghost starts: seq<nat>, marks: Marks, o: Order, i: nat, flags: set<nat>)
    returns (r: Flags)
    requires q.Valid() && Backed(q, u0, u1, o.vs) && Backwards(q, o, 1) && q.Adj(u0, u1) && 1 <= i < |o.vs|
    requires forall x: nat, y: nat :: (x, y) in marks <==> Rebuilt(q, u0, u1, starts, x, y)
    requires VertexFlags(q, u0, u1, starts, o, flags, i) && forall v :: v in flags ==> v in o.vs[..i]
    ensures r.Ok? && flags <= r.vertices && VertexFlags(q, u0, u1, starts, o, r.vertices, i + 1)
    ensures forall v :: v in r.vertices ==> v in o.vs[..i + 1]
  {
    NotMixed(q, u0, u1, starts, marks, o, i);
    var sum := MarkedBackward(marks, o, i);
    if sum == 0 {
      r := Ok(flags);
      FlagsNext(q, u0, u1, starts, o, i, flags, false);
      assert flags + {} == flags;
    } else if sum == |o.bni[i]| {
      r := Ok(flags + {o.vs[i]});
      FlagsNext(q, u0, u1, starts, o, i, flags, true);
    } else {
      assert false;
      r := ErrorInOrderGeneration;
    }
  }

  lemma FlagsNext(q: Query, u0: nat, u1: nat, starts: seq<nat>, o: Order, i: nat, flags: set<nat>, on: bool)
    requires Backwards(q, o, 1) && Distinct(o.vs) && 1 <= i < |o.vs|
    requires VertexFlags(q, u0, u1, starts, o, flags, i) && forall v :: v in flags ==> v in o.vs[..i]
    requires forall k :: k in o.bni[i] ==> (on <==> Rebuilt(q, u0, u1, starts, o.vs[k], o.vs[i]))
    ensures VertexFlags(q, u0, u1, starts, o, flags + (if on then {o.vs[i]} else {}), i + 1)
    ensures forall v :: v in flags + {o.vs[i]} ==> v in o.vs[..i + 1]
  {
    assert o.vs[i] !in flags && o.vs[..i + 1] == o.vs[..i] + [o.vs[i]];
  }

  lemma HasBackward(q: Query, u0: nat, u1: nat, o: Order, i: nat)
    requires q.Valid() && Backed(q, u0, u1, o.vs) && Backwards(q, o, 1) && 1 <= i < |o.vs| && q.Adj(u0, u1)
    ensures exists k :: k in o.bni[i]
  {
    if i == 1 {
      assert 0 in o.bni[1];
    } else {
      assert HasEarlier(q, o.vs, i);
      var k: nat :| 0 <= k < i && q.Adj(o.vs[i], o.vs[k]);
      assert k in o.bni[i];
    }
  }

  lemma NotMixed(q: Query, u0: nat, u1: nat, starts: seq<nat>, marks: Marks, o: Order, i: nat)
    requires q.Valid() && Backed(q, u0, u1, o.vs) && Backwards(q, o, 1) && 1 <= i < |o.vs| && q.Adj(u0, u1)
    requires forall x: nat, y: nat :: (x, y) in marks <==> Rebuilt(q, u0, u1, starts, x, y)
    ensures (forall k :: k in o.bni[i] ==> (o.vs[k], o.vs[i]) in marks) || (forall k :: k in o.bni[i] ==> (o.vs[k], o.vs[i]) !in marks)
    ensures forall t :: 0 <= t < |o.bni[i]| ==> o.bni[i][t] < |o.vs|
    ensures exists k :: k in o.bni[i]
  {
    assert forall t :: 0 <= t < |o.bni[i]| ==> o.bni[i][t] in o.bni[i];
    HasBackward(q, u0, u1, o, i);
    forall k, k' | k in o.bni[i] && k' in o.bni[i]
      ensures (o.vs[k], o.vs[i]) in marks ==> (o.vs[k'], o.vs[i]) in marks
    {
      UniformMarks(q, u0, u1, starts, marks, o, i, k, k');
    }
  }

  // ---- The global matching order ----

  /** A vertex that has not been visited and has a visited neighbour. */
  ghost predicate Borders(q: Query, order: seq<nat>, v: nat) {
    v < q.N() && v !in order && exists u :: u in order && q.Adj(u, v)
  }

  /** The vertices that may come next. */
  method Extendable(q: Query, order: seq<nat>) returns (selected: seq<nat>)
    requires q.Valid()
    ensures forall v: nat :: v in selected <==> Borders(q, order, v)
  {
    selected := [];
    for u := 0 to q.N()
      invariant forall v: nat :: v in selected <==> v < u && Borders(q, order, v)
    {
      var near := false;
      for k := 0 to |q.nbrs[u]|
        invariant near <==> exists i :: 0 <= i < k && q.nbrs[u][i] in order
      {
        if q.nbrs[u][k] in order { near := true; }
      }
      if near && u !in order {
        var i: nat :| 0 <= i < |q.nbrs[u]| && q.nbrs[u][i] in order;
        assert q.Adj(u, q.nbrs[u][i]);
        selected := selected + [u];
      } else {
        assert forall w :: w in order && q.Adj(w, u) ==> q.Adj(u, w);
      }
    }
  }

  /** An incomplete order of a connected query can be extended. */
  lemma CanExtend(q: Query, order: seq<nat>)
    requires q.Valid() && Connected(q) && 0 < |order| < q.N() && order[0] < q.N()
    ensures exists v: nat :: Borders(q, order, v)
  {
    if Closed(q, order) {
      ClosedIsAll(q, order);
      assert Range(q.N()) <= Elements(order);
      SubsetSize(Range(q.N()), Elements(order));
    } else {
      var u: nat, v: nat :| u in order && q.Adj(u, v) && v !in order;
      assert Borders(q, order, v);
    }
  }

  /** Puts `k` behind all positions with a smaller key. */
  function Inserted(list: seq<nat>, k: nat, key: nat -> real): seq<nat> {
    if list == [] || key(k) < key(list[0]) then [k] + list else [list[0]] + Inserted(list[1..], k, key)
  }

  lemma {:induction false} InsertedContents(list: seq<nat>, k: nat, key: nat -> real)
    requires Distinct(list) && k !in list
    ensures Distinct(Inserted(list, k, key)) && forall x :: x in Inserted(list, k, key) <==> x == k || x in list
    decreases |list|
  {
    if list == [] || key(k) < key(list[0]) {
    } else {
      assert list == [list[0]] + list[1..];
      InsertedContents(list[1..], k, key);
      var rest := Inserted(list[1..], k, key);
      forall j | 0 <= j < |rest|
        ensures rest[j] != list[0]
      {
        assert rest[j] in rest;
      }
    }
  }

  /** The keys do not fall along the list. */
  ghost predicate ByKey(list: seq<nat>, key: nat -> real) {
    forall s, t :: 0 <= s < t < |list| ==> key(list[s]) <= key(list[t])
  }

  lemma {:induction false} InsertedByKey(list: seq<nat>, k: nat, key: nat -> real)
    requires ByKey(list, key)
    ensures ByKey(Inserted(list, k, key), key)
    ensures forall x :: x in Inserted(list, k, key) ==> x == k || x in list
    decreases |list|
  {
    if list == [] || key(k) < key(list[0]) {
    } else {
      InsertedByKey(list[1..], k, key);
      var rest := Inserted(list[1..], k, key);
      forall t | 0 <= t < |rest|
        ensures key(list[0]) <= key(rest[t])
      {
        assert rest[t] in rest;
      }
    }
  }

  /** The estimate for a backward position, by which the slice of position `j` is sorted. */
  function DegreeFrom(vs: seq<nat>, j: nat, avgDegree: (nat, nat) -> real): nat -> real
    requires j < |vs|
  {
    (i: nat) => if i < |vs| then avgDegree(vs[i], vs[j]) else 0.0
  }

  /** In every slice the backward position with the smallest estimate comes first, and they never fall. */
  ghost predicate Selective(o: Order, avgDegree: (nat, nat) -> real) {
    forall j :: 0 <= j < |o.vs| && j < |o.bni| ==> ByKey(o.bni[j], DegreeFrom(o.vs, j, avgDegree))
  }

  /** So the list that a search reads its candidates from is the one with the smallest estimate. */
  lemma FirstIsMostSelective(q: Query, o: Order, avgDegree: (nat, nat) -> real, j: nat, k: nat)
    requires Backwards(q, o, 0) && Selective(o, avgDegree) && j < |o.vs| && k < j && q.Adj(o.vs[j], o.vs[k])
    ensures |o.bni[j]| > 0 && o.bni[j][0] < j && avgDegree(o.vs[o.bni[j][0]], o.vs[j]) <= avgDegree(o.vs[k], o.vs[j])
  {
    var list, key := o.bni[j], DegreeFrom(o.vs, j, avgDegree);
    assert k in list;
    var t :| 0 <= t < |list| && list[t] == k;
    assert list[0] in list;
    assert ByKey(list, key) && key(list[0]) <= key(list[t]);
  }

  /** The backward neighbours of position `j`, the most selective one first. */
  method BackwardByDegree(q: Query, vs: seq<nat>, j: nat, avgDegree: (nat, nat) -> real) returns (bni: seq<nat>)
    requires j < |vs|
    ensures forall k: nat :: k in bni <==> k < j && q.Adj(vs[j], vs[k])
    ensures Distinct(bni) && ByKey(bni, DegreeFrom(vs, j, avgDegree))
  {
    hide ByKey;
    bni := [];
    var k := j;
    var key := DegreeFrom(vs, j, avgDegree);
    NothingByKey(key);
    while k > 0
      invariant k <= j
      invariant forall i: nat :: i in bni <==> k <= i < j && q.Adj(vs[j], vs[i])
      invariant Distinct(bni) && ByKey(bni, key)
    {
      k := k - 1;
      if q.Adj(vs[j], vs[k]) {
        InsertedContents(bni, k, key);
        InsertedByKey(bni, k, key);
        bni := Inserted(bni, k, key);
      }
    }
  }

  lemma NothingByKey(key: nat -> real)
    ensures ByKey([], key)
  {
  }

  /** The greedy order from a starting edge.  `pick` stands for the scores that choose among the
      extendable vertices, `avgDegree` for the estimates that order the backward neighbours. */
  method GenerateGlobalMatchingOrder(q: Query, u0: nat, u1: nat, pick: nat -> nat, avgDegree: (nat, nat) -> real) returns (o: Order)
    requires q.Valid() && Connected(q) && u0 < q.N() && q.Adj(u0, u1)
    ensures Complete(q, u0, u1, o.vs) && Backwards(q, o, 0) && Selective(o, avgDegree)
  {
    hide ByKey, Backed, Connected, DegreeFrom;
    var order := GrowOrder(q, u0, u1, pick);
    var bni := [];
    for j := 0 to q.N()
      invariant |bni| == j
      invariant forall i :: 0 <= i < j ==> Distinct(bni[i]) && forall k: nat :: k in bni[i] <==> k < i && q.Adj(order[i], order[k])
      invariant forall i :: 0 <= i < j ==> ByKey(bni[i], DegreeFrom(order, i, avgDegree))
    {
      var list := BackwardByDegree(q, order, j, avgDegree);
      bni := bni + [list];
    }
    o := Order(order, bni);
  }

  /** One vertex after the other, each with a neighbour before it. */
  method GrowOrder(q: Query, u0: nat, u1: nat, pick: nat -> nat) returns (order: seq<nat>)
    requires q.Valid() && Connected(q) && u0 < q.N() && q.Adj(u0, u1)
    ensures Complete(q, u0, u1, order)
  {
    order := [u0, u1];
    DistinctFits(order, Range(q.N()));
    for i := 2 to q.N()
      invariant |order| == i && Backed(q, u0, u1, order)
    {
      var selected := Extendable(q, order);
      CanExtend(q, order);
      ghost var w: nat :| Borders(q, order, w);
      assert w in selected;
      var v := selected[pick(i) % |selected|];
      assert v in selected;
      ghost var u: nat :| u in order && q.Adj(u, v);
      Append(q, u0, u1, order, v, u);
      order := order + [v];
    }
    FullOrder(q, u0, u1, order);
  }

  /** An order with one place per vertex holds every vertex. */
  lemma FullOrder(q: Query, u0: nat, u1: nat, vs: seq<nat>)
    requires Backed(q, u0, u1, vs) && |vs| == q.N()
    ensures Complete(q, u0, u1, vs)
  {
    forall v | 0 <= v < q.N()
      ensures v in vs
    {
      if v !in vs {
        DistinctFits(vs, Range(q.N()) - {v});
      }
    }
  }

  // ---- Tree-shaped tails ----

  /** No two of the vertices from place `d` on are adjacent. */
  ghost predicate IndependentFrom(q: Query, vs: seq<nat>, d: nat) {
    forall i, j :: d <= i < j < |vs| ==> !q.Adj(vs[i], vs[j])
  }

  /** The vertex has degree one. */
  predicate IsLeaf(q: Query, v: nat) { v < q.N() && |q.nbrs[v]| == 1 }

  /** All vertices from place `d` on have degree one. */
  ghost predicate LeavesFrom(q: Query, vs: seq<nat>, d: nat) {
    forall i :: d <= i < |vs| ==> IsLeaf(q, vs[i])
  }

  /** The mark of the suffix from place `d` on. */
  ghost function MarkOf(q: Query, vs: seq<nat>, d: nat): QueryPlan.CartesianProductType {
    if !IndependentFrom(q, vs, d) then QueryPlan.None
    else if LeavesFrom(q, vs, d) then QueryPlan.TreeCartesianProduct
    else QueryPlan.NonTreeCartesianProduct
  }

  /** The marks tell the shape of the suffix that starts at each place. */
  method GenerateCartesianProductInfoGlobal(q: Query, vs: seq<nat>) returns (info: seq<QueryPlan.CartesianProductType>)
    requires |vs| >= 2
    ensures |info| == |vs| && info[0] == QueryPlan.None
    ensures info[|vs| - 1] == if IsLeaf(q, vs[|vs| - 1]) then QueryPlan.TreeSingle else QueryPlan.NonTreeSingle
    ensures forall d :: 1 <= d < |vs| - 1 ==> info[d] == MarkOf(q, vs, d)
  {
    var n := |vs|;
    info := seq(n, _ => QueryPlan.None);
    var tail;
    if IsLeaf(q, vs[n - 1]) {
      info := info[n - 1 := QueryPlan.TreeSingle];
      tail := QueryPlan.TreeCartesianProduct;
    } else {
      info := info[n - 1 := QueryPlan.NonTreeSingle];
      tail := QueryPlan.NonTreeCartesianProduct;
    }
    for i := 1 to n - 1
      invariant |info| == n && info[0] == QueryPlan.None
      invariant info[n - 1] == if IsLeaf(q, vs[n - 1]) then QueryPlan.TreeSingle else QueryPlan.NonTreeSingle
      invariant tail == MarkOf(q, vs, n - i)
      invariant forall d :: n - i <= d < n - 1 ==> info[d] == MarkOf(q, vs, d)
    {
      var d := n - 1 - i;
      if tail != QueryPlan.None {
        var valid := NoForward(q, vs, d);
        if !valid {
          tail := QueryPlan.None;
        } else if !IsLeaf(q, vs[d]) {
          tail := QueryPlan.NonTreeCartesianProduct;
        }
      }
      info := info[d := tail];
    }
  }

  /** Whether the vertex at place `d` has no neighbour behind it. */
  method NoForward(q: Query, vs: seq<nat>, d: nat) returns (valid: bool)
    requires d < |vs|
    ensures valid <==> forall j :: d < j < |vs| ==> !q.Adj(vs[d], vs[j])
  {
    for j := d + 1 to |vs|
      invariant forall k :: d < k < j ==> !q.Adj(vs[d], vs[k])
    {
      if q.Adj(vs[d], vs[j]) { return false; }
    }
    return true;
  }

  // ---- The plan that the searches use ----

  function PlanOf(q: Query, m: nat, eidx: (nat, nat) -> nat, dirToEdge: nat -> nat, o: Order): QueryPlan.Plan {
    QueryPlan.Plan(q.N(), m, o.vs, o.bni, eidx, dirToEdge)
  }

  lemma AtMostOne(b: seq<nat>, x: nat)
    requires Distinct(b) && forall k :: 0 <= k < |b| ==> b[k] == x
    ensures |b| <= 1
  {
    DistinctFits(b, {x});
  }

  /** The order gives a valid plan: every position after the first has a backward position, and only earlier ones. */
  lemma PlanIsValid(q: Query, u0: nat, u1: nat, m: nat, eidx: (nat, nat) -> nat, dirToEdge: nat -> nat, o: Order)
    requires q.Valid() && q.Adj(u0, u1) && Complete(q, u0, u1, o.vs) && Backwards(q, o, 0)
    ensures PlanOf(q, m, eidx, dirToEdge, o).Valid() && |o.bni[1]| == 1
  {
    forall d | 1 <= d < q.N()
      ensures |o.bni[d]| > 0
    {
      HasBackward(q, u0, u1, o, d);
    }
    forall d, k | 0 <= d < q.N() && 0 <= k < |o.bni[d]|
      ensures o.bni[d][k] < d
    {
      assert o.bni[d][k] in o.bni[d];
    }
    AtMostOne(o.bni[1], 0);
  }

  /** The backward positions list every query edge exactly once. */
  lemma EveryEdgeOnce(q: Query, u0: nat, u1: nat, m: nat, eidx: (nat, nat) -> nat, dirToEdge: nat -> nat, o: Order)
    requires q.Valid() && q.Adj(u0, u1) && Complete(q, u0, u1, o.vs) && Backwards(q, o, 0)
    requires EdgeNumbers(q, m, eidx, dirToEdge)
    ensures QueryPlan.Numbered(PlanOf(q, m, eidx, dirToEdge, o))
  {
    var plan := PlanOf(q, m, eidx, dirToEdge, o);
    forall d: nat, k: nat | QueryPlan.IsEdge(o.bni, d, k)
      ensures QueryPlan.Number(plan, d, k) < m
    {
      BackwardEdge(q, o, d, k);
    }
    forall e | 0 <= e < m
      ensures QueryPlan.IsNumber(plan, e)
    {
      EveryNumber(q, u0, u1, m, eidx, dirToEdge, o, e);
    }
    forall d: nat, k: nat, d': nat, k': nat
      | QueryPlan.IsEdge(o.bni, d, k) && QueryPlan.IsEdge(o.bni, d', k') && QueryPlan.Number(plan, d, k) == QueryPlan.Number(plan, d', k')
      ensures d == d' && k == k'
    {
      SameNumber(q, m, eidx, dirToEdge, o, d, k, d', k');
    }
  }

  lemma EveryNumber(q: Query, u0: nat, u1: nat, m: nat, eidx: (nat, nat) -> nat, dirToEdge: nat -> nat, o: Order, e: nat)
    requires q.Valid() && Complete(q, u0, u1, o.vs) && Backwards(q, o, 0) && EdgeNumbers(q, m, eidx, dirToEdge) && e < m
    ensures QueryPlan.IsNumber(PlanOf(q, m, eidx, dirToEdge, o), e)
  {
    assert Numbers(q, eidx, dirToEdge, e);
    var x: nat, y: nat :| q.Adj(x, y) && dirToEdge(eidx(x, y)) == e;
    assert q.Adj(y, x) && x in o.vs && y in o.vs;
    var i: nat :| 0 <= i < |o.vs| && o.vs[i] == x;
    var j: nat :| 0 <= j < |o.vs| && o.vs[j] == y;
    NumberOccurs(q, m, eidx, dirToEdge, o, if i < j then i else j, if i < j then j else i);
  }

  lemma SameNumber(q: Query, m: nat, eidx: (nat, nat) -> nat, dirToEdge: nat -> nat, o: Order, d: nat, k: nat, d': nat, k': nat)
    requires q.Valid() && Distinct(o.vs) && Backwards(q, o, 0) && EdgeNumbers(q, m, eidx, dirToEdge)
    requires QueryPlan.IsEdge(o.bni, d, k) && QueryPlan.IsEdge(o.bni, d', k')
    requires var plan := PlanOf(q, m, eidx, dirToEdge, o); QueryPlan.Number(plan, d, k) == QueryPlan.Number(plan, d', k')
    ensures d == d' && k == k'
  {
    BackwardEdge(q, o, d, k);
    BackwardEdge(q, o, d', k');
    SamePlace(o.vs, o.bni[d][k], d, o.bni[d'][k'], d');
  }

  lemma BackwardEdge(q: Query, o: Order, d: nat, k: nat)
    requires Backwards(q, o, 0) && QueryPlan.IsEdge(o.bni, d, k) && q.Valid()
    ensures o.bni[d][k] < d && q.Adj(o.vs[d], o.vs[o.bni[d][k]]) && q.Adj(o.vs[o.bni[d][k]], o.vs[d])
  {
    assert o.bni[d][k] in o.bni[d];
  }

  /** Two pairs of places with the same pair of vertices are the same. */
  lemma SamePlace(vs: seq<nat>, i: nat, j: nat, i': nat, j': nat)
    requires Distinct(vs) && i < j < |vs| && i' < j' < |vs|
    requires (vs[i] == vs[i'] && vs[j] == vs[j']) || (vs[i] == vs[j'] && vs[j] == vs[i'])
    ensures i == i' && j == j'
  {
  }

  lemma NumberOccurs(q: Query, m: nat, eidx: (nat, nat) -> nat, dirToEdge: nat -> nat, o: Order, i: nat, j: nat)
    requires q.Valid() && Backwards(q, o, 0) && i < j < |o.vs| && q.Adj(o.vs[j], o.vs[i])
    requires EdgeNumbers(q, m, eidx, dirToEdge)
    ensures QueryPlan.IsNumber(PlanOf(q, m, eidx, dirToEdge, o), dirToEdge(eidx(o.vs[i], o.vs[j])))
  {
    var plan := PlanOf(q, m, eidx, dirToEdge, o);
    assert i in o.bni[j];
    var k: nat :| 0 <= k < |o.bni[j]| && o.bni[j][k] == i;
    assert QueryPlan.IsEdge(plan.bni, j, k) && QueryPlan.Number(plan, j, k) == dirToEdge(eidx(o.vs[i], o.vs[j]));
  }

  /** A suffix marked as a product of tree leaves hangs on the positions before it. */
  lemma MarkedTails(q: Query, u0: nat, u1: nat, m: nat, eidx: (nat, nat) -> nat, dirToEdge: nat -> nat, o: Order, info: seq<QueryPlan.CartesianProductType>)
    requires q.Valid() && q.Adj(u0, u1) && Complete(q, u0, u1, o.vs) && Backwards(q, o, 0)
    requires |info| == |o.vs| && info[0] == QueryPlan.None
    requires forall d :: 1 <= d < |o.vs| - 1 ==> info[d] == MarkOf(q, o.vs, d)
    requires info[|o.vs| - 1].TreeSingle? || info[|o.vs| - 1].NonTreeSingle?
    ensures PlanOf(q, m, eidx, dirToEdge, o).Valid()
    ensures QueryPlan.MarksTails(PlanOf(q, m, eidx, dirToEdge, o), info)
  {
    var plan := PlanOf(q, m, eidx, dirToEdge, o);
    PlanIsValid(q, u0, u1, m, eidx, dirToEdge, o);
    forall d, e | 2 <= d < q.N() && info[d].TreeCartesianProduct? && d <= e < q.N()
      ensures |o.bni[e]| == 1 && o.bni[e][0] < d
    {
      OneBackward(q, u0, u1, o, d, e);
    }
  }

  lemma OneBackward(q: Query, u0: nat, u1: nat, o: Order, d: nat, e: nat)
    requires q.Valid() && q.Adj(u0, u1) && Complete(q, u0, u1, o.vs) && Backwards(q, o, 0)
    requires 1 <= d <= e < |o.vs| && IndependentFrom(q, o.vs, d) && LeavesFrom(q, o.vs, d)
    ensures |o.bni[e]| == 1 && o.bni[e][0] < d
  {
    HasBackward(q, u0, u1, o, e);
    var b := o.bni[e];
    forall k | 0 <= k < |b|
      ensures b[k] < d && o.vs[b[k]] == q.nbrs[o.vs[e]][0]
    {
      BackwardEdge(q, o, e, k);
    }
    forall k | 0 <= k < |b|
      ensures b[k] == b[0]
    {
      assert o.vs[b[k]] == o.vs[b[0]];
    }
    AtMostOne(b, b[0]);
  }

  // ---- The plan of a query ----

  class Plan {
    const query: Query
    /** The query edges, each once. */
    const edges: seq<(nat, nat)>
    var indexingOrders: seq<Order>
    var globalOrder: Order
    var info: seq<QueryPlan.CartesianProductType>
    var rebuildFlags: seq<Marks>
    var rebuildVFlags: seq<set<nat>>

    ghost predicate Valid() {
      && query.Valid() && Connected(query) && query.N() >= 2
      && forall i :: 0 <= i < |edges| ==> edges[i].0 < query.N() && query.Adj(edges[i].0, edges[i].1)
    }

    /** The indexing order of edge `i` starts with it and holds every vertex. */
    ghost predicate Indexed()
      reads this
    {
      |indexingOrders| == |edges| && forall i :: 0 <= i < |edges| ==> OrderFor(edges[i], indexingOrders[i])
    }

    ghost predicate OrderFor(e: (nat, nat), o: Order) {
      Complete(query, e.0, e.1, o.vs) && Breadth(query, o.vs) && Backwards(query, o, 1) && AscendingSlices(o, 1)
    }

    /** The seed test of the search, by the two directions of the edge that the indexing order starts with, is
        the test by the number of the query edge. */
    lemma SeedsOfSearch(meta: Meta, ei: nat, idx: nat)
      requires Valid() && Indexed() && meta.Valid(query) && edges == meta.qeList && ei < |edges| && idx < meta.numDirEdges
      ensures |indexingOrders| == |edges| && |indexingOrders[ei].vs| >= 2
      ensures var vs := indexingOrders[ei].vs;
        (idx == meta.Eidx(vs[0], vs[1]) || idx == meta.Eidx(vs[1], vs[0])) <==> meta.DirToEdge(idx) == ei
    {
      assert OrderFor(edges[ei], indexingOrders[ei]);
      SeedDirections(query, meta, ei, idx);
    }

    /** Edge `i` rebuilds what lies on the paths between it and the first matched edge. */
    ghost predicate FlagsFor(i: nat, marks: Marks, vertices: set<nat>)
      requires i < |edges|
      reads this
    {
      && Indexed() && |globalOrder.vs| >= 2
      && (forall x: nat, y: nat :: (x, y) in marks <==> Rebuilt(query, edges[i].0, edges[i].1, globalOrder.vs[..2], x, y))
      && VertexFlags(query, edges[i].0, edges[i].1, globalOrder.vs[..2], indexingOrders[i], vertices, query.N())
    }

    constructor (query: Query, edges: seq<(nat, nat)>)
      ensures this.query == query && this.edges == edges
    {
      this.query, this.edges := query, edges;
      indexingOrders, globalOrder, info, rebuildFlags, rebuildVFlags := [], Order([], []), [], [], [];
    }

    method GenerateIndexingOrders()
      requires Valid()
      modifies this`indexingOrders
      ensures Indexed()
    {
      indexingOrders := [];
      for i := 0 to |edges|
        invariant |indexingOrders| == i
        invariant forall k :: 0 <= k < i ==> OrderFor(edges[k], indexingOrders[k])
      {
        var o := BuildIndexingOrder(query, edges[i].0, edges[i].1);
        indexingOrders := indexingOrders + [o];
      }
    }

    /** However the edges are numbered, the global order is a valid plan with correct marks. */
    ghost predicate Ordered(first: nat, avgDegree: (nat, nat) -> real)
      requires first < |edges|
      reads this
    {
      && Complete(query, edges[first].0, edges[first].1, globalOrder.vs) && Backwards(query, globalOrder, 0)
      && Selective(globalOrder, avgDegree)
      && (forall m, eidx, dirToEdge ::
            PlanOf(query, m, eidx, dirToEdge, globalOrder).Valid() && QueryPlan.MarksTails(PlanOf(query, m, eidx, dirToEdge, globalOrder), info))
    }

    /** Generates the global order from edge `first`. */
    method GenerateGlobalOrder(first: nat, pick: nat -> nat, avgDegree: (nat, nat) -> real)
      requires Valid() && first < |edges|
      modifies this`globalOrder, this`info
      ensures Ordered(first, avgDegree)
    {
      globalOrder := GenerateGlobalMatchingOrder(query, edges[first].0, edges[first].1, pick, avgDegree);
      info := GenerateCartesianProductInfoGlobal(query, globalOrder.vs);
      forall m, eidx, dirToEdge
        ensures PlanOf(query, m, eidx, dirToEdge, globalOrder).Valid()
        ensures QueryPlan.MarksTails(PlanOf(query, m, eidx, dirToEdge, globalOrder), info)
      {
        MarkedTails(query, edges[first].0, edges[first].1, m, eidx, dirToEdge, globalOrder, info);
      }
    }

    /** Generates the global order and, for every edge, the rebuild flags that go with it. */
    method GenerateMatchingOrders(first: nat, pick: nat -> nat, avgDegree: (nat, nat) -> real)
      requires Valid() && Indexed() && first < |edges|
      modifies this`globalOrder, this`info, this`rebuildFlags, this`rebuildVFlags
      ensures Indexed() && Ordered(first, avgDegree)
      ensures |rebuildFlags| == |rebuildVFlags| == |edges|
      ensures forall i :: 0 <= i < |edges| ==> FlagsFor(i, rebuildFlags[i], rebuildVFlags[i])
    {
      GenerateGlobalOrder(first, pick, avgDegree);
      GenerateAllFlags();
    }

    method GenerateAllFlags()
      requires Valid() && Indexed()
      requires |globalOrder.vs| >= 2 && globalOrder.vs[0] < query.N() && globalOrder.vs[1] < query.N()
      modifies this`rebuildFlags, this`rebuildVFlags
      ensures |rebuildFlags| == |rebuildVFlags| == |edges|
      ensures forall i :: 0 <= i < |edges| ==> FlagsFor(i, rebuildFlags[i], rebuildVFlags[i])
    {
      rebuildFlags, rebuildVFlags := [], [];
      for i := 0 to |edges|
        invariant |rebuildFlags| == |rebuildVFlags| == i && Indexed()
        invariant forall k :: 0 <= k < i ==> FlagsFor(k, rebuildFlags[k], rebuildVFlags[k])
      {
        var marks, vertices := GenerateFlags(i);
        rebuildFlags, rebuildVFlags := rebuildFlags + [marks], rebuildVFlags + [vertices];
      }
    }

    /** The flags of one edge; there is no error to report. */
    method GenerateFlags(i: nat) returns (marks: Marks, vertices: set<nat>)
      requires Valid() && Indexed() && i < |edges|
      requires |globalOrder.vs| >= 2 && globalOrder.vs[0] < query.N() && globalOrder.vs[1] < query.N()
      ensures FlagsFor(i, marks, vertices)
    {
      var e, starts := edges[i], globalOrder.vs[..2];
      assert OrderFor(e, indexingOrders[i]);
      marks := GenerateRebuildFlagsWithOrder(query, e.0, e.1, starts);
      var r := GenerateRebuildVFlagsWithOrder(query, e.0, e.1, starts, marks, indexingOrders[i]);
      vertices := r.vertices;
    }
  }
}
