/** Breadth-first orders of a query: each vertex comes when the first of its neighbours in the order is dealt with, and
    the neighbours of one vertex come in the order of their numbers.  There is only one such order from an edge. */
module BreadthFirst {
  import opened Sequences
  import opened QueryPaths

  /** The first place before `j`, from `k` on, with a neighbour of the vertex at `j`; `j` itself if there is none. */
  function First(q: Query, vs: seq<nat>, j: nat, k: nat): (r: nat)
    requires k <= j < |vs|
    ensures k <= r <= j && (r < j ==> q.Adj(vs[r], vs[j])) && forall i :: k <= i < r ==> !q.Adj(vs[i], vs[j])
    decreases j - k
  {
    if k == j || q.Adj(vs[k], vs[j]) then k else First(q, vs, j, k + 1)
  }

  /** Later vertices have later first neighbours, or the same one and a larger number. */
  ghost predicate InTurn(q: Query, vs: seq<nat>, i: nat, j: nat)
    requires i < j < |vs|
  {
    First(q, vs, i, 0) < First(q, vs, j, 0) || (First(q, vs, i, 0) == First(q, vs, j, 0) && vs[i] < vs[j])
  }

  ghost predicate Breadth(q: Query, vs: seq<nat>) {
    forall i, j :: 2 <= i < j < |vs| ==> InTurn(q, vs, i, j)
  }

  // ---- The search ----

  /** The vertices before place `c` have been dealt with, and at place `c` the neighbours below `x`. */
  ghost predicate Searched(q: Query, vs: seq<nat>, c: nat, x: nat) {
    && (forall p, v: nat :: 0 <= p < c && p < |vs| && q.Adj(vs[p], v) ==> v in vs)
    && (c < |vs| ==> forall v: nat :: v < x && q.Adj(vs[c], v) ==> v in vs)
    && (forall j :: 2 <= j < |vs| ==> Reached(q, vs, c, x, j))
    && Breadth(q, vs)
  }

  ghost predicate Reached(q: Query, vs: seq<nat>, c: nat, x: nat, j: nat)
    requires j < |vs|
  {
    First(q, vs, j, 0) < c || (First(q, vs, j, 0) == c && vs[j] < x)
  }

  lemma NotSearched(q: Query, u0: nat, u1: nat)
    ensures Searched(q, [u0, u1], 0, 0)
  {
  }

  lemma SameFirst(q: Query, vs: seq<nat>, v: nat, j: nat)
    requires j < |vs|
    ensures First(q, vs + [v], j, 0) == First(q, vs, j, 0)
  {
    var ws := vs + [v];
    assert ws[j] == vs[j];
    var r, r' := First(q, vs, j, 0), First(q, ws, j, 0);
    assert r < j ==> ws[r] == vs[r];
    assert r' < j ==> ws[r'] == vs[r'];
  }

  /** The next neighbour of the vertex at place `c`, if it is new, is appended. */
  lemma SearchedMore(q: Query, vs: seq<nat>, c: nat, v: nat)
    requires q.Valid() && Searched(q, vs, c, v) && c < |vs| && q.Adj(vs[c], v) && v !in vs
    ensures Searched(q, vs + [v], c, v + 1)
  {
    var ws := vs + [v];
    NewFirst(q, vs, c, v);
    forall j | 0 <= j < |vs|
      ensures First(q, ws, j, 0) == First(q, vs, j, 0)
    {
      SameFirst(q, vs, v, j);
    }
    forall i, j | 2 <= i < j < |ws|
      ensures InTurn(q, ws, i, j)
    {
      if j < |vs| { assert InTurn(q, vs, i, j); } else { assert Reached(q, vs, c, v, i); }
    }
    var x := v + 1;
    forall j | 2 <= j < |ws|
      ensures Reached(q, ws, c, x, j)
    {
      if j < |vs| { assert Reached(q, vs, c, v, j); }
    }
  }

  lemma NewFirst(q: Query, vs: seq<nat>, c: nat, v: nat)
    requires c < |vs| && q.Adj(vs[c], v) && v !in vs && forall p, y: nat :: 0 <= p < c && q.Adj(vs[p], y) ==> y in vs
    ensures First(q, vs + [v], |vs|, 0) == c
  {
    var ws := vs + [v];
    assert ws[c] == vs[c] && ws[|vs|] == v;
    forall p | 0 <= p < c
      ensures !q.Adj(ws[p], v)
    {
      assert ws[p] == vs[p];
    }
  }

  /** A neighbour that is there already is passed over. */
  lemma SearchedPast(q: Query, vs: seq<nat>, c: nat, x: nat, x': nat)
    requires Searched(q, vs, c, x) && x <= x' && c < |vs|
    requires forall v: nat :: x <= v < x' && q.Adj(vs[c], v) ==> v in vs
    ensures Searched(q, vs, c, x')
  {
    forall j | 2 <= j < |vs|
      ensures Reached(q, vs, c, x', j)
    {
      assert Reached(q, vs, c, x, j);
    }
  }

  /** When all neighbours have been met the next place is dealt with. */
  lemma SearchedOn(q: Query, vs: seq<nat>, c: nat)
    requires q.Valid() && Searched(q, vs, c, q.N()) && c < |vs|
    ensures Searched(q, vs, c + 1, 0)
  {
    forall v: nat | q.Adj(vs[c], v)
      ensures v in vs
    {
      assert v < q.N();
    }
    var d := c + 1;
    forall j | 2 <= j < |vs|
      ensures Reached(q, vs, d, 0, j)
    {
      assert Reached(q, vs, c, q.N(), j);
    }
  }

  // ---- What the order is ----

  lemma FirstIsEarlier(q: Query, u0: nat, u1: nat, vs: seq<nat>, j: nat)
    requires q.Valid() && Backed(q, u0, u1, vs) && 2 <= j < |vs|
    ensures First(q, vs, j, 0) < j
  {
    assert HasEarlier(q, vs, j);
    var k :| 0 <= k < j && q.Adj(vs[j], vs[k]);
    assert q.Adj(vs[k], vs[j]);
  }

  /** There is only one breadth-first order from an edge. */
  lemma {:induction false} OnlyOrder(q: Query, u0: nat, u1: nat, vs: seq<nat>, ws: seq<nat>, n: nat)
    requires q.Valid() && Backed(q, u0, u1, vs) && Breadth(q, vs) && Backed(q, u0, u1, ws) && Breadth(q, ws)
    requires 2 <= n <= |vs| == |ws| && (forall v :: v in vs <==> v in ws)
    ensures vs[..n] == ws[..n]
    decreases n
  {
    if n == 2 {
      assert vs[..2] == [u0, u1] == ws[..2];
    } else {
      OnlyOrder(q, u0, u1, vs, ws, n - 1);
      var j := n - 1;
      if vs[j] != ws[j] {
        ComesLater(q, u0, u1, vs, ws, j);
        ComesLater(q, u0, u1, ws, vs, j);
        assert false;
      }
      assert vs[..n] == vs[..j] + [vs[j]] && ws[..n] == ws[..j] + [ws[j]];
    }
  }

  /** Where two orders part, the vertex of the other one comes later and so has its turn later. */
  lemma ComesLater(q: Query, u0: nat, u1: nat, vs: seq<nat>, ws: seq<nat>, j: nat)
    requires q.Valid() && Backed(q, u0, u1, vs) && Breadth(q, vs) && Backed(q, u0, u1, ws)
    requires 2 <= j < |vs| == |ws| && vs[..j] == ws[..j] && vs[j] != ws[j] && forall v :: v in ws ==> v in vs
    ensures First(q, vs, j, 0) < First(q, ws, j, 0) || (First(q, vs, j, 0) == First(q, ws, j, 0) && vs[j] < ws[j])
  {
    assert ws[j] in vs;
    var m :| 0 <= m < |vs| && vs[m] == ws[j];
    assert forall i :: 0 <= i < j ==> vs[i] == vs[..j][i] == ws[..j][i] == ws[i];
    assert m > j;
    FirstIsEarlier(q, u0, u1, ws, j);
    var r := First(q, ws, j, 0);
    assert First(q, vs, m, 0) == r by { assert q.Adj(vs[r], vs[m]); }
    assert InTurn(q, vs, j, m);
  }

  /** The path leads from the starting edge to place `j`. */
  ghost predicate Leads(q: Query, vs: seq<nat>, p: seq<nat>, j: nat) {
    |vs| >= 2 && j < |vs| && |p| > 0 && Linked(q, p) && (p[0] == vs[0] || p[0] == vs[1]) && p[|p| - 1] == vs[j]
  }

  /** The number of steps from the starting edge along first neighbours. */
  function Depth(q: Query, vs: seq<nat>, j: nat): nat
    requires j < |vs|
  {
    if j < 2 || First(q, vs, j, 0) == j then 0 else 1 + Depth(q, vs, First(q, vs, j, 0))
  }

  lemma {:induction false} DepthPath(q: Query, u0: nat, u1: nat, vs: seq<nat>, j: nat) returns (p: seq<nat>)
    requires q.Valid() && Backed(q, u0, u1, vs) && j < |vs|
    ensures Leads(q, vs, p, j) && |p| == Depth(q, vs, j) + 1
    decreases j
  {
    if j < 2 {
      p := [vs[j]];
    } else {
      FirstIsEarlier(q, u0, u1, vs, j);
      p := DepthPath(q, u0, u1, vs, First(q, vs, j, 0));
      p := p + [vs[j]];
    }
  }

  lemma {:induction false} DepthAscends(q: Query, u0: nat, u1: nat, vs: seq<nat>, i: nat, j: nat)
    requires q.Valid() && Backed(q, u0, u1, vs) && Breadth(q, vs) && i <= j < |vs|
    ensures Depth(q, vs, i) <= Depth(q, vs, j)
    decreases j
  {
    if 2 <= i < j {
      FirstIsEarlier(q, u0, u1, vs, i);
      FirstIsEarlier(q, u0, u1, vs, j);
      assert InTurn(q, vs, i, j);
      DepthAscends(q, u0, u1, vs, First(q, vs, i, 0), First(q, vs, j, 0));
    }
  }

  /** No path is shorter than the depth. */
  lemma {:induction false} DepthIsLeast(q: Query, u0: nat, u1: nat, vs: seq<nat>, p: seq<nat>, j: nat)
    requires q.Valid() && Backed(q, u0, u1, vs) && Breadth(q, vs) && (forall v :: 0 <= v < q.N() ==> v in vs) && Leads(q, vs, p, j)
    ensures Depth(q, vs, j) < |p|
    decreases |p|
  {
    if j >= 2 {
      FirstIsEarlier(q, u0, u1, vs, j);
      assert |p| > 1;
      var w := p[|p| - 2];
      assert q.Adj(w, vs[j]);
      assert w in vs;
      var m :| 0 <= m < |vs| && vs[m] == w;
      DepthIsLeast(q, u0, u1, vs, p[..|p| - 1], m);
      if m < j {
        DepthAscends(q, u0, u1, vs, First(q, vs, j, 0), m);
      } else {
        DepthAscends(q, u0, u1, vs, j, m);
      }
    }
  }

  /** The distances from the starting edge never fall along the order. */
  lemma DistancesAscend(q: Query, u0: nat, u1: nat, vs: seq<nat>, i: nat, j: nat, p: seq<nat>) returns (p': seq<nat>)
    requires q.Valid() && Backed(q, u0, u1, vs) && Breadth(q, vs) && (forall v :: 0 <= v < q.N() ==> v in vs)
    requires i <= j && Leads(q, vs, p, j)
    ensures Leads(q, vs, p', i) && |p'| <= |p|
  {
    DepthIsLeast(q, u0, u1, vs, p, j);
    DepthAscends(q, u0, u1, vs, i, j);
    p' := DepthPath(q, u0, u1, vs, i);
  }
}
