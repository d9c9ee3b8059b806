/** Query graphs, simple paths that lead to the updated edge, and the splicing argument: a vertex on
    such a path has all its backward edges on such paths. */
module QueryPaths {
  import opened Sequences

  /** Strict neighbour lists of a simple undirected graph. */
  datatype Query = Query(nbrs: seq<seq<nat>>)
  {
    function N(): nat { |nbrs| }

    predicate Adj(u: nat, v: nat) { u < N() && v in nbrs[u] }

    ghost predicate Valid() {
      && (forall u, i :: 0 <= u < N() && 0 <= i < |nbrs[u]| ==> nbrs[u][i] < N() && nbrs[u][i] != u)
      && (forall u, i, j :: 0 <= u < N() && 0 <= i < j < |nbrs[u]| ==> nbrs[u][i] < nbrs[u][j])
      && (forall u, v :: Adj(u, v) ==> Adj(v, u))
    }
  }

  ghost predicate Linked(q: Query, p: seq<nat>) {
    forall i :: 0 < i < |p| ==> q.Adj(p[i - 1], p[i])
  }

  ghost predicate Simple(q: Query, p: seq<nat>) {
    Distinct(p) && Linked(q, p)
  }

  /** Not an end of the updated edge. */
  predicate Clear(u0: nat, u1: nat, x: nat) { x != u0 && x != u1 }

  /** A simple path that starts in `s` and, after its start, avoids the updated edge. */
  ghost predicate Open(q: Query, u0: nat, u1: nat, s: nat, p: seq<nat>) {
    |p| > 0 && p[0] == s && s < q.N() && Simple(q, p) && forall i :: 1 <= i < |p| ==> Clear(u0, u1, p[i])
  }

  /** A simple path from `s` that ends where it first touches the updated edge. */
  ghost predicate Reaches(q: Query, u0: nat, u1: nat, s: nat, p: seq<nat>) {
    && |p| > 1 && p[0] == s && s < q.N() && Simple(q, p)
    && !Clear(u0, u1, p[|p| - 1]) && forall i :: 1 <= i < |p| - 1 ==> Clear(u0, u1, p[i])
  }

  /** `x` and `y` are consecutive on `p`, in either direction. */
  ghost predicate Uses(p: seq<nat>, x: nat, y: nat) {
    exists i :: 0 < i < |p| && ((p[i - 1] == x && p[i] == y) || (p[i - 1] == y && p[i] == x))
  }

  /** Some path from a starting vertex to the updated edge uses the edge. */
  ghost predicate OnPath(q: Query, u0: nat, u1: nat, starts: seq<nat>, x: nat, y: nat) {
    exists s, p :: s in starts && Reaches(q, u0, u1, s, p) && Uses(p, x, y)
  }

  /** An order that starts with the updated edge and in which every later vertex has an earlier neighbour. */
  ghost predicate Backed(q: Query, u0: nat, u1: nat, vs: seq<nat>) {
    && |vs| >= 2 && vs[0] == u0 && vs[1] == u1 && Distinct(vs)
    && (forall i :: 0 <= i < |vs| ==> vs[i] < q.N())
    && (forall i :: 2 <= i < |vs| ==> HasEarlier(q, vs, i))
  }

  /** The vertex at place `i` has a neighbour before it. */
  ghost predicate HasEarlier(q: Query, vs: seq<nat>, i: nat)
    requires i < |vs|
  {
    exists k :: 0 <= k < i && q.Adj(vs[i], vs[k])
  }

  /** A simple path over cleared vertices to the updated edge. */
  ghost predicate Way(q: Query, u0: nat, u1: nat, way: seq<nat>) {
    && |way| > 0 && Simple(q, way)
    && !Clear(u0, u1, way[|way| - 1]) && forall k :: 0 <= k < |way| - 1 ==> Clear(u0, u1, way[k])
  }

  /** Two simple paths without common vertices, joined by an edge. */
  lemma Join(q: Query, a: seq<nat>, b: seq<nat>)
    requires Simple(q, a) && Simple(q, b)
    requires forall i, j :: 0 <= i < |a| && 0 <= j < |b| ==> a[i] != b[j]
    requires a != [] && b != [] ==> q.Adj(a[|a| - 1], b[0])
    ensures Simple(q, a + b)
  {
  }

  lemma Prepend(q: Query, u0: nat, u1: nat, v: nat, way: seq<nat>)
    requires Way(q, u0, u1, way) && Clear(u0, u1, v) && q.Adj(v, way[0]) && v !in way
    ensures Way(q, u0, u1, [v] + way)
  {
    assert forall j :: 0 <= j < |way| ==> way[j] in way;
    Join(q, [v], way);
    assert forall j :: 1 <= j < |way| + 1 ==> ([v] + way)[j] == way[j - 1];
  }

  /** From every vertex of the order a path over earlier vertices leads to the updated edge. */
  lemma {:induction false} WayBack(q: Query, u0: nat, u1: nat, vs: seq<nat>, i: nat) returns (way: seq<nat>)
    requires q.Valid() && Backed(q, u0, u1, vs) && i < |vs|
    ensures Way(q, u0, u1, way) && way[0] == vs[i]
    ensures forall j :: i < j < |vs| ==> vs[j] !in way
    decreases i
  {
    if i < 2 {
      way := [vs[i]];
    } else {
      assert HasEarlier(q, vs, i);
      var k: nat :| 0 <= k < i && q.Adj(vs[i], vs[k]);
      var rest := WayBack(q, u0, u1, vs, k);
      way := [vs[i]] + rest;
      assert vs[i] !in rest;
      Prepend(q, u0, u1, vs[i], rest);
    }
  }

  /** The first vertex of `way` that lies on `p`, if any: its places on both. */
  lemma {:induction false} FirstMeeting(way: seq<nat>, p: seq<nat>) returns (z: nat, at: nat)
    ensures z <= |way|
    ensures forall k :: 0 <= k < z ==> way[k] !in p
    ensures z < |way| ==> at < |p| && p[at] == way[z]
    decreases |way|
  {
    if way == [] {
      z, at := 0, 0;
    } else if way[0] in p {
      z := 0;
      at :| 0 <= at < |p| && p[at] == way[0];
    } else {
      z, at := FirstMeeting(way[1..], p);
      z := z + 1;
      assert forall k :: 1 <= k < z ==> way[k] == way[1..][k - 1];
    }
  }

  function Reversed(p: seq<nat>): (r: seq<nat>)
    ensures |r| == |p| && forall i :: 0 <= i < |p| ==> r[i] == p[|p| - 1 - i]
  {
    seq(|p|, (i: nat) requires i < |p| => p[|p| - 1 - i])
  }

  lemma ReversedSimple(q: Query, p: seq<nat>)
    requires q.Valid() && Simple(q, p)
    ensures Simple(q, Reversed(p))
  {
    var r := Reversed(p);
    forall i | 0 < i < |r|
      ensures q.Adj(r[i - 1], r[i])
    {
      assert q.Adj(p[|p| - 1 - i], p[|p| - i]);
    }
  }

  lemma PartSimple(q: Query, p: seq<nat>, i: nat, j: nat)
    requires Simple(q, p) && i <= j <= |p|
    ensures Simple(q, p[i..j])
  {
    var r := p[i..j];
    forall k | 0 < k < |r|
      ensures q.Adj(r[k - 1], r[k])
    {
      assert q.Adj(p[i + k - 1], p[i + k]);
    }
  }

  /** What splicing needs: `p` reaches the updated edge from `s` and passes the cleared vertex `w` at
      place `j`; `way` leads there from `w`'s neighbour `way[0]` and avoids `w`. */
  ghost predicate Spliceable(q: Query, u0: nat, u1: nat, s: nat, p: seq<nat>, j: nat, way: seq<nat>) {
    && q.Valid() && Reaches(q, u0, u1, s, p) && j < |p| && Clear(u0, u1, p[j])
    && Way(q, u0, u1, way) && q.Adj(p[j], way[0]) && p[j] !in way
  }

  /** `way` does not meet `p`: leave `p` at `w`. */
  lemma SpliceApart(q: Query, u0: nat, u1: nat, s: nat, p: seq<nat>, j: nat, way: seq<nat>) returns (r: seq<nat>)
    requires Spliceable(q, u0, u1, s, p, j, way)
    requires forall k :: 0 <= k < |way| ==> way[k] !in p
    ensures Reaches(q, u0, u1, s, r) && Uses(r, p[j], way[0])
  {
    var a := p[..j + 1];
    r := a + way;
    PartSimple(q, p, 0, j + 1);
    assert p[0..j + 1] == a;
    forall i, k | 0 <= i < |a| && 0 <= k < |way|
      ensures a[i] != way[k]
    {
      assert p[i] in p;
    }
    Join(q, a, way);
    assert r[j] == p[j] && r[j + 1] == way[0];
  }

  /** `way` meets `p` behind `w`: take it as a detour. */
  lemma SpliceBehind(q: Query, u0: nat, u1: nat, s: nat, p: seq<nat>, j: nat, way: seq<nat>, z: nat, at: nat) returns (r: seq<nat>)
    requires Spliceable(q, u0, u1, s, p, j, way)
    requires z < |way| && j < at < |p| && p[at] == way[z] && forall k :: 0 <= k < z ==> way[k] !in p
    ensures Reaches(q, u0, u1, s, r) && Uses(r, p[j], way[0])
  {
    var a, m, b := p[..j + 1], way[..z + 1], p[at + 1..];
    DetourSimple(q, p, j, way, z, at);
    r := a + m + b;
    assert r[j] == p[j] && r[j + 1] == way[0];
    assert forall i :: 0 <= i <= j ==> r[i] == p[i];
    assert forall i :: j < i <= j + 1 + z ==> r[i] == way[i - j - 1];
    assert forall i :: j + 1 + z < i < |r| ==> r[i] == p[i - j - 1 - z + at];
    DetourClear(u0, u1, p, j, way, z, at, r);
  }

  lemma DetourClear(u0: nat, u1: nat, p: seq<nat>, j: nat, way: seq<nat>, z: nat, at: nat, r: seq<nat>)
    requires z < |way| && j < at < |p| && |r| == j + 1 + z + 1 + |p| - at - 1 && p[at] == way[z]
    requires forall i :: 0 <= i <= j ==> r[i] == p[i]
    requires forall i :: j < i <= j + 1 + z ==> r[i] == way[i - j - 1]
    requires forall i :: j + 1 + z < i < |r| ==> r[i] == p[i - j - 1 - z + at]
    requires forall i :: 1 <= i < |p| - 1 ==> Clear(u0, u1, p[i])
    requires forall k :: 0 <= k < |way| - 1 ==> Clear(u0, u1, way[k])
    ensures forall i :: 1 <= i < |r| - 1 ==> Clear(u0, u1, r[i])
    ensures r[0] == p[0] && r[|r| - 1] == p[|p| - 1]
  {
    forall i | 1 <= i < |r| - 1
      ensures Clear(u0, u1, r[i])
    {
      if i <= j {
      } else if i <= j + 1 + z {
        if i == j + 1 + z { assert r[i] == p[at]; }
      } else {
        var t := i - j - 1 - z + at;
        assert 1 <= t < |p| - 1 && r[i] == p[t];
      }
    }
  }

  lemma DetourSimple(q: Query, p: seq<nat>, j: nat, way: seq<nat>, z: nat, at: nat)
    requires q.Valid() && Simple(q, p) && Simple(q, way) && z < |way| && j < at < |p| && p[at] == way[z]
    requires q.Adj(p[j], way[0]) && forall k :: 0 <= k < z ==> way[k] !in p
    ensures Simple(q, p[..j + 1] + way[..z + 1] + p[at + 1..])
  {
    var a, m, b := p[..j + 1], way[..z + 1], p[at + 1..];
    PartSimple(q, p, 0, j + 1);
    PartSimple(q, way, 0, z + 1);
    PartSimple(q, p, at + 1, |p|);
    assert p[0..j + 1] == a && way[0..z + 1] == m && p[at + 1..|p|] == b;
    OffPath(p, way, z, at);
    assert a[|a| - 1] == p[j] && m[0] == way[0];
    Join(q, a, m);
    assert (a + m)[|a + m| - 1] == p[at];
    if b != [] { assert b[0] == p[at + 1] && q.Adj(p[at], p[at + 1]); }
    ApartFrom(a, m, b, p, way, j, z, at);
    Join(q, a + m, b);
  }

  /** The rest of the path shares no vertex with what comes before. */
  lemma ApartFrom(a: seq<nat>, m: seq<nat>, b: seq<nat>, p: seq<nat>, way: seq<nat>, j: nat, z: nat, at: nat)
    requires Distinct(p) && z < |way| && j < at < |p| && a == p[..j + 1] && m == way[..z + 1] && b == p[at + 1..]
    requires forall i, k :: 0 <= i < |p| && i != at && 0 <= k <= z ==> p[i] != way[k]
    ensures forall i, k :: 0 <= i < |a + m| && 0 <= k < |b| ==> (a + m)[i] != b[k]
  {
    forall i, k | 0 <= i < |a + m| && 0 <= k < |b|
      ensures (a + m)[i] != b[k]
    {
      assert b[k] == p[at + 1 + k];
      if i < |a| { assert (a + m)[i] == p[i]; } else { assert (a + m)[i] == way[i - |a|]; }
    }
  }

  /** Up to its first meeting with `p`, `way` shares only that vertex with it. */
  lemma OffPath(p: seq<nat>, way: seq<nat>, z: nat, at: nat)
    requires Distinct(p) && z < |way| && at < |p| && p[at] == way[z] && forall k :: 0 <= k < z ==> way[k] !in p
    ensures forall i, k :: 0 <= i < |p| && i != at && 0 <= k <= z ==> p[i] != way[k]
  {
    forall i, k | 0 <= i < |p| && i != at && 0 <= k <= z
      ensures p[i] != way[k]
    {
      assert p[i] in p;
    }
  }

  /** `way` meets `p` before `w`: take it backwards. */
  lemma SpliceBefore(q: Query, u0: nat, u1: nat, s: nat, p: seq<nat>, j: nat, way: seq<nat>, z: nat, at: nat) returns (r: seq<nat>)
    requires Spliceable(q, u0, u1, s, p, j, way)
    requires z < |way| && at < j && p[at] == way[z] && forall k :: 0 <= k < z ==> way[k] !in p
    ensures Reaches(q, u0, u1, s, r) && Uses(r, p[j], way[0])
  {
    var a, m, b := p[..at], Reversed(way[..z + 1]), p[j..];
    ReturnSimple(q, p, j, way, z, at);
    r := a + m + b;
    assert r[at + z] == way[0] && r[at + z + 1] == p[j];
    assert forall i :: 0 <= i < at ==> r[i] == p[i];
    assert forall i :: at <= i <= at + z ==> r[i] == way[at + z - i];
    assert forall i :: at + z < i < |r| ==> r[i] == p[i - at - z - 1 + j];
    ReturnClear(u0, u1, p, j, way, z, at, r);
  }

  lemma ReturnClear(u0: nat, u1: nat, p: seq<nat>, j: nat, way: seq<nat>, z: nat, at: nat, r: seq<nat>)
    requires z < |way| && at < j < |p| && |r| == at + z + 1 + |p| - j && p[at] == way[z]
    requires forall i :: 0 <= i < at ==> r[i] == p[i]
    requires forall i :: at <= i <= at + z ==> r[i] == way[at + z - i]
    requires forall i :: at + z < i < |r| ==> r[i] == p[i - at - z - 1 + j]
    requires forall i :: 1 <= i < |p| - 1 ==> Clear(u0, u1, p[i])
    requires forall k :: 0 <= k < |way| - 1 ==> Clear(u0, u1, way[k])
    ensures forall i :: 1 <= i < |r| - 1 ==> Clear(u0, u1, r[i])
    ensures r[0] == p[0] && r[|r| - 1] == p[|p| - 1]
  {
    forall i | 1 <= i < |r| - 1
      ensures Clear(u0, u1, r[i])
    {
      if i < at {
      } else if i <= at + z {
        if i == at { assert r[i] == p[at]; }
      } else {
        var t := i - at - z - 1 + j;
        assert 1 <= t < |p| - 1 && r[i] == p[t];
      }
    }
  }

  lemma ReturnSimple(q: Query, p: seq<nat>, j: nat, way: seq<nat>, z: nat, at: nat)
    requires q.Valid() && Simple(q, p) && Simple(q, way) && z < |way| && at < j < |p| && p[at] == way[z]
    requires q.Adj(p[j], way[0]) && forall k :: 0 <= k < z ==> way[k] !in p
    ensures Simple(q, p[..at] + Reversed(way[..z + 1]) + p[j..])
  {
    var a, m, b := p[..at], Reversed(way[..z + 1]), p[j..];
    PartSimple(q, p, 0, at);
    PartSimple(q, way, 0, z + 1);
    PartSimple(q, p, j, |p|);
    assert p[0..at] == a && way[0..z + 1] == way[..z + 1] && p[j..|p|] == b;
    ReversedSimple(q, way[..z + 1]);
    OffPath(p, way, z, at);
    assert a != [] ==> q.Adj(p[at - 1], p[at]);
    Join(q, a, m);
    Join(q, a + m, b);
  }

  /** Splicing: a vertex behind the updated edge that lies on a path to it has every backward edge
      on such a path, from the same start. */
  lemma Splice(q: Query, u0: nat, u1: nat, vs: seq<nat>, s: nat, p: seq<nat>, i: nat, k: nat) returns (r: seq<nat>)
    requires q.Valid() && Backed(q, u0, u1, vs) && Reaches(q, u0, u1, s, p)
    requires 2 <= i < |vs| && k < i && q.Adj(vs[i], vs[k]) && vs[i] in p
    ensures Reaches(q, u0, u1, s, r) && Uses(r, vs[i], vs[k])
  {
    var j: nat :| 0 <= j < |p| && p[j] == vs[i];
    var way := WayBack(q, u0, u1, vs, k);
    var z, at := FirstMeeting(way, p);
    if z == |way| {
      r := SpliceApart(q, u0, u1, s, p, j, way);
    } else if at > j {
      r := SpliceBehind(q, u0, u1, s, p, j, way, z, at);
    } else {
      assert way[z] in way;
      r := SpliceBefore(q, u0, u1, s, p, j, way, z, at);
    }
  }

  /** An edge that the index construction has to rebuild. */
  ghost predicate Rebuilt(q: Query, u0: nat, u1: nat, starts: seq<nat>, x: nat, y: nat) {
    (x == u0 && y == u1) || (x == u1 && y == u0) || OnPath(q, u0, u1, starts, x, y)
  }

  /** The backward edges of a vertex are all rebuilt or all not. */
  lemma AllOrNone(q: Query, u0: nat, u1: nat, starts: seq<nat>, vs: seq<nat>, i: nat, k: nat, k': nat)
    requires q.Valid() && Backed(q, u0, u1, vs)
    requires 1 <= i < |vs| && k < i && k' < i && q.Adj(vs[i], vs[k]) && q.Adj(vs[i], vs[k'])
    requires Rebuilt(q, u0, u1, starts, vs[k], vs[i])
    ensures Rebuilt(q, u0, u1, starts, vs[k'], vs[i])
  {
    if i > 1 {
      var s, p :| s in starts && Reaches(q, u0, u1, s, p) && Uses(p, vs[k], vs[i]);
      var r := Splice(q, u0, u1, vs, s, p, i, k');
      assert Uses(r, vs[k'], vs[i]);
    }
  }
}
