/** The numbers of the query edges: directed edges in adjacency order, undirected edges by their smaller end,
    and the table that leads from the one to the other. */
module QueryMeta {
  import opened Sequences
  import opened QueryPaths
  import Graphs

  /** What the tables hold where no edge is. */
  const NO_EDGE: nat := 255

  datatype Meta = Meta(eidx: map<(nat, nat), nat>, numDirEdges: nat, qeList: seq<(nat, nat)>, dirToEdge: seq<nat>)
  {
    function Eidx(u: nat, w: nat): nat { if (u, w) in eidx then eidx[(u, w)] else NO_EDGE }

    function DirToEdge(idx: nat): nat { if idx < |dirToEdge| then dirToEdge[idx] else NO_EDGE }

    /** The directed edges are numbered one to one, the undirected ones are listed once, and the table is right. */
    ghost predicate Valid(q: Query) {
      && AllNumbered(q, eidx) && NumberedTo(eidx, numDirEdges)
      && AllListed(q, qeList) && Distinct(qeList)
      && |dirToEdge| == numDirEdges && Directed(eidx, qeList, dirToEdge, |qeList|)
    }
  }

  ghost predicate AllNumbered(q: Query, eidx: map<(nat, nat), nat>) {
    forall u: nat, w: nat :: (u, w) in eidx <==> q.Adj(u, w)
  }

  /** The list holds each edge from its smaller end. */
  ghost predicate AllListed(q: Query, qeList: seq<(nat, nat)>) {
    forall e: (nat, nat) :: e in qeList <==> q.Adj(e.0, e.1) && e.0 <= e.1
  }

  /** The values are the numbers below `pos`, each once. */
  ghost predicate NumberedTo(eidx: map<(nat, nat), nat>, pos: nat) {
    && (forall k :: k in eidx ==> eidx[k] < pos)
    && (forall k, k' :: k in eidx && k' in eidx && eidx[k] == eidx[k'] ==> k == k')
    && (forall p :: 0 <= p < pos ==> HasNumber(eidx, p))
  }

  ghost predicate HasNumber(eidx: map<(nat, nat), nat>, p: nat) {
    exists k :: k in eidx && eidx[k] == p
  }

  lemma NumberMore(eidx: map<(nat, nat), nat>, pos: nat, k: (nat, nat))
    requires NumberedTo(eidx, pos) && k !in eidx
    ensures NumberedTo(eidx[k := pos], pos + 1)
  {
    var more := eidx[k := pos];
    forall p | 0 <= p < pos + 1
      ensures HasNumber(more, p)
    {
      if p < pos {
        assert HasNumber(eidx, p);
        var h :| h in eidx && eidx[h] == p;
        assert more[h] == p;
      } else {
        assert more[k] == p;
      }
    }
  }

  /** The directed edge `(x, y)` comes before the `j`-th one of `u`. */
  predicate Before(q: Query, u: nat, j: nat, x: nat, y: nat)
    requires u < q.N() ==> j <= |q.nbrs[u]|
  {
    (x < u && q.Adj(x, y)) || (x == u < q.N() && y in q.nbrs[u][..j])
  }

  ghost predicate NumberedBefore(q: Query, eidx: map<(nat, nat), nat>, u: nat, j: nat)
    requires u < q.N() ==> j <= |q.nbrs[u]|
  {
    forall x: nat, y: nat :: (x, y) in eidx <==> Before(q, u, j, x, y)
  }

  ghost predicate ListedBefore(q: Query, qeList: seq<(nat, nat)>, u: nat, j: nat)
    requires u < q.N() ==> j <= |q.nbrs[u]|
  {
    forall e: (nat, nat) :: e in qeList <==> Before(q, u, j, e.0, e.1) && e.0 <= e.1
  }

  lemma BeforeNext(q: Query, u: nat, j: nat)
    requires q.Valid() && u < q.N() && j < |q.nbrs[u]|
    ensures forall x: nat, y: nat :: Before(q, u, j + 1, x, y) <==> Before(q, u, j, x, y) || (x, y) == (u, q.nbrs[u][j])
    ensures !Before(q, u, j, u, q.nbrs[u][j])
  {
    assert q.nbrs[u][..j + 1] == q.nbrs[u][..j] + [q.nbrs[u][j]];
  }

  lemma BeforeRow(q: Query, u: nat)
    requires u < q.N()
    ensures forall x: nat, y: nat :: Before(q, u + 1, 0, x, y) <==> Before(q, u, |q.nbrs[u]|, x, y)
  {
    assert q.nbrs[u][..|q.nbrs[u]|] == q.nbrs[u];
  }

  predicate Earlier(a: (nat, nat), b: (nat, nat)) { a.0 < b.0 || (a.0 == b.0 && a.1 < b.1) }

  /** The numbers follow the order of the edges, by their first ends and then by their second ones. */
  ghost predicate InOrder(eidx: map<(nat, nat), nat>) {
    forall k, k' :: k in eidx && k' in eidx && Earlier(k, k') ==> eidx[k] < eidx[k']
  }

  ghost predicate ListInOrder(qeList: seq<(nat, nat)>) {
    forall i, j :: 0 <= i < j < |qeList| ==> Earlier(qeList[i], qeList[j])
  }

  lemma BeforeIsEarlier(q: Query, u: nat, j: nat, x: nat, y: nat)
    requires q.Valid() && u < q.N() && j < |q.nbrs[u]| && Before(q, u, j, x, y)
    ensures Earlier((x, y), (u, q.nbrs[u][j]))
  {
  }

  lemma NumberInOrder(q: Query, eidx: map<(nat, nat), nat>, pos: nat, u: nat, j: nat)
    requires q.Valid() && u < q.N() && j < |q.nbrs[u]|
    requires NumberedTo(eidx, pos) && NumberedBefore(q, eidx, u, j) && InOrder(eidx)
    ensures InOrder(eidx[(u, q.nbrs[u][j]) := pos])
  {
    forall k | k in eidx
      ensures Earlier(k, (u, q.nbrs[u][j])) && eidx[k] < pos
    {
      assert (k.0, k.1) in eidx;
      BeforeIsEarlier(q, u, j, k.0, k.1);
    }
  }

  lemma ListOneInOrder(q: Query, qeList: seq<(nat, nat)>, u: nat, j: nat)
    requires q.Valid() && u < q.N() && j < |q.nbrs[u]| && ListedBefore(q, qeList, u, j) && ListInOrder(qeList)
    ensures ListInOrder(qeList + [(u, q.nbrs[u][j])])
  {
    forall i | 0 <= i < |qeList|
      ensures Earlier(qeList[i], (u, q.nbrs[u][j]))
    {
      assert qeList[i] in qeList;
      BeforeIsEarlier(q, u, j, qeList[i].0, qeList[i].1);
    }
  }

  /** Numbers the directed edges, lists the undirected ones, and makes the table. */
  method SetQueryMeta(q: Query) returns (meta: Meta)
    requires q.Valid()
    ensures meta.Valid(q) && InOrder(meta.eidx) && ListInOrder(meta.qeList)
  {
    var eidx, pos := NumberEdges(q);
    var qeList := ListEdges(q);
    var dirToEdge := BuildDirToEdge(q, eidx, pos, qeList);
    meta := Meta(eidx, pos, qeList, dirToEdge);
  }

  method NumberEdges(q: Query) returns (eidx: map<(nat, nat), nat>, pos: nat)
    requires q.Valid()
    ensures AllNumbered(q, eidx) && NumberedTo(eidx, pos) && InOrder(eidx)
  {
    hide NumberedTo, InOrder;
    NothingNumbered();
    eidx, pos := map[], 0;
    for u := 0 to q.N()
      invariant NumberedTo(eidx, pos) && NumberedBefore(q, eidx, u, 0) && InOrder(eidx)
    {
      for j := 0 to |q.nbrs[u]|
        invariant NumberedTo(eidx, pos) && NumberedBefore(q, eidx, u, j) && InOrder(eidx)
      {
        BeforeNext(q, u, j);
        NumberInOrder(q, eidx, pos, u, j);
        NumberMore(eidx, pos, (u, q.nbrs[u][j]));
        eidx := eidx[(u, q.nbrs[u][j]) := pos];
        pos := pos + 1;
      }
      BeforeRow(q, u);
    }
  }

  lemma NothingNumbered()
    ensures NumberedTo(map[], 0) && InOrder(map[])
  {
  }

  method ListEdges(q: Query) returns (qeList: seq<(nat, nat)>)
    requires q.Valid()
    ensures AllListed(q, qeList) && Distinct(qeList) && ListInOrder(qeList)
  {
    hide ListInOrder;
    qeList := [];
    NothingListed();
    for u := 0 to q.N()
      invariant Distinct(qeList) && ListedBefore(q, qeList, u, 0) && ListInOrder(qeList)
    {
      for j := 0 to |q.nbrs[u]|
        invariant Distinct(qeList) && ListedBefore(q, qeList, u, j) && ListInOrder(qeList)
      {
        BeforeNext(q, u, j);
        var uu := q.nbrs[u][j];
        if u > uu { continue; }
        assert (u, uu) !in qeList;
        ListOneInOrder(q, qeList, u, j);
        qeList := qeList + [(u, uu)];
      }
      BeforeRow(q, u);
    }
  }

  lemma NothingListed()
    ensures ListInOrder([])
  {
  }

  /** The first `top` undirected edges are entered under the numbers of their two directions. */
  ghost predicate Directed(eidx: map<(nat, nat), nat>, qeList: seq<(nat, nat)>, dirToEdge: seq<nat>, top: nat)
    requires top <= |qeList|
  {
    forall e :: 0 <= e < top ==> EnteredAt(eidx, dirToEdge, qeList[e].0, qeList[e].1, e) && EnteredAt(eidx, dirToEdge, qeList[e].1, qeList[e].0, e)
  }

  ghost predicate EnteredAt(eidx: map<(nat, nat), nat>, dirToEdge: seq<nat>, x: nat, y: nat, e: nat) {
    (x, y) in eidx && eidx[(x, y)] < |dirToEdge| && dirToEdge[eidx[(x, y)]] == e
  }

  method BuildDirToEdge(q: Query, eidx: map<(nat, nat), nat>, pos: nat, qeList: seq<(nat, nat)>) returns (dirToEdge: seq<nat>)
    requires q.Valid() && AllNumbered(q, eidx) && NumberedTo(eidx, pos)
    requires AllListed(q, qeList) && Distinct(qeList)
    ensures |dirToEdge| == pos && Directed(eidx, qeList, dirToEdge, |qeList|)
  {
    dirToEdge := seq(pos, _ => NO_EDGE);
    for e := 0 to |qeList|
      invariant |dirToEdge| == pos && Directed(eidx, qeList, dirToEdge, e)
    {
      assert qeList[e] in qeList;
      var (x, y) := qeList[e];
      assert q.Adj(x, y) && q.Adj(y, x);
      ghost var before := dirToEdge;
      dirToEdge := dirToEdge[eidx[(x, y)] := e][eidx[(y, x)] := e];
      forall k | 0 <= k < e
        ensures EnteredAt(eidx, dirToEdge, qeList[k].0, qeList[k].1, k) && EnteredAt(eidx, dirToEdge, qeList[k].1, qeList[k].0, k)
      {
        OthersStay(q, eidx, pos, qeList, before, e, k);
      }
    }
  }

  lemma OthersStay(q: Query, eidx: map<(nat, nat), nat>, pos: nat, qeList: seq<(nat, nat)>, before: seq<nat>, e: nat, k: nat)
    requires q.Valid() && AllNumbered(q, eidx) && NumberedTo(eidx, pos) && |before| == pos
    requires AllListed(q, qeList) && Distinct(qeList) && k < e < |qeList|
    requires (qeList[e].0, qeList[e].1) in eidx && (qeList[e].1, qeList[e].0) in eidx
    requires EnteredAt(eidx, before, qeList[k].0, qeList[k].1, k) && EnteredAt(eidx, before, qeList[k].1, qeList[k].0, k)
    ensures var after := before[eidx[(qeList[e].0, qeList[e].1)] := e][eidx[(qeList[e].1, qeList[e].0)] := e];
      EnteredAt(eidx, after, qeList[k].0, qeList[k].1, k) && EnteredAt(eidx, after, qeList[k].1, qeList[k].0, k)
  {
    var (x, y) := qeList[e];
    var (x', y') := qeList[k];
    assert qeList[e] in qeList && qeList[k] in qeList && (x, y) != (x', y');
    assert (x, y) != (y', x');
  }

  // ---- What the numbers are good for ----

  /** The adjacency lists describe the same query. */
  ghost predicate SameQuery(q: Graphs.Graph, query: Query)
    requires q.Valid()
  {
    query.N() == |q.labels| && forall u: nat, w: nat :: query.Adj(u, w) <==> u < |q.nei| && w in q.nei[u]
  }

  /** Undirected query edges are numbered one to one by `0..m`, in both directions alike. */
  ghost predicate EdgeNumbers(q: Query, m: nat, eidx: (nat, nat) -> nat, dirToEdge: nat -> nat) {
    && (forall x: nat, y: nat :: q.Adj(x, y) ==> dirToEdge(eidx(x, y)) < m && dirToEdge(eidx(x, y)) == dirToEdge(eidx(y, x)))
    && (forall x: nat, y: nat, x': nat, y': nat :: q.Adj(x, y) && q.Adj(x', y') && dirToEdge(eidx(x, y)) == dirToEdge(eidx(x', y')) ==>
          (x == x' && y == y') || (x == y' && y == x'))
    && (forall e :: 0 <= e < m ==> Numbers(q, eidx, dirToEdge, e))
  }

  ghost predicate Numbers(q: Query, eidx: (nat, nat) -> nat, dirToEdge: nat -> nat, e: nat) {
    exists x: nat, y: nat :: q.Adj(x, y) && dirToEdge(eidx(x, y)) == e
  }

  /** Every direction of a listed edge leads to its place in the list. */
  lemma EdgeOfPair(q: Query, meta: Meta, x: nat, y: nat) returns (e: nat)
    requires q.Valid() && meta.Valid(q) && q.Adj(x, y)
    ensures e < |meta.qeList| && meta.DirToEdge(meta.Eidx(x, y)) == e
    ensures meta.qeList[e] == if x <= y then (x, y) else (y, x)
  {
    var pair := if x <= y then (x, y) else (y, x);
    assert q.Adj(y, x) && pair in meta.qeList;
    e :| 0 <= e < |meta.qeList| && meta.qeList[e] == pair;
    assert EnteredAt(meta.eidx, meta.dirToEdge, pair.0, pair.1, e) && EnteredAt(meta.eidx, meta.dirToEdge, pair.1, pair.0, e);
  }

  /** The tables number the query edges as the searches need it. */
  lemma MetaNumbers(q: Query, meta: Meta)
    requires q.Valid() && meta.Valid(q)
    ensures EdgeNumbers(q, |meta.qeList|, (u, w) => meta.Eidx(u, w), idx => meta.DirToEdge(idx))
  {
    hide Meta.Valid, Query.Valid, Meta.Eidx, Meta.DirToEdge;
    var eidx: (nat, nat) -> nat := (u, w) => meta.Eidx(u, w);
    var dirToEdge: nat -> nat := idx => meta.DirToEdge(idx);
    forall x: nat, y: nat | q.Adj(x, y)
      ensures dirToEdge(eidx(x, y)) < |meta.qeList| && dirToEdge(eidx(x, y)) == dirToEdge(eidx(y, x))
    {
      SameEdge(q, meta, x, y);
    }
    forall x: nat, y: nat, x': nat, y': nat | q.Adj(x, y) && q.Adj(x', y') && dirToEdge(eidx(x, y)) == dirToEdge(eidx(x', y'))
      ensures (x == x' && y == y') || (x == y' && y == x')
    {
      var e := EdgeOfPair(q, meta, x, y);
      var e' := EdgeOfPair(q, meta, x', y');
    }
    forall e | 0 <= e < |meta.qeList|
      ensures Numbers(q, eidx, dirToEdge, e)
    {
      NumberListed(q, meta, e);
    }
  }

  lemma NumberListed(q: Query, meta: Meta, e: nat)
    requires q.Valid() && meta.Valid(q) && e < |meta.qeList|
    ensures q.Adj(meta.qeList[e].0, meta.qeList[e].1) && meta.DirToEdge(meta.Eidx(meta.qeList[e].0, meta.qeList[e].1)) == e
  {
    var (x, y) := meta.qeList[e];
    assert meta.qeList[e] in meta.qeList && q.Adj(x, y);
    assert EnteredAt(meta.eidx, meta.dirToEdge, x, y, e);
  }

  lemma SameEdge(q: Query, meta: Meta, x: nat, y: nat)
    requires q.Valid() && meta.Valid(q) && q.Adj(x, y)
    ensures meta.DirToEdge(meta.Eidx(x, y)) == meta.DirToEdge(meta.Eidx(y, x)) < |meta.qeList|
  {
    var e := EdgeOfPair(q, meta, x, y);
    assert q.Adj(y, x);
    var e' := EdgeOfPair(q, meta, y, x);
    assert meta.qeList[e] == meta.qeList[e'];
  }

  /** The seed test by the two directions of edge `ei` is the test by its number. */
  lemma SeedDirections(q: Query, meta: Meta, ei: nat, idx: nat)
    requires q.Valid() && meta.Valid(q) && ei < |meta.qeList| && idx < meta.numDirEdges
    ensures var (u0, u1) := meta.qeList[ei];
      (idx == meta.Eidx(u0, u1) || idx == meta.Eidx(u1, u0)) <==> meta.DirToEdge(idx) == ei
  {
    var (u0, u1) := meta.qeList[ei];
    assert EnteredAt(meta.eidx, meta.dirToEdge, u0, u1, ei) && EnteredAt(meta.eidx, meta.dirToEdge, u1, u0, ei);
    if meta.DirToEdge(idx) == ei {
      assert HasNumber(meta.eidx, idx);
      var k :| k in meta.eidx && meta.eidx[k] == idx;
      assert (k.0, k.1) in meta.eidx;
      var e := EdgeOfPair(q, meta, k.0, k.1);
    }
  }
}
