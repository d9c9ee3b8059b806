/** From the filter to the count: the staged lists that the filter yields for a batch make the searches count
    the embeddings that use an edge of the batch. */
module Batches {
  import opened Sequences
  import opened Graphs
  import opened CaligIndex
  import opened CaligRounds
  import opened CaligLogs
  import opened MatchSearch
  import opened QueryPlan
  import opened ExactlyOnce

  import Planner
  import QueryPaths
  import opened QueryMeta

  /** The plan orders all vertices of `q`, and its backward positions are the query edges. */
  ghost predicate PlanFor(q: Graph, plan: Plan)
    requires q.Valid()
  {
    && plan.Valid() && plan.n == |q.labels| && Distinct(plan.vs)
    && (forall d :: 0 <= d < plan.n ==> plan.vs[d] < plan.n)
    && (forall d: nat, k: nat :: IsEdge(plan.bni, d, k) ==> plan.vs[plan.bni[d][k]] in q.nei[plan.vs[d]])
    && (forall i, j :: 0 <= i < j < plan.n && plan.vs[i] in q.nei[plan.vs[j]] ==> HasBackward(plan, j, i))
  }

  ghost predicate HasBackward(plan: Plan, d: nat, j: nat) {
    exists k: nat :: IsEdge(plan.bni, d, k) && plan.bni[d][k] == j
  }

  /** What the searches read of a batch: the update lists hold exactly the live entries over the edges `added` of
      the batch; the main lists hold exactly the other live entries and, beyond these, at most label-compatible
      pairs of neighbours whose entry is not live. */
  ghost predicate StagedFrom(q: Graph, g: Graph, plan: Plan, x: Index, added: set<Edge>, main: Lists, upd: Lists)
    requires q.Valid() && g.Valid()
  {
    forall s: Slot, y: nat :: s.u < |q.nei| && s.w in q.nei[s.u] ==> EntryStaged(q, g, plan, x, added, main, upd, s, y)
  }

  ghost predicate EntryStaged(q: Graph, g: Graph, plan: Plan, x: Index, added: set<Edge>, main: Lists, upd: Lists, s: Slot, y: nat)
    requires q.Valid() && g.Valid()
  {
    && (y in upd(plan.eidx(s.u, s.w), s.v) <==> LiveEntry(x, s, y) && Edge(s.v, y) in added)
    && (LiveEntry(x, s, y) && Edge(s.v, y) !in added ==> y in main(plan.eidx(s.u, s.w), s.v))
    && (y in main(plan.eidx(s.u, s.w), s.v) ==> Over(q, g, s, y) && (LiveEntry(x, s, y) ==> Edge(s.v, y) !in added))
  }

  /** The entry lies over an edge of the data graph, with the labels that the query asks for. */
  ghost predicate Over(q: Graph, g: Graph, s: Slot, y: nat)
    requires q.Valid() && g.Valid()
  {
    IsSlot(q, g, s) && y in Potential(q, g, s)
  }

  // ---- Rows and embeddings ----

  /** The row of an embedding: its images in the matching order. */
  function RowOf(vs: seq<nat>, h: seq<nat>): (f: Row)
    requires forall d :: 0 <= d < |vs| ==> vs[d] < |h|
    ensures |f| == |vs| && forall d :: 0 <= d < |vs| ==> f[d] == h[vs[d]]
  {
    seq(|vs|, (d: nat) requires d < |vs| => h[vs[d]])
  }

  /** The place of a vertex in the order. */
  function PlaceOf(vs: seq<nat>, u: nat): (d: nat)
    ensures u in vs ==> d < |vs| && vs[d] == u
  {
    if vs == [] || vs[0] == u then 0 else 1 + PlaceOf(vs[1..], u)
  }

  /** The assignment of a row. */
  function Spread(vs: seq<nat>, f: Row): (h: seq<nat>)
    requires |f| == |vs| && forall u :: 0 <= u < |vs| ==> u in vs
    ensures |h| == |vs| && forall u :: 0 <= u < |vs| ==> h[u] == f[PlaceOf(vs, u)]
  {
    seq(|vs|, (u: nat) requires u < |vs| => f[PlaceOf(vs, u)])
  }

  lemma RowAndBack(vs: seq<nat>, h: seq<nat>, f: Row)
    requires Distinct(vs) && (forall d :: 0 <= d < |vs| ==> vs[d] < |vs|) && (forall u :: 0 <= u < |vs| ==> u in vs)
    requires |h| == |vs| && |f| == |vs|
    ensures Spread(vs, RowOf(vs, h)) == h && RowOf(vs, Spread(vs, f)) == f
  {
    forall d | 0 <= d < |vs|
      ensures PlaceOf(vs, vs[d]) == d
    {
    }
  }

  // ---- Matches are embeddings ----

  /** Every query edge runs over a data edge with the right labels. */
  ghost predicate AllOver(q: Graph, g: Graph, h: seq<nat>)
    requires q.Valid() && g.Valid() && |h| == |q.labels|
  {
    forall u, w :: 0 <= u < |h| && w in q.nei[u] ==> Over(q, g, Slot(h[u], u, w), h[w])
  }

  ghost predicate Injective(h: seq<nat>) {
    forall u, w :: 0 <= u < w < |h| ==> h[u] != h[w]
  }

  /** Every vertex has a neighbour. */
  ghost predicate NoIsolated(q: Graph)
    requires q.Valid()
  {
    forall u :: 0 <= u < |q.nei| ==> q.nei[u] != {}
  }

  /** Injective assignments of query edges to data edges are exactly the embeddings. */
  lemma OverIsEmbedding(q: Graph, g: Graph, h: seq<nat>)
    requires q.Valid() && g.Valid() && |h| == |q.labels| && NoIsolated(q)
    ensures AllOver(q, g, h) && Injective(h) <==> Embedding(q, g, h)
  {
    if AllOver(q, g, h) && Injective(h) {
      forall u | 0 <= u < |h|
        ensures h[u] < |g.labels| && g.labels[h[u]] == q.labels[u]
      {
        var w :| w in q.nei[u];
        assert Over(q, g, Slot(h[u], u, w), h[w]);
      }
      forall u, w | 0 <= u < |h| && w in q.nei[u]
        ensures h[w] in g.nei[h[u]]
      {
        assert Over(q, g, Slot(h[u], u, w), h[w]);
      }
    }
  }

  /** What the proofs about one batch rely on: the filter between batches, a plan for the query, and
      staged lists that stand to the filter as they should. */
  ghost predicate Ready(q: Graph, g: Graph, x: Index, rank: Pair -> nat, clock: nat, plan: Plan, added: set<Edge>, main: Lists, upd: Lists) {
    && DelInv(q, g, x, rank, clock, {}) && q.Loopless() && NoIsolated(q)
    && PlanFor(q, plan) && StagedFrom(q, g, plan, x, added, main, upd)
  }

  /** The entry that backward edge `(d, k)` runs over. */
  function EntryOf(plan: Plan, f: Row, d: nat, k: nat): Slot
    requires |f| == |plan.vs| && d < |plan.bni| && k < |plan.bni[d]| && plan.bni[d][k] < |f| && d < |f|
  {
    Slot(f[plan.bni[d][k]], plan.vs[plan.bni[d][k]], plan.vs[d])
  }

  /** What a hit means: every hit lies over a data edge, every live entry is a hit, and of the live entries those
      that are hits in the main lists avoid the edges of the batch. */
  lemma HitIsOver(q: Graph, g: Graph, x: Index, plan: Plan, added: set<Edge>, main: Lists, upd: Lists, f: Row, d: nat, k: nat)
    requires q.Valid() && g.Valid() && Shaped(q, g, x) && PlanFor(q, plan) && StagedFrom(q, g, plan, x, added, main, upd)
    requires |f| == plan.n && IsEdge(plan.bni, d, k)
    ensures Hit(plan, main, f, d, k) || Hit(plan, upd, f, d, k) ==> Over(q, g, EntryOf(plan, f, d, k), f[d])
    ensures LiveEntry(x, EntryOf(plan, f, d, k), f[d]) ==> Hit(plan, main, f, d, k) || Hit(plan, upd, f, d, k)
    ensures LiveEntry(x, EntryOf(plan, f, d, k), f[d]) ==> (Hit(plan, main, f, d, k) <==> Edge(f[plan.bni[d][k]], f[d]) !in added)
  {
    var s := EntryOf(plan, f, d, k);
    assert plan.vs[plan.bni[d][k]] in q.nei[plan.vs[d]];
    assert s.w in q.nei[s.u];
    assert EntryStaged(q, g, plan, x, added, main, upd, s, f[d]);
  }

  /** Backward edges cover the query edges, in one direction or the other. */
  lemma BackwardCovers(q: Graph, plan: Plan, u: nat, w: nat) returns (d: nat, k: nat)
    requires q.Valid() && q.Loopless() && PlanFor(q, plan) && u < |q.nei| && w in q.nei[u]
    ensures IsEdge(plan.bni, d, k)
    ensures (plan.vs[plan.bni[d][k]] == u && plan.vs[d] == w) || (plan.vs[plan.bni[d][k]] == w && plan.vs[d] == u)
  {
    Pigeons(plan.vs, plan.n);
    var i, j := PlaceOf(plan.vs, u), PlaceOf(plan.vs, w);
    assert i != j;
    d := if i < j then j else i;
    assert HasBackward(plan, d, if i < j then i else j);
    k :| IsEdge(plan.bni, d, k) && plan.bni[d][k] == if i < j then i else j;
  }

  /** All query edges run over data edges exactly when the backward edges do. */
  lemma BackwardOver(q: Graph, g: Graph, plan: Plan, f: Row, h: seq<nat>)
    requires q.Valid() && q.Loopless() && g.Valid() && PlanFor(q, plan) && |f| == plan.n && |h| == plan.n && f == RowOf(plan.vs, h)
    ensures AllOver(q, g, h) <==>
      forall d: nat, k: nat :: IsEdge(plan.bni, d, k) ==> Over(q, g, EntryOf(plan, f, d, k), f[d])
  {
    if AllOver(q, g, h) {
      forall d: nat, k: nat | IsEdge(plan.bni, d, k)
        ensures Over(q, g, EntryOf(plan, f, d, k), f[d])
      {
        assert plan.vs[plan.bni[d][k]] in q.nei[plan.vs[d]];
      }
    }
    if forall d: nat, k: nat :: IsEdge(plan.bni, d, k) ==> Over(q, g, EntryOf(plan, f, d, k), f[d]) {
      forall u, w | 0 <= u < |h| && w in q.nei[u]
        ensures Over(q, g, Slot(h[u], u, w), h[w])
      {
        var d, k := BackwardCovers(q, plan, u, w);
        var s := EntryOf(plan, f, d, k);
        assert Over(q, g, s, f[d]);
        OverReverse(q, g, s, f[d]);
      }
    }
  }

  lemma OverReverse(q: Graph, g: Graph, s: Slot, y: nat)
    requires q.Valid() && g.Valid() && Over(q, g, s, y)
    ensures Over(q, g, Back(s, y), s.v)
  {
  }

  /** An embedding runs over live entries only. */
  lemma EmbeddingIsLive(q: Graph, g: Graph, x: Index, rank: Pair -> nat, clock: nat, plan: Plan, f: Row, h: seq<nat>, d: nat, k: nat)
    requires DelInv(q, g, x, rank, clock, {}) && PlanFor(q, plan) && Embedding(q, g, h)
    requires |f| == plan.n && f == RowOf(plan.vs, h) && IsEdge(plan.bni, d, k)
    ensures LiveEntry(x, EntryOf(plan, f, d, k), f[d])
  {
    NoEmbeddingLost(q, g, x, rank, clock, {}, h);
    assert plan.vs[plan.bni[d][k]] in q.nei[plan.vs[d]];
  }

  /** Rows are injective exactly when their assignments are. */
  lemma InjectiveRow(vs: seq<nat>, h: seq<nat>, f: Row)
    requires Distinct(vs) && |h| == |vs| && (forall d :: 0 <= d < |vs| ==> vs[d] < |vs|) && f == RowOf(vs, h)
    ensures Distinct(f) <==> Injective(h)
  {
    Pigeons(vs, |vs|);
    if Distinct(f) {
      forall u, w | 0 <= u < w < |h|
        ensures h[u] != h[w]
      {
        assert f[PlaceOf(vs, u)] == h[u] && f[PlaceOf(vs, w)] == h[w];
      }
    }
    if Injective(h) {
      forall i, j | 0 <= i < j < |f|
        ensures f[i] != f[j]
      {
        assert vs[i] != vs[j];
      }
    }
  }

  /** The matches over both stages are the embeddings in the graph after the batch. */
  lemma NewMatchesAreEmbeddings(q: Graph, g: Graph, x: Index, rank: Pair -> nat, clock: nat, plan: Plan, added: set<Edge>, main: Lists, upd: Lists, h: seq<nat>)
    requires Ready(q, g, x, rank, clock, plan, added, main, upd) && |h| == plan.n
    ensures RowOf(plan.vs, h) in MatchesOf(NewGraph(plan, main, upd), |g.labels|) <==> Embedding(q, g, h)
  {
    var f := RowOf(plan.vs, h);
    NewMatch(plan, main, upd, |g.labels|, f);
    BackwardOver(q, g, plan, f, h);
    OverIsEmbedding(q, g, h);
    InjectiveRow(plan.vs, h, f);
    forall d: nat, k: nat | IsEdge(plan.bni, d, k)
      ensures Hit(plan, main, f, d, k) || Hit(plan, upd, f, d, k) ==> Over(q, g, EntryOf(plan, f, d, k), f[d])
      ensures Embedding(q, g, h) ==> Hit(plan, main, f, d, k) || Hit(plan, upd, f, d, k)
    {
      HitIsOver(q, g, x, plan, added, main, upd, f, d, k);
      if Embedding(q, g, h) { EmbeddingIsLive(q, g, x, rank, clock, plan, f, h, d, k); }
    }
    FirstPlace(q, g, plan, f, h);
  }

  /** The first vertex of an embedding is a data vertex. */
  lemma FirstPlace(q: Graph, g: Graph, plan: Plan, f: Row, h: seq<nat>)
    requires q.Valid() && g.Valid() && PlanFor(q, plan) && |h| == plan.n && f == RowOf(plan.vs, h)
    ensures Embedding(q, g, h) ==> f[0] < |g.labels|
  {
  }

  /** No query edge runs over an edge of the batch. */
  ghost predicate AvoidsAdded(q: Graph, added: set<Edge>, h: seq<nat>)
    requires q.Valid() && |h| == |q.labels|
  {
    forall u, w :: 0 <= u < |h| && w in q.nei[u] ==> Edge(h[u], h[w]) !in added
  }

  /** The embeddings in a graph are those in the graph with more edges that avoid these. */
  lemma OldEmbeddings(q: Graph, g0: Graph, added: set<Edge>, h: seq<nat>)
    requires q.Valid() && g0.Valid() && Symmetric(g0, added) && |h| == |q.labels|
    requires forall e :: e in added ==> e.b !in g0.nei[e.a]
    ensures Grow(g0, added).Valid()
    ensures Embedding(q, g0, h) <==> Embedding(q, Grow(g0, added), h) && AvoidsAdded(q, added, h)
  {
    GrowIsValid(g0, added);
    var g := Grow(g0, added);
    if Embedding(q, g0, h) {
      forall u, w | 0 <= u < |h| && w in q.nei[u]
        ensures h[w] in g.nei[h[u]] && Edge(h[u], h[w]) !in added
      {
        assert h[w] in g0.nei[h[u]];
      }
    }
  }

  /** The matches over the main lists alone are the embeddings that avoid the edges of the batch. */
  lemma OldMatchesAreEmbeddings(q: Graph, g: Graph, x: Index, rank: Pair -> nat, clock: nat, plan: Plan, added: set<Edge>, main: Lists, upd: Lists, h: seq<nat>)
    requires Ready(q, g, x, rank, clock, plan, added, main, upd) && Symmetric(g, added) && |h| == plan.n
    ensures RowOf(plan.vs, h) in MatchesOf(OldGraph(plan, main), |g.labels|) <==> Embedding(q, g, h) && AvoidsAdded(q, added, h)
  {
    var f := RowOf(plan.vs, h);
    OldMatch(plan, main, |g.labels|, f);
    BackwardOver(q, g, plan, f, h);
    OverIsEmbedding(q, g, h);
    InjectiveRow(plan.vs, h, f);
    BackwardAvoids(q, g, plan, added, f, h);
    forall d: nat, k: nat | IsEdge(plan.bni, d, k)
      ensures Hit(plan, main, f, d, k) ==> Over(q, g, EntryOf(plan, f, d, k), f[d])
      ensures Embedding(q, g, h) ==> (Hit(plan, main, f, d, k) <==> Edge(f[plan.bni[d][k]], f[d]) !in added)
    {
      HitIsOver(q, g, x, plan, added, main, upd, f, d, k);
      if Embedding(q, g, h) { EmbeddingIsLive(q, g, x, rank, clock, plan, f, h, d, k); }
    }
    FirstPlace(q, g, plan, f, h);
  }

  /** All query edges avoid the edges of the batch exactly when the backward edges do. */
  lemma BackwardAvoids(q: Graph, g0: Graph, plan: Plan, added: set<Edge>, f: Row, h: seq<nat>)
    requires q.Valid() && q.Loopless() && PlanFor(q, plan) && Symmetric(g0, added)
    requires |f| == plan.n && |h| == plan.n && f == RowOf(plan.vs, h)
    ensures AvoidsAdded(q, added, h) <==>
      forall d: nat, k: nat :: IsEdge(plan.bni, d, k) ==> Edge(f[plan.bni[d][k]], f[d]) !in added
  {
    if AvoidsAdded(q, added, h) {
      forall d: nat, k: nat | IsEdge(plan.bni, d, k)
        ensures Edge(f[plan.bni[d][k]], f[d]) !in added
      {
        assert plan.vs[plan.bni[d][k]] in q.nei[plan.vs[d]];
      }
    }
    if forall d: nat, k: nat :: IsEdge(plan.bni, d, k) ==> Edge(f[plan.bni[d][k]], f[d]) !in added {
      forall u, w | 0 <= u < |h| && w in q.nei[u]
        ensures Edge(h[u], h[w]) !in added
      {
        var d, k := BackwardCovers(q, plan, u, w);
        var e := Edge(f[plan.bni[d][k]], f[d]);
        assert e !in added && Edge(e.b, e.a) !in added;
      }
    }
  }

  // ---- Counting ----

  /** A permutation of the query vertices. */
  ghost predicate Permutes(vs: seq<nat>) {
    Distinct(vs) && (forall d :: 0 <= d < |vs| ==> vs[d] < |vs|) && forall u :: 0 <= u < |vs| ==> u in vs
  }

  /** The assignment of a row of full length. */
  ghost function AssignmentOf(vs: seq<nat>, f: Row): seq<nat>
    requires Permutes(vs)
  {
    if |f| == |vs| then Spread(vs, f) else []
  }

  lemma AssignmentInjective(vs: seq<nat>, f: Row, r: Row)
    requires Permutes(vs) && |f| == |vs| == |r| && AssignmentOf(vs, f) == AssignmentOf(vs, r)
    ensures f == r
  {
    RowAndBack(vs, Spread(vs, f), f);
    RowAndBack(vs, Spread(vs, r), r);
  }

  /** The assignments of rows of full length. */
  ghost function Assignments(vs: seq<nat>, rows: set<Row>): set<seq<nat>>
    requires Permutes(vs)
  {
    set f | f in rows :: AssignmentOf(vs, f)
  }

  /** Different rows are different assignments. */
  lemma {:induction false} AssignmentsSize(vs: seq<nat>, rows: set<Row>)
    requires Permutes(vs) && forall f :: f in rows ==> |f| == |vs|
    ensures |Assignments(vs, rows)| == |rows|
    decreases rows
  {
    if rows != {} {
      var f :| f in rows;
      var rest := rows - {f};
      AssignmentsSize(vs, rest);
      OneAssignment(vs, rest, f);
      assert rows == rest + {f};
    }
  }

  lemma OneAssignment(vs: seq<nat>, rest: set<Row>, f: Row)
    requires Permutes(vs) && f !in rest && |f| == |vs| && forall r :: r in rest ==> |r| == |vs|
    ensures Assignments(vs, rest + {f}) == Assignments(vs, rest) + {AssignmentOf(vs, f)}
    ensures AssignmentOf(vs, f) !in Assignments(vs, rest)
  {
    if AssignmentOf(vs, f) in Assignments(vs, rest) {
      var r :| r in rest && AssignmentOf(vs, r) == AssignmentOf(vs, f);
      AssignmentInjective(vs, f, r);
    }
  }

  /** A list of matches without repetition has as many rows as there are assignments that it stands for. */
  lemma RowsOf(vs: seq<nat>, rows: seq<Row>, all: set<seq<nat>>)
    requires Permutes(vs) && Distinct(rows) && (forall f :: f in rows ==> |f| == |vs|) && forall h :: h in all ==> |h| == |vs|
    requires forall h :: |h| == |vs| ==> (RowOf(vs, h) in rows <==> h in all)
    ensures |all| == |rows|
  {
    hide Assignments, RowOf, Permutes;
    var found := set f | f in rows;
    DistinctSize(rows, found);
    AssignmentsSize(vs, found);
    forall h
      ensures h in Assignments(vs, found) <==> h in all
    {
      InAssignments(vs, found, h);
    }
    assert Assignments(vs, found) == all;
  }

  /** An assignment belongs to a set of rows exactly when its row does. */
  lemma InAssignments(vs: seq<nat>, rows: set<Row>, h: seq<nat>)
    requires Permutes(vs) && forall f :: f in rows ==> |f| == |vs|
    ensures h in Assignments(vs, rows) <==> |h| == |vs| && RowOf(vs, h) in rows
  {
    if h in Assignments(vs, rows) {
      var f :| f in rows && h == AssignmentOf(vs, f);
      RowAndBack(vs, h, f);
    }
    if |h| == |vs| && RowOf(vs, h) in rows {
      RowAndBack(vs, h, RowOf(vs, h));
      assert h == AssignmentOf(vs, RowOf(vs, h));
    }
  }

  lemma RowsAreFull(plan: Plan, main: Lists, upd: Lists, dv: nat)
    requires plan.Valid()
    ensures forall f :: f in MatchesOf(NewGraph(plan, main, upd), dv) ==> |f| == plan.n
    ensures forall f :: f in MatchesOf(OldGraph(plan, main), dv) ==> |f| == plan.n
  {
    forall f | f in MatchesOf(NewGraph(plan, main, upd), dv)
      ensures |f| == plan.n
    {
      NewMatch(plan, main, upd, dv, f);
    }
    forall f | f in MatchesOf(OldGraph(plan, main), dv)
      ensures |f| == plan.n
    {
      OldMatch(plan, main, dv, f);
    }
  }

  lemma NewEmbeddings(q: Graph, g: Graph, x: Index, rank: Pair -> nat, clock: nat, plan: Plan, added: set<Edge>, main: Lists, upd: Lists)
    requires Ready(q, g, x, rank, clock, plan, added, main, upd) && Staged(main, upd)
    ensures |Embeddings(q, g)| == |MatchesOf(NewGraph(plan, main, upd), |g.labels|)|
  {
    hide MatchesOf, StagedFrom, Staged, RowOf;
    var pn := NewGraph(plan, main, upd);
    StagedDistinct(plan, main, upd);
    MatchesNoDup(pn, |g.labels|);
    RowsAreFull(plan, main, upd, |g.labels|);
    Pigeons(plan.vs, plan.n);
    forall h | |h| == plan.n
      ensures RowOf(plan.vs, h) in MatchesOf(pn, |g.labels|) <==> h in Embeddings(q, g)
    {
      hide *;
      NewMatchesAreEmbeddings(q, g, x, rank, clock, plan, added, main, upd, h);
    }
    RowsOf(plan.vs, MatchesOf(pn, |g.labels|), Embeddings(q, g));
  }

  /** The embeddings that use an edge of the batch. */
  ghost function Using(q: Graph, g: Graph, added: set<Edge>): set<seq<nat>>
    requires q.Valid() && g.Valid()
  {
    set h | h in Embeddings(q, g) && !AvoidsAdded(q, added, h)
  }

  lemma OldEmbeddingSet(q: Graph, g: Graph, x: Index, rank: Pair -> nat, clock: nat, plan: Plan, added: set<Edge>, main: Lists, upd: Lists)
    requires Ready(q, g, x, rank, clock, plan, added, main, upd) && Staged(main, upd) && Symmetric(g, added)
    ensures |Embeddings(q, g) - Using(q, g, added)| == |MatchesOf(OldGraph(plan, main), |g.labels|)|
  {
    hide MatchesOf, StagedFrom, Staged, RowOf;
    var po := OldGraph(plan, main);
    StagedDistinct(plan, main, upd);
    MatchesNoDup(po, |g.labels|);
    RowsAreFull(plan, main, upd, |g.labels|);
    Pigeons(plan.vs, plan.n);
    var avoiding := Embeddings(q, g) - Using(q, g, added);
    forall h | |h| == plan.n
      ensures RowOf(plan.vs, h) in MatchesOf(po, |g.labels|) <==> h in avoiding
    {
      OldMatchesAreEmbeddings(q, g, x, rank, clock, plan, added, main, upd, h);
    }
    RowsOf(plan.vs, MatchesOf(po, |g.labels|), avoiding);
  }

  /** What the searches report for a batch is the number of embeddings that use an edge of the batch. */
  lemma ReportsUsing(q: Graph, g: Graph, x: Index, rank: Pair -> nat, clock: nat, plan: Plan, added: set<Edge>, main: Lists, upd: Lists)
    requires Ready(q, g, x, rank, clock, plan, added, main, upd) && Staged(main, upd) && Symmetric(g, added)
    ensures |MatchesOf(NewGraph(plan, main, upd), |g.labels|)| - |MatchesOf(OldGraph(plan, main), |g.labels|)| == |Using(q, g, added)|
  {
    hide MatchesOf, StagedFrom, Embedding, Staged, AvoidsAdded;
    NewEmbeddings(q, g, x, rank, clock, plan, added, main, upd);
    OldEmbeddingSet(q, g, x, rank, clock, plan, added, main, upd);
    assert Embeddings(q, g) == Using(q, g, added) + (Embeddings(q, g) - Using(q, g, added));
  }

  /** The embeddings that use an edge of the batch are the new ones, and those old ones that use an edge which the
      graph has had before. */
  lemma UsingAre(q: Graph, g0: Graph, grown: set<Edge>, added: set<Edge>)
    requires q.Valid() && g0.Valid() && Symmetric(g0, grown) && grown <= added && forall e :: e in grown ==> e.b !in g0.nei[e.a]
    ensures Grow(g0, grown).Valid() && Embeddings(q, g0) <= Embeddings(q, Grow(g0, grown))
    ensures Using(q, Grow(g0, grown), added) == (Embeddings(q, Grow(g0, grown)) - Embeddings(q, g0)) + Using(q, g0, added)
    ensures |Using(q, Grow(g0, grown), added)| == |Embeddings(q, Grow(g0, grown)) - Embeddings(q, g0)| + |Using(q, g0, added)|
  {
    GrowIsValid(g0, grown);
    var g := Grow(g0, grown);
    forall h | |h| == |q.labels|
      ensures Embedding(q, g0, h) <==> Embedding(q, g, h) && AvoidsAdded(q, grown, h)
      ensures !AvoidsAdded(q, grown, h) ==> !AvoidsAdded(q, added, h)
    {
      OldEmbeddings(q, g0, grown, h);
    }
    var news, olds := Embeddings(q, g) - Embeddings(q, g0), Using(q, g0, added);
    assert Using(q, g, added) == news + olds && news !! olds;
  }

  /** A batch reports exactly its new embeddings when no old one uses an edge of it; for one, when all its edges are new. */
  lemma UsingAreNew(q: Graph, g0: Graph, grown: set<Edge>, added: set<Edge>)
    requires q.Valid() && g0.Valid() && Symmetric(g0, grown) && grown <= added && forall e :: e in grown ==> e.b !in g0.nei[e.a]
    ensures Grow(g0, grown).Valid()
    ensures |Using(q, Grow(g0, grown), added)| == |Embeddings(q, Grow(g0, grown)) - Embeddings(q, g0)| <==>
      forall h :: Embedding(q, g0, h) ==> AvoidsAdded(q, added, h)
    ensures added == grown ==> Using(q, g0, added) == {}
  {
    UsingAre(q, g0, grown, added);
    forall h | Embedding(q, g0, h)
      ensures h in Using(q, g0, added) <==> !AvoidsAdded(q, added, h)
      ensures AvoidsAdded(q, grown, h)
    {
      OldEmbeddings(q, g0, grown, h);
    }
    assert |Using(q, g0, added)| == 0 <==> Using(q, g0, added) == {};
  }

  // ---- The planner's plan ----

  /** A complete order with its backward neighbours is a plan for the query. */
  lemma PlannedFor(q: Graph, query: QueryPaths.Query, u0: nat, u1: nat, o: Planner.Order, m: nat, eidx: (nat, nat) -> nat, dirToEdge: nat -> nat)
    requires q.Valid() && query.Valid() && SameQuery(q, query)
    requires query.Adj(u0, u1) && Planner.Complete(query, u0, u1, o.vs) && Planner.Backwards(query, o, 0)
    ensures PlanFor(q, Planner.PlanOf(query, m, eidx, dirToEdge, o))
    ensures q.Loopless()
  {
    var plan := Planner.PlanOf(query, m, eidx, dirToEdge, o);
    Planner.PlanIsValid(query, u0, u1, m, eidx, dirToEdge, o);
    forall d: nat, k: nat | IsEdge(plan.bni, d, k)
      ensures plan.vs[plan.bni[d][k]] in q.nei[plan.vs[d]]
    {
      Planner.BackwardEdge(query, o, d, k);
    }
    forall i, j | 0 <= i < j < plan.n && plan.vs[i] in q.nei[plan.vs[j]]
      ensures HasBackward(plan, j, i)
    {
      assert query.Adj(o.vs[j], o.vs[i]) && i in o.bni[j];
      var k: nat :| 0 <= k < |o.bni[j]| && o.bni[j][k] == i;
      assert IsEdge(plan.bni, j, k) && plan.bni[j][k] == i;
    }
    forall v | 0 <= v < |q.nei|
      ensures v !in q.nei[v]
    {
      assert !query.Adj(v, v);
    }
  }
}
