/** A stream batch by batch: the graphs between the batches, and the embeddings that a batch reports although they
    were there before it. */
module Runs {
  import opened Graphs
  import opened CaligRounds
  import opened CaligLogs
  import opened CaligFilter
  import opened Streams
  import opened Batches

  /** The labelled edges of the batch that the graph does not have, in both directions. */
  ghost function NewEdges(g: Graph, batch: seq<Edge>): (es: set<Edge>)
    requires g.Valid()
    ensures Symmetric(g, es) && forall e :: e in es <==> InBatch(g.labels, batch, e) && e.b !in g.nei[e.a]
  {
    set e | e in Both(batch) && InBatch(g.labels, batch, e) && e.b !in g.nei[e.a]
  }

  /** The graph with the labelled edges of the batch. */
  ghost function After(g: Graph, batch: seq<Edge>): (r: Graph)
    requires g.Valid()
    ensures r.Valid() && r.labels == g.labels && |r.nei| == |g.nei| && forall v :: 0 <= v < |g.nei| ==> g.nei[v] <= r.nei[v]
  {
    GrowIsValid(g, NewEdges(g, batch));
    Grow(g, NewEdges(g, batch))
  }

  /** The graph that batch `i` starts from. */
  ghost function GraphBefore(first: Graph, batches: seq<seq<Edge>>, i: nat): (r: Graph)
    requires first.Valid() && i <= |batches|
    ensures r.Valid() && r.labels == first.labels && |r.nei| == |first.nei|
  {
    if i == 0 then first else After(GraphBefore(first, batches, i - 1), batches[i - 1])
  }

  /** The embeddings that use an edge which the batch gives again. */
  ghost function GivenAgain(q: Graph, g: Graph, batch: seq<Edge>): set<seq<nat>>
    requires q.Valid() && g.Valid()
  {
    Using(q, g, EdgesIn(g, batch))
  }

  /** How many embeddings the first `i` batches give again, batch by batch. */
  ghost function Again(q: Graph, first: Graph, batches: seq<seq<Edge>>, i: nat): nat
    requires q.Valid() && first.Valid() && i <= |batches|
  {
    if i == 0 then 0 else Again(q, first, batches, i - 1) + |GivenAgain(q, GraphBefore(first, batches, i - 1), batches[i - 1])|
  }

  /** No embedding in the graph uses an edge of the batch. */
  ghost predicate NoneUses(q: Graph, g: Graph, batch: seq<Edge>)
    requires q.Valid() && g.Valid()
  {
    forall h :: Embedding(q, g, h) ==> AvoidsAdded(q, EdgesIn(g, batch), h)
  }

  // ---- One batch ----

  lemma SameNewEdges(g: Graph, batch: seq<Edge>, grown: set<Edge>)
    requires g.Valid() && forall e :: e in grown <==> InBatch(g.labels, batch, e) && e.b !in g.nei[e.a]
    ensures grown == NewEdges(g, batch)
  {
    hide InBatch;
  }

  /** The earlier embeddings that use an edge of the batch use one that the graph has had before. */
  lemma SameUsing(q: Graph, g: Graph, batch: seq<Edge>)
    requires q.Valid() && g.Valid()
    ensures Using(q, g, EdgesIn(After(g, batch), batch)) == GivenAgain(q, g, batch)
  {
    hide InBatch;
    var g' := After(g, batch);
    forall h | Embedding(q, g, h)
      ensures AvoidsAdded(q, EdgesIn(g', batch), h) <==> AvoidsAdded(q, EdgesIn(g, batch), h)
    {
      forall u, w | 0 <= u < |h| && w in q.nei[u]
        ensures Edge(h[u], h[w]) in EdgesIn(g', batch) <==> Edge(h[u], h[w]) in EdgesIn(g, batch)
      {
        assert h[w] in g.nei[h[u]];
      }
    }
  }

  /** A batch reports its new embeddings, and those earlier ones that use an edge which it gives again. */
  lemma BatchReports(q: Graph, g: Graph, batch: seq<Edge>)
    requires q.Valid() && g.Valid()
    ensures Embeddings(q, g) <= Embeddings(q, After(g, batch))
    ensures |Using(q, After(g, batch), EdgesIn(After(g, batch), batch))| ==
      |Embeddings(q, After(g, batch)) - Embeddings(q, g)| + |GivenAgain(q, g, batch)|
  {
    hide Using, GivenAgain, Embeddings, InBatch, EdgesIn;
    var grown := NewEdges(g, batch);
    GrownAmong(g, grown, batch);
    UsingAre(q, g, grown, EdgesIn(After(g, batch), batch));
    SameUsing(q, g, batch);
  }

  lemma NoneGivenAgain(q: Graph, g: Graph, batch: seq<Edge>)
    requires q.Valid() && g.Valid()
    ensures |GivenAgain(q, g, batch)| == 0 <==> NoneUses(q, g, batch)
  {
    hide EdgesIn;
    var all := GivenAgain(q, g, batch);
    assert |all| == 0 <==> all == {};
    forall h | Embedding(q, g, h)
      ensures h in all <==> !AvoidsAdded(q, EdgesIn(g, batch), h)
    {
    }
  }

  // ---- All batches ----

  /** A run reports nothing again exactly when no batch gives an edge that an embedding in the graph before it uses. */
  lemma {:induction false} NeverAgain(q: Graph, first: Graph, batches: seq<seq<Edge>>, i: nat)
    requires q.Valid() && first.Valid() && i <= |batches|
    ensures Again(q, first, batches, i) == 0 <==> forall k: nat :: k < i ==> NoneUses(q, GraphBefore(first, batches, k), batches[k])
    decreases i
  {
    hide GivenAgain, NoneUses, GraphBefore;
    if i > 0 {
      NeverAgain(q, first, batches, i - 1);
      NoneGivenAgain(q, GraphBefore(first, batches, i - 1), batches[i - 1]);
    }
  }

  /** The graph between two batches is the first one with the labelled edges of the batches before. */
  lemma {:induction false} BeforeApplied(first: Graph, batches: seq<seq<Edge>>, i: nat)
    requires first.Valid() && i <= |batches|
    ensures Applied(first, GraphBefore(first, batches, i), Joined(batches, i))
    decreases i
  {
    hide InBatch, Applied;
    if i > 0 {
      BeforeApplied(first, batches, i - 1);
      var g, batch := GraphBefore(first, batches, i - 1), batches[i - 1];
      BatchApplied(g, NewEdges(g, batch), batch);
      AppliedMore(first, g, After(g, batch), Joined(batches, i - 1), batch);
    } else {
      NothingApplied(first);
    }
  }

  lemma NothingApplied(first: Graph)
    ensures Applied(first, first, [])
  {
  }

  /** In a stream of new edges, without repetitions, no batch gives an edge again. */
  lemma {:induction false} FreshNeverAgain(q: Graph, first: Graph, batches: seq<seq<Edge>>, i: nat)
    requires q.Valid() && first.Valid() && i <= |batches| && Unrepeated(Joined(batches, i)) && FreshBatch(first, Joined(batches, i))
    ensures Again(q, first, batches, i) == 0
    decreases i
  {
    hide Unrepeated, FreshBatch, Applied;
    if i > 0 {
      var g, front, batch := GraphBefore(first, batches, i - 1), Joined(batches, i - 1), batches[i - 1];
      FreshFront(first, front, batch);
      FreshNeverAgain(q, first, batches, i - 1);
      BeforeApplied(first, batches, i - 1);
      StillFresh(first, g, front, batch);
      FreshNamesNone(g, batch);
      assert Using(q, g, {}) == {};
    }
  }

  lemma FreshFront(first: Graph, front: seq<Edge>, batch: seq<Edge>)
    requires Unrepeated(front + batch) && FreshBatch(first, front + batch)
    ensures Unrepeated(front) && FreshBatch(first, front)
  {
    var stream := front + batch;
    assert forall i :: 0 <= i < |front| ==> stream[i] == front[i];
  }

  // ---- An edge that is given again ----

  /** The path 0 - 1 - 2, each vertex with a label of its own. */
  ghost function Path(): (g: Graph)
    ensures g.Valid()
  {
    Graph([0, 1, 2], [{1}, {0, 2}, {1}])
  }

  /** The path has one embedding in itself.  A stream that gives its first edge again changes nothing, and still one
      match is reported. */
  lemma OneAgain()
    ensures var batches := Cut([0, 1], 2, 0);
      && |batches| == 1 && GraphBefore(Path(), batches, 1) == Path()
      && Embeddings(Path(), Path()) == {[0, 1, 2]} && Again(Path(), Path(), batches, 1) == 1
  {
    hide After, EdgesIn, Again, GraphBefore;
    CutNext([0, 1], 2, 0, 2);
    CutEnds([0, 1], 2, 2);
    var batch := Pairs([0, 1], 0, 2);
    var batches := Cut([0, 1], 2, 0);
    assert batches == [batch] && batch == [Edge(0, 1)];
    NothingNew(batch);
    OneEmbedding();
    UsedAgain(batch);
    OneBatch(Path(), Path(), batches);
  }

  lemma OneBatch(q: Graph, g: Graph, batches: seq<seq<Edge>>)
    requires q.Valid() && g.Valid() && |batches| == 1
    ensures GraphBefore(g, batches, 1) == After(g, batches[0])
    ensures Again(q, g, batches, 1) == |GivenAgain(q, g, batches[0])|
  {
    hide After, GivenAgain;
    assert GraphBefore(g, batches, 0) == g && Again(q, g, batches, 0) == 0;
  }

  lemma NothingNew(batch: seq<Edge>)
    requires batch == [Edge(0, 1)]
    ensures After(Path(), batch) == Path()
  {
    var g := Path();
    assert NewEdges(g, batch) == {};
    GrowNone(g);
  }

  lemma OneEmbedding()
    ensures Embeddings(Path(), Path()) == {[0, 1, 2]}
  {
    var g := Path();
    assert Embedding(g, g, [0, 1, 2]);
    forall h | Embedding(g, g, h)
      ensures h == [0, 1, 2]
    {
      forall u | 0 <= u < |h|
        ensures h[u] == u
      {
        assert g.labels[h[u]] == g.labels[u];
      }
    }
  }

  lemma UsedAgain(batch: seq<Edge>)
    requires batch == [Edge(0, 1)] && Embeddings(Path(), Path()) == {[0, 1, 2]}
    ensures |GivenAgain(Path(), Path(), batch)| == 1
  {
    hide Embedding;
    var g, h := Path(), [0, 1, 2];
    assert Edge(h[0], h[1]) in EdgesIn(g, batch) && 1 in g.nei[0];
    assert !AvoidsAdded(g, EdgesIn(g, batch), h);
    assert GivenAgain(g, g, batch) == {h};
  }
}
