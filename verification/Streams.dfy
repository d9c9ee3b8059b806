/** The stream of updates: how it is cut into batches, which batches the engine is made for, and what they make of
    the data graph. */
module Streams {
  import opened Graphs
  import opened CaligRounds
  import opened CaligLogs
  import opened CaligFilter

  /** The pairs of a batch are different and join different data vertices. */
  ghost predicate GoodBatch(n: nat, batch: seq<Edge>) {
    Unrepeated(batch) && forall i :: 0 <= i < |batch| ==> batch[i].a < n && batch[i].b < n
  }

  /** No pair of the batch is an edge of the graph. */
  ghost predicate FreshBatch(g: Graph, batch: seq<Edge>) {
    forall i :: 0 <= i < |batch| ==> batch[i].a < |g.nei| && batch[i].b !in g.nei[batch[i].a]
  }

  /** The edges of a stream, in both directions. */
  function Both(stream: seq<Edge>): set<Edge> {
    (set e | e in stream) + set e | e in stream :: Edge(e.b, e.a)
  }

  /** The edges of the graph that a batch names. */
  ghost function EdgesIn(g: Graph, batch: seq<Edge>): set<Edge> {
    set e | e in Both(batch) && e.a < |g.nei| && e.b in g.nei[e.a]
  }

  /** The edges that a batch adds to the graph are among those that it names. */
  lemma GrownAmong(g0: Graph, grown: set<Edge>, batch: seq<Edge>)
    requires g0.Valid() && Symmetric(g0, grown) && forall e :: e in grown <==> InBatch(g0.labels, batch, e) && e.b !in g0.nei[e.a]
    ensures Grow(g0, grown).Valid() && grown <= EdgesIn(Grow(g0, grown), batch) && Symmetric(Grow(g0, grown), EdgesIn(Grow(g0, grown), batch))
  {
    GrowIsValid(g0, grown);
    var g := Grow(g0, grown);
    forall e | e in grown
      ensures e in EdgesIn(g, batch)
    {
      assert Edge(e.a, e.b) == e && Among(batch, e);
    }
    forall e | e in EdgesIn(g, batch)
      ensures e.a < |g.nei| && e.b < |g.nei| && Edge(e.b, e.a) in EdgesIn(g, batch)
    {
      assert Edge(e.a, e.b) == e && e.a in g.nei[e.b];
    }
  }

  /** A fresh batch names no edge of the graph. */
  lemma FreshNamesNone(g: Graph, batch: seq<Edge>)
    requires g.Valid() && FreshBatch(g, batch)
    ensures EdgesIn(g, batch) == {}
  {
    forall e | e in Both(batch) && e.a < |g.nei|
      ensures e.b !in g.nei[e.a]
    {
      if e !in batch { assert Edge(e.b, e.a) in batch; }
    }
  }

  /** A good batch brings no loop. */
  lemma NoNewLoop(g0: Graph, es: set<Edge>, batch: seq<Edge>)
    requires g0.Valid() && g0.Loopless() && Unrepeated(batch) && Grow(g0, es).Valid() && Symmetric(g0, es)
    requires forall e :: e in es ==> Among(batch, e)
    ensures Grow(g0, es).Loopless()
  {
    GrowIsValid(g0, es);
    forall e | Among(batch, e)
      ensures e.a != e.b
    {
    }
    forall v: nat | v < |g0.nei|
      ensures Edge(v, v) !in es
    {
    }
  }

  // ---- Cutting ----

  /** The edges in the `count` update numbers from `start` on: two numbers each, and none for a single one at the end. */
  function Pairs(update: seq<nat>, start: nat, count: nat): (batch: seq<Edge>)
    requires start + count <= |update|
    ensures |batch| == count / 2 && forall k :: 0 <= k < count / 2 ==> batch[k] == Edge(update[start + 2 * k], update[start + 2 * k + 1])
  {
    seq(count / 2, (k: nat) requires k < count / 2 => Edge(update[start + 2 * k], update[start + 2 * k + 1]))
  }

  /** The edges of all batches from `start` on, when each batch takes `size` numbers. */
  function Stream(update: seq<nat>, size: nat, start: nat): seq<Edge>
    requires 0 < size
    decreases |update| - start
  {
    if start >= |update| then []
    else
      var count := if size <= |update| - start then size else |update| - start;
      Pairs(update, start, count) + Stream(update, size, start + count)
  }

  /** The batches from `start` on. */
  function Cut(update: seq<nat>, size: nat, start: nat): seq<seq<Edge>>
    requires 0 < size
    decreases |update| - start
  {
    if start >= |update| then []
    else
      var count := if size <= |update| - start then size else |update| - start;
      [Pairs(update, start, count)] + Cut(update, size, start + count)
  }

  lemma CutNext(update: seq<nat>, size: nat, start: nat, count: nat)
    requires 0 < size && start < |update| && count == if size <= |update| - start then size else |update| - start
    ensures start + count <= |update| && Cut(update, size, start) == [Pairs(update, start, count)] + Cut(update, size, start + count)
  {
  }

  lemma CutEnds(update: seq<nat>, size: nat, start: nat)
    requires 0 < size && start >= |update|
    ensures Cut(update, size, start) == []
  {
  }

  /** The edges of the first `i` batches. */
  function Joined(batches: seq<seq<Edge>>, i: nat): seq<Edge>
    requires i <= |batches|
  {
    if i == 0 then [] else Joined(batches, i - 1) + batches[i - 1]
  }

  lemma {:induction false} JoinedFront(batch: seq<Edge>, rest: seq<seq<Edge>>, i: nat)
    requires i <= |rest|
    ensures Joined([batch] + rest, i + 1) == batch + Joined(rest, i)
    decreases i
  {
    if i > 0 { JoinedFront(batch, rest, i - 1); }
  }

  /** The batches hold the edges of the stream, in this order. */
  lemma {:induction false} CutJoined(update: seq<nat>, size: nat, start: nat)
    requires 0 < size
    ensures Joined(Cut(update, size, start), |Cut(update, size, start)|) == Stream(update, size, start)
    decreases |update| - start
  {
    if start < |update| {
      var count := if size <= |update| - start then size else |update| - start;
      CutNext(update, size, start, count);
      CutJoined(update, size, start + count);
      StreamNext(update, size, start, count);
      var rest := Cut(update, size, start + count);
      JoinedFront(Pairs(update, start, count), rest, |rest|);
    }
  }

  /** All batches are good. */
  ghost predicate GoodBatches(n: nat, batches: seq<seq<Edge>>) {
    forall i :: 0 <= i < |batches| ==> GoodBatch(n, batches[i])
  }

  /** A stream without repetitions is cut into good batches. */
  lemma {:induction false} GoodStream(n: nat, update: seq<nat>, size: nat, start: nat)
    requires 0 < size && GoodBatch(n, Stream(update, size, start))
    ensures GoodBatches(n, Cut(update, size, start))
    decreases |update| - start
  {
    hide GoodBatch, Pairs;
    if start < |update| {
      var count := if size <= |update| - start then size else |update| - start;
      var front, rest := Pairs(update, start, count), Stream(update, size, start + count);
      StreamNext(update, size, start, count);
      CutNext(update, size, start, count);
      GoodParts(n, front, rest);
      GoodStream(n, update, size, start + count);
    }
  }

  lemma GoodParts(n: nat, front: seq<Edge>, rest: seq<Edge>)
    requires GoodBatch(n, front + rest)
    ensures GoodBatch(n, front) && GoodBatch(n, rest)
  {
    var all := front + rest;
    assert forall i :: 0 <= i < |front| ==> front[i] == all[i];
    assert forall i :: 0 <= i < |rest| ==> rest[i] == all[|front| + i];
  }

  lemma StreamNext(update: seq<nat>, size: nat, start: nat, count: nat)
    requires 0 < size && start < |update| && count == if size <= |update| - start then size else |update| - start
    ensures start + count <= |update| && Stream(update, size, start) == Pairs(update, start, count) + Stream(update, size, start + count)
  {
  }

  lemma StreamEnds(update: seq<nat>, size: nat, start: nat)
    requires 0 < size && start >= |update|
    ensures Stream(update, size, start) == []
  {
  }

  /** The batches are the edges of the stream exactly when a batch holds an even number of update numbers, or all of
      them: an odd batch size tears pairs apart. */
  lemma BatchesAreTheStream(update: seq<nat>, size: nat)
    requires 0 < size && |update| % 2 == 0
    ensures Stream(update, size, 0) == Pairs(update, 0, |update|) <==> size % 2 == 0 || |update| <= size
  {
    if size % 2 == 0 || |update| <= size {
      if update != [] { EvenBatches(update, size, 0); }
    } else {
      FewerPairs(update, size, size);
      StreamNext(update, size, 0, size);
    }
  }

  lemma {:induction false} EvenBatches(update: seq<nat>, size: nat, start: nat)
    requires 0 < size && start <= |update| && (|update| - start) % 2 == 0 && (size % 2 == 0 || |update| - start <= size)
    ensures Stream(update, size, start) == Pairs(update, start, |update| - start)
    decreases |update| - start
  {
    hide Pairs;
    if start < |update| {
      var count := if size <= |update| - start then size else |update| - start;
      EvenBatches(update, size, start + count);
      StreamNext(update, size, start, count);
      PairsSplit(update, start, count, |update| - start);
    } else {
      NoPairs(update, start);
    }
  }

  lemma NoPairs(update: seq<nat>, start: nat)
    requires start <= |update|
    ensures Pairs(update, start, 0) == []
  {
  }

  /** An even cut tears no pair apart. */
  lemma PairsSplit(update: seq<nat>, start: nat, count: nat, all: nat)
    requires count <= all && start + all <= |update| && count % 2 == 0
    ensures Pairs(update, start, all) == Pairs(update, start, count) + Pairs(update, start + count, all - count)
  {
    var whole, front, rest := Pairs(update, start, all), Pairs(update, start, count), Pairs(update, start + count, all - count);
    assert all / 2 == count / 2 + (all - count) / 2;
    forall k | 0 <= k < all / 2
      ensures whole[k] == (front + rest)[k]
    {
      if k >= count / 2 { assert start + count + 2 * (k - count / 2) == start + 2 * k; }
    }
  }

  /** No batching finds more edges than half the numbers. */
  lemma {:induction false} FewerPairs(update: seq<nat>, size: nat, start: nat)
    requires 0 < size && start <= |update|
    ensures 2 * |Stream(update, size, start)| <= |update| - start
    decreases |update| - start
  {
    if start < |update| {
      var count := if size <= |update| - start then size else |update| - start;
      StreamNext(update, size, start, count);
      FewerPairs(update, size, start + count);
    }
  }

  /** A batch size of three loses the second edge of two. */
  lemma ThreeTears()
    ensures Stream([0, 1, 2, 3], 3, 0) == [Edge(0, 1)] != Pairs([0, 1, 2, 3], 0, 4)
  {
    StreamNext([0, 1, 2, 3], 3, 0, 3);
    StreamNext([0, 1, 2, 3], 3, 3, 1);
    StreamEnds([0, 1, 2, 3], 3, 4);
  }

  // ---- The graph ----

  /** The filter's graph is the first one with the labelled edges of the stream. */
  ghost predicate Applied(first: Graph, g: Graph, stream: seq<Edge>) {
    && g.labels == first.labels && |g.nei| == |first.nei|
    && forall e: Edge :: e.a < |g.nei| ==> (e.b in g.nei[e.a] <==> e.b in first.nei[e.a] || InBatch(g.labels, stream, e))
  }

  lemma BatchApplied(g: Graph, es: set<Edge>, batch: seq<Edge>)
    requires g.Valid() && Symmetric(g, es) && forall e :: e in es <==> InBatch(g.labels, batch, e) && e.b !in g.nei[e.a]
    ensures Applied(g, Grow(g, es), batch)
  {
    hide InBatch;
    GrowIsValid(g, es);
    forall e: Edge | e.a < |g.nei|
      ensures e.b in Grow(g, es).nei[e.a] <==> e.b in g.nei[e.a] || InBatch(g.labels, batch, e)
    {
      assert Edge(e.a, e.b) == e;
    }
  }

  /** What comes later in a fresh stream without repetitions is still new. */
  lemma StillFresh(first: Graph, g: Graph, front: seq<Edge>, batch: seq<Edge>)
    requires Unrepeated(front + batch) && FreshBatch(first, front + batch) && Applied(first, g, front)
    ensures FreshBatch(g, batch)
  {
    var stream := front + batch;
    forall k | 0 <= k < |batch|
      ensures batch[k].a < |g.nei| && batch[k].b !in g.nei[batch[k].a]
    {
      var d := |front| + k;
      assert stream[d] == batch[k] && forall i :: 0 <= i < |front| ==> stream[i] == front[i];
      assert !Among(front, stream[d]);
    }
  }

  lemma AppliedMore(first: Graph, g: Graph, g': Graph, front: seq<Edge>, batch: seq<Edge>)
    requires Applied(first, g, front) && Applied(g, g', batch)
    ensures Applied(first, g', front + batch)
  {
  }

  /** The edges of good batches join data vertices. */
  lemma {:induction false} JoinedInRange(n: nat, batches: seq<seq<Edge>>, i: nat)
    requires i <= |batches| && GoodBatches(n, batches)
    ensures forall e :: e in Joined(batches, i) ==> e.a < n && e.b < n
    decreases i
  {
    if i > 0 {
      JoinedInRange(n, batches, i - 1);
      assert GoodBatch(n, batches[i - 1]);
    }
  }

  /** Edges that end in a vertex without a query label carry no embedding. */
  lemma AllApplied(q: Graph, first: Graph, g: Graph, stream: seq<Edge>)
    requires q.Valid() && first.Valid() && g.Valid() && Applied(first, g, stream) && forall e :: e in stream ==> e.a < |first.nei| && e.b < |first.nei|
    requires forall u :: 0 <= u < |q.labels| ==> q.labels[u] != NoLabel
    ensures Symmetric(first, Both(stream)) && Grow(first, Both(stream)).Valid()
    ensures Embeddings(q, Grow(first, Both(stream))) == Embeddings(q, g)
  {
    GrowIsValid(first, Both(stream));
    var full := Grow(first, Both(stream));
    forall v: nat, y: nat | v < |g.nei| && y < |g.nei| && g.labels[v] != NoLabel && g.labels[y] != NoLabel
      ensures y in full.nei[v] <==> y in g.nei[v]
    {
      assert Edge(v, y) in Both(stream) <==> Among(stream, Edge(v, y));
      assert Edge(v, y).b in g.nei[v] <==> Edge(v, y).b in first.nei[v] || InBatch(g.labels, stream, Edge(v, y));
    }
    SameEmbeddings(q, full, g);
  }

  lemma SameEmbeddings(q: Graph, g: Graph, g': Graph)
    requires q.Valid() && g.Valid() && g'.Valid() && g.labels == g'.labels
    requires forall u :: 0 <= u < |q.labels| ==> q.labels[u] != NoLabel
    requires forall v: nat, y: nat :: v < |g.nei| && y < |g.nei| && g.labels[v] != NoLabel && g.labels[y] != NoLabel ==> (y in g.nei[v] <==> y in g'.nei[v])
    ensures Embeddings(q, g) == Embeddings(q, g')
  {
    forall h
      ensures Embedding(q, g, h) <==> Embedding(q, g', h)
    {
    }
  }
}
