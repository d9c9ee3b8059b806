/** Vertex-labelled undirected graphs and subgraph embeddings. */
module Graphs {
  import opened Sequences

  /** The label the loader gives to data vertices whose label no query vertex carries. */
  const NoLabel := -1

  /** `labels[v]` is the label of vertex `v`, `nei[v]` its adjacency set. */
  datatype Graph = Graph(labels: seq<int>, nei: seq<set<nat>>) {

    ghost predicate Valid() {
      && |labels| == |nei|
      && (forall v :: 0 <= v < |nei| ==> forall w :: w in nei[v] ==> w < |nei|)
      && (forall v :: 0 <= v < |nei| ==> forall w :: w in nei[v] ==> v in nei[w])
    }

    /** No vertex is its own neighbour. */
    ghost predicate Loopless()
      requires Valid()
    {
      forall v :: 0 <= v < |nei| ==> v !in nei[v]
    }
  }

  /** How many neighbours the first `n` vertices have together. */
  function Degrees(nei: seq<set<nat>>, n: nat): nat
    requires n <= |nei|
  {
    if n == 0 then 0 else Degrees(nei, n - 1) + |nei[n - 1]|
  }

  lemma {:induction false} DegreesGrow(nei: seq<set<nat>>, nei': seq<set<nat>>, n: nat)
    requires n <= |nei| <= |nei'| && forall v :: 0 <= v < n ==> nei[v] <= nei'[v]
    ensures Degrees(nei, n) <= Degrees(nei', n)
  {
    if n > 0 {
      DegreesGrow(nei, nei', n - 1);
      SubsetSize(nei[n - 1], nei'[n - 1]);
    }
  }

  /** `f` maps query vertex `u` to data vertex `f[u]`: injective, label and edge preserving. */
  ghost predicate Embedding(q: Graph, g: Graph, f: seq<nat>)
    requires q.Valid() && g.Valid()
  {
    && |f| == |q.labels|
    && (forall u :: 0 <= u < |f| ==> f[u] < |g.labels| && g.labels[f[u]] == q.labels[u])
    && (forall u, w :: 0 <= u < w < |f| ==> f[u] != f[w])
    && (forall u, w :: 0 <= u < |f| && w in q.nei[u] ==> f[w] in g.nei[f[u]])
  }

  /** All lists of `n` numbers below `dv`. */
  ghost function Tuples(n: nat, dv: nat): set<seq<nat>> {
    if n == 0 then {[]} else set t, v | t in Tuples(n - 1, dv) && v in Range(dv) :: t + [v]
  }

  lemma {:induction false} InTuples(n: nat, dv: nat, h: seq<nat>)
    requires |h| == n && forall u :: 0 <= u < n ==> h[u] < dv
    ensures h in Tuples(n, dv)
    decreases n
  {
    if n > 0 {
      InTuples(n - 1, dv, h[..n - 1]);
      assert h == h[..n - 1] + [h[n - 1]];
    }
  }

  /** All embeddings of the query in the data graph. */
  ghost function Embeddings(q: Graph, g: Graph): (all: set<seq<nat>>)
    requires q.Valid() && g.Valid()
    ensures forall h :: h in all <==> Embedding(q, g, h)
  {
    var all := set h | h in Tuples(|q.labels|, |g.labels|) && Embedding(q, g, h);
    assert forall h :: Embedding(q, g, h) ==> h in all by {
      forall h | Embedding(q, g, h)
        ensures h in all
      {
        InTuples(|q.labels|, |g.labels|, h);
      }
    }
    all
  }
}
