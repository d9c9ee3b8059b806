/** The filter state of CaLiG, its invariants, and what each round of the worklists does to it.

    A pair (v, u) is "on" when bit u of the mask of data vertex v is set.  The candidate set of
    the slot (v, u, w) holds the neighbours of v that may stand for w while v stands for u. */
module CaligIndex {
  import opened Graphs

  datatype Pair = Pair(v: nat, u: nat)

  datatype Slot = Slot(v: nat, u: nat, w: nat)

  datatype Index = Index(on: set<Pair>, cand: map<Slot, set<nat>>)

  predicate IsPair(q: Graph, g: Graph, p: Pair) {
    p.v < |g.labels| && p.u < |q.labels| && g.labels[p.v] == q.labels[p.u]
  }

  predicate IsSlot(q: Graph, g: Graph, s: Slot)
    requires |q.nei| == |q.labels|
  {
    IsPair(q, g, Pair(s.v, s.u)) && s.w in q.nei[s.u]
  }

  /** What a slot would hold if nothing had been filtered. */
  function Potential(q: Graph, g: Graph, s: Slot): set<nat>
    requires q.Valid() && g.Valid() && IsSlot(q, g, s)
  {
    set y | y in g.nei[s.v] && g.labels[y] == q.labels[s.w]
  }

  ghost predicate Shaped(q: Graph, g: Graph, x: Index)
    requires q.Valid() && g.Valid()
  {
    && (forall p :: p in x.on ==> IsPair(q, g, p))
    && (forall s :: s in x.cand <==> IsSlot(q, g, s))
    && (forall s :: s in x.cand ==> x.cand[s] <= Potential(q, g, s))
  }

  /** `y` could be in slot `s` but has been erased from it. */
  ghost predicate Missing(q: Graph, g: Graph, x: Index, s: Slot, y: nat)
    requires q.Valid() && g.Valid() && Shaped(q, g, x)
  {
    s in x.cand && y in Potential(q, g, s) && y !in x.cand[s]
  }

  function Here(s: Slot): Pair { Pair(s.v, s.u) }

  function There(s: Slot, y: nat): Pair { Pair(y, s.w) }

  function Back(s: Slot, y: nat): Slot { Slot(y, s.w, s.u) }

  /** A choice of distinct candidates, one for each query neighbour of `p.u`. */
  ghost predicate Choice(q: Graph, cand: map<Slot, set<nat>>, p: Pair, ws: set<nat>, ch: map<nat, nat>) {
    && ch.Keys == ws
    && (forall w :: w in ws ==> Slot(p.v, p.u, w) in cand && ch[w] in cand[Slot(p.v, p.u, w)])
    && (forall w, w' :: w in ws && w' in ws && w != w' ==> ch[w] != ch[w'])
  }

  /** The meaning of `checkNei`: the query neighbours of `p.u` have distinct candidates. */
  ghost predicate Supported(q: Graph, cand: map<Slot, set<nat>>, p: Pair)
    requires p.u < |q.nei|
  {
    exists ch :: Choice(q, cand, p, q.nei[p.u], ch)
  }

  /** A missing entry points at an off pair that went off before its owner did. */
  ghost predicate Ordered(q: Graph, g: Graph, x: Index, rank: Pair -> nat)
    requires q.Valid() && g.Valid() && Shaped(q, g, x)
  {
    forall s, y :: Missing(q, g, x, s, y) ==>
      There(s, y) !in x.on && (Here(s) in x.on || rank(There(s, y)) < rank(Here(s)))
  }

  /** Every off pair fails the neighbour check on the current candidate sets. */
  ghost predicate Refuted(q: Graph, g: Graph, x: Index)
    requires q.Valid()
  {
    forall p :: IsPair(q, g, p) && p !in x.on ==> !Supported(q, x.cand, p)
  }

  ghost predicate RanksBelow(q: Graph, g: Graph, x: Index, rank: Pair -> nat, clock: nat) {
    forall p :: IsPair(q, g, p) && p !in x.on ==> rank(p) < clock
  }

  /** On pairs have no empty slot. */
  ghost predicate NonEmpty(x: Index) {
    forall s :: s in x.cand && Here(s) in x.on ==> x.cand[s] != {}
  }

  /** The slots of on pairs hold on pairs only, except for those waiting in `queue`. */
  ghost predicate SettledBut(x: Index, queue: set<Pair>) {
    forall s, y :: s in x.cand && Here(s) in x.on && y in x.cand[s] ==>
      There(s, y) in x.on || There(s, y) in queue
  }

  /** What holds between batches and between rounds of the delete loop; `queue` is the work left. */
  ghost predicate DelInv(q: Graph, g: Graph, x: Index, rank: Pair -> nat, clock: nat, queue: set<Pair>) {
    && q.Valid() && g.Valid() && Shaped(q, g, x)
    && Ordered(q, g, x, rank)
    && Refuted(q, g, x)
    && RanksBelow(q, g, x, rank, clock)
    && NonEmpty(x)
    && SettledBut(x, queue)
    && queue !! x.on
    && (forall p :: p in queue ==> IsPair(q, g, p))
  }

  // ---- The main theorem ----

  ghost predicate Retained(q: Graph, x: Index, f: seq<nat>)
    requires q.Valid() && |f| == |q.labels|
  {
    && (forall u :: 0 <= u < |f| ==> Pair(f[u], u) in x.on)
    && (forall u, w :: 0 <= u < |f| && w in q.nei[u] ==>
          Slot(f[u], u, w) in x.cand && f[w] in x.cand[Slot(f[u], u, w)])
  }

  /** The off pairs of `f` among the first `n` query vertices, least rank first. */
  lemma {:induction false} LeastRank(x: Index, f: seq<nat>, rank: Pair -> nat, n: nat) returns (k: int)
    requires n <= |f|
    ensures -1 <= k < n
    ensures k == -1 ==> forall u :: 0 <= u < n ==> Pair(f[u], u) in x.on
    ensures k >= 0 ==> Pair(f[k], k) !in x.on
    ensures k >= 0 ==> forall u :: 0 <= u < n && Pair(f[u], u) !in x.on ==> rank(Pair(f[k], k)) <= rank(Pair(f[u], u))
  {
    k := -1;
    for i := 0 to n
      invariant -1 <= k < i
      invariant k == -1 ==> forall u :: 0 <= u < i ==> Pair(f[u], u) in x.on
      invariant k >= 0 ==> Pair(f[k], k) !in x.on
      invariant k >= 0 ==> forall u :: 0 <= u < i && Pair(f[u], u) !in x.on ==> rank(Pair(f[k], k)) <= rank(Pair(f[u], u))
    {
      if Pair(f[i], i) !in x.on && (k == -1 || rank(Pair(f[i], i)) < rank(Pair(f[k], k))) {
        k := i;
      }
    }
  }

  /** The entries of an embedding in the slots of a pair support that pair. */
  lemma EmbeddingSupports(q: Graph, g: Graph, x: Index, f: seq<nat>, u: nat)
    requires q.Valid() && g.Valid() && Embedding(q, g, f) && u < |f|
    requires forall w :: w in q.nei[u] ==> Slot(f[u], u, w) in x.cand && f[w] in x.cand[Slot(f[u], u, w)]
    ensures Supported(q, x.cand, Pair(f[u], u))
  {
    var ch := map w | w in q.nei[u] :: f[w];
    assert Choice(q, x.cand, Pair(f[u], u), q.nei[u], ch);
  }

  /** The off pair of `f` that went off first still sees all the others, so it is supported. */
  lemma FirstOffIsSupported(q: Graph, g: Graph, x: Index, rank: Pair -> nat, f: seq<nat>, k: nat)
    requires q.Valid() && g.Valid() && Shaped(q, g, x) && Ordered(q, g, x, rank) && Embedding(q, g, f)
    requires k < |f| && Pair(f[k], k) !in x.on
    requires forall u :: 0 <= u < |f| && Pair(f[u], u) !in x.on ==> rank(Pair(f[k], k)) <= rank(Pair(f[u], u))
    ensures Supported(q, x.cand, Pair(f[k], k))
  {
    forall w | w in q.nei[k]
      ensures Slot(f[k], k, w) in x.cand && f[w] in x.cand[Slot(f[k], k, w)]
    {
      var s := Slot(f[k], k, w);
      assert IsSlot(q, g, s);
      assert There(s, f[w]) == Pair(f[w], w);
      assert !Missing(q, g, x, s, f[w]);
    }
    EmbeddingSupports(q, g, x, f, k);
  }

  /** No embedding is ever filtered out. */
  lemma NoEmbeddingLost(q: Graph, g: Graph, x: Index, rank: Pair -> nat, clock: nat, queue: set<Pair>, f: seq<nat>)
    requires DelInv(q, g, x, rank, clock, queue)
    requires Embedding(q, g, f)
    ensures Retained(q, x, f)
  {
    var k := LeastRank(x, f, rank, |f|);
    if k >= 0 {
      assert IsPair(q, g, Pair(f[k], k));
      FirstOffIsSupported(q, g, x, rank, f, k);
      assert false;
    }
    forall u, w | 0 <= u < |f| && w in q.nei[u]
      ensures Slot(f[u], u, w) in x.cand && f[w] in x.cand[Slot(f[u], u, w)]
    {
      var s := Slot(f[u], u, w);
      assert IsSlot(q, g, s);
      assert There(s, f[w]) == Pair(f[w], w);
      assert !Missing(q, g, x, s, f[w]);
    }
  }
}
