/** From the logs of a batch to the lists that the second stage keeps: packed edges, the merges that they
    ask for, and how the lists stand to the filter before and after a batch is matched. */
module Staging {
  import opened Graphs
  import opened CaligIndex
  import opened CaligRounds
  import opened CaligLogs
  import opened QueryPaths
  import opened QueryMeta
  import opened QueryPlan
  import opened EdgeLists
  import opened Mirror
  import opened Batches

  // ---- Packed entries ----

  /** The slot belongs to a directed query edge. */
  ghost predicate OfQuery(q: Graph, s: Slot) {
    s.u < |q.nei| && s.w in q.nei[s.u]
  }

  function Code(meta: Meta, e: Entry): nat {
    Encode(meta.Eidx(e.s.u, e.s.w), e.s.v, e.y)
  }

  /** The entry belongs to a query edge, and its data vertices fit into packed edges. */
  ghost predicate Packable(q: Graph, e: Entry) {
    OfQuery(q, e.s) && e.s.v < U_RANGE && e.y < V_RANGE
  }

  lemma CodeParts(meta: Meta, e: Entry)
    requires e.s.v < U_RANGE && e.y < V_RANGE
    ensures EdgeIdx(Code(meta, e)) == meta.Eidx(e.s.u, e.s.w) && EdgeU(Code(meta, e)) == e.s.v && EdgeV(Code(meta, e)) == e.y
    ensures meta.Eidx(e.s.u, e.s.w) < 32 <==> Code(meta, e) < WORD
  {
    EncodeRoundTrip(meta.Eidx(e.s.u, e.s.w), e.s.v, e.y);
  }

  /** Different directed query edges have different numbers. */
  lemma EidxInjective(q: Graph, query: Query, meta: Meta, s: Slot, t: Slot)
    requires q.Valid() && query.Valid() && SameQuery(q, query) && meta.Valid(query) && OfQuery(q, s) && OfQuery(q, t)
    requires meta.Eidx(s.u, s.w) == meta.Eidx(t.u, t.w)
    ensures s.u == t.u && s.w == t.w
  {
    assert query.Adj(s.u, s.w) && query.Adj(t.u, t.w);
    assert (s.u, s.w) in meta.eidx && (t.u, t.w) in meta.eidx;
  }

  /** The edges are the codes of the entries. */
  ghost predicate Encodes(meta: Meta, edges: seq<nat>, entries: set<Entry>) {
    && (forall e :: e in entries ==> Code(meta, e) in edges)
    && (forall k :: k in edges ==> CodeOf(meta, entries, k))
  }

  ghost predicate CodeOf(meta: Meta, entries: set<Entry>, k: nat) {
    exists e :: e in entries && Code(meta, e) == k
  }

  /** The list that packed edges give for a slot holds exactly its entries. */
  lemma VsOfEntries(q: Graph, query: Query, meta: Meta, edges: seq<nat>, entries: set<Entry>, s: Slot, y: nat)
    requires q.Valid() && query.Valid() && SameQuery(q, query) && meta.Valid(query) && OfQuery(q, s)
    requires Encodes(meta, edges, entries) && forall e :: e in entries ==> Packable(q, e)
    ensures y in Vs(edges, meta.Eidx(s.u, s.w), s.v) <==> Entry(s, y) in entries
  {
    var idx := meta.Eidx(s.u, s.w);
    VsContents(edges, idx, s.v, y);
    if y in Vs(edges, idx, s.v) {
      var k :| 0 <= k < |edges| && Matches(edges[k], idx, s.v) && EdgeV(edges[k]) == y;
      assert CodeOf(meta, entries, edges[k]);
      var e :| e in entries && Code(meta, e) == edges[k];
      CodeParts(meta, e);
      EidxInjective(q, query, meta, s, e.s);
      assert e == Entry(s, y);
    }
    if Entry(s, y) in entries {
      var e := Entry(s, y);
      CodeParts(meta, e);
      var k :| 0 <= k < |edges| && edges[k] == Code(meta, e);
      assert Matches(edges[k], idx, s.v) && EdgeV(edges[k]) == y;
    }
  }

  /** Packs the logged entries; insertions of pairs that are off are dropped. */
  method PrepareUpdateAll(meta: Meta, li: set<Pair>, ins: set<Entry>, del: set<Entry>) returns (insEdges: seq<nat>, delEdges: seq<nat>)
    ensures Encodes(meta, insEdges, set e | e in ins && Here(e.s) in li)
    ensures Encodes(meta, delEdges, del)
  {
    insEdges := EncodeSet(meta, set e | e in ins && Here(e.s) in li);
    delEdges := EncodeSet(meta, del);
  }

  method EncodeSet(meta: Meta, entries: set<Entry>) returns (edges: seq<nat>)
    ensures Encodes(meta, edges, entries)
  {
    edges := [];
    var todo := entries;
    ghost var done: set<Entry> := {};
    while todo != {}
      invariant todo + done == entries && Encodes(meta, edges, done)
      decreases todo
    {
      var e :| e in todo;
      EncodesMore(meta, edges, done, e);
      todo, done := todo - {e}, done + {e};
      edges := edges + [Code(meta, e)];
    }
    assert done == entries;
  }

  lemma EncodesMore(meta: Meta, edges: seq<nat>, done: set<Entry>, e: Entry)
    requires Encodes(meta, edges, done)
    ensures Encodes(meta, edges + [Code(meta, e)], done + {e})
  {
    forall k | k in edges + [Code(meta, e)]
      ensures CodeOf(meta, done + {e}, k)
    {
      if k in edges {
        assert CodeOf(meta, done, k);
        var r :| r in done && Code(meta, r) == k;
        assert r in done + {e};
      } else {
        assert e in done + {e} && Code(meta, e) == k;
      }
    }
  }

  /** The batch has an update for the directed query edge `idx`. */
  ghost predicate HasUpdate(meta: Meta, update: seq<Entry>, idx: nat) {
    exists i :: 0 <= i < |update| && meta.Eidx(update[i].s.u, update[i].s.w) == idx
  }

  /** Packs the update entries and tells which query edges have updates in both directions. */
  method PrepareUpdateIndex(meta: Meta, update: seq<Entry>) returns (updEdges: seq<nat>, edgeOk: seq<bool>)
    ensures |updEdges| == |update| && forall i :: 0 <= i < |update| ==> updEdges[i] == Code(meta, update[i])
    ensures |edgeOk| == |meta.qeList|
    ensures forall e :: 0 <= e < |edgeOk| ==> (edgeOk[e] <==>
      HasUpdate(meta, update, meta.Eidx(meta.qeList[e].0, meta.qeList[e].1)) && HasUpdate(meta, update, meta.Eidx(meta.qeList[e].1, meta.qeList[e].0)))
  {
    updEdges := [];
    var flat: set<nat> := {};
    for i := 0 to |update|
      invariant |updEdges| == i && forall k :: 0 <= k < i ==> updEdges[k] == Code(meta, update[k])
      invariant forall idx :: idx in flat <==> exists k :: 0 <= k < i && meta.Eidx(update[k].s.u, update[k].s.w) == idx
    {
      updEdges := updEdges + [Code(meta, update[i])];
      flat := flat + {meta.Eidx(update[i].s.u, update[i].s.w)};
    }
    edgeOk := [];
    for e := 0 to |meta.qeList|
      invariant |edgeOk| == e
      invariant forall k :: 0 <= k < e ==> (edgeOk[k] <==>
        HasUpdate(meta, update, meta.Eidx(meta.qeList[k].0, meta.qeList[k].1)) && HasUpdate(meta, update, meta.Eidx(meta.qeList[k].1, meta.qeList[k].0)))
    {
      var (u0, u1) := meta.qeList[e];
      assert HasUpdate(meta, update, meta.Eidx(u0, u1)) <==> meta.Eidx(u0, u1) in flat;
      assert HasUpdate(meta, update, meta.Eidx(u1, u0)) <==> meta.Eidx(u1, u0) in flat;
      edgeOk := edgeOk + [meta.Eidx(u0, u1) in flat && meta.Eidx(u1, u0) in flat];
    }
  }

  // ---- Lists ----

  /** The lists hold `y` for slot `s`. */
  ghost predicate Holds(meta: Meta, lists: Lists, s: Slot, y: nat) {
    y in lists(meta.Eidx(s.u, s.w), s.v)
  }

  /** How main lists stand to the filter between batches: they hold all candidates of on pairs, and of the
      candidates of off pairs at most those that are left. */
  ghost predicate MainFor(q: Graph, meta: Meta, x: Index, main: Lists) {
    forall s, y :: OfQuery(q, s) ==> KeptFor(meta, x, main, s, y)
  }

  ghost predicate KeptFor(meta: Meta, x: Index, main: Lists, s: Slot, y: nat) {
    && (Holds(meta, main, s, y) ==> s in x.cand && y in x.cand[s])
    && (LiveEntry(x, s, y) ==> Holds(meta, main, s, y))
  }

  /** While the batch is matched: the same without the candidates of on pairs over its edges. */
  ghost predicate MainWithout(q: Graph, meta: Meta, x: Index, es: set<Edge>, main: Lists) {
    forall s, y :: OfQuery(q, s) ==> KeptWithout(meta, x, es, main, s, y)
  }

  ghost predicate KeptWithout(meta: Meta, x: Index, es: set<Edge>, main: Lists, s: Slot, y: nat) {
    && (Holds(meta, main, s, y) ==> s in x.cand && y in x.cand[s])
    && (LiveEntry(x, s, y) ==> (Holds(meta, main, s, y) <==> Edge(s.v, y) !in es))
  }

  /** `after` is `before` with the entries added, or taken out. */
  ghost predicate Merging(q: Graph, meta: Meta, before: Lists, after: Lists, entries: set<Entry>, isInsert: bool) {
    forall s, y :: OfQuery(q, s) ==> MergedAt(meta, before, after, entries, isInsert, s, y)
  }

  ghost predicate MergedAt(meta: Meta, before: Lists, after: Lists, entries: set<Entry>, isInsert: bool, s: Slot, y: nat) {
    Holds(meta, after, s, y) <==>
      if isInsert then Holds(meta, before, s, y) || Entry(s, y) in entries else Holds(meta, before, s, y) && Entry(s, y) !in entries
  }

  /** The live entries over the edges of the batch. */
  ghost predicate UpdatesFor(x: Index, es: set<Edge>, update: set<Entry>) {
    forall t: Entry :: t in update <==> LiveEntry(x, t.s, t.y) && Edge(t.s.v, t.y) in es
  }

  /** Merging the insertions of on pairs and taking out the erasures and the updates makes the main lists
      of the filter before the batch those of the filter after it, without the new edges. */
  lemma MainDuring(q: Graph, g0: Graph, grown: set<Edge>, es: set<Edge>, meta: Meta, x0: Index, x: Index, ins: set<Entry>, del: set<Entry>,
                   update: set<Entry>, main0: Lists, main1: Lists, main2: Lists)
    requires q.Valid() && g0.Valid() && Shaped(q, g0, x0) && DeltasFor(q, g0, grown, x0, x, ins, del) && UpdatesFor(x, es, update)
    requires grown <= es && forall e :: e in grown ==> e.a < |g0.nei| && e.b !in g0.nei[e.a]
    requires MainFor(q, meta, x0, main0)
    requires Merging(q, meta, main0, main1, set e | e in ins && Here(e.s) in x.on, true)
    requires Merging(q, meta, main1, main2, del + update, false)
    ensures MainWithout(q, meta, x, es, main2)
  {
    forall s, y | OfQuery(q, s)
      ensures KeptWithout(meta, x, es, main2, s, y)
    {
      assert Accounted(q, g0, grown, x0, x, ins, del, s, y);
      assert KeptFor(meta, x0, main0, s, y);
      assert MergedAt(meta, main0, main1, set e | e in ins && Here(e.s) in x.on, true, s, y);
      assert MergedAt(meta, main1, main2, del + update, false, s, y);
      if s in x0.cand && y in x0.cand[s] {
        assert IsSlot(q, g0, s) && y in Potential(q, g0, s);
        assert Edge(s.v, y) !in grown;
      }
      assert NewEntry(q, g0, grown, s, y) ==> Edge(s.v, y) in grown;
      assert Entry(s, y) in update <==> LiveEntry(x, s, y) && Edge(s.v, y) in es;
    }
  }

  /** Merging the updates after the batch has been matched makes the main lists complete again. */
  lemma MainAfter(q: Graph, meta: Meta, x: Index, es: set<Edge>, update: set<Entry>, main2: Lists, main3: Lists)
    requires MainWithout(q, meta, x, es, main2) && UpdatesFor(x, es, update) && Merging(q, meta, main2, main3, update, true)
    ensures MainFor(q, meta, x, main3)
  {
    forall s, y | OfQuery(q, s)
      ensures KeptFor(meta, x, main3, s, y)
    {
      assert KeptWithout(meta, x, es, main2, s, y) && MergedAt(meta, main2, main3, update, true, s, y);
      assert Entry(s, y) in update <==> LiveEntry(x, s, y) && Edge(s.v, y) in es;
    }
  }

  /** The main lists and the update lists of a batch are what the searches need. */
  lemma StagedLists(q: Graph, g: Graph, plan: Plan, meta: Meta, x: Index, es: set<Edge>, update: set<Entry>, main: Lists, upd: Lists)
    requires q.Valid() && g.Valid() && Shaped(q, g, x) && (forall u, w :: plan.eidx(u, w) == meta.Eidx(u, w))
    requires MainWithout(q, meta, x, es, main) && UpdatesFor(x, es, update)
    requires forall s, y :: OfQuery(q, s) ==> (Holds(meta, upd, s, y) <==> Entry(s, y) in update)
    ensures StagedFrom(q, g, plan, x, es, main, upd)
  {
    forall s: Slot, y: nat | s.u < |q.nei| && s.w in q.nei[s.u]
      ensures EntryStaged(q, g, plan, x, es, main, upd, s, y)
    {
      assert OfQuery(q, s) && KeptWithout(meta, x, es, main, s, y);
      assert plan.eidx(s.u, s.w) == meta.Eidx(s.u, s.w);
      assert Holds(meta, upd, s, y) <==> Entry(s, y) in update;
    }
  }
}
