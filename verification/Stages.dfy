/** The two stages of the pipeline as values: what the first stage hands over for a batch, and what the second
    stage may conclude from it about the lists it keeps and the number it reports. */
module Stages {
  import opened Sequences
  import opened Graphs
  import opened CaligIndex
  import opened CaligRounds
  import opened CaligLogs
  import opened QueryPaths
  import opened QueryMeta
  import opened QueryPlan
  import opened EdgeLists
  import Mirror
  import opened Batches
  import opened Staging
  import opened Frontier
  import InitialRows

  /** The packed edges of a batch and the query edges that have updates in both directions. */
  datatype Stage = Stage(ins: seq<nat>, del: seq<nat>, upd: seq<nat>, edgeOk: seq<bool>)

  /** The filter after a batch, the edges that are new to the graph and all edges of the batch, and what the filter has logged. */
  datatype Facts = Facts(g: Graph, x: Index, rank: Pair -> nat, clock: nat, grown: set<Edge>, es: set<Edge>, ins: set<Entry>, del: set<Entry>, update: set<Entry>)

  /** What stays fixed over a run: the query in its two forms, its numbers, the plan, and the data labels. */
  datatype Setup = Setup(q: Graph, query: Query, meta: Meta, plan: Plan, n: nat)
  {
    ghost predicate Valid() {
      && q.Valid() && q.Loopless() && NoIsolated(q) && query.Valid() && SameQuery(q, query) && meta.Valid(query)
      && PlanFor(q, plan) && plan.n >= 3 && |plan.bni[1]| == 1 && Numbered(plan)
      && plan.m == |meta.qeList| <= 32 && meta.numDirEdges <= 32 && n <= U_RANGE
      && (forall u: nat, w: nat :: plan.eidx(u, w) == meta.Eidx(u, w)) && (forall idx: nat :: plan.dirToEdge(idx) == meta.DirToEdge(idx))
    }

    /** A data graph over the vertices below `n`, and a filter for it. */
    ghost predicate Filtered(g: Graph, x: Index) {
      q.Valid() && g.Valid() && g.Loopless() && |g.labels| == n && Shaped(q, g, x)
    }
  }

  /** A batch from the filter `(g0, x0)`: the graph grows by its new edges, and the logs account for the filter after it. */
  ghost predicate Logged(a: Setup, g0: Graph, x0: Index, f: Facts) {
    && a.Filtered(g0, x0) && a.Filtered(f.g, f.x)
    && DelInv(a.q, f.g, f.x, f.rank, f.clock, {})
    && Symmetric(g0, f.grown) && f.g == Grow(g0, f.grown) && (forall e :: e in f.grown ==> e.b !in g0.nei[e.a])
    && f.grown <= f.es && Symmetric(f.g, f.es)
    && DeltasFor(a.q, g0, f.grown, x0, f.x, f.ins, f.del) && UpdatesFor(f.x, f.es, f.update)
  }

  /** The stage packs what has been logged. */
  ghost predicate Packs(a: Setup, f: Facts, st: Stage) {
    && Encodes(a.meta, st.ins, set e | e in f.ins && Here(e.s) in f.x.on)
    && Encodes(a.meta, st.del, f.del + f.update)
    && Encodes(a.meta, st.upd, f.update) && Distinct(st.upd)
    && EdgesOk(a, f, st.edgeOk)
  }

  ghost predicate EdgesOk(a: Setup, f: Facts, edgeOk: seq<bool>) {
    && |edgeOk| == |a.meta.qeList|
    && forall e :: 0 <= e < |edgeOk| && !edgeOk[e] ==>
        Idle(a.meta, f.update, a.meta.Eidx(a.meta.qeList[e].0, a.meta.qeList[e].1)) || Idle(a.meta, f.update, a.meta.Eidx(a.meta.qeList[e].1, a.meta.qeList[e].0))
  }

  ghost predicate Idle(meta: Meta, update: set<Entry>, idx: nat) {
    forall t: Entry :: t in update ==> meta.Eidx(t.s.u, t.s.w) != idx
  }

  ghost predicate StageOk(a: Setup, g0: Graph, x0: Index, f: Facts, st: Stage) {
    Logged(a, g0, x0, f) && Packs(a, f, st)
  }

  // ---- Packed edges and merges ----

  /** Entries of the filter are entries of query edges, over data vertices. */
  lemma InGraph(a: Setup, g: Graph, x: Index, s: Slot, y: nat)
    requires a.Valid() && a.Filtered(g, x) && s in x.cand && y in x.cand[s]
    ensures Packable(a.q, Entry(s, y)) && s.v < a.n && y < a.n && y in g.nei[s.v]
  {
    assert IsSlot(a.q, g, s) && y in Potential(a.q, g, s);
  }

  /** A logged entry is in a slot of the filter and lies over data vertices. */
  lemma LoggedEntry(q: Graph, g0: Graph, g: Graph, grown: set<Edge>, es: set<Edge>, x0: Index, x: Index, ins: set<Entry>, del: set<Entry>, update: set<Entry>, e: Entry)
    requires q.Valid() && g.Valid() && Shaped(q, g, x) && |g.labels| == |g0.labels| <= U_RANGE
    requires DeltasFor(q, g0, grown, x0, x, ins, del) && UpdatesFor(x, es, update) && (e in ins || e in del || e in update)
    ensures Packable(q, e) && e.s.v < |g.labels|
  {
    assert Accounted(q, g0, grown, x0, x, ins, del, e.s, e.y);
    if e in update {
      assert LiveEntry(x, e.s, e.y);
      assert e.y in Potential(q, g, e.s);
    }
    assert IsSlot(q, g, e.s);
  }

  /** The entries can be packed and lie over data vertices. */
  ghost predicate AllPackable(a: Setup, entries: set<Entry>)
    requires a.q.Valid()
  {
    forall e :: e in entries ==> Packable(a.q, e) && e.s.v < a.n
  }

  /** The logged entries can be packed. */
  lemma LoggedPackable(a: Setup, g0: Graph, x0: Index, f: Facts)
    requires a.Valid() && Logged(a, g0, x0, f)
    ensures AllPackable(a, set e | e in f.ins && Here(e.s) in f.x.on) && AllPackable(a, f.del + f.update) && AllPackable(a, f.update)
  {
    hide DelInv, DeltasFor, UpdatesFor, Shaped, PlanFor, Numbered;
    forall e | e in f.ins || e in f.del || e in f.update
      ensures Packable(a.q, e) && e.s.v < a.n
    {
      LoggedEntry(a.q, g0, f.g, f.grown, f.es, x0, f.x, f.ins, f.del, f.update, e);
    }
  }

  /** Packed edges fit 64 bits and are known to the lists. */
  lemma EdgesKnown(a: Setup, edges: seq<nat>, entries: set<Entry>)
    requires a.Valid() && Encodes(a.meta, edges, entries) && AllPackable(a, entries)
    ensures Mirror.Known(edges, a.meta.numDirEdges, a.n) && forall k :: k in edges ==> k < WORD
  {
    forall k | k in edges
      ensures EdgeIdx(k) < a.meta.numDirEdges && EdgeU(k) < a.n && k < WORD
    {
      hide PlanFor, Numbered, Setup.Valid, Code, EdgeIdx, EdgeU;
      assert CodeOf(a.meta, entries, k);
      var e :| e in entries && Code(a.meta, e) == k;
      CodeKnown(a, e);
    }
  }

  lemma CodeKnown(a: Setup, e: Entry)
    requires a.Valid() && Packable(a.q, e) && e.s.v < a.n
    ensures EdgeIdx(Code(a.meta, e)) < a.meta.numDirEdges && EdgeU(Code(a.meta, e)) < a.n && Code(a.meta, e) < WORD
  {
    hide PlanFor, Numbered, Code, EdgeIdx, EdgeU;
    CodeParts(a.meta, e);
    var idx := NumberOf(a, e.s);
  }

  /** The lists that the searches read from the flat data. */
  function MainLists(main: seq<Mirror.Main>, n: nat): Lists {
    (idx: nat, v: nat) => if idx < |main| && v < n && Mirror.Fits(main[idx], v) then Mirror.ListAt(main[idx], v) else []
  }

  function UpdLists(sorted: seq<nat>): Lists {
    (idx: nat, v: nat) => Mirror.Vs(sorted, idx, v)
  }

  /** What a merge does to one list. */
  lemma ListAfter(m0: Mirror.Main, m1: Mirror.Main, u: nat, edges: seq<nat>, idx: nat, isInsert: bool, y: nat)
    requires Mirror.ListMerged(m0, m1, u, edges, idx, isInsert)
    ensures Mirror.Fits(m0, u) && Mirror.Fits(m1, u)
    ensures y in Mirror.ListAt(m1, u) <==>
      if isInsert then y in Mirror.ListAt(m0, u) || y in Mirror.Vs(edges, idx, u) else y in Mirror.ListAt(m0, u) && y !in Mirror.Vs(edges, idx, u)
  {
    assert y in Elements(Mirror.ListAt(m1, u)) <==>
      y in Mirror.Updated(Elements(Mirror.ListAt(m0, u)), Elements(Mirror.Vs(edges, idx, u)), isInsert);
  }

  /** A merge of packed edges is a merge of the entries that they stand for. */
  lemma MergedLists(a: Setup, main0: seq<Mirror.Main>, main1: seq<Mirror.Main>, edges: seq<nat>, entries: set<Entry>, isInsert: bool)
    requires a.Valid() && |main0| == a.meta.numDirEdges && Mirror.AllMerged(main0, main1, a.n, edges, isInsert)
    requires Encodes(a.meta, edges, entries) && AllPackable(a, entries)
    ensures Merging(a.q, a.meta, MainLists(main0, a.n), MainLists(main1, a.n), entries, isInsert)
  {
    forall s, y | OfQuery(a.q, s)
      ensures MergedAt(a.meta, MainLists(main0, a.n), MainLists(main1, a.n), entries, isInsert, s, y)
    {
      hide *;
      if s.v < a.n {
        MergedSlot(a, main0, main1, edges, entries, isInsert, s, y);
      } else {
        MergedBeyond(a, main0, main1, entries, isInsert, s, y);
      }
    }
  }

  lemma MergedBeyond(a: Setup, main0: seq<Mirror.Main>, main1: seq<Mirror.Main>, entries: set<Entry>, isInsert: bool, s: Slot, y: nat)
    requires a.q.Valid() && AllPackable(a, entries) && s.v >= a.n
    ensures MergedAt(a.meta, MainLists(main0, a.n), MainLists(main1, a.n), entries, isInsert, s, y)
  {
    assert Entry(s, y) !in entries;
  }

  lemma MergedSlot(a: Setup, main0: seq<Mirror.Main>, main1: seq<Mirror.Main>, edges: seq<nat>, entries: set<Entry>, isInsert: bool, s: Slot, y: nat)
    requires a.Valid() && |main0| == a.meta.numDirEdges && Mirror.AllMerged(main0, main1, a.n, edges, isInsert)
    requires Encodes(a.meta, edges, entries) && AllPackable(a, entries) && OfQuery(a.q, s) && s.v < a.n
    ensures MergedAt(a.meta, MainLists(main0, a.n), MainLists(main1, a.n), entries, isInsert, s, y)
  {
    hide Encodes, AllPackable, PlanFor, Numbered, Meta.Valid, Query.Valid, Mirror.ListMerged, Mirror.ListAt, Mirror.Fits, Mirror.Vs;
    var idx := NumberOf(a, s);
    SlotEntries(a, edges, entries, s, y);
    assert Mirror.ListMerged(main0[idx], main1[idx], s.v, edges, idx, isInsert);
    ListAfter(main0[idx], main1[idx], s.v, edges, idx, isInsert, y);
  }

  lemma NumberOf(a: Setup, s: Slot) returns (idx: nat)
    requires a.Valid() && OfQuery(a.q, s)
    ensures idx == a.meta.Eidx(s.u, s.w) < a.meta.numDirEdges
  {
    hide PlanFor, Numbered;
    idx := a.meta.Eidx(s.u, s.w);
    assert a.query.Adj(s.u, s.w) && (s.u, s.w) in a.meta.eidx;
  }

  lemma SlotEntries(a: Setup, edges: seq<nat>, entries: set<Entry>, s: Slot, y: nat)
    requires a.Valid() && Encodes(a.meta, edges, entries) && AllPackable(a, entries) && OfQuery(a.q, s)
    ensures y in Mirror.Vs(edges, a.meta.Eidx(s.u, s.w), s.v) <==> Entry(s, y) in entries
  {
    hide Encodes, PlanFor, Numbered;
    VsOfEntries(a.q, a.query, a.meta, edges, entries, s, y);
  }

  /** Different entries of the query have different codes. */
  lemma CodesDistinct(a: Setup, update: seq<Entry>, edges: seq<nat>)
    requires a.Valid() && Distinct(update) && |edges| == |update| && AllPackable(a, (set t | t in update))
    requires forall i :: 0 <= i < |update| ==> edges[i] == Code(a.meta, update[i])
    ensures Distinct(edges) && Encodes(a.meta, edges, (set t | t in update))
  {
    forall i, j | 0 <= i < j < |edges|
      ensures edges[i] != edges[j]
    {
      hide PlanFor, Numbered, Encode;
      assert update[i] in update && update[j] in update;
      CodesDiffer(a, update[i], update[j]);
    }
    CodesEncode(a.meta, update, edges);
  }

  lemma CodesDiffer(a: Setup, e: Entry, r: Entry)
    requires a.Valid() && Packable(a.q, e) && Packable(a.q, r) && e != r
    ensures Code(a.meta, e) != Code(a.meta, r)
  {
    hide PlanFor, Numbered, Code;
    CodeParts(a.meta, e);
    CodeParts(a.meta, r);
    if Code(a.meta, e) == Code(a.meta, r) {
      EidxInjective(a.q, a.query, a.meta, e.s, r.s);
    }
  }

  lemma CodesEncode(meta: Meta, update: seq<Entry>, edges: seq<nat>)
    requires |edges| == |update| && forall i :: 0 <= i < |update| ==> edges[i] == Code(meta, update[i])
    ensures Encodes(meta, edges, (set t | t in update))
  {
    hide Code;
    var entries := set t | t in update;
    forall t | t in entries
      ensures Code(meta, t) in edges
    {
      var i :| 0 <= i < |update| && update[i] == t;
      assert edges[i] == Code(meta, t);
    }
    forall k | k in edges
      ensures CodeOf(meta, entries, k)
    {
      var i :| 0 <= i < |edges| && edges[i] == k;
      assert update[i] in entries && Code(meta, update[i]) == k;
    }
  }

  /** The flags of the query edges tell which have updates. */
  lemma FlagsOk(a: Setup, f: Facts, update: seq<Entry>, edgeOk: seq<bool>)
    requires a.Valid() && f.update == (set t | t in update) && |edgeOk| == |a.meta.qeList|
    requires forall e :: 0 <= e < |edgeOk| ==> (edgeOk[e] <==>
      HasUpdate(a.meta, update, a.meta.Eidx(a.meta.qeList[e].0, a.meta.qeList[e].1)) && HasUpdate(a.meta, update, a.meta.Eidx(a.meta.qeList[e].1, a.meta.qeList[e].0)))
    ensures EdgesOk(a, f, edgeOk)
  {
    hide PlanFor, Numbered;
    forall idx: nat | !HasUpdate(a.meta, update, idx)
      ensures Idle(a.meta, f.update, idx)
    {
      forall t: Entry | t in f.update
        ensures a.meta.Eidx(t.s.u, t.s.w) != idx
      {
        var i :| 0 <= i < |update| && update[i] == t;
      }
    }
  }

  // ---- What the searches are given ----

  /** Main and update lists are ascending. */
  lemma ListsAscend(a: Setup, main: seq<Mirror.Main>, sorted: seq<nat>)
    requires Mirror.AllOk(main, a.n) && Strict(sorted)
    ensures forall idx, v :: Strict(MainLists(main, a.n)(idx, v)) && Strict(UpdLists(sorted)(idx, v))
  {
    forall idx: nat, v: nat
      ensures Strict(MainLists(main, a.n)(idx, v)) && Strict(UpdLists(sorted)(idx, v))
    {
      Mirror.VsAscends(sorted, idx, v);
      if idx < |main| && v < a.n {
        assert Mirror.MainOk(main[idx], a.n) && Mirror.Fits(main[idx], v);
      }
    }
  }

  /** Sorting edges without repetition gives a strictly ascending list of the same edges. */
  lemma SortedStrict(sorted: seq<nat>, edges: seq<nat>)
    requires Ascending(sorted) && multiset(sorted) == multiset(edges) && Distinct(edges)
    ensures Strict(sorted) && forall k :: k in sorted <==> k in edges
  {
    Mirror.SameElements(sorted, edges);
    DistinctSize(edges, Elements(edges));
    assert |sorted| == |multiset(sorted)| == |edges|;
    assert Elements(sorted) == Elements(edges);
    FullIsDistinct(sorted);
    forall i, j | 0 <= i < j < |sorted|
      ensures sorted[i] < sorted[j]
    {
      assert sorted[i] != sorted[j];
    }
  }

  /** A list with as many elements as places has no repetition. */
  lemma {:induction false} FullIsDistinct(s: seq<nat>)
    requires |Elements(s)| == |s|
    ensures Distinct(s)
    decreases |s|
  {
    if s != [] {
      assert Elements(s) == Elements(s[1..]) + {s[0]};
      assert |Elements(s[1..])| <= |s| - 1;
      assert s[0] !in Elements(s[1..]);
      FullIsDistinct(s[1..]);
      forall i, j | 0 <= i < j < |s|
        ensures s[i] != s[j]
      {
        if i == 0 { assert s[1..][j - 1] == s[j]; } else { assert s[1..][i - 1] == s[i] && s[1..][j - 1] == s[j]; }
      }
    }
  }

  /** Every number of a directed query edge is the number of some slot's query edge. */
  lemma SlotOf(a: Setup, idx: nat, v: nat) returns (s: Slot)
    requires a.Valid() && idx < a.meta.numDirEdges
    ensures OfQuery(a.q, s) && s.v == v && a.meta.Eidx(s.u, s.w) == idx
  {
    hide PlanFor, Numbered;
    assert HasNumber(a.meta.eidx, idx);
    var k :| k in a.meta.eidx && a.meta.eidx[k] == idx;
    assert (k.0, k.1) in a.meta.eidx && a.query.Adj(k.0, k.1);
    s := Slot(v, k.0, k.1);
  }

  /** What the lists hold for a batch. */
  ghost predicate ListsFor(a: Setup, f: Facts, main: Lists, upd: Lists)
    requires a.q.Valid()
  {
    && MainWithout(a.q, a.meta, f.x, f.es, main)
    && (forall s, y :: OfQuery(a.q, s) ==> (Holds(a.meta, upd, s, y) <==> Entry(s, y) in f.update))
    && (forall idx, v :: idx >= a.meta.numDirEdges ==> main(idx, v) == [] && upd(idx, v) == [])
    && (forall idx, v :: Strict(main(idx, v)) && Strict(upd(idx, v)))
  }

  /** A listed neighbour is a neighbour in the data graph, listed in the main lists or in the update lists. */
  lemma ListedNeighbour(a: Setup, g0: Graph, x0: Index, f: Facts, main: Lists, upd: Lists, idx: nat, v: nat, y: nat)
    requires a.Valid() && Logged(a, g0, x0, f) && ListsFor(a, f, main, upd)
    ensures y in main(idx, v) || y in upd(idx, v) ==> v < a.n && y < a.n && y in f.g.nei[v]
    ensures y in upd(idx, v) ==> y !in main(idx, v)
  {
    hide PlanFor, Numbered, DelInv, DeltasFor;
    if idx < a.meta.numDirEdges && (y in main(idx, v) || y in upd(idx, v)) {
      var s := SlotOf(a, idx, v);
      assert KeptWithout(a.meta, f.x, f.es, main, s, y);
      assert Holds(a.meta, upd, s, y) <==> Entry(s, y) in f.update;
      assert Entry(s, y) in f.update <==> LiveEntry(f.x, s, y) && Edge(v, y) in f.es;
      InGraph(a, f.g, f.x, s, y);
    }
  }

  /** The lists of a batch are free of repetitions, loops and strangers. */
  lemma ListsAreGood(a: Setup, g0: Graph, x0: Index, f: Facts, b: Batch)
    requires a.Valid() && Logged(a, g0, x0, f) && b.plan == a.plan && b.dv == a.n && ListsFor(a, f, b.main, b.upd)
    ensures b.Valid() && InitialRows.NoLoops(b) && InitialRows.Within(b, f.g.nei)
  {
    hide PlanFor, Numbered, DelInv, DeltasFor;
    forall idx: nat, v: nat, y: nat
      ensures y in b.upd(idx, v) ==> y !in b.main(idx, v)
      ensures y in b.main(idx, v) || y in b.upd(idx, v) ==> y != v
    {
      ListedNeighbour(a, g0, x0, f, b.main, b.upd, idx, v, y);
    }
    forall idx: nat, v: nat, y: nat | y in b.main(idx, v) || y in b.upd(idx, v)
      ensures v < |f.g.nei| && y in f.g.nei[v]
    {
      ListedNeighbour(a, g0, x0, f, b.main, b.upd, idx, v, y);
    }
    assert PlanFor(a.q, a.plan) ==> a.plan.Valid() by { PlanIsValid(a.q, a.plan); }
  }

  lemma PlanIsValid(q: Graph, plan: Plan)
    requires q.Valid()
    ensures PlanFor(q, plan) ==> plan.Valid()
  {
  }

  /** An update and its reverse are updates of the two directions of a query edge. */
  lemma UpdatesReverse(a: Setup, g0: Graph, x0: Index, f: Facts, s: Slot, y: nat)
    requires a.Valid() && Logged(a, g0, x0, f) && Entry(s, y) in f.update
    ensures Entry(Back(s, y), s.v) in f.update
  {
    hide PlanFor, Numbered, DeltasFor;
    EntriesReverse(a.q, f.g, f.x, f.rank, f.clock, s, y);
  }

  lemma BatchMirrored(a: Setup, g0: Graph, x0: Index, f: Facts, b: Batch)
    requires a.Valid() && Logged(a, g0, x0, f) && b.plan == a.plan && b.dv == a.n && ListsFor(a, f, b.main, b.upd)
    ensures InitialRows.Mirrored(b)
  {
    forall d: nat, k: nat, v: nat, y: nat | IsEdge(b.plan.bni, d, k)
      ensures y in b.upd(b.plan.Dir(b.plan.bni[d][k], d), v) <==> v in b.upd(b.plan.Dir(d, b.plan.bni[d][k]), y)
    {
      var j := b.plan.bni[d][k];
      OneMirrored(a, g0, x0, f, b.upd, b.plan.vs[j], b.plan.vs[d], v, y);
    }
  }

  lemma OneMirrored(a: Setup, g0: Graph, x0: Index, f: Facts, upd: Lists, u: nat, w: nat, v: nat, y: nat)
    requires a.Valid() && Logged(a, g0, x0, f) && u < |a.q.nei| && w in a.q.nei[u]
    requires forall s, y :: OfQuery(a.q, s) ==> (Holds(a.meta, upd, s, y) <==> Entry(s, y) in f.update)
    ensures y in upd(a.plan.eidx(u, w), v) <==> v in upd(a.plan.eidx(w, u), y)
  {
    hide PlanFor, Numbered, DelInv, DeltasFor;
    var s, t := Slot(v, u, w), Slot(y, w, u);
    assert OfQuery(a.q, s) && OfQuery(a.q, t);
    assert Holds(a.meta, upd, s, y) <==> Entry(s, y) in f.update;
    assert Holds(a.meta, upd, t, v) <==> Entry(t, v) in f.update;
    assert a.plan.eidx(u, w) == a.meta.Eidx(u, w) && a.plan.eidx(w, u) == a.meta.Eidx(w, u);
    if Entry(s, y) in f.update { UpdatesReverse(a, g0, x0, f, s, y); }
    if Entry(t, v) in f.update { UpdatesReverse(a, g0, x0, f, t, v); }
  }

  /** A direction without update entries has no update lists. */
  lemma IdleLists(a: Setup, f: Facts, b: Batch, u: nat, w: nat)
    requires a.Valid() && ListsFor(a, f, b.main, b.upd) && u < |a.q.nei| && w in a.q.nei[u] && Idle(a.meta, f.update, a.meta.Eidx(u, w))
    ensures InitialRows.NoUpdates(b, a.meta.Eidx(u, w))
  {
    forall v: nat
      ensures b.upd(a.meta.Eidx(u, w), v) == []
    {
      hide *;
      if b.upd(a.meta.Eidx(u, w), v) != [] {
        var y := SomeElement(b.upd(a.meta.Eidx(u, w), v));
        NoEntry(a, f, b.main, b.upd, u, w, v, y);
      }
    }
  }

  lemma SomeElement(list: seq<nat>) returns (y: nat)
    requires list != []
    ensures y in list
  {
    y := list[0];
  }

  lemma NoEntry(a: Setup, f: Facts, main: Lists, upd: Lists, u: nat, w: nat, v: nat, y: nat)
    requires a.Valid() && ListsFor(a, f, main, upd) && u < |a.q.nei| && w in a.q.nei[u] && Idle(a.meta, f.update, a.meta.Eidx(u, w))
    ensures y !in upd(a.meta.Eidx(u, w), v)
  {
    hide PlanFor, Numbered, MainWithout;
    var s := Slot(v, u, w);
    assert OfQuery(a.q, s);
    assert Holds(a.meta, upd, s, y) <==> Entry(s, y) in f.update;
  }

  lemma BatchSkips(a: Setup, f: Facts, b: Batch, edgeOk: seq<bool>)
    requires a.Valid() && b.plan == a.plan && ListsFor(a, f, b.main, b.upd) && EdgesOk(a, f, edgeOk)
    ensures InitialRows.SkipsIdle(b, edgeOk)
  {
    forall d: nat, k: nat | IsEdge(b.plan.bni, d, k) && Number(b.plan, d, k) < b.plan.m && !edgeOk[Number(b.plan, d, k)]
      ensures InitialRows.NoUpdates(b, b.plan.Dir(b.plan.bni[d][k], d)) || InitialRows.NoUpdates(b, b.plan.Dir(d, b.plan.bni[d][k]))
    {
      var j := b.plan.bni[d][k];
      OneSkipped(a, f, b, edgeOk, b.plan.vs[j], b.plan.vs[d], Number(b.plan, d, k));
    }
  }

  lemma OneSkipped(a: Setup, f: Facts, b: Batch, edgeOk: seq<bool>, u: nat, w: nat, e: nat)
    requires a.Valid() && b.plan == a.plan && ListsFor(a, f, b.main, b.upd) && EdgesOk(a, f, edgeOk)
    requires u < |a.q.nei| && w in a.q.nei[u] && e == a.plan.dirToEdge(a.plan.eidx(u, w)) < |edgeOk| && !edgeOk[e]
    ensures InitialRows.NoUpdates(b, a.plan.eidx(u, w)) || InitialRows.NoUpdates(b, a.plan.eidx(w, u))
  {
    hide PlanFor, Numbered, ListsFor;
    assert a.query.Adj(u, w) && a.plan.eidx(u, w) == a.meta.Eidx(u, w) && a.plan.eidx(w, u) == a.meta.Eidx(w, u);
    var e' := EdgeOfPair(a.query, a.meta, u, w);
    assert a.plan.dirToEdge(a.meta.Eidx(u, w)) == a.meta.DirToEdge(a.meta.Eidx(u, w)) && e == e';
    if Idle(a.meta, f.update, a.meta.Eidx(u, w)) {
      IdleLists(a, f, b, u, w);
    } else {
      IdleLists(a, f, b, w, u);
    }
  }

  /** The masks keep what has to be found, whatever the lists are. */
  ghost predicate SoundMasks(masks: (Plan, Lists, Lists) -> ((nat, nat, nat) -> bool), n: nat) {
    forall plan: Plan, main: Lists, upd: Lists :: Batch(plan, main, upd, masks(plan, main, upd), n).Valid() ==>
      InitialRows.Covers(Batch(plan, main, upd, masks(plan, main, upd), n))
  }

  /** A batch with the lists of the second stage can be matched. */
  lemma BatchReady(a: Setup, g0: Graph, x0: Index, f: Facts, st: Stage, b: Batch)
    requires a.Valid() && StageOk(a, g0, x0, f, st) && b.plan == a.plan && b.dv == a.n && ListsFor(a, f, b.main, b.upd)
    requires b.Valid() ==> InitialRows.Covers(b)
    ensures InitialRows.Ready(b, st.edgeOk) && |f.g.nei| == a.n
    ensures |InitialRows.Starts(b, st.edgeOk)| <= b.plan.m * Degrees(f.g.nei, a.n)
    ensures Batches.Ready(a.q, f.g, f.x, f.rank, f.clock, b.plan, f.es, b.main, b.upd) && Staged(b.main, b.upd)
  {
    hide PlanFor, Numbered, DelInv, DeltasFor, ListsFor;
    ListsAreGood(a, g0, x0, f, b);
    BatchMirrored(a, g0, x0, f, b);
    BatchSkips(a, f, b, st.edgeOk);
    InitialRows.InitialBound(b, st.edgeOk, f.g.nei);
    StagedAre(a, g0, x0, f, b);
  }

  lemma StagedAre(a: Setup, g0: Graph, x0: Index, f: Facts, b: Batch)
    requires a.Valid() && Logged(a, g0, x0, f) && b.plan == a.plan && ListsFor(a, f, b.main, b.upd)
    ensures StagedFrom(a.q, f.g, b.plan, f.x, f.es, b.main, b.upd)
  {
    hide PlanFor, Numbered, DelInv, DeltasFor;
    StagedLists(a.q, f.g, a.plan, a.meta, f.x, f.es, f.update, b.main, b.upd);
  }

  // ---- Batches without updates ----

  /** No embedding uses an edge of a batch without live entries over its edges. */
  lemma NothingUsing(a: Setup, g0: Graph, x0: Index, f: Facts)
    requires a.Valid() && Logged(a, g0, x0, f) && f.update == {}
    ensures Using(a.q, f.g, f.es) == {}
  {
    hide PlanFor, Numbered, DeltasFor, DelInv, Shaped;
    forall h | Embedding(a.q, f.g, h)
      ensures AvoidsAdded(a.q, f.es, h)
    {
      NoEmbeddingLost(a.q, f.g, f.x, f.rank, f.clock, {}, h);
      forall u, w | 0 <= u < |h| && w in a.q.nei[u]
        ensures Edge(h[u], h[w]) !in f.es
      {
        assert LiveEntry(f.x, Slot(h[u], u, w), h[w]);
        assert Entry(Slot(h[u], u, w), h[w]) !in f.update;
      }
    }
  }
}
