/** Set-up: the plan of the search, and the main lists of the filtered index. */
module Loading {
  import opened Sequences
  import opened Graphs
  import opened CaligIndex
  import opened CaligLogs
  import opened CaligFilter
  import opened QueryPaths
  import opened QueryMeta
  import opened QueryPlan
  import opened EdgeLists
  import opened Batches
  import opened Staging
  import opened Stages
  import Planner
  import Mirror

  lemma QueryLoopless(q: Graph, query: Query)
    requires q.Valid() && query.Valid() && SameQuery(q, query)
    ensures q.Loopless()
  {
    forall v | 0 <= v < |q.nei|
      ensures v !in q.nei[v]
    {
      assert !query.Adj(v, v);
    }
  }

  /** In a planned query every vertex has a neighbour. */
  lemma PlannedHasNeighbours(q: Graph, plan: QueryPlan.Plan)
    requires q.Valid() && PlanFor(q, plan)
    ensures NoIsolated(q)
  {
    Pigeons(plan.vs, plan.n);
    forall u | 0 <= u < |q.nei|
      ensures q.nei[u] != {}
    {
      assert u in plan.vs;
      var d: nat :| 0 <= d < |plan.vs| && plan.vs[d] == u;
      var e := if d == 0 then 1 else d;
      assert IsEdge(plan.bni, e, 0);
      assert plan.vs[plan.bni[e][0]] in q.nei[plan.vs[e]];
    }
  }

  /** Orders the query: indexing orders, the global order with its marks, and the rebuild flags. */
  method PlanSearch(q: Graph, query: Query, meta: Meta, seed: nat, pick: nat -> nat, avgDegree: (nat, nat) -> real)
    returns (plan: QueryPlan.Plan, info: seq<CartesianProductType>)
    requires q.Valid() && query.Valid() && SameQuery(q, query) && meta.Valid(query)
    requires Planner.Connected(query) && query.N() >= 3 && seed < |meta.qeList| <= 32 && meta.numDirEdges <= 32
    ensures forall n: nat :: n <= U_RANGE ==> Setup(q, query, meta, plan, n).Valid()
    ensures plan.Valid() && MarksTails(plan, info) && plan.m == |meta.qeList|
    ensures Planner.Selective(Planner.Order(plan.vs, plan.bni), avgDegree)
  {
    assert meta.qeList[seed] in meta.qeList;
    var planner := new Planner.Plan(query, meta.qeList);
    assert forall i :: 0 <= i < |meta.qeList| ==> meta.qeList[i] in meta.qeList;
    planner.GenerateIndexingOrders();
    planner.GenerateMatchingOrders(seed, pick, avgDegree);
    plan, info := PlanFrom(query, meta, planner.globalOrder), planner.info;
    PlanIsSetup(q, query, meta, planner.globalOrder, seed);
  }

  /** The order with the numbers of the query edges. */
  function PlanFrom(query: Query, meta: Meta, o: Planner.Order): QueryPlan.Plan {
    Planner.PlanOf(query, |meta.qeList|, (u, w) => meta.Eidx(u, w), idx => meta.DirToEdge(idx), o)
  }

  lemma PlanIsSetup(q: Graph, query: Query, meta: Meta, o: Planner.Order, seed: nat)
    requires q.Valid() && query.Valid() && SameQuery(q, query) && meta.Valid(query) && query.N() >= 3 && seed < |meta.qeList| <= 32 && meta.numDirEdges <= 32
    requires Planner.Complete(query, meta.qeList[seed].0, meta.qeList[seed].1, o.vs) && Planner.Backwards(query, o, 0)
    ensures forall n: nat :: n <= U_RANGE ==> Setup(q, query, meta, PlanFrom(query, meta, o), n).Valid()
  {
    hide Planner.Complete, Planner.Backwards, Numbered;
    var (u0, u1) := meta.qeList[seed];
    assert meta.qeList[seed] in meta.qeList;
    var eidx: (nat, nat) -> nat := (u, w) => meta.Eidx(u, w);
    var dirToEdge: nat -> nat := idx => meta.DirToEdge(idx);
    MetaNumbers(query, meta);
    PlannedFor(q, query, u0, u1, o, |meta.qeList|, eidx, dirToEdge);
    Planner.PlanIsValid(query, u0, u1, |meta.qeList|, eidx, dirToEdge, o);
    Planner.EveryEdgeOnce(query, u0, u1, |meta.qeList|, eidx, dirToEdge, o);
    PlannedHasNeighbours(q, PlanFrom(query, meta, o));
  }

  /** The entries in some order, each once. */
  method ListOf(entries: set<Entry>) returns (list: seq<Entry>)
    ensures Distinct(list) && (set t | t in list) == entries
  {
    list := [];
    var todo := entries;
    while todo != {}
      invariant Distinct(list) && todo <= entries && forall t :: t in list <==> t in entries && t !in todo
      decreases todo
    {
      var e :| e in todo;
      todo := todo - {e};
      list := list + [e];
    }
  }

  /** Fills the main lists with the entries of all pairs that are on. */
  method ConvertGlobalIndex(ghost a: Setup, meta: Meta, n: nat, calig: CaLiG, mirror: Mirror.CPUIndexMirror)
    requires a.Valid() && a.meta == meta && a.n == n && a.Filtered(calig.G(), calig.X())
    requires mirror.Valid() && mirror.dvCount == 0 && mirror.numDirEdges == meta.numDirEdges
    modifies mirror`dvCount, mirror`main
    ensures mirror.Valid() && mirror.dvCount == n && MainFor(a.q, meta, calig.X(), MainLists(mirror.main, n))
  {
    hide PlanFor, Numbered, Shaped, MainFor;
    mirror.ResizeForDVCount(n);
    var entries := set s, y | s in calig.cand && Here(s) in calig.li && y in calig.cand[s] :: Entry(s, y);
    LivePackable(a, calig.G(), calig.X(), entries);
    var list := ListOf(entries);
    var edges := PackAll(meta, list);
    CodesDistinct(a, list, edges);
    var sorted := Sort(edges);
    SortedStrict(sorted, edges);
    assert Encodes(meta, sorted, entries);
    EdgesKnown(a, sorted, entries);
    mirror.InitFromSortedEdges(sorted);
    InitialMain(a, calig.G(), calig.X(), entries, sorted, mirror.main);
  }

  method PackAll(meta: Meta, list: seq<Entry>) returns (edges: seq<nat>)
    ensures |edges| == |list| && forall i :: 0 <= i < |list| ==> edges[i] == Code(meta, list[i])
  {
    edges := [];
    for i := 0 to |list|
      invariant |edges| == i && forall k :: 0 <= k < i ==> edges[k] == Code(meta, list[k])
    {
      edges := edges + [Code(meta, list[i])];
    }
  }

  lemma LivePackable(a: Setup, g: Graph, x: Index, entries: set<Entry>)
    requires a.Valid() && a.Filtered(g, x) && forall t: Entry :: t in entries <==> LiveEntry(x, t.s, t.y)
    ensures AllPackable(a, entries)
  {
    hide PlanFor, Numbered, Shaped;
    forall t | t in entries
      ensures Packable(a.q, t) && t.s.v < a.n
    {
      InGraph(a, g, x, t.s, t.y);
    }
  }

  /** The first main lists hold exactly the live entries. */
  lemma InitialMain(a: Setup, g: Graph, x: Index, entries: set<Entry>, sorted: seq<nat>, main: seq<Mirror.Main>)
    requires a.Valid() && a.Filtered(g, x) && (forall t: Entry :: t in entries <==> LiveEntry(x, t.s, t.y))
    requires Encodes(a.meta, sorted, entries) && AllPackable(a, entries) && |main| == a.meta.numDirEdges
    requires forall idx, v :: 0 <= idx < |main| && 0 <= v < a.n ==> Mirror.Fits(main[idx], v) && Mirror.ListAt(main[idx], v) == Mirror.Vs(sorted, idx, v)
    ensures MainFor(a.q, a.meta, x, MainLists(main, a.n))
  {
    hide PlanFor, Numbered, Shaped, Encodes, Mirror.Vs, Mirror.ListAt, Mirror.Fits, AllPackable, LiveEntry, KeptFor;
    forall s, y | OfQuery(a.q, s)
      ensures KeptFor(a.meta, x, MainLists(main, a.n), s, y)
    {
      hide *;
      InitialSlot(a, g, x, entries, sorted, main, s, y);
    }
  }

  lemma InitialSlot(a: Setup, g: Graph, x: Index, entries: set<Entry>, sorted: seq<nat>, main: seq<Mirror.Main>, s: Slot, y: nat)
    requires a.Valid() && a.Filtered(g, x) && (forall t: Entry :: t in entries <==> LiveEntry(x, t.s, t.y))
    requires Encodes(a.meta, sorted, entries) && AllPackable(a, entries) && |main| == a.meta.numDirEdges && OfQuery(a.q, s)
    requires forall idx, v :: 0 <= idx < |main| && 0 <= v < a.n ==> Mirror.Fits(main[idx], v) && Mirror.ListAt(main[idx], v) == Mirror.Vs(sorted, idx, v)
    ensures KeptFor(a.meta, x, MainLists(main, a.n), s, y)
  {
    hide PlanFor, Numbered, Meta.Valid, Query.Valid, Shaped, Encodes, Mirror.Vs, Mirror.ListAt, Mirror.Fits, AllPackable;
    var idx := NumberOf(a, s);
    assert Entry(s, y) in entries <==> LiveEntry(x, s, y);
    if s.v < a.n {
      SlotEntries(a, sorted, entries, s, y);
    } else if LiveEntry(x, s, y) {
      InGraph(a, g, x, s, y);
    }
  }
}
