/** The matching order, the staged lists, and which of them a search for query edge `ei` may read. */
module QueryPlan {
  import opened Sequences
  import opened MatchSearch

  /** `lists(idx, v)` is the sorted neighbour list of data vertex `v` for directed query edge `idx`. */
  type Lists = (nat, nat) -> seq<nat>

  /** The global matching order over `n` query vertices and `m` query edges.  `eidx(u, w)` numbers
      directed edges, `dirToEdge` maps them to undirected edge numbers. */
  datatype Plan = Plan(n: nat, m: nat, vs: seq<nat>, bni: seq<seq<nat>>, eidx: (nat, nat) -> nat, dirToEdge: nat -> nat)
  {
    ghost predicate Valid() {
      && n >= 2 && |vs| == n && |bni| == n
      && (forall d :: 1 <= d < n ==> |bni[d]| > 0)
      && (forall d, k :: 0 <= d < n && 0 <= k < |bni[d]| ==> bni[d][k] < d)
    }

    /** The directed edge from position `j` to position `d`. */
    function Dir(j: nat, d: nat): nat {
      if j < |vs| && d < |vs| then eidx(vs[j], vs[d]) else 0
    }
  }

  /** Both stages hold strictly ascending lists, and no neighbour is in both. */
  ghost predicate Staged(main: Lists, upd: Lists) {
    && (forall idx, v :: Strict(main(idx, v)))
    && (forall idx, v :: Strict(upd(idx, v)))
    && (forall idx, v, y :: y in upd(idx, v) ==> y !in main(idx, v))
  }

  /** The first part of a list: the update list for the seed edge, else the main list. */
  function Base(plan: Plan, main: Lists, upd: Lists, ei: nat, idx: nat, v: nat): seq<nat> {
    if plan.dirToEdge(idx) == ei then upd(idx, v) else main(idx, v)
  }

  /** The second part: the update list for edges numbered below the seed edge. */
  function App(plan: Plan, upd: Lists, ei: nat, idx: nat, v: nat): seq<nat> {
    if plan.dirToEdge(idx) < ei then upd(idx, v) else []
  }

  function Visible(plan: Plan, main: Lists, upd: Lists, ei: nat, idx: nat, v: nat): seq<nat> {
    Base(plan, main, upd, ei, idx, v) + App(plan, upd, ei, idx, v)
  }

  /** The search for query edge `ei`. */
  function SearchFor(plan: Plan, main: Lists, upd: Lists, ei: nat, mask: (nat, nat) -> bool): Problem {
    Problem(plan.n, plan.bni, (j, d, v) => Visible(plan, main, upd, ei, plan.Dir(j, d), v), mask)
  }

  // ---- Edges and marks of a plan ----

  /** Position `d` has a `k`-th backward position: one query edge. */
  ghost predicate IsEdge(bni: seq<seq<nat>>, d: nat, k: nat) {
    1 <= d < |bni| && k < |bni[d]|
  }

  /** The undirected number of the query edge between position `d` and its `k`-th backward position. */
  function Number(plan: Plan, d: nat, k: nat): nat {
    if d < |plan.bni| && k < |plan.bni[d]| then plan.dirToEdge(plan.Dir(plan.bni[d][k], d)) else 0
  }

  ghost predicate IsNumber(plan: Plan, e: nat) {
    exists d, k :: IsEdge(plan.bni, d, k) && Number(plan, d, k) == e
  }

  /** The backward edges are numbered one to one by `0..m`. */
  ghost predicate Numbered(plan: Plan) {
    && (forall d, k :: IsEdge(plan.bni, d, k) ==> Number(plan, d, k) < plan.m)
    && (forall e :: 0 <= e < plan.m ==> IsNumber(plan, e))
    && (forall d, k, d', k' :: IsEdge(plan.bni, d, k) && IsEdge(plan.bni, d', k') && Number(plan, d, k) == Number(plan, d', k') ==>
          d == d' && k == k')
  }

  /** The marks of the positions: leaves, independent vertices, or neither, from a position on. */
  datatype CartesianProductType = None | TreeSingle | NonTreeSingle | TreeCartesianProduct | NonTreeCartesianProduct

  /** The marks of the positions mean what the planner says: leaves from a marked position on, and a
      single tree vertex only at the end. */
  ghost predicate MarksTails(plan: Plan, info: seq<CartesianProductType>)
    requires plan.Valid()
  {
    && |info| == plan.n
    && (forall d :: 2 <= d < plan.n && info[d].TreeCartesianProduct? ==> TailFrom(plan, d))
    && (forall d :: 0 <= d < plan.n && info[d].TreeSingle? ==> d == plan.n - 1)
  }

  ghost predicate TailFrom(plan: Plan, d: nat)
    requires plan.Valid() && 1 <= d < plan.n
  {
    forall e :: d <= e < plan.n ==> |plan.bni[e]| == 1 && plan.bni[e][0] < d
  }
}
