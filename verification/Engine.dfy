/** The whole program: the first stage filters and stages batches, the second one matches them against its own
    lists, in any interleaving, and the number it prints is that of the embeddings which the stream has created. */
module Engine {
  import opened Sequences
  import opened Graphs
  import opened CaligIndex
  import CaligCheck
  import CaligGroups
  import opened CaligRounds
  import opened CaligLogs
  import opened CaligFilter
  import opened QueryPaths
  import opened QueryMeta
  import opened QueryPlan
  import opened ExactlyOnce
  import opened EdgeLists
  import opened Batches
  import opened Staging
  import opened Stages
  import opened Streams
  import opened Runs
  import opened Loading
  import Frontier
  import InitialRows
  import Matching
  import Planner
  import Mirror

  type Masks = (QueryPlan.Plan, Lists, Lists) -> ((nat, nat, nat) -> bool)

  /** The graph and the filter that batch `i` of the queue starts from. */
  function GraphAt(g: Graph, facts: seq<Facts>, i: nat): Graph
    requires i <= |facts|
  {
    if i == 0 then g else facts[i - 1].g
  }

  function IndexAt(x: Index, facts: seq<Facts>, i: nat): Index
    requires i <= |facts|
  {
    if i == 0 then x else facts[i - 1].x
  }

  /** Each waiting batch starts where the one before it ends. */
  ghost predicate Chain(a: Setup, g: Graph, x: Index, facts: seq<Facts>, queue: seq<Stage>) {
    |facts| == |queue| && forall i :: 0 <= i < |facts| ==> Link(a, g, x, facts, queue, i)
  }

  ghost predicate Link(a: Setup, g: Graph, x: Index, facts: seq<Facts>, queue: seq<Stage>, i: nat)
    requires |facts| == |queue| && i < |facts|
  {
    StageOk(a, GraphAt(g, facts, i), IndexAt(x, facts, i), facts[i], queue[i])
  }

  /** The batches that wait lead from the state of the second stage to that of the first one. */
  ghost predicate Waiting(a: Setup, g: Graph, x: Index, facts: seq<Facts>, queue: seq<Stage>, g': Graph, x': Index) {
    && a.Filtered(g, x) && |facts| == |queue| && Chain(a, g, x, facts, queue)
    && GraphAt(g, facts, |facts|) == g' && IndexAt(x, facts, |facts|) == x'
  }

  lemma WaitingMore(a: Setup, g: Graph, x: Index, facts: seq<Facts>, queue: seq<Stage>, g': Graph, x': Index, f: Facts, st: Stage)
    requires Waiting(a, g, x, facts, queue, g', x') && StageOk(a, g', x', f, st)
    ensures Waiting(a, g, x, facts + [f], queue + [st], f.g, f.x)
  {
    hide StageOk;
    forall i | 0 <= i < |facts| + 1
      ensures Link(a, g, x, facts + [f], queue + [st], i)
    {
      if i < |facts| { assert Link(a, g, x, facts, queue, i); }
    }
  }

  lemma WaitingLess(a: Setup, g: Graph, x: Index, facts: seq<Facts>, queue: seq<Stage>, g': Graph, x': Index)
    requires Waiting(a, g, x, facts, queue, g', x') && |queue| > 0
    ensures |facts| == |queue| && StageOk(a, g, x, facts[0], queue[0])
    ensures Waiting(a, facts[0].g, facts[0].x, facts[1..], queue[1..], g', x')
  {
    hide StageOk;
    assert Link(a, g, x, facts, queue, 0);
    StageFiltered(a, g, x, facts[0], queue[0]);
    forall i | 0 <= i < |facts| - 1
      ensures Link(a, facts[0].g, facts[0].x, facts[1..], queue[1..], i)
    {
      assert Link(a, g, x, facts, queue, i + 1);
    }
  }

  lemma NoneWaiting(a: Setup, g: Graph, x: Index)
    requires a.Filtered(g, x)
    ensures Waiting(a, g, x, [], [], g, x) && Counted(a.q, g, g, 0, 0)
  {
    assert Embeddings(a.q, g) - Embeddings(a.q, g) == {};
  }

  /** What has been counted is what the embeddings have grown by, and `again` for embeddings that were there before. */
  ghost predicate Counted(q: Graph, first: Graph, g: Graph, num: nat, again: nat) {
    q.Valid() && first.Valid() && g.Valid() && Embeddings(q, first) <= Embeddings(q, g) && num == |Embeddings(q, g) - Embeddings(q, first)| + again
  }

  lemma CountedMore(q: Graph, first: Graph, g: Graph, num: nat, again: nat, g': Graph, count: nat, more: nat)
    requires Counted(q, first, g, num, again) && g'.Valid() && Embeddings(q, g) <= Embeddings(q, g') && count == |Embeddings(q, g') - Embeddings(q, g)| + more
    ensures Counted(q, first, g', num + count, again + more)
  {
    hide Embeddings;
    var e0, e1, e2 := Embeddings(q, first), Embeddings(q, g), Embeddings(q, g');
    assert e2 - e0 == (e2 - e1) + (e1 - e0);
  }

  /** What the first stage has logged is what `Logged` asks for. */
  lemma BatchLogged(a: Setup, g0: Graph, x0: Index, f: Facts, batch: seq<Edge>)
    requires a.Valid() && a.Filtered(g0, x0) && GoodBatch(a.n, batch) && DelInv(a.q, f.g, f.x, f.rank, f.clock, {})
    requires Symmetric(g0, f.grown) && f.g == Grow(g0, f.grown) && DeltasFor(a.q, g0, f.grown, x0, f.x, f.ins, f.del)
    requires forall e :: e in f.grown <==> InBatch(g0.labels, batch, e) && e.b !in g0.nei[e.a]
    requires f.es == EdgesIn(f.g, batch)
    requires forall t: Entry :: t in f.update <==> LiveEntry(f.x, t.s, t.y) && Among(batch, Edge(t.s.v, t.y))
    ensures Logged(a, g0, x0, f)
  {
    hide PlanFor, Numbered, DeltasFor, Grow, Unrepeated, InBatch, EdgesIn, DelInv, Shaped, LiveEntry, Among, Symmetric;
    GrowIsValid(g0, f.grown);
    GrownAmong(g0, f.grown, batch);
    NamedOnly(g0.labels, batch);
    NoNewLoop(g0, f.grown, batch);
    GrownFiltered(a, g0, x0, f);
    forall t: Entry
      ensures t in f.update <==> LiveEntry(f.x, t.s, t.y) && Edge(t.s.v, t.y) in f.es
    {
      hide *;
      if LiveEntry(f.x, t.s, t.y) { LiveNamed(a, f.g, f.x, batch, t); }
    }
  }

  lemma NamedOnly(labels: seq<int>, batch: seq<Edge>)
    ensures forall e :: InBatch(labels, batch, e) ==> Among(batch, e)
  {
  }

  lemma GrownFiltered(a: Setup, g0: Graph, x0: Index, f: Facts)
    requires a.Filtered(g0, x0) && DelInv(a.q, f.g, f.x, f.rank, f.clock, {})
    requires f.g == Grow(g0, f.grown) && f.g.Valid() && f.g.Loopless()
    ensures a.Filtered(f.g, f.x)
  {
  }

  /** A live entry lies over an edge of the graph, which is named by the batch or not. */
  lemma LiveNamed(a: Setup, g: Graph, x: Index, batch: seq<Edge>, t: Entry)
    requires a.Valid() && a.Filtered(g, x) && LiveEntry(x, t.s, t.y)
    ensures Among(batch, Edge(t.s.v, t.y)) <==> Edge(t.s.v, t.y) in EdgesIn(g, batch)
  {
    hide PlanFor, Numbered, Shaped;
    InGraph(a, g, x, t.s, t.y);
  }

  // ---- How far both stages have come ----

  /** The waiting batches are those from `j` to `i`. */
  ghost predicate Between(first: Graph, batches: seq<seq<Edge>>, j: nat, i: nat, facts: seq<Facts>)
    requires first.Valid()
  {
    && j <= i <= |batches| && |facts| == i - j
    && forall k :: 0 <= k < |facts| ==> facts[k].g == GraphBefore(first, batches, j + k + 1) && facts[k].es == EdgesIn(facts[k].g, batches[j + k])
  }

  /** The first stage has filtered `i` batches, and the second one has matched `j` of them. */
  ghost predicate Reached(q: Graph, first: Graph, batches: seq<seq<Edge>>, i: nat, j: nat, g: Graph, base: Graph, facts: seq<Facts>, again: nat) {
    && q.Valid() && first.Valid() && Between(first, batches, j, i, facts)
    && g == GraphBefore(first, batches, i) && base == GraphBefore(first, batches, j) && again == Again(q, first, batches, j)
  }

  lemma NoneReached(q: Graph, first: Graph, batches: seq<seq<Edge>>)
    requires q.Valid() && first.Valid()
    ensures Reached(q, first, batches, 0, 0, first, first, [], 0)
  {
  }

  /** One more batch has been filtered. */
  lemma ReachedMore(q: Graph, first: Graph, batches: seq<seq<Edge>>, i: nat, j: nat, g: Graph, base: Graph, facts: seq<Facts>, again: nat, f: Facts)
    requires Reached(q, first, batches, i, j, g, base, facts, again) && i < |batches|
    requires f.g == After(g, batches[i]) && f.es == EdgesIn(f.g, batches[i])
    ensures Reached(q, first, batches, i + 1, j, f.g, base, facts + [f], again)
  {
    hide After, EdgesIn, Again;
  }

  /** One more batch has been matched. */
  lemma ReachedLess(q: Graph, first: Graph, batches: seq<seq<Edge>>, i: nat, j: nat, g: Graph, base: Graph, facts: seq<Facts>, again: nat)
    requires Reached(q, first, batches, i, j, g, base, facts, again) && facts != []
    ensures Reached(q, first, batches, i, j + 1, g, facts[0].g, facts[1..], again + |Using(q, base, facts[0].es)|)
  {
    hide After, EdgesIn, Using;
    SameUsing(q, base, batches[j]);
  }

  /** What a batch reports are its new embeddings, and the earlier ones that use one of its edges. */
  lemma CountSplits(a: Setup, g0: Graph, x0: Index, f: Facts, st: Stage)
    requires StageOk(a, g0, x0, f, st)
    ensures a.q.Valid() && g0.Valid() && f.g.Valid() && Embeddings(a.q, g0) <= Embeddings(a.q, f.g)
    ensures |Using(a.q, f.g, f.es)| == |Embeddings(a.q, f.g) - Embeddings(a.q, g0)| + |Using(a.q, g0, f.es)|
  {
    hide DelInv, DeltasFor, UpdatesFor, Shaped, Packs, Using, Embeddings;
    UsingAre(a.q, g0, f.grown, f.es);
  }

  /** The words are at most two per query edge and directed edge of the graph. */
  ghost predicate Bounded(m: nat, g: Graph, n: nat, words: nat) {
    |g.nei| == n && words <= 2 * (m * Degrees(g.nei, n))
  }

  /** What is bounded before a batch is bounded after it. */
  lemma BoundGrows(a: Setup, g0: Graph, x0: Index, f: Facts, st: Stage, m: nat, words: nat)
    requires StageOk(a, g0, x0, f, st) && Bounded(m, g0, a.n, words)
    ensures Bounded(m, f.g, a.n, words)
  {
    hide DelInv, DeltasFor, UpdatesFor, Shaped, Packs, Bounded;
    MoreEdges(m, g0, f.grown, a.n, words);
  }

  lemma MoreEdges(m: nat, g: Graph, grown: set<Edge>, n: nat, words: nat)
    requires g.Valid() && Symmetric(g, grown) && Bounded(m, g, n, words)
    ensures Bounded(m, Grow(g, grown), n, words)
  {
    hide Degrees, Symmetric;
    GrowIsValid(g, grown);
    var g' := Grow(g, grown);
    DegreesGrow(g.nei, g'.nei, n);
    var d, d' := Degrees(g.nei, n), Degrees(g'.nei, n);
    assert m * d <= m * d';
  }

  function Larger(x: nat, y: nat): nat { if x < y then y else x }

  lemma LargerBounded(a: Setup, g0: Graph, x0: Index, f: Facts, st: Stage, m: nat, need: nat, took: nat)
    requires StageOk(a, g0, x0, f, st) && Bounded(m, g0, a.n, need) && Bounded(m, f.g, a.n, took)
    ensures Bounded(m, f.g, a.n, Larger(need, took))
  {
    hide StageOk, Bounded;
    BoundGrows(a, g0, x0, f, st, m, need);
  }

  /** One more batch has been counted, if its first frontier and those before have fitted. */
  lemma CountedNext(q: Graph, first: Graph, g: Graph, num: nat, again: nat, need: nat, cap: nat, g': Graph, count: nat, took: nat, used: nat, more: nat)
    requires (need <= cap ==> Counted(q, first, g, num, again)) && (took <= cap ==> count == used)
    requires q.Valid() && g.Valid() && g'.Valid() && Embeddings(q, g) <= Embeddings(q, g') && used == |Embeddings(q, g') - Embeddings(q, g)| + more
    ensures Larger(need, took) <= cap ==> Counted(q, first, g', num + count, again + more)
  {
    hide Counted, Embeddings;
    if need <= cap && took <= cap { CountedMore(q, first, g, num, again, g', count, more); }
  }

  lemma StageFiltered(a: Setup, g0: Graph, x0: Index, f: Facts, st: Stage)
    requires StageOk(a, g0, x0, f, st)
    ensures a.Filtered(g0, x0) && a.Filtered(f.g, f.x)
  {
  }

  class Pipeline {
    ghost const a: Setup
    const meta: Meta
    const plan: QueryPlan.Plan
    const info: seq<CartesianProductType>
    const masks: Masks
    const cap: nat
    const n: nat
    const calig: CaLiG
    const mirror: Mirror.CPUIndexMirror
    /** The batches that the first stage has prepared and the second one has not matched yet. */
    var queue: seq<Stage>
    var numMatches: nat
    /** What the first stage knows of the waiting batches, and the state that the second stage has caught up with. */
    ghost var facts: seq<Facts>
    ghost var baseG: Graph
    ghost var baseX: Index
    ghost const first: Graph
    /** How many of the counted embeddings were there before. */
    ghost var again: nat
    /** The most words that the first frontier of a batch has taken so far. */
    ghost var need: nat

    /** Loads the graph: filters it, plans the search, and fills the main lists. */
    constructor (q: Graph, rep: CaligCheck.Groups, query: Query, meta: Meta, labels: seq<int>, nei: seq<set<nat>>,
                 seed: nat, pick: nat -> nat, avgDegree: (nat, nat) -> real, masks: Masks, cap: nat)
      requires q.Valid() && CaligCheck.GroupsOf(q, rep) && query.Valid() && SameQuery(q, query) && meta.Valid(query)
      requires Planner.Connected(query) && query.N() >= 3 && seed < |meta.qeList| <= 32 && meta.numDirEdges <= 32
      requires forall u :: 0 <= u < |q.labels| ==> q.labels[u] != NoLabel
      requires Graph(labels, nei).Valid() && Graph(labels, nei).Loopless() && |labels| <= U_RANGE
      requires SoundMasks(masks, |labels|) && 0 < cap
      ensures Valid() && fresh(calig) && fresh(mirror)
      ensures first == calig.G() == Graph(labels, nei) && a.q == q && a.n == |labels| && queue == [] && facts == [] && numMatches == 0 == again == need
    {
      hide PlanFor, Numbered, SoundMasks, MarksTails, Shaped, DelInv, CaligCheck.GroupsOf, MainFor, Waiting, Counted, Embeddings, Embedding, Meta.Valid, Query.Valid, Planner.Connected, Planner.Selective, CaligGroups.FilteredFrom, CaligGroups.Tested;
      QueryLoopless(q, query);
      var filter := new CaLiG(q, rep, labels, nei);
      filter.StaticFilter();
      var order, marks := PlanSearch(q, query, meta, seed, pick, avgDegree);
      ghost var setup := Setup(q, query, meta, order, |labels|);
      assert setup.Filtered(Graph(labels, nei), filter.X());
      var lists := new Mirror.CPUIndexMirror(meta.numDirEdges);
      ConvertGlobalIndex(setup, meta, |labels|, filter, lists);
      NoneWaiting(setup, Graph(labels, nei), filter.X());
      this.a, this.meta, plan, info, this.masks, this.cap, n := setup, meta, order, marks, masks, cap, |labels|;
      calig, mirror, queue, numMatches := filter, lists, [], 0;
      facts, baseG, baseX, first, again, need := [], Graph(labels, nei), filter.X(), Graph(labels, nei), 0, 0;
    }

    ghost predicate Set() {
      && a.Valid() && a.meta == meta && a.plan == plan && a.n == n
      && MarksTails(plan, info) && SoundMasks(masks, n) && 0 < cap
      && calig.q == a.q && |calig.labels| == n && mirror.numDirEdges == meta.numDirEdges
    }

    ghost predicate Valid()
      reads this, calig, mirror
    {
      && Set() && calig.Valid() && mirror.Valid() && mirror.dvCount == n
      && MainFor(a.q, meta, baseX, MainLists(mirror.main, n))
      && (need <= cap ==> Counted(a.q, first, baseG, numMatches, again))
      && Bounded(plan.m, baseG, n, need)
      && Waiting(a, baseG, baseX, facts, queue, calig.G(), calig.X()) && a.Filtered(calig.G(), calig.X())
    }

    /** Cuts the update numbers into batches of `size` and runs both stages, each batch through the first one before
        the second one takes it up, and otherwise in any interleaving.  Unless the first frontier of some batch is
        larger than the ring, the number is that of the new embeddings plus what the batches give again. */
    method Run(update: seq<nat>, size: nat)
      requires 0 < size && Valid() && queue == [] && facts == [] && again == 0 == need && calig.G() == first && GoodBatches(n, Cut(update, size, 0))
      modifies this, calig, mirror
      ensures Valid() && queue == [] && Bounded(plan.m, calig.G(), n, need) && Attained(Cut(update, size, 0), |Cut(update, size, 0)|, need)
      ensures var es := Both(Stream(update, size, 0)); Symmetric(first, es) && Grow(first, es).Valid()
      ensures var batches := Cut(update, size, 0); calig.G() == GraphBefore(first, batches, |batches|)
      ensures var batches, es := Cut(update, size, 0), Both(Stream(update, size, 0));
        need <= cap ==> numMatches == |Embeddings(a.q, Grow(first, es)) - Embeddings(a.q, first)| + Again(a.q, first, batches, |batches|)
      ensures var batches, es := Cut(update, size, 0), Both(Stream(update, size, 0));
        need <= cap ==> (numMatches == |Embeddings(a.q, Grow(first, es)) - Embeddings(a.q, first)| <==>
          forall k: nat :: k < |batches| ==> NoneUses(a.q, GraphBefore(first, batches, k), batches[k]))
      ensures Unrepeated(Stream(update, size, 0)) && FreshBatch(first, Stream(update, size, 0)) ==>
        Again(a.q, first, Cut(update, size, 0), |Cut(update, size, 0)|) == 0
    {
      hide *;
      ghost var batches := Cut(update, size, 0);
      Starts(batches);
      assert batches[0..] == batches;
      var start := 0;
      ghost var i: nat, j: nat := 0, 0;
      while start < |update| || queue != []
        invariant Valid() && start <= |update| && i <= |batches| && batches[i..] == Cut(update, size, start)
        invariant Reached(a.q, first, batches, i, j, calig.G(), baseG, facts, again) && j <= i && Attained(batches, j, need)
        decreases |update| - start, |queue|
      {
        var stage1 := *;
        if start < |update| && (queue == [] || stage1) {
          var count := if size <= |update| - start then size else |update| - start;
          var batch := Pairs(update, start, count);
          CutNext(update, size, start, count);
          NextCut(batches, i, batch, Cut(update, size, start + count));
          IsGood(n, batches, i);
          NextBatch(batch, batches, i, j);
          start, i := start + count, i + 1;
        } else {
          var dense, k: nat := *, *;
          NextMatch(dense, k, batches, i, j);
          j := j + 1;
        }
      }
      CutEnds(update, size, start);
      assert i == |batches|;
      AllMatched(batches, i, j);
      Finished(update, size, batches, j);
    }

    lemma AllMatched(batches: seq<seq<Edge>>, i: nat, j: nat)
      requires Valid() && queue == [] && Reached(a.q, first, batches, i, j, calig.G(), baseG, facts, again)
      ensures i == j
    {
      hide StageOk, MainFor, SoundMasks, MarksTails, Shaped, PlanFor, Numbered, Embeddings, Counted, Mirror.CPUIndexMirror.Valid, CaLiG.Valid, After, EdgesIn, Again;
    }

    lemma Starts(batches: seq<seq<Edge>>)
      requires Valid() && facts == [] && again == 0 && calig.G() == first
      ensures Reached(a.q, first, batches, 0, 0, calig.G(), baseG, facts, again) && Attained(batches, 0, 0)
    {
      hide StageOk, MainFor, SoundMasks, MarksTails, Shaped, PlanFor, Numbered, Embeddings, Mirror.CPUIndexMirror.Valid, CaLiG.Valid, Reached;
      NoneReached(a.q, first, batches);
    }

    /** Passes the next batch to the first stage. */
    method NextBatch(batch: seq<Edge>, ghost batches: seq<seq<Edge>>, ghost i: nat, ghost j: nat)
      requires Valid() && i < |batches| && batch == batches[i] && GoodBatch(n, batch)
      requires Reached(a.q, first, batches, i, j, calig.G(), baseG, facts, again)
      modifies this`queue, this`facts, calig
      ensures Valid() && Reached(a.q, first, batches, i + 1, j, calig.G(), baseG, facts, again)
    {
      hide Valid, Set, GoodBatch, Reached, After, EdgesIn;
      ghost var g, facts0 := calig.G(), facts;
      Stage1(batch);
      assert facts == facts0 + [facts[|facts0|]];
      ReachedMore(a.q, first, batches, i, j, g, baseG, facts0, again, facts[|facts0|]);
    }

    /** Takes the oldest waiting batch through the second stage. */
    method NextMatch(dense: bool, k: nat, ghost batches: seq<seq<Edge>>, ghost i: nat, ghost j: nat)
      requires Valid() && queue != [] && Reached(a.q, first, batches, i, j, calig.G(), baseG, facts, again) && Attained(batches, j, need)
      modifies this, mirror
      ensures Valid() && |queue| == |old(queue)| - 1 && Reached(a.q, first, batches, i, j + 1, calig.G(), baseG, facts, again)
      ensures j < i && Attained(batches, j + 1, need)
    {
      hide Valid, Set, Reached, Needs, Using, Attained, Batched, Larger;
      ghost var base, baseX0, facts0, queue0, again0, need0 := baseG, baseX, facts, queue, again, need;
      Oldest(batches, i, j);
      ghost var took := Stage2(dense, k);
      ReachedLess(a.q, first, batches, i, j, calig.G(), base, facts0, again0);
      AttainedMore(batches, j, need0, facts0[0], queue0[0], took);
    }

    /** The facts and the stage are those of batch `k`. */
    ghost predicate Batched(batches: seq<seq<Edge>>, k: nat, f: Facts, st: Stage) {
      && first.Valid() && k < |batches| && f.g == GraphBefore(first, batches, k + 1) && f.es == EdgesIn(f.g, batches[k])
      && exists x0 :: StageOk(a, GraphBefore(first, batches, k), x0, f, st)
    }

    /** Some batch below `j` has a first frontier of that many words. */
    ghost predicate Attained(batches: seq<seq<Edge>>, j: nat, words: nat) {
      words == 0 || exists k: nat, f, st :: k < j && Batched(batches, k, f, st) && Needs(f, st, words)
    }

    lemma Oldest(batches: seq<seq<Edge>>, i: nat, j: nat)
      requires Valid() && queue != [] && Reached(a.q, first, batches, i, j, calig.G(), baseG, facts, again)
      ensures j < i && |facts| == |queue| && Batched(batches, j, facts[0], queue[0])
    {
      hide StageOk, MainFor, SoundMasks, MarksTails, Shaped, PlanFor, Numbered, Embeddings, Counted, Mirror.CPUIndexMirror.Valid, CaLiG.Valid, After, EdgesIn, Again;
      WaitingLess(a, baseG, baseX, facts, queue, calig.G(), calig.X());
    }

    lemma AttainedMore(batches: seq<seq<Edge>>, j: nat, need: nat, f: Facts, st: Stage, took: nat)
      requires Attained(batches, j, need) && Batched(batches, j, f, st) && Needs(f, st, took)
      ensures Attained(batches, j + 1, Larger(need, took))
    {
      hide Batched, Needs;
    }

    /** When no batch is waiting the number is that of the whole stream. */
    lemma Finished(update: seq<nat>, size: nat, batches: seq<seq<Edge>>, j: nat)
      requires 0 < size && Valid() && queue == [] && batches == Cut(update, size, 0) && GoodBatches(n, batches)
      requires Reached(a.q, first, batches, |batches|, j, calig.G(), baseG, facts, again)
      ensures Bounded(plan.m, calig.G(), n, need)
      ensures var es := Both(Stream(update, size, 0)); Symmetric(first, es) && Grow(first, es).Valid()
      ensures a.q.Valid() && first.Valid() && calig.G() == GraphBefore(first, batches, |batches|)
      ensures var es := Both(Stream(update, size, 0));
        need <= cap ==> numMatches == |Embeddings(a.q, Grow(first, es)) - Embeddings(a.q, first)| + Again(a.q, first, batches, |batches|)
      ensures Again(a.q, first, batches, |batches|) == 0 <==> forall k: nat :: k < |batches| ==> NoneUses(a.q, GraphBefore(first, batches, k), batches[k])
      ensures Unrepeated(Stream(update, size, 0)) && FreshBatch(first, Stream(update, size, 0)) ==> Again(a.q, first, batches, |batches|) == 0
    {
      hide StageOk, MainFor, SoundMasks, MarksTails, Shaped, PlanFor, Numbered, Embeddings, Mirror.CPUIndexMirror.Valid,
        Applied, DelInv, CaligCheck.GroupsOf, GoodBatches, Joined, Cut, Stream, After, GraphBefore, Again, NoneUses, Both, Unrepeated, FreshBatch;
      var g, stream := calig.G(), Stream(update, size, 0);
      CutJoined(update, size, 0);
      BeforeApplied(first, batches, |batches|);
      JoinedInRange(n, batches, |batches|);
      AllApplied(a.q, first, g, stream);
      NeverAgain(a.q, first, batches, |batches|);
      if Unrepeated(stream) && FreshBatch(first, stream) { FreshNeverAgain(a.q, first, batches, |batches|); }
    }

    /** Filters the next batch and hands it to the second stage. */
    method Stage1(batch: seq<Edge>)
      requires Valid() && GoodBatch(n, batch)
      modifies this`queue, this`facts, calig
      ensures Valid() && |queue| == |old(queue)| + 1
      ensures |facts| == |old(facts)| + 1 && facts[..|old(facts)|] == old(facts)
      ensures var f := facts[|old(facts)|];
        && old(calig.G()).Valid() && f.grown == NewEdges(old(calig.G()), batch)
        && f.g == calig.G() == After(old(calig.G()), batch) && f.es == EdgesIn(calig.G(), batch)
    {
      hide StageOk, GoodBatch, After, NewEdges, EdgesIn, Waiting, Counted, MainFor, SoundMasks, MarksTails, Shaped, PlanFor, Numbered, CaLiG.Valid, Mirror.CPUIndexMirror.Valid;
      ghost var g, x := calig.G(), calig.X();
      var st, f := Prepare(batch);
      WaitingMore(a, baseG, baseX, facts, queue, g, x, f, st);
      StageFiltered(a, g, x, f, st);
      queue, facts := queue + [st], facts + [f];
    }

    method Prepare(batch: seq<Edge>) returns (st: Stage, ghost f: Facts)
      requires Set() && calig.Valid() && a.Filtered(calig.G(), calig.X()) && GoodBatch(n, batch)
      modifies calig
      ensures calig.Valid() && StageOk(a, old(calig.G()), old(calig.X()), f, st) && f.g == calig.G() && f.x == calig.X()
      ensures old(calig.G()).Valid() && f.grown == NewEdges(old(calig.G()), batch)
      ensures calig.G() == After(old(calig.G()), batch) && f.es == EdgesIn(calig.G(), batch)
    {
      hide StageOk, Logged, DelInv, Shaped, DeltasFor, PlanFor, Numbered, SoundMasks, MarksTails, CaligCheck.GroupsOf, InBatch, Among, Unrepeated, LiveEntry, EdgesIn, NewEdges;
      ghost var g0, x0 := calig.G(), calig.X();
      ghost var grown := calig.UpdateIndex(batch);
      ghost var ins0, del0 := calig.deltaIns, calig.deltaDel;
      calig.ConstructUpdate(batch);
      var ins, del, update := calig.MergeDeltas();
      f := Facts(calig.G(), calig.X(), calig.rank, calig.clock, grown, EdgesIn(calig.G(), batch), ins0, del0, set t | t in update);
      BatchLogged(a, g0, x0, f, batch);
      SameNewEdges(g0, batch, grown);
      st := Pack(calig.li, ins, del, update, g0, x0, f);
    }

    method Pack(li: set<Pair>, ins: set<Entry>, del: set<Entry>, update: seq<Entry>, ghost g0: Graph, ghost x0: Index, ghost f: Facts) returns (st: Stage)
      requires Set() && Logged(a, g0, x0, f) && f.x.on == li && f.ins == ins && del == f.del + f.update && f.update == (set t | t in update) && Distinct(update)
      ensures StageOk(a, g0, x0, f, st)
    {
      hide Logged, SoundMasks, MarksTails;
      LoggedPackable(a, g0, x0, f);
      var insEdges, delEdges := PrepareUpdateAll(meta, li, ins, del);
      var updEdges, edgeOk := PrepareUpdateIndex(meta, update);
      CodesDistinct(a, update, updEdges);
      FlagsOk(a, f, update, edgeOk);
      st := Stage(insEdges, delEdges, updEdges, edgeOk);
    }

    lemma SetSays()
      requires Set()
      ensures a.n == n && a.meta == meta
    {
      hide Setup.Valid, SoundMasks, MarksTails;
    }

    /** What the searches are given for a batch. */
    ghost predicate Loaded(f: Facts, b: Frontier.Batch) {
      a.q.Valid() && b.plan == plan && b.dv == n && b.support == masks(plan, b.main, b.upd) && ListsFor(a, f, b.main, b.upd)
    }

    /** The first frontier of the batch takes `took` words. */
    ghost predicate Needs(f: Facts, st: Stage, took: nat) {
      if st.upd == [] then took == 0
      else plan.Valid() && |st.edgeOk| == plan.m && exists b :: Loaded(f, b) && took == 2 * |InitialRows.Starts(b, st.edgeOk)|
    }

    /** Brings the lists up to the next waiting batch and counts its matches.  `dense` and `k` stand for the
        outcome of the density heuristic and the share of the CPU. */
    method Stage2(dense: bool, k: nat) returns (ghost took: nat)
      requires Valid() && queue != []
      modifies this, mirror
      ensures Valid() && queue == old(queue)[1..] && |old(facts)| > 0 && facts == old(facts)[1..]
      ensures baseG == old(facts)[0].g && baseX == old(facts)[0].x
      ensures Needs(old(facts)[0], old(queue)[0], took) && need == Larger(old(need), took)
      ensures took <= cap ==> numMatches - old(numMatches) == |Using(a.q, baseG, old(facts)[0].es)|
      ensures again - old(again) == |Using(a.q, old(baseG), old(facts)[0].es)|
    {
      hide StageOk, Waiting, Counted, MainFor, Embeddings, Embedding, Using, Needs, Bounded, Set, Setup.Valid, Setup.Filtered, CaLiG.Valid, Larger, Mirror.CPUIndexMirror.Valid;
      SetSays();
      WaitingLess(a, baseG, baseX, facts, queue, calig.G(), calig.X());
      ghost var f := facts[0];
      StageFiltered(a, baseG, baseX, f, queue[0]);
      var count;
      count, took := MatchStage(queue[0], f, baseG, baseX, dense, k);
      LargerBounded(a, baseG, baseX, f, queue[0], plan.m, need, took);
      CountSplits(a, baseG, baseX, f, queue[0]);
      CountedNext(a.q, first, baseG, numMatches, again, need, cap, f.g, count, took, |Using(a.q, f.g, f.es)|, |Using(a.q, baseG, f.es)|);
      queue, numMatches, need := queue[1..], numMatches + count, Larger(need, took);
      facts, baseG, baseX, again := facts[1..], f.g, f.x, again + |Using(a.q, baseG, f.es)|;
    }

    /** Takes one batch through the second stage. */
    method MatchStage(st: Stage, ghost f: Facts, ghost g0: Graph, ghost x0: Index, dense: bool, k: nat) returns (count: nat, ghost took: nat)
      requires Set() && mirror.Valid() && mirror.dvCount == n && StageOk(a, g0, x0, f, st) && MainFor(a.q, meta, x0, MainLists(mirror.main, n))
      modifies mirror
      ensures mirror.Valid() && mirror.dvCount == n && MainFor(a.q, meta, f.x, MainLists(mirror.main, n))
      ensures Needs(f, st, took) && Bounded(plan.m, f.g, n, took)
      ensures f.g.Valid() && (took <= cap ==> count == |Using(a.q, f.g, f.es)|)
    {
      hide StageOk, MainFor, MainWithout, SoundMasks, MarksTails, Shaped, PlanFor, Numbered, Embeddings, Using, Mirror.CPUIndexMirror.Valid;
      StageFiltered(a, g0, x0, f, st);
      Transfer(st, f, g0, x0);
      count, took := 0, 0;
      if |st.upd| > 0 {
        var sorted := TransferUpdateIndex(st, f, g0, x0);
        count, took := Count(st, sorted, f, g0, x0, dense, k);
        BatchUpdateGlobalIndex(st, f, g0, x0);
      } else {
        NoUpdates(a, g0, x0, f, st, MainLists(mirror.main, n));
      }
    }

    /** Merges the insertions and takes out the erasures and the updates. */
    method Transfer(st: Stage, ghost f: Facts, ghost g0: Graph, ghost x0: Index)
      requires Set() && mirror.Valid() && mirror.dvCount == n && StageOk(a, g0, x0, f, st) && MainFor(a.q, meta, x0, MainLists(mirror.main, n))
      modifies mirror`main
      ensures mirror.Valid() && MainWithout(a.q, meta, f.x, f.es, MainLists(mirror.main, n))
    {
      hide SoundMasks, MarksTails, Logged, MainFor, MainWithout, Encodes, EdgesOk, AllPackable, Merging, Mirror.Known, Mirror.AllMerged, PlanFor, Numbered;
      LoggedPackable(a, g0, x0, f);
      ghost var main0 := mirror.main;
      ghost var on := set e | e in f.ins && Here(e.s) in f.x.on;
      EdgesKnown(a, st.ins, on);
      mirror.MergeInsert(st.ins);
      ghost var main1 := mirror.main;
      MergedLists(a, main0, main1, st.ins, on, true);
      EdgesKnown(a, st.del, f.del + f.update);
      mirror.MergeRemove(st.del);
      MergedLists(a, main1, mirror.main, st.del, f.del + f.update, false);
      Transferred(a, g0, x0, f, MainLists(main0, n), MainLists(main1, n), MainLists(mirror.main, n));
    }

    /** Sets up the update lists of the batch, on both sides. */
    method TransferUpdateIndex(st: Stage, ghost f: Facts, ghost g0: Graph, ghost x0: Index) returns (sorted: seq<nat>)
      requires Set() && mirror.Valid() && mirror.dvCount == n && StageOk(a, g0, x0, f, st)
      modifies mirror`upd, mirror`batch
      ensures mirror.Valid() && Ascending(sorted) && multiset(sorted) == multiset(st.upd)
      ensures Ascending(mirror.batch) && multiset(mirror.batch) == multiset(st.upd)
    {
      hide SoundMasks, MarksTails, Logged, Encodes, EdgesOk;
      LoggedPackable(a, g0, x0, f);
      EdgesKnown(a, st.upd, f.update);
      sorted := Sort(st.upd);
      mirror.RebuildUpdate(st.upd);
    }

    /** Matches the batch against the lists. */
    method Count(st: Stage, sorted: seq<nat>, ghost f: Facts, ghost g0: Graph, ghost x0: Index, dense: bool, k: nat) returns (count: nat, ghost took: nat)
      requires Set() && mirror.Valid() && mirror.dvCount == n && StageOk(a, g0, x0, f, st) && st.upd != []
      requires MainWithout(a.q, meta, f.x, f.es, MainLists(mirror.main, n)) && Ascending(sorted) && multiset(sorted) == multiset(st.upd)
      ensures Needs(f, st, took) && Bounded(plan.m, f.g, n, took)
      ensures f.g.Valid() && (took <= cap ==> count == |Using(a.q, f.g, f.es)|)
    {
      hide Logged, MainWithout, Encodes, EdgesOk;
      var main, upd := MainLists(mirror.main, n), UpdLists(sorted);
      ListsReady(a, g0, x0, f, st, mirror.main, sorted);
      var b := Frontier.Batch(plan, main, upd, masks(plan, main, upd), n);
      ListsAreGood(a, g0, x0, f, b);
      BatchReady(a, g0, x0, f, st, b);
      took := 2 * |InitialRows.Starts(b, st.edgeOk)|;
      assert Loaded(f, b);
      count := MatchBatch(b, info, cap, st.edgeOk, dense, k);
      Reports(a, g0, x0, f, b);
    }

    /** Merges the updates of the batch into the main lists. */
    method BatchUpdateGlobalIndex(st: Stage, ghost f: Facts, ghost g0: Graph, ghost x0: Index)
      requires Set() && mirror.Valid() && mirror.dvCount == n && StageOk(a, g0, x0, f, st)
      requires MainWithout(a.q, meta, f.x, f.es, MainLists(mirror.main, n))
      modifies mirror`main
      ensures mirror.Valid() && MainFor(a.q, meta, f.x, MainLists(mirror.main, n))
    {
      hide SoundMasks, MarksTails, Logged, MainFor, MainWithout, Encodes, EdgesOk;
      LoggedPackable(a, g0, x0, f);
      ghost var main0 := mirror.main;
      EdgesKnown(a, st.upd, f.update);
      mirror.MergeInsert(st.upd);
      MergedLists(a, main0, mirror.main, st.upd, f.update, true);
      Updated(a, g0, x0, f, MainLists(main0, n), MainLists(mirror.main, n));
    }
  }

  /** A loader for the batch and its count. */
  method MatchBatch(b: Frontier.Batch, info: seq<CartesianProductType>, cap: nat, edgeOk: seq<bool>, dense: bool, k: nat) returns (count: nat)
    requires InitialRows.Ready(b, edgeOk) && MarksTails(b.plan, info) && 0 < cap
    ensures 2 * |InitialRows.Starts(b, edgeOk)| <= cap ==>
      count == |MatchesOf(NewGraph(b.plan, b.main, b.upd), b.dv)| - |MatchesOf(OldGraph(b.plan, b.main), b.dv)|
  {
    var loader := new Matching.GPUGraphLoader(b, info, cap);
    count := loader.MatchingBitAll(edgeOk, dense, k);
  }

  lemma NextCut(batches: seq<seq<Edge>>, i: nat, batch: seq<Edge>, rest: seq<seq<Edge>>)
    requires i <= |batches| && batches[i..] == [batch] + rest
    ensures i < |batches| && batches[i] == batch && batches[i + 1..] == rest
  {
    assert batches[i] == batches[i..][0] && batches[i + 1..] == batches[i..][1..];
  }

  lemma IsGood(n: nat, batches: seq<seq<Edge>>, i: nat)
    requires GoodBatches(n, batches) && i < |batches|
    ensures GoodBatch(n, batches[i])
  {
  }

  lemma Transferred(a: Setup, g0: Graph, x0: Index, f: Facts, main0: Lists, main1: Lists, main2: Lists)
    requires a.Valid() && Logged(a, g0, x0, f) && MainFor(a.q, a.meta, x0, main0)
    requires Merging(a.q, a.meta, main0, main1, set e | e in f.ins && Here(e.s) in f.x.on, true)
    requires Merging(a.q, a.meta, main1, main2, f.del + f.update, false)
    ensures MainWithout(a.q, a.meta, f.x, f.es, main2)
  {
    hide PlanFor, Numbered, DelInv, DeltasFor, UpdatesFor, MainFor, MainWithout, Merging, Shaped;
    MainDuring(a.q, g0, f.grown, f.es, a.meta, x0, f.x, f.ins, f.del, f.update, main0, main1, main2);
  }

  lemma Updated(a: Setup, g0: Graph, x0: Index, f: Facts, main2: Lists, main3: Lists)
    requires a.Valid() && Logged(a, g0, x0, f) && MainWithout(a.q, a.meta, f.x, f.es, main2)
    requires Merging(a.q, a.meta, main2, main3, f.update, true)
    ensures MainFor(a.q, a.meta, f.x, main3)
  {
    hide PlanFor, Numbered, DelInv, DeltasFor, UpdatesFor, MainFor, MainWithout, Merging, Shaped;
    MainAfter(a.q, a.meta, f.x, f.es, f.update, main2, main3);
  }

  /** Without updates the lists are up to date already, and nothing is to be reported. */
  lemma NoUpdates(a: Setup, g0: Graph, x0: Index, f: Facts, st: Stage, main: Lists)
    requires a.Valid() && StageOk(a, g0, x0, f, st) && st.upd == [] && MainWithout(a.q, a.meta, f.x, f.es, main)
    ensures f.g.Valid() && MainFor(a.q, a.meta, f.x, main) && Using(a.q, f.g, f.es) == {}
  {
    hide PlanFor, Numbered, Logged, MainWithout, MainFor;
    StageFiltered(a, g0, x0, f, st);
    assert forall t :: t in f.update ==> Code(a.meta, t) in st.upd;
    assert f.update == {};
    assert Merging(a.q, a.meta, main, main, {}, true);
    Updated(a, g0, x0, f, main, main);
    NothingUsing(a, g0, x0, f);
  }

  /** The lists of the second stage are those of the batch. */
  lemma ListsReady(a: Setup, g0: Graph, x0: Index, f: Facts, st: Stage, main: seq<Mirror.Main>, sorted: seq<nat>)
    requires a.Valid() && StageOk(a, g0, x0, f, st) && |main| == a.meta.numDirEdges && Mirror.AllOk(main, a.n)
    requires MainWithout(a.q, a.meta, f.x, f.es, MainLists(main, a.n)) && Ascending(sorted) && multiset(sorted) == multiset(st.upd)
    ensures ListsFor(a, f, MainLists(main, a.n), UpdLists(sorted))
  {
    hide PlanFor, Numbered, Logged, MainWithout, EdgesOk, Setup.Valid, Encodes, AllPackable, Strict, Mirror.AllOk, Mirror.Known, Mirror.Vs, OfQuery;
    LoggedPackable(a, g0, x0, f);
    SortedStrict(sorted, st.upd);
    ListsAscend(a, main, sorted);
    SameCodes(a.meta, sorted, st.upd, f.update);
    EdgesKnown(a, sorted, f.update);
    forall s, y | OfQuery(a.q, s)
      ensures Holds(a.meta, UpdLists(sorted), s, y) <==> Entry(s, y) in f.update
    {
      SlotEntries(a, sorted, f.update, s, y);
    }
    forall idx: nat, v: nat | idx >= a.meta.numDirEdges
      ensures UpdLists(sorted)(idx, v) == []
    {
      NoneBeyond(sorted, a.meta.numDirEdges, a.n, idx, v);
    }
  }

  lemma SameCodes(meta: Meta, edges: seq<nat>, edges': seq<nat>, entries: set<Entry>)
    requires Encodes(meta, edges', entries) && forall k :: k in edges <==> k in edges'
    ensures Encodes(meta, edges, entries)
  {
    hide Code, CodeOf;
  }

  lemma NoneBeyond(sorted: seq<nat>, dirs: nat, n: nat, idx: nat, v: nat)
    requires Mirror.Known(sorted, dirs, n) && idx >= dirs
    ensures Mirror.Vs(sorted, idx, v) == []
  {
    if Mirror.Vs(sorted, idx, v) != [] {
      var y := SomeElement(Mirror.Vs(sorted, idx, v));
      Mirror.VsContents(sorted, idx, v, y);
    }
  }

  /** What is counted are the embeddings that use an edge of the batch. */
  lemma Reports(a: Setup, g0: Graph, x0: Index, f: Facts, b: Frontier.Batch)
    requires a.Valid() && Logged(a, g0, x0, f) && b.plan == a.plan && b.dv == a.n
    requires Batches.Ready(a.q, f.g, f.x, f.rank, f.clock, b.plan, f.es, b.main, b.upd) && Staged(b.main, b.upd)
    ensures f.g.Valid()
    ensures |MatchesOf(NewGraph(b.plan, b.main, b.upd), b.dv)| - |MatchesOf(OldGraph(b.plan, b.main), b.dv)| == |Using(a.q, f.g, f.es)|
  {
    hide PlanFor, Numbered, DelInv, DeltasFor, UpdatesFor, Batches.Ready;
    ReportsUsing(a.q, f.g, f.x, f.rank, f.clock, b.plan, f.es, b.main, b.upd);
  }
}
