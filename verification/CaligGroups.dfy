/** Whole rounds and whole runs of the filter: delete rounds with their checks of label groups, the rounds of both
    loops one after the other, and what the checks guarantee of the pairs that stay on. */
module CaligGroups {
  import opened Graphs
  import opened CaligIndex
  import opened CaligCheck
  import opened CaligRounds

  /** A round that processes `queue` takes `y` out of slot `s`, whose query neighbour shares its label with others. */
  ghost predicate LostMate(q: Graph, rep: Groups, x: Index, queue: set<Pair>, s: Slot, y: nat) {
    s in x.cand && Erased(x, queue, s, y) && s.u < |rep| && s.w < |q.labels| && q.labels[s.w] in rep[s.u]
  }

  /** In one of the groups in which the pair has lost a candidate there still are distinct representatives. */
  ghost predicate Retested(q: Graph, rep: Groups, x: Index, queue: set<Pair>, cand: map<Slot, set<nat>>, p: Pair) {
    exists s, y :: LostMate(q, rep, x, queue, s, y) && Here(s) == p && Representable(cand, p, rep[s.u][q.labels[s.w]], {})
  }

  /** In one of these groups there are none any more. */
  ghost predicate FailsGroup(q: Graph, rep: Groups, x: Index, queue: set<Pair>, cand: map<Slot, set<nat>>, p: Pair) {
    exists s, y :: LostMate(q, rep, x, queue, s, y) && Here(s) == p && !Representable(cand, p, rep[s.u][q.labels[s.w]], {})
  }

  ghost predicate HasEmptySlot(cand: map<Slot, set<nat>>, p: Pair) {
    exists s :: s in cand && Here(s) == p && cand[s] == {}
  }

  /** One call of `delAndCheck` with its checks: a pair goes off only for an empty slot or a failed check, and one that
      has lost a candidate in a group and stays on has passed a check. */
  ghost predicate DelRound(q: Graph, g: Graph, rep: Groups, x: Index, queue: set<Pair>, x': Index, queue': set<Pair>)
    requires q.Valid()
  {
    && DelStep(q, g, x, queue, x', queue')
    && (forall p :: p in queue' ==> HasEmptySlot(x'.cand, p) || FailsGroup(q, rep, x, queue, x'.cand, p))
    && (forall s, y :: LostMate(q, rep, x, queue, s, y) && Here(s) in x'.on ==> Retested(q, rep, x, queue, x'.cand, Here(s)))
  }

  /** One call of `addAndCheck`, with exactly the pairs that have failed the check. */
  ghost predicate AddRound(q: Graph, g: Graph, x: Index, queue: set<Pair>, failed: set<Pair>, x': Index, queue': set<Pair>, failed': set<Pair>)
    requires q.Valid()
  {
    && AddStep(q, g, x, queue, failed, x', queue', failed')
    && forall p :: p in failed' <==> p in failed || (Rechecked(x, queue, p) && p !in x'.on)
  }

  // ---- Runs ----

  /** The work of round `i`: what the round before it has turned off. */
  function DelWork(xs: seq<Index>, queue: set<Pair>, i: nat): set<Pair>
    requires i < |xs|
  {
    if i == 0 then queue else xs[i - 1].on - xs[i].on
  }

  ghost predicate DelRoundAt(q: Graph, g: Graph, rep: Groups, xs: seq<Index>, queue: set<Pair>, i: nat)
    requires q.Valid() && i + 1 < |xs|
  {
    DelWork(xs, queue, i) != {} && DelRound(q, g, rep, xs[i], DelWork(xs, queue, i), xs[i + 1], DelWork(xs, queue, i + 1))
  }

  /** Each state follows from the one before it by a delete round with work to do. */
  ghost predicate DelRounds(q: Graph, g: Graph, rep: Groups, xs: seq<Index>, queue: set<Pair>)
    requires q.Valid()
  {
    |xs| > 0 && forall i: nat :: i + 1 < |xs| ==> DelRoundAt(q, g, rep, xs, queue, i)
  }

  /** Delete rounds lead from `x` with the work `queue` to `x'`, where no work is left. */
  ghost predicate Deleted(q: Graph, g: Graph, rep: Groups, x: Index, queue: set<Pair>, x': Index)
    requires q.Valid()
  {
    exists xs :: DelRounds(q, g, rep, xs, queue) && xs[0] == x && xs[|xs| - 1] == x' && DelWork(xs, queue, |xs| - 1) == {}
  }

  lemma DelRoundsNone(q: Graph, g: Graph, rep: Groups, x: Index, queue: set<Pair>)
    requires q.Valid()
    ensures DelRounds(q, g, rep, [x], queue) && DelWork([x], queue, 0) == queue
  {
  }

  lemma DelRoundsMore(q: Graph, g: Graph, rep: Groups, xs: seq<Index>, queue: set<Pair>, x': Index, queue': set<Pair>)
    requires q.Valid() && DelRounds(q, g, rep, xs, queue)
    requires var last := |xs| - 1; var work := DelWork(xs, queue, last); work != {} && DelRound(q, g, rep, xs[last], work, x', queue')
    ensures DelRounds(q, g, rep, xs + [x'], queue) && DelWork(xs + [x'], queue, |xs|) == queue'
  {
    hide DelRound;
    var ys := xs + [x'];
    assert queue' == xs[|xs| - 1].on - x'.on by { RoundIsStep(q, g, rep, xs[|xs| - 1], DelWork(xs, queue, |xs| - 1), x', queue'); }
    forall i: nat | i + 1 < |ys|
      ensures DelRoundAt(q, g, rep, ys, queue, i)
    {
      assert DelWork(ys, queue, i) == DelWork(xs, queue, i);
      if i + 1 < |xs| {
        assert DelRoundAt(q, g, rep, xs, queue, i);
        assert DelWork(ys, queue, i + 1) == DelWork(xs, queue, i + 1);
      }
    }
  }

  lemma RoundIsStep(q: Graph, g: Graph, rep: Groups, x: Index, queue: set<Pair>, x': Index, queue': set<Pair>)
    requires q.Valid() && DelRound(q, g, rep, x, queue, x', queue')
    ensures DelStep(q, g, x, queue, x', queue') && queue' == x.on - x'.on
  {
  }

  lemma DelRoundsEnd(q: Graph, g: Graph, rep: Groups, xs: seq<Index>, queue: set<Pair>)
    requires q.Valid() && DelRounds(q, g, rep, xs, queue) && DelWork(xs, queue, |xs| - 1) == {}
    ensures Deleted(q, g, rep, xs[0], queue, xs[|xs| - 1])
  {
  }

  /** The work of round `i` of the add loop: what the round before it has turned on. */
  function AddWork(xs: seq<Index>, queue: set<Pair>, i: nat): set<Pair>
    requires i < |xs|
  {
    if i == 0 then queue else xs[i].on - xs[i - 1].on
  }

  ghost predicate AddRoundAt(q: Graph, g: Graph, xs: seq<Index>, queue: set<Pair>, faileds: seq<set<Pair>>, i: nat)
    requires q.Valid() && |faileds| == |xs| && i + 1 < |xs|
  {
    AddWork(xs, queue, i) != {} && AddRound(q, g, xs[i], AddWork(xs, queue, i), faileds[i], xs[i + 1], AddWork(xs, queue, i + 1), faileds[i + 1])
  }

  /** Each state follows from the one before it by an add round with work to do; `faileds` are the failed pairs so far. */
  ghost predicate AddRounds(q: Graph, g: Graph, xs: seq<Index>, queue: set<Pair>, faileds: seq<set<Pair>>)
    requires q.Valid()
  {
    |faileds| == |xs| > 0 && faileds[0] == {} && forall i: nat :: i + 1 < |xs| ==> AddRoundAt(q, g, xs, queue, faileds, i)
  }

  /** Add rounds lead from `x` with the work `queue` to `x'`, where no work is left; `failed` are the pairs that have
      failed a check. */
  ghost predicate Added(q: Graph, g: Graph, x: Index, queue: set<Pair>, x': Index, failed: set<Pair>)
    requires q.Valid()
  {
    exists xs, faileds :: AddRounds(q, g, xs, queue, faileds) && xs[0] == x && xs[|xs| - 1] == x' &&
                          faileds[|xs| - 1] == failed && AddWork(xs, queue, |xs| - 1) == {}
  }

  lemma AddRoundsNone(q: Graph, g: Graph, x: Index, queue: set<Pair>)
    requires q.Valid()
    ensures AddRounds(q, g, [x], queue, [{}]) && AddWork([x], queue, 0) == queue
  {
  }

  lemma AddRoundsMore(q: Graph, g: Graph, xs: seq<Index>, queue: set<Pair>, faileds: seq<set<Pair>>, x': Index, queue': set<Pair>, failed': set<Pair>)
    requires q.Valid() && AddRounds(q, g, xs, queue, faileds)
    requires var last := |xs| - 1; var work := AddWork(xs, queue, last); work != {} && AddRound(q, g, xs[last], work, faileds[last], x', queue', failed')
    ensures AddRounds(q, g, xs + [x'], queue, faileds + [failed']) && AddWork(xs + [x'], queue, |xs|) == queue'
  {
    hide AddRound;
    var ys, fs := xs + [x'], faileds + [failed'];
    assert queue' == x'.on - xs[|xs| - 1].on by { AddRoundIsStep(q, g, xs[|xs| - 1], AddWork(xs, queue, |xs| - 1), faileds[|xs| - 1], x', queue', failed'); }
    forall i: nat | i + 1 < |ys|
      ensures AddRoundAt(q, g, ys, queue, fs, i)
    {
      assert AddWork(ys, queue, i) == AddWork(xs, queue, i);
      if i + 1 < |xs| {
        assert AddRoundAt(q, g, xs, queue, faileds, i);
        assert AddWork(ys, queue, i + 1) == AddWork(xs, queue, i + 1);
      }
    }
  }

  lemma AddRoundIsStep(q: Graph, g: Graph, x: Index, queue: set<Pair>, failed: set<Pair>, x': Index, queue': set<Pair>, failed': set<Pair>)
    requires q.Valid() && AddRound(q, g, x, queue, failed, x', queue', failed')
    ensures AddStep(q, g, x, queue, failed, x', queue', failed') && queue' == x'.on - x.on && x.on <= x'.on
  {
  }

  lemma AddRoundsEnd(q: Graph, g: Graph, xs: seq<Index>, queue: set<Pair>, faileds: seq<set<Pair>>)
    requires q.Valid() && AddRounds(q, g, xs, queue, faileds) && AddWork(xs, queue, |xs| - 1) == {}
    ensures Added(q, g, xs[0], queue, xs[|xs| - 1], faileds[|xs| - 1])
  {
  }

  /** The filter of the first graph: one sweep over all pairs, and then delete rounds. */
  ghost predicate FilteredFrom(q: Graph, g: Graph, rep: Groups, x: Index, x': Index)
    requires q.Valid()
  {
    exists x1, queue :: SweepStep(q, g, x, x1, queue) && Deleted(q, g, rep, x1, queue, x')
  }

  /** The filter after a batch: the new edges, add rounds, and then delete rounds on what has failed and is still off. */
  ghost predicate UpdatedFrom(q: Graph, g: Graph, g': Graph, rep: Groups, es: set<Edge>, x: Index, x': Index)
    requires q.Valid()
  {
    exists x1, queue, x2, failed ::
      TurnOnStep(q, g, es, x, x1, queue) && Added(q, g', x1, queue, x2, failed) && Deleted(q, g', rep, x2, failed - x2.on, x')
  }

  lemma UpdatedIs(q: Graph, g: Graph, g': Graph, rep: Groups, es: set<Edge>, x: Index, x1: Index, queue: set<Pair>, x2: Index, failed: set<Pair>, x': Index)
    requires q.Valid() && TurnOnStep(q, g, es, x, x1, queue) && Added(q, g', x1, queue, x2, failed) && Deleted(q, g', rep, x2, failed - x2.on, x')
    ensures UpdatedFrom(q, g, g', rep, es, x, x')
  {
    hide TurnOnStep, Added, Deleted;
  }

  // ---- What the checks guarantee ----

  ghost predicate OneGroup(rep: Groups, cand: map<Slot, set<nat>>, p: Pair)
    requires p.u < |rep|
  {
    exists lb :: lb in rep[p.u] && Representable(cand, p, rep[p.u][lb], {})
  }

  /** Every on pair whose query vertex has label groups has distinct representatives in one of them at least. */
  ghost predicate Tested(rep: Groups, x: Index) {
    forall p :: p in x.on && p.u < |rep| && rep[p.u] != map[] ==> OneGroup(rep, x.cand, p)
  }

  lemma RepresentableMonotone(small: map<Slot, set<nat>>, big: map<Slot, set<nat>>, p: Pair, ws: seq<nat>)
    requires forall w :: w in ws && Slot(p.v, p.u, w) in small ==> Slot(p.v, p.u, w) in big && small[Slot(p.v, p.u, w)] <= big[Slot(p.v, p.u, w)]
    requires Representable(small, p, ws, {})
    ensures Representable(big, p, ws, {})
  {
    var ys :| Represents(small, p, ws, {}, ys);
    assert Represents(big, p, ws, {}, ys);
  }

  lemma SupportedOneGroup(q: Graph, rep: Groups, cand: map<Slot, set<nat>>, p: Pair)
    requires q.Valid() && GroupsOf(q, rep) && p.u < |q.labels| && Supported(q, cand, p) && rep[p.u] != map[]
    ensures OneGroup(rep, cand, p)
  {
    EmptyMap(rep[p.u]);
    var lb :| lb in rep[p.u];
    assert GroupOf(q, p.u, lb, rep[p.u][lb]);
    SupportedGroup(q, cand, p, rep[p.u][lb], lb);
  }

  lemma EmptyMap(m: map<int, seq<nat>>)
    ensures (forall lb :: lb !in m) ==> m == map[]
  {
    if forall lb :: lb !in m {
      var none: map<int, seq<nat>> := map[];
      assert m.Keys == none.Keys;
      assert m == none;
    }
  }

  lemma OneGroupMonotone(rep: Groups, small: map<Slot, set<nat>>, big: map<Slot, set<nat>>, p: Pair)
    requires p.u < |rep| && forall s :: s in small ==> s in big && small[s] <= big[s]
    ensures OneGroup(rep, small, p) ==> OneGroup(rep, big, p)
  {
    if OneGroup(rep, small, p) {
      var lb :| lb in rep[p.u] && Representable(small, p, rep[p.u][lb], {});
      RepresentableMonotone(small, big, p, rep[p.u][lb]);
    }
  }

  /** The sweep tests every pair. */
  lemma SweepTests(q: Graph, g: Graph, rep: Groups, x: Index, x': Index, queue': set<Pair>)
    requires q.Valid() && g.Valid() && GroupsOf(q, rep) && Built(q, g, x) && SweepStep(q, g, x, x', queue')
    ensures Tested(rep, x')
  {
    hide Supported, OneGroup, GroupsOf;
    assert |rep| == |q.labels| by { GroupsSize(q, rep); }
    forall p | p in x'.on && p.u < |rep| && rep[p.u] != map[]
      ensures OneGroup(rep, x'.cand, p)
    {
      assert IsPair(q, g, p);
      SupportedOneGroup(q, rep, x.cand, p);
    }
  }

  lemma GroupsSize(q: Graph, rep: Groups)
    requires q.Valid() && GroupsOf(q, rep)
    ensures |rep| == |q.labels|
  {
  }

  /** A delete round keeps every on pair tested: a pair that has lost nothing in its groups keeps the representatives
      that it had, and the others have been checked. */
  lemma DelRoundTests(q: Graph, g: Graph, rep: Groups, x: Index, queue: set<Pair>, x': Index, queue': set<Pair>)
    requires q.Valid() && g.Valid() && GroupsOf(q, rep) && Shaped(q, g, x) && Tested(rep, x)
    requires DelRound(q, g, rep, x, queue, x', queue')
    ensures Tested(rep, x')
  {
    forall p | p in x'.on && p.u < |rep| && rep[p.u] != map[]
      ensures OneGroup(rep, x'.cand, p)
    {
      if Retested(q, rep, x, queue, x'.cand, p) {
        var s, y :| LostMate(q, rep, x, queue, s, y) && Here(s) == p && Representable(x'.cand, p, rep[s.u][q.labels[s.w]], {});
        assert q.labels[s.w] in rep[p.u];
      } else {
        var lb :| lb in rep[p.u] && Representable(x.cand, p, rep[p.u][lb], {});
        GroupKept(q, g, rep, x, queue, x', queue', p, lb);
      }
    }
  }

  lemma GroupKept(q: Graph, g: Graph, rep: Groups, x: Index, queue: set<Pair>, x': Index, queue': set<Pair>, p: Pair, lb: int)
    requires q.Valid() && g.Valid() && GroupsOf(q, rep) && DelRound(q, g, rep, x, queue, x', queue')
    requires p in x'.on && p.u < |rep| && lb in rep[p.u] && !Retested(q, rep, x, queue, x'.cand, p)
    requires Representable(x.cand, p, rep[p.u][lb], {})
    ensures Representable(x'.cand, p, rep[p.u][lb], {})
  {
    var ws := rep[p.u][lb];
    assert GroupOf(q, p.u, lb, ws);
    forall w | w in ws && Slot(p.v, p.u, w) in x.cand
      ensures Slot(p.v, p.u, w) in x'.cand && x.cand[Slot(p.v, p.u, w)] <= x'.cand[Slot(p.v, p.u, w)]
    {
      var s := Slot(p.v, p.u, w);
      assert Here(s) == p && q.labels[w] == lb;
      forall y | y in x.cand[s]
        ensures y in x'.cand[s]
      {
        if Erased(x, queue, s, y) { assert LostMate(q, rep, x, queue, s, y); }
      }
    }
    RepresentableMonotone(x.cand, x'.cand, p, ws);
  }

  /** New edges and add rounds only add candidates, and what they turn on is supported. */
  lemma GrowingTests(q: Graph, g: Graph, rep: Groups, x: Index, x': Index)
    requires q.Valid() && g.Valid() && GroupsOf(q, rep) && Tested(rep, x)
    requires forall s :: s in x.cand ==> s in x'.cand && x.cand[s] <= x'.cand[s]
    requires forall p :: p in x'.on && p !in x.on ==> p.u < |q.labels| && Supported(q, x'.cand, p)
    ensures Tested(rep, x')
  {
    hide Supported, OneGroup, GroupsOf;
    assert |rep| == |q.labels| by { GroupsSize(q, rep); }
    forall p | p in x'.on && p.u < |rep| && rep[p.u] != map[]
      ensures OneGroup(rep, x'.cand, p)
    {
      if p in x.on { OneGroupMonotone(rep, x.cand, x'.cand, p); } else { SupportedOneGroup(q, rep, x'.cand, p); }
    }
  }

  lemma TurnOnTests(q: Graph, g: Graph, rep: Groups, es: set<Edge>, x: Index, x': Index, queue': set<Pair>)
    requires q.Valid() && g.Valid() && GroupsOf(q, rep) && Tested(rep, x) && TurnOnStep(q, g, es, x, x', queue')
    ensures Tested(rep, x')
  {
    hide Supported, GroupsOf, Tested, Touched;
    GrowingTests(q, g, rep, x, x');
  }

  lemma AddRoundTests(q: Graph, g: Graph, rep: Groups, x: Index, queue: set<Pair>, failed: set<Pair>, x': Index, queue': set<Pair>, failed': set<Pair>)
    requires q.Valid() && g.Valid() && GroupsOf(q, rep) && Tested(rep, x) && AddRound(q, g, x, queue, failed, x', queue', failed')
    ensures Tested(rep, x')
  {
    hide Supported, GroupsOf, Tested, Rechecked, Handed;
    GrowingTests(q, g, rep, x, x');
  }

  /** Between batches an on pair is supported exactly when all its label groups have distinct representatives; so it is
      if its query vertex has at most one group. */
  lemma OnIsSupported(q: Graph, g: Graph, rep: Groups, x: Index, p: Pair)
    requires q.Valid() && g.Valid() && GroupsOf(q, rep) && Shaped(q, g, x) && NonEmpty(x) && Tested(rep, x) && p in x.on
    ensures p.u < |rep| && (Supported(q, x.cand, p) <==> AllRepresentable(x.cand, p, rep[p.u]))
    ensures |rep[p.u]| <= 1 ==> Supported(q, x.cand, p)
  {
    hide Representable;
    assert IsPair(q, g, p);
    forall w | w in q.nei[p.u]
      ensures Slot(p.v, p.u, w) in x.cand && x.cand[Slot(p.v, p.u, w)] != {}
    {
      assert IsSlot(q, g, Slot(p.v, p.u, w)) && Here(Slot(p.v, p.u, w)) == p;
    }
    if AllRepresentable(x.cand, p, rep[p.u]) { GroupsSupport(q, g, rep, x, p); }
    forall lb | lb in rep[p.u]
      ensures Supported(q, x.cand, p) || |rep[p.u]| <= 1 ==> Representable(x.cand, p, rep[p.u][lb], {})
    {
      assert GroupOf(q, p.u, lb, rep[p.u][lb]);
      if Supported(q, x.cand, p) { SupportedGroup(q, x.cand, p, rep[p.u][lb], lb); }
      var lb' :| lb' in rep[p.u] && Representable(x.cand, p, rep[p.u][lb'], {});
      if |rep[p.u]| <= 1 { OnlyKey(rep[p.u], lb, lb'); }
    }
  }

  lemma OnlyKey(m: map<int, seq<nat>>, a: int, b: int)
    requires |m| <= 1 && a in m && b in m
    ensures a == b
  {
    if a != b { assert |m.Keys - {a}| >= 1 by { assert b in m.Keys - {a}; } }
  }
}
