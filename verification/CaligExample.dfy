/** A run of the filter after which an on pair is not supported: of the two label groups that lose candidates in one
    round only one is checked, because a pair is checked once per round. */
module CaligExample {
  import opened Graphs
  import opened CaligIndex
  import opened CaligCheck
  import opened CaligRounds
  import opened CaligGroups

  /** The labels, of query and data vertices alike: 0 for the centre, 1 and 2 for its neighbours, 3 for the others. */
  function Label(x: nat): int { if x == 0 then 0 else if x <= 2 then 1 else if x <= 4 then 2 else 3 }

  /** The query: the centre has two neighbours of label 1 and two of label 2, and three of these a neighbour of label 3. */
  predicate QueryEdge(u: nat, w: nat) { (u == 0 && 1 <= w <= 4) || (u == 1 && w == 5) || (u == 3 && w == 6) || (u == 4 && w == 7) }

  predicate QAdj(u: nat, w: nat) { QueryEdge(u, w) || QueryEdge(w, u) }

  /** The data: the neighbours 1 and 3 of the centre have a neighbour of label 3, its neighbours 2 and 4 have none. */
  predicate DataEdge(v: nat, y: nat) { (v == 0 && 1 <= y <= 4) || (v == 5 && (y == 1 || y == 3)) }

  predicate GAdj(v: nat, y: nat) { DataEdge(v, y) || DataEdge(y, v) }

  function Q(): (q: Graph)
    ensures q.Valid() && |q.labels| == 8
    ensures forall u: nat :: u < 8 ==> q.labels[u] == Label(u) && forall w: nat :: w in q.nei[u] <==> w < 8 && QAdj(u, w)
  {
    Graph(seq(8, (u: nat) => Label(u)), seq(8, (u: nat) => set w: nat | w < 8 && QAdj(u, w)))
  }

  function G(): (g: Graph)
    ensures g.Valid() && |g.labels| == 6
    ensures forall v: nat :: v < 6 ==> g.labels[v] == Label(v) && forall y: nat :: y in g.nei[v] <==> y < 6 && GAdj(v, y)
  {
    Graph(seq(6, (v: nat) => Label(v)), seq(6, (v: nat) => set y: nat | y < 6 && GAdj(v, y)))
  }

  function Rep(): Groups { [map[1 := [1, 2], 2 := [3, 4]], map[], map[], map[], map[], map[], map[], map[]] }

  predicate PairOk(p: Pair) { p.v < 6 && p.u < 8 && Label(p.v) == Label(p.u) }

  /** The pairs that the sweep turns off. */
  predicate Failing(p: Pair) { p == Pair(2, 1) || p == Pair(4, 3) || p == Pair(4, 4) }

  predicate SlotOk(s: Slot) { PairOk(Pair(s.v, s.u)) && s.w < 8 && QAdj(s.u, s.w) }

  /** What the round after the sweep takes out. */
  predicate TakenOut(s: Slot, y: nat) { s.v == 0 && s.u == 0 && Failing(Pair(y, s.w)) }

  ghost function Pairs(all: bool): (ps: set<Pair>)
    ensures forall p :: p in ps <==> PairOk(p) && (all || !Failing(p))
  {
    var ps := set v: nat, u: nat | v < 6 && u < 8 && PairOk(Pair(v, u)) && (all || !Failing(Pair(v, u))) :: Pair(v, u);
    assert forall p: Pair :: p == Pair(p.v, p.u);
    ps
  }

  ghost function Cands(all: bool): (c: map<Slot, set<nat>>)
    ensures forall s :: s in c <==> SlotOk(s)
    ensures forall s, y: nat :: s in c ==> (y in c[s] <==> y < 6 && GAdj(s.v, y) && Label(y) == Label(s.w) && (all || !TakenOut(s, y)))
  {
    var slots := set v: nat, u: nat, w: nat | v < 6 && u < 8 && w < 8 && SlotOk(Slot(v, u, w)) :: Slot(v, u, w);
    assert forall s: Slot :: s == Slot(s.v, s.u, s.w);
    map s | s in slots :: set y: nat | y < 6 && GAdj(s.v, y) && Label(y) == Label(s.w) && (all || !TakenOut(s, y))
  }

  /** The filter before the sweep, after it, and after the one round that follows. */
  ghost function Unfiltered(): Index { Index(Pairs(true), Cands(true)) }

  ghost function Swept(): Index { Index(Pairs(false), Cands(true)) }

  ghost function Filtered(): Index { Index(Pairs(false), Cands(false)) }

  lemma IsSlotOk(s: Slot)
    ensures IsSlot(Q(), G(), s) <==> SlotOk(s)
    ensures IsPair(Q(), G(), Pair(s.v, s.u)) <==> PairOk(Pair(s.v, s.u))
  {
    hide Q, G, Label;
  }

  lemma IsFull(s: Slot)
    requires IsSlot(Q(), G(), s) && SlotOk(s)
    ensures Cands(true)[s] == Potential(Q(), G(), s)
  {
    hide Q, G, Cands, Label, GAdj, QAdj;
    assert s.w < 8 && Q().labels[s.w] == Label(s.w);
  }

  lemma IsBuilt()
    ensures Built(Q(), G(), Unfiltered())
  {
    hide Q, G, Pairs, Cands, SlotOk, PairOk, IsSlot, IsPair, Potential;
    forall p
      ensures p in Unfiltered().on <==> IsPair(Q(), G(), p)
    {
      assert p == Pair(p.v, p.u);
      IsSlotOk(Slot(p.v, p.u, 0));
    }
    forall s
      ensures s in Unfiltered().cand <==> IsSlot(Q(), G(), s)
      ensures s in Unfiltered().cand ==> Unfiltered().cand[s] == Potential(Q(), G(), s)
    {
      IsSlotOk(s);
      if SlotOk(s) { IsFull(s); }
    }
  }

  /** Only the centre has two neighbours of one label. */
  lemma OneEach(u: nat, w: nat, w': nat)
    requires QAdj(u, w) && QAdj(u, w') && w != w' && Label(w) == Label(w')
    ensures u == 0 && (w == 1 || w == 2 || w == 3 || w == 4) && (w' == 1 || w' == 2 || w' == 3 || w' == 4)
  {
  }

  lemma AreGroups()
    ensures GroupsOf(Q(), Rep())
  {
    hide Q, GroupOf;
    var q, rep := Q(), Rep();
    forall u, lb | 0 <= u < |rep| && lb in rep[u]
      ensures GroupOf(q, u, lb, rep[u][lb])
    {
      assert u == 0;
      OneGroupOf(lb);
    }
    forall u: nat, w, w' | u < |rep| && w in q.nei[u] && w' in q.nei[u] && w != w' && q.labels[w] == q.labels[w']
      ensures q.labels[w] in rep[u] && w in rep[u][q.labels[w]]
    {
      OneEach(u, w, w');
      assert 1 in rep[0][1] && 2 in rep[0][1] && 3 in rep[0][2] && 4 in rep[0][2];
    }
  }

  lemma OneGroupOf(lb: int)
    requires lb == 1 || lb == 2
    ensures GroupOf(Q(), 0, lb, if lb == 1 then [1, 2] else [3, 4])
  {
    hide Q;
  }

  /** A candidate for each query neighbour of an on pair, all different. */
  function Choose(p: Pair, w: nat): nat { if p.v == 5 then (if w == 1 then 1 else 3) else if w >= 5 then 5 else w }

  lemma ChooseFits(p: Pair, w: nat)
    requires PairOk(p) && !Failing(p) && QAdj(p.u, w)
    ensures SlotOk(Slot(p.v, p.u, w)) && Choose(p, w) < 6 && GAdj(p.v, Choose(p, w)) && Label(Choose(p, w)) == Label(w)
  {
  }

  lemma ChooseDiffers(p: Pair, w: nat, w': nat)
    requires PairOk(p) && !Failing(p) && QAdj(p.u, w) && QAdj(p.u, w') && w != w'
    ensures Choose(p, w) != Choose(p, w')
  {
  }

  lemma OnIsSupported(p: Pair)
    requires PairOk(p) && !Failing(p)
    ensures Supported(Q(), Cands(true), p)
  {
    hide Q, G, Pairs, Cands, Label, QAdj, GAdj, SlotOk, Choose;
    var ch := map w | w in Q().nei[p.u] :: Choose(p, w);
    forall w | w in ch
      ensures Slot(p.v, p.u, w) in Cands(true) && ch[w] in Cands(true)[Slot(p.v, p.u, w)]
    {
      ChooseFits(p, w);
    }
    forall w, w' | w in ch && w' in ch && w != w'
      ensures ch[w] != ch[w']
    {
      ChooseDiffers(p, w, w');
    }
    assert Choice(Q(), Cands(true), p, Q().nei[p.u], ch);
  }

  /** The pairs that fail have an empty candidate set. */
  lemma FailingIsNot(p: Pair)
    requires Failing(p)
    ensures !Supported(Q(), Cands(true), p)
  {
    hide Q, G, Pairs, Cands;
    var s := Slot(p.v, p.u, p.u + if p.u == 1 then 4 else 3);
    assert SlotOk(s) && Cands(true)[s] == {};
    EmptyRefutes(Q(), Cands(true), s);
  }

  lemma IsSwept()
    ensures SweepStep(Q(), G(), Unfiltered(), Swept(), Unfiltered().on - Swept().on)
  {
    hide Q, G, Pairs, Cands, Supported;
    forall p | p in Unfiltered().on
      ensures p in Swept().on <==> Supported(Q(), Cands(true), p)
    {
      if Failing(p) { FailingIsNot(p); } else { OnIsSupported(p); }
    }
  }

  /** The round takes out exactly the entries of the pair (0, 0) for the failing pairs. */
  lemma IsTakenOut(s: Slot, y: nat)
    requires s in Cands(true)
    ensures y in Cands(true)[s] && Erased(Swept(), Unfiltered().on - Swept().on, s, y) <==> y in Cands(true)[s] && TakenOut(s, y)
  {
    hide Pairs, Cands;
  }

  /** What is left for the first group are two candidates, and for the second one a single one. */
  lemma GroupsAre()
    ensures Representable(Cands(false), Pair(0, 0), [1, 2], {}) && !Representable(Cands(false), Pair(0, 0), [3, 4], {})
  {
    hide Cands;
    assert Represents(Cands(false), Pair(0, 0), [1, 2], {}, [1, 2]);
    forall ys
      ensures !Represents(Cands(false), Pair(0, 0), [3, 4], {}, ys)
    {
      OneForTwo(ys);
    }
  }

  lemma OneForTwo(ys: seq<nat>)
    ensures !Represents(Cands(false), Pair(0, 0), [3, 4], {}, ys)
  {
    hide Cands;
    var ws := [3, 4];
    assert ws[0] == 3 && ws[1] == 4;
    assert Cands(false)[Slot(0, 0, ws[0])] == {3} == Cands(false)[Slot(0, 0, ws[1])];
  }

  lemma IsRound()
    ensures DelRound(Q(), G(), Rep(), Swept(), Unfiltered().on - Swept().on, Filtered(), {})
  {
    hide Q, G, Pairs, Cands, Supported, Erased, TakenOut, Representable;
    var queue := Unfiltered().on - Swept().on;
    forall s, y | s in Cands(true)
      ensures y in Cands(false)[s] <==> y in Cands(true)[s] && !Erased(Swept(), queue, s, y)
    {
      IsTakenOut(s, y);
    }
    assert Swept().on - Filtered().on == {};
    forall s | s in Cands(true) && Here(s) in Filtered().on && Cands(true)[s] != {}
      ensures Cands(false)[s] != {}
    {
      StaysNonEmpty(s);
    }
    forall s, y | LostMate(Q(), Rep(), Swept(), queue, s, y) && Here(s) in Filtered().on
      ensures Retested(Q(), Rep(), Swept(), queue, Cands(false), Here(s))
    {
      HitGroup(s);
    }
  }

  lemma StaysNonEmpty(s: Slot)
    requires SlotOk(s) && Cands(true)[s] != {}
    ensures Cands(false)[s] != {}
  {
    hide Cands;
    var y :| y in Cands(true)[s];
    if y !in Cands(false)[s] {
      assert (if s.w == 1 then 1 else 3) in Cands(false)[s];
    }
  }

  lemma LosesMate()
    ensures LostMate(Q(), Rep(), Swept(), Unfiltered().on - Swept().on, Slot(0, 0, 1), 2)
    ensures Q().labels[1] == 1 && Rep()[0][1] == [1, 2]
  {
    hide Q, Pairs, Cands;
  }

  /** Only the centre has groups, and its first one passes the check. */
  lemma HitGroup(s: Slot)
    requires SlotOk(s) && Rep()[s.u] != map[]
    ensures Retested(Q(), Rep(), Swept(), Unfiltered().on - Swept().on, Cands(false), Here(s))
  {
    hide Q, Pairs, Cands, Representable, LostMate, QAdj, GAdj;
    var t := Slot(0, 0, 1);
    assert Here(s) == Here(t);
    LosesMate();
    GroupsAre();
  }

  lemma IsRun()
    ensures Deleted(Q(), G(), Rep(), Swept(), Unfiltered().on - Swept().on, Filtered())
  {
    hide Q, G, Pairs, Cands, DelRound;
    var queue, xs := Unfiltered().on - Swept().on, [Swept(), Filtered()];
    IsRound();
    assert Pair(2, 1) in queue;
    assert Swept().on - Filtered().on == {};
    assert DelRoundAt(Q(), G(), Rep(), xs, queue, 0);
    DelRoundsEnd(Q(), G(), Rep(), xs, queue);
  }

  /** The filter can end with an on pair that fails the neighbour check: one of its two groups has been checked in the
      round in which both have lost candidates, and the other one has no distinct representatives any more. */
  lemma OnUnsupported()
    ensures GroupsOf(Q(), Rep()) && Built(Q(), G(), Unfiltered()) && FilteredFrom(Q(), G(), Rep(), Unfiltered(), Filtered())
    ensures Pair(0, 0) in Filtered().on && !Supported(Q(), Filtered().cand, Pair(0, 0))
  {
    hide Q, G, Pairs, Cands, Supported, Deleted, SweepStep, Representable, Built, GroupsOf, GroupOf;
    IsBuilt();
    AreGroups();
    IsSwept();
    IsRun();
    GroupsAre();
    OneGroupOf(2);
    if Supported(Q(), Cands(false), Pair(0, 0)) { SupportedGroup(Q(), Cands(false), Pair(0, 0), [3, 4], 2); }
  }
}
