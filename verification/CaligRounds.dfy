/** One round of each CaLiG worklist as a relation between index states, and the proofs that the
    rounds keep the filter invariant. */
module CaligRounds {
  import opened Graphs
  import opened CaligIndex

  /** New ranks after a round: what the round turned off went off at time `clock`. */
  ghost function Stamp(rank: Pair -> nat, before: set<Pair>, after: set<Pair>, clock: nat): Pair -> nat {
    (p: Pair) => if p in before && p !in after then clock else rank(p)
  }

  /** Fewer candidates support fewer pairs. */
  lemma SupportMonotone(q: Graph, small: map<Slot, set<nat>>, big: map<Slot, set<nat>>, p: Pair)
    requires p.u < |q.nei|
    requires forall s :: s in small ==> s in big && small[s] <= big[s]
    requires Supported(q, small, p)
    ensures Supported(q, big, p)
  {
    var ch :| Choice(q, small, p, q.nei[p.u], ch);
    assert Choice(q, big, p, q.nei[p.u], ch);
  }

  /** Support looks at the slots of the pair only. */
  lemma SupportLocal(q: Graph, a: map<Slot, set<nat>>, b: map<Slot, set<nat>>, p: Pair)
    requires p.u < |q.nei|
    requires forall w :: w in q.nei[p.u] && Slot(p.v, p.u, w) in a ==>
      Slot(p.v, p.u, w) in b && a[Slot(p.v, p.u, w)] == b[Slot(p.v, p.u, w)]
    requires Supported(q, a, p)
    ensures Supported(q, b, p)
  {
    var ch :| Choice(q, a, p, q.nei[p.u], ch);
    assert Choice(q, b, p, q.nei[p.u], ch);
  }

  // ---- Initial state and the first sweep of `turnOff` ----

  ghost predicate Built(q: Graph, g: Graph, x: Index)
    requires q.Valid() && g.Valid()
  {
    && (forall p :: p in x.on <==> IsPair(q, g, p))
    && (forall s :: s in x.cand <==> IsSlot(q, g, s))
    && (forall s :: s in x.cand ==> x.cand[s] == Potential(q, g, s))
  }

  /** `turnOff` over every data vertex: the on pairs are checked, the failing ones go off. */
  ghost predicate SweepStep(q: Graph, g: Graph, x: Index, x': Index, queue': set<Pair>)
    requires q.Valid()
  {
    && x'.cand == x.cand
    && x'.on <= x.on
    && queue' == x.on - x'.on
    && (forall p :: p in x.on && IsPair(q, g, p) ==> (p in x'.on <==> Supported(q, x.cand, p)))
  }

  lemma SweepEstablishes(q: Graph, g: Graph, x: Index, x': Index, queue': set<Pair>, rank: Pair -> nat)
    requires q.Valid() && g.Valid() && Built(q, g, x)
    requires SweepStep(q, g, x, x', queue')
    ensures DelInv(q, g, x', Stamp(rank, x.on, x'.on, 0), 1, queue')
  {
    forall s, y | s in x'.cand && Here(s) in x'.on && y in x'.cand[s]
      ensures There(s, y) in x'.on || There(s, y) in queue'
    {
      assert IsPair(q, g, There(s, y));
    }
    forall s | s in x'.cand && Here(s) in x'.on
      ensures x'.cand[s] != {}
    {
      assert IsSlot(q, g, s);
      var ch :| Choice(q, x.cand, Here(s), q.nei[s.u], ch);
      assert ch[s.w] in x.cand[Slot(s.v, s.u, s.w)];
    }
  }

  // ---- Delete rounds ----

  /** `y` is erased from slot `s` by a delete round that processes `queue`. */
  ghost predicate Erased(x: Index, queue: set<Pair>, s: Slot, y: nat) {
    && There(s, y) in queue
    && Back(s, y) in x.cand && s.v in x.cand[Back(s, y)]
    && Here(s) in x.on
  }

  /** One call of `delAndCheck`. */
  ghost predicate DelStep(q: Graph, g: Graph, x: Index, queue: set<Pair>, x': Index, queue': set<Pair>)
    requires q.Valid()
  {
    && x'.cand.Keys == x.cand.Keys
    && (forall s, y :: s in x.cand ==> (y in x'.cand[s] <==> y in x.cand[s] && !Erased(x, queue, s, y)))
    && x'.on <= x.on
    && queue' == x.on - x'.on
    && (forall p :: p in queue' && IsPair(q, g, p) ==> !Supported(q, x'.cand, p))
    && (forall s :: s in x.cand && Here(s) in x'.on && x.cand[s] != {} ==> x'.cand[s] != {})
  }

  lemma DelKeepsOrder(q: Graph, g: Graph, x: Index, rank: Pair -> nat, clock: nat,
                      queue: set<Pair>, x': Index, queue': set<Pair>)
    requires DelInv(q, g, x, rank, clock, queue) && DelStep(q, g, x, queue, x', queue')
    ensures Shaped(q, g, x')
    ensures Ordered(q, g, x', Stamp(rank, x.on, x'.on, clock))
  {
    assert Shaped(q, g, x');
    var rank' := Stamp(rank, x.on, x'.on, clock);
    forall s, y | Missing(q, g, x', s, y)
      ensures There(s, y) !in x'.on && (Here(s) in x'.on || rank'(There(s, y)) < rank'(Here(s)))
    {
      assert IsSlot(q, g, s);
      assert IsPair(q, g, There(s, y));
      if Missing(q, g, x, s, y) {
        assert There(s, y) !in x.on;
      } else {
        assert Erased(x, queue, s, y);
      }
    }
  }

  /** A delete round keeps the invariant, with what it turned off as the next round's work. */
  lemma DelStepKeeps(q: Graph, g: Graph, x: Index, rank: Pair -> nat, clock: nat,
                     queue: set<Pair>, x': Index, queue': set<Pair>)
    requires DelInv(q, g, x, rank, clock, queue) && DelStep(q, g, x, queue, x', queue')
    ensures DelInv(q, g, x', Stamp(rank, x.on, x'.on, clock), clock + 1, queue')
  {
    DelKeepsOrder(q, g, x, rank, clock, queue, x', queue');
    forall p | IsPair(q, g, p) && p !in x'.on
      ensures !Supported(q, x'.cand, p)
    {
      if p !in x.on && Supported(q, x'.cand, p) {
        SupportMonotone(q, x'.cand, x.cand, p);
      }
    }
    forall s, y | s in x'.cand && Here(s) in x'.on && y in x'.cand[s]
      ensures There(s, y) in x'.on || There(s, y) in queue'
    {
      assert s in x.cand && y in x.cand[s] && Here(s) in x.on;
      var b := Back(s, y);
      assert IsSlot(q, g, s);
      assert y in Potential(q, g, s);
      assert s.v in Potential(q, g, b);
      assert There(b, s.v) == Here(s);
      assert !Missing(q, g, x, b, s.v);
      assert There(s, y) in queue ==> Erased(x, queue, s, y);
    }
  }

  // ---- A batch of new edges ----

  /** A directed edge of the data graph. */
  datatype Edge = Edge(a: nat, b: nat)

  /** The graph after the directed edges `es` have been added to the adjacency sets. */
  ghost function Grow(g: Graph, es: set<Edge>): Graph
    requires |g.labels| == |g.nei|
  {
    g.(nei := seq(|g.nei|, v requires 0 <= v < |g.nei| => g.nei[v] + set e | e in es && e.a == v :: e.b))
  }

  ghost predicate Symmetric(g: Graph, es: set<Edge>) {
    forall e :: e in es ==> e.a < |g.nei| && e.b < |g.nei| && Edge(e.b, e.a) in es
  }

  lemma GrowIsValid(g: Graph, es: set<Edge>)
    requires g.Valid() && Symmetric(g, es)
    ensures Grow(g, es).Valid()
    ensures forall v, y :: 0 <= v < |g.nei| ==> (y in Grow(g, es).nei[v] <==> y in g.nei[v] || Edge(v, y) in es)
  {
    var g' := Grow(g, es);
    forall v, y | 0 <= v < |g.nei|
      ensures y in g'.nei[v] <==> y in g.nei[v] || Edge(v, y) in es
    {
      if Edge(v, y) in es { assert Edge(v, y).a == v && Edge(v, y).b == y; }
      if y in g'.nei[v] && y !in g.nei[v] {
        var e :| e in es && e.a == v && e.b == y;
        assert e == Edge(v, y);
      }
    }
  }

  /** The new edge puts `y` in slot `s`. */
  predicate NewEntry(q: Graph, g: Graph, es: set<Edge>, s: Slot, y: nat)
    requires q.Valid()
  {
    IsSlot(q, g, s) && Edge(s.v, y) in es && y < |g.labels| && g.labels[y] == q.labels[s.w]
  }

  ghost predicate Touched(q: Graph, g: Graph, es: set<Edge>, p: Pair)
    requires q.Valid()
  {
    exists s, y :: NewEntry(q, g, es, s, y) && Here(s) == p
  }

  /** `turnOnCond` and `turnOnCheck` on a batch. */
  ghost predicate TurnOnStep(q: Graph, g: Graph, es: set<Edge>, x: Index, x': Index, queue': set<Pair>)
    requires q.Valid()
  {
    && x'.cand.Keys == x.cand.Keys
    && (forall s, y :: s in x.cand ==> (y in x'.cand[s] <==> y in x.cand[s] || NewEntry(q, g, es, s, y)))
    && x.on <= x'.on
    && (forall p :: p in x'.on && p !in x.on ==> IsPair(q, g, p) && Touched(q, g, es, p) && Supported(q, x'.cand, p))
    && (forall p :: IsPair(q, g, p) && Touched(q, g, es, p) && p !in x'.on ==> !Supported(q, x'.cand, p))
    && (forall p :: p in queue' <==> p in x'.on && IsPair(q, g, p) && Touched(q, g, es, p))
  }

  // ---- Add rounds ----

  /** During the add loop a missing entry has its reverse entry present, and its target is off
      or about to be handed to its neighbours. */
  ghost predicate Reversible(q: Graph, g: Graph, x: Index, rank: Pair -> nat, queue: set<Pair>)
    requires q.Valid() && g.Valid() && Shaped(q, g, x)
  {
    forall s, y :: Missing(q, g, x, s, y) ==>
      && !Missing(q, g, x, Back(s, y), s.v)
      && (There(s, y) !in x.on || There(s, y) in queue)
      && (There(s, y) in x.on || Here(s) in x.on || rank(There(s, y)) < rank(Here(s)))
  }

  /** An on pair's slot may hold an off pair only while one of the two is still to be handled. */
  ghost predicate SettledAdd(x: Index, queue: set<Pair>, failed: set<Pair>) {
    forall s, y :: s in x.cand && Here(s) in x.on && y in x.cand[s] && There(s, y) !in x.on ==>
      Here(s) in queue || There(s, y) in failed
  }

  ghost predicate AddInv(q: Graph, g: Graph, x: Index, rank: Pair -> nat, clock: nat,
                         queue: set<Pair>, failed: set<Pair>) {
    && q.Valid() && g.Valid() && Shaped(q, g, x)
    && Reversible(q, g, x, rank, queue)
    && Refuted(q, g, x)
    && RanksBelow(q, g, x, rank, clock)
    && NonEmpty(x)
    && SettledAdd(x, queue, failed)
    && queue <= x.on
    && (forall p :: p in failed ==> IsPair(q, g, p))
  }

  /** `y` is handed to slot `s` by an add round that processes `queue`. */
  ghost predicate Handed(x: Index, queue: set<Pair>, s: Slot, y: nat) {
    There(s, y) in queue && Back(s, y) in x.cand && s.v in x.cand[Back(s, y)]
  }

  /** An off pair that some queue member lists among its candidates. */
  ghost predicate Rechecked(x: Index, queue: set<Pair>, p: Pair) {
    && p !in x.on
    && exists s :: s in x.cand && Here(s) in queue && p.v in x.cand[s] && s.w == p.u
  }

  /** One call of `addAndCheck`. */
  ghost predicate AddStep(q: Graph, g: Graph, x: Index, queue: set<Pair>, failed: set<Pair>,
                          x': Index, queue': set<Pair>, failed': set<Pair>)
    requires q.Valid()
  {
    && x'.cand.Keys == x.cand.Keys
    && (forall s, y :: s in x.cand ==> (y in x'.cand[s] <==> y in x.cand[s] || Handed(x, queue, s, y)))
    && x.on <= x'.on
    && queue' == x'.on - x.on
    && failed <= failed'
    && (forall p :: p in queue' ==> IsPair(q, g, p) && Rechecked(x, queue, p) && Supported(q, x'.cand, p))
    && (forall p :: p in failed' && p !in failed ==> IsPair(q, g, p))
    && (forall p :: IsPair(q, g, p) && Rechecked(x, queue, p) && p !in x'.on ==>
          p in failed' && !Supported(q, x'.cand, p))
  }

  lemma TurnOnKeepsShape(q: Graph, g: Graph, es: set<Edge>, x: Index, x': Index, queue': set<Pair>)
    requires q.Valid() && g.Valid() && Shaped(q, g, x) && Symmetric(g, es)
    requires TurnOnStep(q, g, es, x, x', queue')
    ensures Grow(g, es).Valid() && Shaped(q, Grow(g, es), x')
    ensures forall s, y :: Missing(q, Grow(g, es), x', s, y) ==> Missing(q, g, x, s, y)
  {
    var g' := Grow(g, es);
    GrowIsValid(g, es);
    forall s, y | s in x'.cand && y in x'.cand[s]
      ensures y in Potential(q, g', s)
    {
      assert IsSlot(q, g, s);
      if y in x.cand[s] { assert y in Potential(q, g, s); }
    }
    forall s, y | Missing(q, g', x', s, y)
      ensures Missing(q, g, x, s, y)
    {
      assert IsSlot(q, g, s);
      assert !NewEntry(q, g, es, s, y);
    }
  }

  /** Inserting a batch turns the invariant between batches into that of the add loop. */
  lemma TurnOnKeeps(q: Graph, g: Graph, es: set<Edge>, x: Index, rank: Pair -> nat, clock: nat,
                    x': Index, queue': set<Pair>)
    requires DelInv(q, g, x, rank, clock, {}) && Symmetric(g, es)
    requires TurnOnStep(q, g, es, x, x', queue')
    ensures AddInv(q, Grow(g, es), x', rank, clock, queue', {})
  {
    var g' := Grow(g, es);
    TurnOnKeepsShape(q, g, es, x, x', queue');
    forall s, y | Missing(q, g', x', s, y)
      ensures !Missing(q, g', x', Back(s, y), s.v)
      ensures There(s, y) !in x'.on || There(s, y) in queue'
      ensures There(s, y) in x'.on || Here(s) in x'.on || rank(There(s, y)) < rank(Here(s))
    {
      assert There(Back(s, y), s.v) == Here(s) && Here(Back(s, y)) == There(s, y);
      assert Missing(q, g, x, s, y);
      assert !Missing(q, g, x, Back(s, y), s.v);
    }
    TurnOnRefutes(q, g, es, x, x', queue');
    TurnOnSettles(q, g, es, x, x', queue');
  }

  lemma TurnOnRefutes(q: Graph, g: Graph, es: set<Edge>, x: Index, x': Index, queue': set<Pair>)
    requires q.Valid() && g.Valid() && Shaped(q, g, x) && Refuted(q, g, x) && Symmetric(g, es)
    requires TurnOnStep(q, g, es, x, x', queue')
    ensures Refuted(q, Grow(g, es), x')
  {
    forall p | IsPair(q, Grow(g, es), p) && p !in x'.on
      ensures !Supported(q, x'.cand, p)
    {
      assert IsPair(q, g, p);
      if !Touched(q, g, es, p) && Supported(q, x'.cand, p) {
        forall w | w in q.nei[p.u] && Slot(p.v, p.u, w) in x'.cand
          ensures x'.cand[Slot(p.v, p.u, w)] == x.cand[Slot(p.v, p.u, w)]
        {
          var s := Slot(p.v, p.u, w);
          assert Here(s) == p;
          assert forall y :: !NewEntry(q, g, es, s, y);
        }
        SupportLocal(q, x'.cand, x.cand, p);
      }
    }
  }

  lemma TurnOnSettles(q: Graph, g: Graph, es: set<Edge>, x: Index, x': Index, queue': set<Pair>)
    requires q.Valid() && g.Valid() && Shaped(q, g, x) && NonEmpty(x) && SettledBut(x, {})
    requires TurnOnStep(q, g, es, x, x', queue')
    ensures SettledAdd(x', queue', {})
    ensures NonEmpty(x')
  {
    forall s, y | s in x'.cand && Here(s) in x'.on && y in x'.cand[s] && There(s, y) !in x'.on
      ensures Here(s) in queue'
    {
      assert IsSlot(q, g, s);
      assert y in x.cand[s] ==> Here(s) !in x.on;
      if y !in x.cand[s] {
        assert NewEntry(q, g, es, s, y);
        assert Touched(q, g, es, Here(s));
      }
    }
    forall s | s in x'.cand && Here(s) in x'.on
      ensures x'.cand[s] != {}
    {
      assert IsSlot(q, g, s);
      if Here(s) !in x.on {
        var ch :| Choice(q, x'.cand, Here(s), q.nei[s.u], ch);
        assert ch[s.w] in x'.cand[Slot(s.v, s.u, s.w)];
      } else {
        var y :| y in x.cand[s];
        assert y in x'.cand[s];
      }
    }
  }

  /** An add round keeps the invariant of the add loop. */
  lemma AddStepKeeps(q: Graph, g: Graph, x: Index, rank: Pair -> nat, clock: nat,
                     queue: set<Pair>, failed: set<Pair>, x': Index, queue': set<Pair>, failed': set<Pair>)
    requires AddInv(q, g, x, rank, clock, queue, failed)
    requires AddStep(q, g, x, queue, failed, x', queue', failed')
    ensures AddInv(q, g, x', rank, clock, queue', failed')
  {
    AddKeepsShape(q, g, x, queue, failed, x', queue', failed');
    forall s, y | Missing(q, g, x', s, y)
      ensures !Missing(q, g, x', Back(s, y), s.v)
      ensures There(s, y) !in x'.on || There(s, y) in queue'
      ensures There(s, y) in x'.on || Here(s) in x'.on || rank(There(s, y)) < rank(Here(s))
    {
      assert Missing(q, g, x, s, y);
      var b := Back(s, y);
      assert !Missing(q, g, x, b, s.v);
      assert IsSlot(q, g, s);
      assert s.v in Potential(q, g, b);
      assert s.v in x.cand[b];
      assert !Handed(x, queue, s, y);
    }
    AddRefutes(q, g, x, queue, failed, x', queue', failed');
    AddSettles(q, g, x, queue, failed, x', queue', failed');
  }

  lemma AddKeepsShape(q: Graph, g: Graph, x: Index, queue: set<Pair>, failed: set<Pair>,
                      x': Index, queue': set<Pair>, failed': set<Pair>)
    requires q.Valid() && g.Valid() && Shaped(q, g, x)
    requires AddStep(q, g, x, queue, failed, x', queue', failed')
    ensures Shaped(q, g, x')
  {
    forall s, y | s in x'.cand && y in x'.cand[s]
      ensures y in Potential(q, g, s)
    {
      assert IsSlot(q, g, s);
      if y !in x.cand[s] {
        assert Handed(x, queue, s, y);
        var b := Back(s, y);
        assert IsSlot(q, g, b);
        assert s.v in Potential(q, g, b);
      }
    }
  }

  lemma AddRefutes(q: Graph, g: Graph, x: Index, queue: set<Pair>, failed: set<Pair>,
                   x': Index, queue': set<Pair>, failed': set<Pair>)
    requires q.Valid() && g.Valid() && Shaped(q, g, x) && Refuted(q, g, x)
    requires AddStep(q, g, x, queue, failed, x', queue', failed')
    ensures Refuted(q, g, x')
  {
    forall p | IsPair(q, g, p) && p !in x'.on
      ensures !Supported(q, x'.cand, p)
    {
      if !Rechecked(x, queue, p) && Supported(q, x'.cand, p) {
        forall w | w in q.nei[p.u] && Slot(p.v, p.u, w) in x'.cand
          ensures x'.cand[Slot(p.v, p.u, w)] == x.cand[Slot(p.v, p.u, w)]
        {
          var s := Slot(p.v, p.u, w);
          forall y | There(s, y) in queue && Back(s, y) in x.cand
            ensures s.v !in x.cand[Back(s, y)]
          {
            assert Here(Back(s, y)) == There(s, y);
          }
        }
        SupportLocal(q, x'.cand, x.cand, p);
      }
    }
  }

  lemma AddSettles(q: Graph, g: Graph, x: Index, queue: set<Pair>, failed: set<Pair>,
                   x': Index, queue': set<Pair>, failed': set<Pair>)
    requires q.Valid() && g.Valid() && Shaped(q, g, x) && NonEmpty(x) && SettledAdd(x, queue, failed) && queue <= x.on
    requires AddStep(q, g, x, queue, failed, x', queue', failed')
    ensures SettledAdd(x', queue', failed')
    ensures NonEmpty(x')
  {
    forall s, y | s in x'.cand && Here(s) in x'.on && y in x'.cand[s] && There(s, y) !in x'.on
      ensures Here(s) in queue' || There(s, y) in failed'
    {
      assert IsSlot(q, g, s);
      if Here(s) in x.on {
        assert !Handed(x, queue, s, y);
        assert y in x.cand[s];
        assert y in Potential(q, g, s);
        if Here(s) in queue {
          assert IsPair(q, g, There(s, y));
          assert Rechecked(x, queue, There(s, y));
        }
      }
    }
    forall s | s in x'.cand && Here(s) in x'.on
      ensures x'.cand[s] != {}
    {
      assert IsSlot(q, g, s);
      if Here(s) !in x.on {
        var ch :| Choice(q, x'.cand, Here(s), q.nei[s.u], ch);
        assert ch[s.w] in x'.cand[Slot(s.v, s.u, s.w)];
      } else {
        var y :| y in x.cand[s];
        assert y in x'.cand[s];
      }
    }
  }

  /** Once the add queue is empty, the failed pairs that are still off are the delete loop's work. */
  lemma AddToDel(q: Graph, g: Graph, x: Index, rank: Pair -> nat, clock: nat, failed: set<Pair>)
    requires AddInv(q, g, x, rank, clock, {}, failed)
    ensures DelInv(q, g, x, rank, clock, failed - x.on)
  {
  }
}
