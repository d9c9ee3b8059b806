/** Systems of distinct representatives: what `tryNei` decides for one group of same-label query
    neighbours, and how the groups add up to `Supported`. */
module CaligCheck {
  import opened Graphs
  import opened CaligIndex

  /** For every query vertex, its neighbours grouped by label; only labels that occur at least
      twice have a group. */
  type Groups = seq<map<int, seq<nat>>>

  ghost predicate GroupsOf(q: Graph, rep: Groups)
    requires q.Valid()
  {
    && |rep| == |q.labels|
    && (forall u, lb :: 0 <= u < |rep| && lb in rep[u] ==> GroupOf(q, u, lb, rep[u][lb]))
    && (forall u, w, w' :: 0 <= u < |rep| && w in q.nei[u] && w' in q.nei[u] && w != w' && q.labels[w] == q.labels[w'] ==>
          q.labels[w] in rep[u] && w in rep[u][q.labels[w]])
  }

  ghost predicate GroupOf(q: Graph, u: nat, lb: int, ws: seq<nat>)
    requires q.Valid() && u < |q.labels|
  {
    && |ws| > 1
    && (forall i :: 0 <= i < |ws| ==> ws[i] in q.nei[u] && q.labels[ws[i]] == lb)
    && (forall i, j :: 0 <= i < j < |ws| ==> ws[i] != ws[j])
  }

  /** `ys` are distinct candidates outside `used` for the query vertices `ws`, in that order. */
  ghost predicate Represents(cand: map<Slot, set<nat>>, p: Pair, ws: seq<nat>, used: set<nat>, ys: seq<nat>) {
    && |ys| == |ws|
    && (forall i :: 0 <= i < |ws| ==> Slot(p.v, p.u, ws[i]) in cand && ys[i] in cand[Slot(p.v, p.u, ws[i])] && ys[i] !in used)
    && (forall i, j :: 0 <= i < j < |ys| ==> ys[i] != ys[j])
  }

  ghost predicate Representable(cand: map<Slot, set<nat>>, p: Pair, ws: seq<nat>, used: set<nat>) {
    exists ys :: Represents(cand, p, ws, used, ys)
  }

  ghost predicate AllRepresentable(cand: map<Slot, set<nat>>, p: Pair, groups: map<int, seq<nat>>) {
    forall lb :: lb in groups ==> Representable(cand, p, groups[lb], {})
  }

  lemma RepresentableCons(cand: map<Slot, set<nat>>, p: Pair, ws: seq<nat>, used: set<nat>)
    requires |ws| > 0 && Slot(p.v, p.u, ws[0]) in cand
    ensures Representable(cand, p, ws, used) <==>
      exists y :: y in cand[Slot(p.v, p.u, ws[0])] && y !in used && Representable(cand, p, ws[1..], used + {y})
  {
    if Representable(cand, p, ws, used) {
      var ys :| Represents(cand, p, ws, used, ys);
      assert Represents(cand, p, ws[1..], used + {ys[0]}, ys[1..]);
    }
    forall y | y in cand[Slot(p.v, p.u, ws[0])] && y !in used && Representable(cand, p, ws[1..], used + {y})
      ensures Representable(cand, p, ws, used)
    {
      var ys :| Represents(cand, p, ws[1..], used + {y}, ys);
      assert Represents(cand, p, ws, used, [y] + ys);
    }
  }

  /** A supported pair has representatives for each group. */
  lemma SupportedGroup(q: Graph, cand: map<Slot, set<nat>>, p: Pair, ws: seq<nat>, lb: int)
    requires q.Valid() && p.u < |q.labels| && GroupOf(q, p.u, lb, ws)
    requires Supported(q, cand, p)
    ensures Representable(cand, p, ws, {})
  {
    var ch :| Choice(q, cand, p, q.nei[p.u], ch);
    var ys := seq(|ws|, i requires 0 <= i < |ws| => ch[ws[i]]);
    assert Represents(cand, p, ws, {}, ys);
  }

  ghost function Chosen(cand: map<Slot, set<nat>>, p: Pair, ws: seq<nat>): (ys: seq<nat>)
    requires Representable(cand, p, ws, {})
    ensures Represents(cand, p, ws, {}, ys)
  {
    var ys :| Represents(cand, p, ws, {}, ys);
    ys
  }

  /** The representative of `w` within its group. */
  ghost function PickIn(cand: map<Slot, set<nat>>, p: Pair, ws: seq<nat>, w: nat): (y: nat)
    requires Representable(cand, p, ws, {}) && w in ws
    ensures Slot(p.v, p.u, w) in cand && y in cand[Slot(p.v, p.u, w)]
  {
    var i :| 0 <= i < |ws| && ws[i] == w;
    Chosen(cand, p, ws)[i]
  }

  lemma PicksDiffer(cand: map<Slot, set<nat>>, p: Pair, ws: seq<nat>, w: nat, w': nat)
    requires Representable(cand, p, ws, {}) && w in ws && w' in ws && w != w'
    ensures PickIn(cand, p, ws, w) != PickIn(cand, p, ws, w')
  {
    var ys := Chosen(cand, p, ws);
    assert Represents(cand, p, ws, {}, ys);
  }

  ghost predicate Grouped(q: Graph, groups: map<int, seq<nat>>, w: nat)
    requires w < |q.labels|
  {
    q.labels[w] in groups && w in groups[q.labels[w]]
  }

  ghost function PickFor(q: Graph, groups: map<int, seq<nat>>, cand: map<Slot, set<nat>>, p: Pair, w: nat): (y: nat)
    requires w < |q.labels| && Slot(p.v, p.u, w) in cand && cand[Slot(p.v, p.u, w)] != {}
    requires Grouped(q, groups, w) ==> Representable(cand, p, groups[q.labels[w]], {})
    ensures y in cand[Slot(p.v, p.u, w)]
  {
    if Grouped(q, groups, w) then PickIn(cand, p, groups[q.labels[w]], w)
    else var y :| y in cand[Slot(p.v, p.u, w)]; y
  }

  /** Non-empty slots and representatives for every group support the pair: candidates of
      different groups carry different labels, so they cannot clash. */
  lemma GroupsSupport(q: Graph, g: Graph, rep: Groups, x: Index, p: Pair)
    requires q.Valid() && g.Valid() && GroupsOf(q, rep) && Shaped(q, g, x) && IsPair(q, g, p)
    requires forall w :: w in q.nei[p.u] ==> Slot(p.v, p.u, w) in x.cand && x.cand[Slot(p.v, p.u, w)] != {}
    requires AllRepresentable(x.cand, p, rep[p.u])
    ensures Supported(q, x.cand, p)
  {
    var groups := rep[p.u];
    forall lb | lb in groups
      ensures Representable(x.cand, p, groups[lb], {})
    {
    }
    var ch := map w | w in q.nei[p.u] :: PickFor(q, groups, x.cand, p, w);
    forall w, w' | w in q.nei[p.u] && w' in q.nei[p.u] && w != w'
      ensures ch[w] != ch[w']
    {
      var s, s' := Slot(p.v, p.u, w), Slot(p.v, p.u, w');
      assert ch[w] in Potential(q, g, s) && ch[w'] in Potential(q, g, s');
      if q.labels[w] == q.labels[w'] {
        assert Grouped(q, groups, w) && Grouped(q, groups, w');
        PicksDiffer(x.cand, p, groups[q.labels[w]], w, w');
      }
    }
    assert Choice(q, x.cand, p, q.nei[p.u], ch);
  }

  /** An empty slot refutes its pair. */
  lemma EmptyRefutes(q: Graph, cand: map<Slot, set<nat>>, s: Slot)
    requires s.u < |q.nei| && s.w in q.nei[s.u] && s in cand && cand[s] == {}
    ensures !Supported(q, cand, Here(s))
  {
    assert Slot(s.v, s.u, s.w) == s;
    assert forall ch :: Choice(q, cand, Here(s), q.nei[s.u], ch) ==> s.w in ch;
  }
}
