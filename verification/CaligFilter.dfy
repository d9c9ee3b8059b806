/** The CaLiG filter as the program runs it: bits, candidate sets and `isChecked` flags updated in
    place by round loops.  The tasks of one `parallel_for` are taken in any order; a task queue is
    a set, because a repeated task repeats idempotent writes. */
module CaligFilter {
  import opened Sequences
  import opened Graphs
  import opened CaligIndex
  import opened CaligCheck
  import opened CaligRounds
  import opened CaligGroups
  import opened CaligLogs

  datatype Tmp = Tmp(ui: nat, uj: nat, vi: nat, vj: nat)

  datatype Del = Del(ui: nat, vi: nat, lb: int)

  /** The task that takes `y` out of slot `s`. */
  function TaskOf(s: Slot, y: nat): Tmp { Tmp(s.w, s.u, y, s.v) }

  /** The candidate sets of `u` at `v` before any filtering. */
  function FreshSlots(q: Graph, g: Graph, v: nat, u: nat): (m: map<Slot, set<nat>>)
    requires q.Valid() && g.Valid() && IsPair(q, g, Pair(v, u))
    ensures forall s :: s in m <==> s.v == v && s.u == u && IsSlot(q, g, s)
    ensures forall s :: s in m ==> m[s] == Potential(q, g, s)
  {
    var slots := set w | w in q.nei[u] :: Slot(v, u, w);
    assert forall s :: s in slots <==> s.v == v && s.u == u && s.w in q.nei[u];
    map s | s in slots :: Potential(q, g, s)
  }

  // ---- The erasures of a round ----

  /** What the erasures `done` have made of the candidate sets and the bits; `local` are the pairs turned off. */
  ghost predicate Erasing(cand0: map<Slot, set<nat>>, cand: map<Slot, set<nat>>, li0: set<Pair>, li: set<Pair>, done: set<Tmp>, local: set<Pair>) {
    && Within(cand, cand0) && li <= li0 && local == li0 - li
    && (forall s, y :: s in cand ==> (y in cand[s] <==> y in cand0[s] && TaskOf(s, y) !in done))
    && (forall p :: p in local ==> HasEmptySlot(cand, p))
    && (forall s :: s in cand && Here(s) in li && cand0[s] != {} ==> cand[s] != {})
  }

  lemma ErasingMore(cand0: map<Slot, set<nat>>, cand1: map<Slot, set<nat>>, cand2: map<Slot, set<nat>>, li0: set<Pair>, li1: set<Pair>, li2: set<Pair>,
                    done: set<Tmp>, t: Tmp, local1: set<Pair>, local2: set<Pair>)
    requires Erasing(cand0, cand1, li0, li1, done, local1) && Slot(t.vj, t.uj, t.ui) in cand1 && Pair(t.vj, t.uj) in li0
    requires cand2 == cand1[Slot(t.vj, t.uj, t.ui) := cand1[Slot(t.vj, t.uj, t.ui)] - {t.vi}]
    requires var s := Slot(t.vj, t.uj, t.ui); var p := Pair(t.vj, t.uj);
      if cand2[s] == {} then li2 == li1 - {p} && local2 == local1 + {p} else li2 == li1 && local2 == local1
    ensures Erasing(cand0, cand2, li0, li2, done + {t}, local2) && Within(cand2, cand0)
  {
    var e := Slot(t.vj, t.uj, t.ui);
    forall s, y | s in cand2
      ensures y in cand2[s] <==> y in cand0[s] && TaskOf(s, y) !in done + {t}
    {
      assert TaskOf(s, y) == t <==> s == e && y == t.vi;
    }
    forall p | p in local2
      ensures HasEmptySlot(cand2, p)
    {
      if p in local1 {
        var s :| s in cand1 && Here(s) == p && cand1[s] == {};
        assert cand2[s] == {};
      } else {
        assert Here(e) == p && cand2[e] == {};
      }
    }
    forall s | s in cand2 && Here(s) in li2 && cand0[s] != {}
      ensures cand2[s] != {}
    {
      if s == e { assert Here(s) == Pair(t.vj, t.uj); }
    }
  }

  lemma QueueIsPairs(q: Graph, g: Graph, x: Index, rank: Pair -> nat, clock: nat, queue: set<Pair>)
    requires DelInv(q, g, x, rank, clock, queue)
    ensures q.Valid() && g.Valid() && forall p :: p in queue ==> IsPair(q, g, p)
  {
  }

  lemma QueueIsOn(q: Graph, g: Graph, x: Index, rank: Pair -> nat, clock: nat, queue: set<Pair>, failed: set<Pair>)
    requires AddInv(q, g, x, rank, clock, queue, failed)
    ensures queue <= x.on
  {
  }

  lemma OnPairs(q: Graph, g: Graph, x: Index, all: set<Pair>)
    requires q.Valid() && g.Valid() && Shaped(q, g, x)
    requires all == set v, u | 0 <= v < |g.labels| && 0 <= u < |q.labels| :: Pair(v, u)
    ensures x.on <= all
  {
  }

  lemma ErasingNone(cand: map<Slot, set<nat>>, li: set<Pair>)
    ensures Erasing(cand, cand, li, li, {}, {}) && Within(cand, cand)
  {
  }

  class CaLiG {
    const q: Graph
    const rep: Groups
    const labels: seq<int>
    var nei: seq<set<nat>>
    var li: set<Pair>
    var cand: map<Slot, set<nat>>
    var isChecked: set<Pair>
    /** What the running batch has put into candidate sets and taken out of them, and the pairs it has turned on. */
    var deltaIns: set<Entry>
    var deltaDel: set<Entry>
    var liActivated: set<Pair>
    /** The entries over the edges of the running batch. */
    var deltaUpdate: seq<Entry>
    ghost var rank: Pair -> nat
    ghost var clock: nat

    ghost function G(): Graph
      reads this
    {
      Graph(labels, nei)
    }

    ghost function X(): Index
      reads this
    {
      Index(li, cand)
    }

    ghost predicate Ready()
      reads this
    {
      && q.Valid() && q.Loopless() && GroupsOf(q, rep) && G().Valid()
      && (forall u :: 0 <= u < |q.labels| ==> q.labels[u] != NoLabel)
      && Shaped(q, G(), X())
    }

    /** No work is left for the delete loop. */
    ghost predicate Settled()
      reads this
    {
      Ready() && DelInv(q, G(), X(), rank, clock, {}) && Tested(rep, X())
    }

    /** The object invariant between batches. */
    ghost predicate Valid()
      reads this
    {
      Settled() && liActivated == {}
    }

    constructor (q: Graph, rep: Groups, labels: seq<int>, nei: seq<set<nat>>)
      requires q.Valid() && q.Loopless() && GroupsOf(q, rep) && Graph(labels, nei).Valid()
      requires forall u :: 0 <= u < |q.labels| ==> q.labels[u] != NoLabel
      ensures Ready() && this.q == q && this.rep == rep && this.labels == labels && this.nei == nei
      ensures Built(q, G(), X()) && liActivated == {}
    {
      this.q, this.rep, this.labels, this.nei := q, rep, labels, nei;
      li, cand, isChecked := {}, map[], {};
      deltaIns, deltaDel, liActivated, deltaUpdate := {}, {}, {}, [];
      rank, clock := (p: Pair) => 0, 0;
      new;
      ConstructCand();
    }

    method ConstructCand()
      requires q.Valid() && G().Valid()
      requires forall u :: 0 <= u < |q.labels| ==> q.labels[u] != NoLabel
      requires li == {} && cand == map[]
      modifies this`li, this`cand
      ensures Built(q, G(), X())
    {
      for v := 0 to |labels|
        invariant forall p :: p in li <==> IsPair(q, G(), p) && p.v < v
        invariant forall s :: s in cand <==> IsSlot(q, G(), s) && s.v < v
        invariant forall s :: s in cand ==> cand[s] == Potential(q, G(), s)
      {
        if labels[v] != NoLabel {
          ConstructVertex(v);
        }
      }
    }

    method ConstructVertex(v: nat)
      requires q.Valid() && G().Valid() && v < |labels|
      requires forall s :: s in cand ==> s.v < v
      modifies this`li, this`cand
      ensures forall p :: p in li <==> p in old(li) || (p.v == v && IsPair(q, G(), p))
      ensures forall s :: s in cand <==> s in old(cand) || (s.v == v && IsSlot(q, G(), s))
      ensures forall s :: s in old(cand) ==> cand[s] == old(cand)[s]
      ensures forall s :: s in cand && s.v == v ==> cand[s] == Potential(q, G(), s)
    {
      for u := 0 to |q.labels|
        invariant forall p :: p in li <==> p in old(li) || (p.v == v && p.u < u && IsPair(q, G(), p))
        invariant forall s :: s in cand <==> s in old(cand) || (s.v == v && s.u < u && IsSlot(q, G(), s))
        invariant forall s :: s in old(cand) ==> cand[s] == old(cand)[s]
        invariant forall s :: s in cand && s.v == v ==> cand[s] == Potential(q, G(), s)
      {
        if q.labels[u] == labels[v] {
          cand := cand + FreshSlots(q, Graph(labels, nei), v, u);
          li := li + {Pair(v, u)};
        }
      }
    }

    /** Tries to give each query vertex of `toCheck[th..]` its own candidate outside `used`. */
    method TryNei(th: nat, p: Pair, used: set<nat>, toCheck: seq<nat>) returns (ok: bool, used': set<nat>)
      requires Ready() && IsPair(q, G(), p) && th <= |toCheck|
      requires forall i :: 0 <= i < |toCheck| ==> toCheck[i] in q.nei[p.u]
      ensures ok <==> Representable(cand, p, toCheck[th..], used)
      ensures !ok ==> used' == used
      decreases |toCheck| - th
    {
      used' := used;
      if th == |toCheck| {
        assert Represents(cand, p, toCheck[th..], used, []);
        return true, used;
      }
      var uj := toCheck[th];
      var s := Slot(p.v, p.u, uj);
      assert IsSlot(q, G(), s);
      assert toCheck[th..][1..] == toCheck[th + 1..];
      RepresentableCons(cand, p, toCheck[th..], used);
      var todo := cand[s];
      while todo != {}
        invariant todo <= cand[s] && used' == used
        invariant forall y :: y in cand[s] && y !in todo && y !in used ==> !Representable(cand, p, toCheck[th + 1..], used + {y})
        decreases todo
      {
        var vj :| vj in todo;
        todo := todo - {vj};
        assert vj in Potential(q, G(), s);
        if labels[vj] != q.labels[uj] { continue; }
        if vj !in used' {
          used' := used' + {vj};
          ok, used' := TryNei(th + 1, p, used', toCheck);
          if ok { return; }
          used' := used' - {vj};
        }
      }
      return false, used';
    }

    method CheckNei(p: Pair) returns (ok: bool)
      requires Ready() && IsPair(q, G(), p)
      ensures ok <==> Supported(q, cand, p)
    {
      var todo := q.nei[p.u];
      while todo != {}
        invariant todo <= q.nei[p.u]
        invariant forall w :: w in q.nei[p.u] && w !in todo ==> Slot(p.v, p.u, w) in cand && cand[Slot(p.v, p.u, w)] != {}
        decreases todo
      {
        var uj :| uj in todo;
        todo := todo - {uj};
        var s := Slot(p.v, p.u, uj);
        assert IsSlot(q, G(), s) && Here(s) == p;
        if cand[s] == {} {
          EmptyRefutes(q, cand, s);
          return false;
        }
      }
      ok := CheckGroups(p);
      if ok { GroupsSupport(q, G(), rep, X(), p); }
    }

    method CheckGroups(p: Pair) returns (ok: bool)
      requires Ready() && IsPair(q, G(), p)
      ensures ok ==> AllRepresentable(cand, p, rep[p.u])
      ensures !ok ==> !Supported(q, cand, p)
    {
      var groups := rep[p.u].Items;
      while groups != {}
        invariant groups <= rep[p.u].Items
        invariant forall lb :: lb in rep[p.u] && (lb, rep[p.u][lb]) !in groups ==> Representable(cand, p, rep[p.u][lb], {})
        decreases groups
      {
        var group :| group in groups;
        groups := groups - {group};
        var (lb, ws) := group;
        assert GroupOf(q, p.u, lb, ws) && ws[0..] == ws;
        var found, _ := TryNei(0, p, {}, ws);
        if !found {
          if Supported(q, cand, p) { SupportedGroup(q, cand, p, ws, lb); }
          return false;
        }
      }
      return true;
    }

    /** Checks the on pairs of data vertex `vi` and turns the failing ones off. */
    method TurnOff(vi: nat, localDel: set<Pair>) returns (localDel': set<Pair>)
      requires Ready() && vi < |labels|
      modifies this`li
      ensures cand == old(cand) && li <= old(li) && Ready()
      ensures localDel' == localDel + (old(li) - li)
      ensures forall p :: p in old(li) ==> (p in li <==> p.v != vi || Supported(q, cand, p))
    {
      localDel' := localDel;
      for ui := 0 to |q.labels|
        invariant Ready() && li <= old(li)
        invariant localDel' == localDel + (old(li) - li)
        invariant forall p :: p in old(li) ==> (p in li <==> p.v != vi || p.u >= ui || Supported(q, cand, p))
      {
        var p := Pair(vi, ui);
        if p in li {
          assert IsPair(q, G(), p);
          var ok := CheckNei(p);
          if !ok {
            li := li - {p};
            localDel' := localDel' + {p};
          }
        }
      }
    }

    /** One delete round: `queue` holds pairs that have been turned off. */
    method DelAndCheck(queue: set<Pair>) returns (local: set<Pair>)
      requires Ready() && forall p :: p in queue ==> IsPair(q, G(), p)
      modifies this`li, this`cand, this`isChecked, this`deltaDel
      ensures Ready()
      ensures DelRound(q, G(), rep, old(X()), queue, X(), local)
      ensures DelLogged(old(deltaDel), deltaDel, old(cand), cand)
    {
      hide Supported, Representable, GroupsOf, NotPassed, FailsGroup, Retested, HasEmptySlot;
      ghost var before := X();
      var tmp := GatherErasures(queue);
      var checkDel: set<Del>;
      local, checkDel := EraseTasks(tmp);
      ghost var emptied := local;
      local := CheckTasks(checkDel, before.on, local);
      DelStepIs(q, G(), before, queue, X(), tmp, local);
      forall p | p in local
        ensures HasEmptySlot(cand, p) || FailsGroup(q, rep, before, queue, cand, p)
      {
        if p !in emptied { FailedOne(before, queue, tmp, checkDel, p); }
      }
      forall s, y | LostMate(q, rep, before, queue, s, y) && Here(s) in li
        ensures Retested(q, rep, before, queue, cand, Here(s))
      {
        assert TaskOf(s, y) in tmp && Del(s.u, s.v, q.labels[s.w]) in DelTasks(TaskOf(s, y));
        assert Passed(cand, rep, checkDel, Here(s));
        RetestedOne(before, queue, tmp, checkDel, Here(s));
      }
    }

    lemma RetestedOne(before: Index, queue: set<Pair>, tmp: set<Tmp>, checkDel: set<Del>, p: Pair)
      requires forall s, y :: s in before.cand ==> (TaskOf(s, y) in tmp <==> Erased(before, queue, s, y))
      requires forall t :: t in tmp ==> Slot(t.vj, t.uj, t.ui) in before.cand
      requires (forall d :: d in checkDel ==> FromTask(tmp, d)) && Passed(cand, rep, checkDel, p)
      ensures Retested(q, rep, before, queue, cand, p)
    {
      var lb :| Del(p.u, p.v, lb) in checkDel && p.u < |rep| && lb in rep[p.u] && Representable(cand, p, rep[p.u][lb], {});
      var s, y := TaskSlot(before, queue, tmp, checkDel, p, lb);
    }

    lemma FailedOne(before: Index, queue: set<Pair>, tmp: set<Tmp>, checkDel: set<Del>, p: Pair)
      requires forall s, y :: s in before.cand ==> (TaskOf(s, y) in tmp <==> Erased(before, queue, s, y))
      requires forall t :: t in tmp ==> Slot(t.vj, t.uj, t.ui) in before.cand
      requires (forall d :: d in checkDel ==> FromTask(tmp, d)) && NotPassed(cand, rep, checkDel, p)
      ensures FailsGroup(q, rep, before, queue, cand, p)
    {
      var lb :| Del(p.u, p.v, lb) in checkDel && p.u < |rep| && lb in rep[p.u] && !Representable(cand, p, rep[p.u][lb], {});
      var s, y := TaskSlot(before, queue, tmp, checkDel, p, lb);
    }

    /** A scheduled group has lost a candidate. */
    lemma TaskSlot(before: Index, queue: set<Pair>, tmp: set<Tmp>, checkDel: set<Del>, p: Pair, lb: int) returns (s: Slot, y: nat)
      requires forall s, y :: s in before.cand ==> (TaskOf(s, y) in tmp <==> Erased(before, queue, s, y))
      requires forall t :: t in tmp ==> Slot(t.vj, t.uj, t.ui) in before.cand
      requires (forall d :: d in checkDel ==> FromTask(tmp, d)) && Del(p.u, p.v, lb) in checkDel
      ensures LostMate(q, rep, before, queue, s, y) && Here(s) == p && q.labels[s.w] == lb
    {
      assert FromTask(tmp, Del(p.u, p.v, lb));
      var t :| t in tmp && t.uj < |rep| && t.ui < |q.labels| && Del(p.u, p.v, lb) in DelTasks(t);
      s, y := Slot(t.vj, t.uj, t.ui), t.vi;
      assert TaskOf(s, y) == t;
    }

    /** The check is due to one of the erasures. */
    ghost predicate FromTask(tmp: set<Tmp>, d: Del) {
      exists t :: t in tmp && t.uj < |rep| && t.ui < |q.labels| && d in DelTasks(t)
    }

    /** The groups in which on pairs have lost candidates are scheduled, and their pairs may be checked. */
    ghost predicate Scheduled(tmp: set<Tmp>, checkDel: set<Del>)
      reads this
    {
      && (forall t :: t in tmp && Pair(t.vj, t.uj) in li && t.uj < |rep| && t.ui < |q.labels| ==> DelTasks(t) <= checkDel)
      && (forall d :: d in checkDel ==> Pair(d.vi, d.ui) !in isChecked && FromTask(tmp, d))
    }

    method GatherErasures(queue: set<Pair>) returns (tmp: set<Tmp>)
      requires Ready() && forall p :: p in queue ==> IsPair(q, G(), p)
      ensures forall s, y :: s in cand ==> (TaskOf(s, y) in tmp <==> Erased(X(), queue, s, y))
      ensures forall t :: t in tmp ==> Slot(t.vj, t.uj, t.ui) in cand && Pair(t.vj, t.uj) in li
    {
      tmp := {};
      var todo := queue;
      while todo != {}
        invariant todo <= queue
        invariant forall s, y :: s in cand ==> (TaskOf(s, y) in tmp <==> Erased(X(), queue - todo, s, y))
        invariant forall t :: t in tmp ==> Slot(t.vj, t.uj, t.ui) in cand && Pair(t.vj, t.uj) in li
        decreases todo
      {
        var p :| p in todo;
        ghost var tmp0, done := tmp, queue - todo;
        todo := todo - {p};
        assert queue - todo == done + {p};
        forall uj | uj in q.nei[p.u]
          ensures Slot(p.v, p.u, uj) in cand
        {
          assert IsSlot(q, G(), Slot(p.v, p.u, uj));
        }
        forall uj, vj | uj in q.nei[p.u] && vj in cand[Slot(p.v, p.u, uj)]
          ensures Slot(vj, uj, p.u) in cand && labels[vj] == q.labels[uj]
        {
          assert vj in Potential(q, G(), Slot(p.v, p.u, uj));
          assert IsSlot(q, G(), Slot(vj, uj, p.u));
        }
        var found := set uj, vj | uj in q.nei[p.u] && vj in cand[Slot(p.v, p.u, uj)] &&
                                  labels[vj] == q.labels[uj] && Pair(vj, uj) in li :: Tmp(p.u, uj, p.v, vj);
        tmp := tmp + found;
        forall s, y | s in cand
          ensures TaskOf(s, y) in tmp <==> Erased(X(), done + {p}, s, y)
        {
          assert IsSlot(q, G(), s);
          assert TaskOf(s, y) in found <==> There(s, y) == p && Erased(X(), {p}, s, y);
        }
      }
    }

    /** The group of `t.uj` to check again after the erasure, if there is one. */
    function DelTasks(t: Tmp): set<Del>
      requires t.uj < |rep| && t.ui < |q.labels|
    {
      if q.labels[t.ui] in rep[t.uj] then {Del(t.uj, t.vj, q.labels[t.ui])} else {}
    }

    /** One erasure: takes `t.vi` out of the slot and turns the owner off if that empties it. */
    method EraseOne(t: Tmp, local: set<Pair>, checkDel: set<Del>) returns (local': set<Pair>, checkDel': set<Del>)
      requires Slot(t.vj, t.uj, t.ui) in cand && t.uj < |rep| && t.ui < |q.labels|
      modifies this`li, this`cand, this`isChecked, this`deltaDel
      ensures var s := Slot(t.vj, t.uj, t.ui); var p := Pair(t.vj, t.uj);
              && cand == old(cand)[s := old(cand)[s] - {t.vi}]
              && deltaDel == old(deltaDel) + (if t.vi in old(cand)[s] then {Entry(s, t.vi)} else {})
              && (cand[s] == {} ==> li == old(li) - {p} && local' == local + {p} && checkDel' == checkDel)
              && (cand[s] != {} ==> li == old(li) && local' == local)
              && (cand[s] != {} ==> checkDel' == checkDel + DelTasks(t))
              && isChecked == old(isChecked) - (if cand[s] != {} && DelTasks(t) != {} then {p} else {})
    {
      var s := Slot(t.vj, t.uj, t.ui);
      local', checkDel' := local, checkDel;
      if t.vi in cand[s] { deltaDel := deltaDel + {Entry(s, t.vi)}; }
      cand := cand[s := cand[s] - {t.vi}];
      if cand[s] == {} {
        li := li - {Pair(t.vj, t.uj)};
        local' := local + {Pair(t.vj, t.uj)};
      } else {
        if q.labels[t.ui] in rep[t.uj] {
          checkDel' := checkDel + DelTasks(t);
          isChecked := isChecked - {Pair(t.vj, t.uj)};
        }
      }
    }

    method EraseTasks(tmp: set<Tmp>) returns (local: set<Pair>, checkDel: set<Del>)
      requires Ready()
      requires forall t :: t in tmp ==> Slot(t.vj, t.uj, t.ui) in cand && Pair(t.vj, t.uj) in li
      modifies this`li, this`cand, this`isChecked, this`deltaDel
      ensures Ready() && cand.Keys == old(cand).Keys
      ensures DelLogged(old(deltaDel), deltaDel, old(cand), cand)
      ensures forall s, y :: s in cand ==> (y in cand[s] <==> y in old(cand)[s] && TaskOf(s, y) !in tmp)
      ensures li <= old(li) && local == old(li) - li
      ensures forall p :: p in local ==> HasEmptySlot(cand, p) && !Supported(q, cand, p)
      ensures forall s :: s in cand && Here(s) in li && old(cand)[s] != {} ==> cand[s] != {}
      ensures forall d :: d in checkDel ==> Pair(d.vi, d.ui) in old(li) && d.lb in rep[d.ui]
      ensures Scheduled(tmp, checkDel)
    {
      forall t | t in tmp
        ensures t.uj < |rep| && t.ui < |q.labels|
      {
        assert IsSlot(q, G(), Slot(t.vj, t.uj, t.ui));
      }
      local, checkDel := EraseLoop(tmp);
      ErasedSupport(old(cand), local);
    }

    method EraseLoop(tmp: set<Tmp>) returns (local: set<Pair>, checkDel: set<Del>)
      requires forall t :: t in tmp ==> Slot(t.vj, t.uj, t.ui) in cand && Pair(t.vj, t.uj) in li
      requires forall t :: t in tmp ==> t.uj < |rep| && t.ui < |q.labels|
      modifies this`li, this`cand, this`isChecked, this`deltaDel
      ensures Erasing(old(cand), cand, old(li), li, tmp, local)
      ensures forall d :: d in checkDel ==> Pair(d.vi, d.ui) in old(li) && d.ui < |rep| && d.lb in rep[d.ui]
      ensures Scheduled(tmp, checkDel)
      ensures DelLogged(old(deltaDel), deltaDel, old(cand), cand)
    {
      hide Erasing, DelLogged;
      local, checkDel := {}, {};
      ErasingNone(cand, li);
      DelLoggedNone(deltaDel, cand);
      var todo := tmp;
      ghost var done: set<Tmp> := {};
      while todo != {}
        invariant todo + done == tmp && todo !! done
        invariant Erasing(old(cand), cand, old(li), li, done, local) && Within(cand, old(cand)) && li <= old(li)
        invariant forall d :: d in checkDel ==> Pair(d.vi, d.ui) in old(li) && d.ui < |rep| && d.lb in rep[d.ui]
        invariant Scheduled(done, checkDel)
        invariant DelLogged(old(deltaDel), deltaDel, old(cand), cand)
        decreases todo
      {
        var t :| t in todo;
        ghost var cand0, local0, done0, checkDel0, li0, checked0, del0 := cand, local, done, checkDel, li, isChecked, deltaDel;
        todo, done := todo - {t}, done + {t};
        local, checkDel := EraseOne(t, local, checkDel);
        ScheduledMore(done0, t, li0, checked0, checkDel0, checkDel);
        ErasingMore(old(cand), cand0, cand, old(li), li0, li, done0, t, local0, local);
        DelLoggedOne(old(deltaDel), del0, deltaDel, old(cand), cand0, cand, Slot(t.vj, t.uj, t.ui), t.vi);
      }
      assert done == tmp;
    }

    lemma ScheduledMore(done: set<Tmp>, t: Tmp, li0: set<Pair>, checked0: set<Pair>, checkDel0: set<Del>, checkDel: set<Del>)
      requires forall r :: r in done && Pair(r.vj, r.uj) in li0 && r.uj < |rep| && r.ui < |q.labels| ==> DelTasks(r) <= checkDel0
      requires forall d :: d in checkDel0 ==> Pair(d.vi, d.ui) !in checked0 && FromTask(done, d)
      requires t.uj < |rep| && t.ui < |q.labels|
      requires li <= li0 && isChecked <= checked0 && checkDel0 <= checkDel
      requires Pair(t.vj, t.uj) in li ==> DelTasks(t) <= checkDel
      requires checkDel <= checkDel0 + DelTasks(t)
      requires checkDel != checkDel0 ==> Pair(t.vj, t.uj) !in isChecked
      ensures Scheduled(done + {t}, checkDel)
    {
      forall d | d in checkDel
        ensures Pair(d.vi, d.ui) !in isChecked && FromTask(done + {t}, d)
      {
        if d in checkDel0 {
          var r :| r in done && r.uj < |rep| && r.ui < |q.labels| && d in DelTasks(r);
          assert r in done + {t};
        } else {
          assert d in DelTasks(t) && t in done + {t};
        }
      }
    }

    lemma ErasedSupport(first: map<Slot, set<nat>>, local: set<Pair>)
      requires q.Valid() && G().Valid() && cand.Keys == first.Keys
      requires forall s :: s in first <==> IsSlot(q, G(), s)
      requires forall s :: s in first ==> first[s] <= Potential(q, G(), s)
      requires forall s, y :: s in cand && y in cand[s] ==> y in first[s]
      requires forall p :: p in local ==> HasEmptySlot(cand, p)
      ensures forall s :: s in cand ==> cand[s] <= Potential(q, G(), s)
      ensures forall p :: p in local && p.u < |q.nei| ==> !Supported(q, cand, p)
    {
      forall s | s in cand
        ensures cand[s] <= Potential(q, G(), s)
      {
        assert cand[s] <= first[s];
      }
      forall p | p in local && p.u < |q.nei|
        ensures !Supported(q, cand, p)
      {
        var e :| e in cand && Here(e) == p && cand[e] == {};
        assert IsSlot(q, G(), e);
        EmptyRefutes(q, cand, e);
      }
    }

    method CheckTasks(checkDel: set<Del>, ghost on: set<Pair>, local: set<Pair>) returns (local': set<Pair>)
      requires Ready() && li <= on && local == on - li
      requires forall d :: d in checkDel ==> IsPair(q, G(), Pair(d.vi, d.ui)) && Pair(d.vi, d.ui) in on && d.lb in rep[d.ui]
      requires forall p :: p in local && IsPair(q, G(), p) ==> !Supported(q, cand, p)
      modifies this`li, this`isChecked
      ensures Ready() && li <= old(li)
      ensures local' == on - li
      ensures forall p :: p in local' && IsPair(q, G(), p) ==> !Supported(q, cand, p)
      ensures forall d :: d in checkDel && Pair(d.vi, d.ui) in li && Pair(d.vi, d.ui) !in old(isChecked) ==>
        Passed(cand, rep, checkDel, Pair(d.vi, d.ui))
      ensures forall p :: p in local' && p !in local ==> NotPassed(cand, rep, checkDel, p)
    {
      hide Supported, Representable, Shaped;
      local' := local;
      var todo := checkDel;
      while todo != {}
        invariant todo <= checkDel && Ready() && li <= old(li)
        invariant forall d :: d in checkDel && d !in todo ==> Pair(d.vi, d.ui) in isChecked
        invariant forall p :: p in isChecked && p in li && p !in old(isChecked) ==> Passed(cand, rep, checkDel, p)
        invariant local' == on - li
        invariant forall p :: p in local' && IsPair(q, G(), p) ==> !Supported(q, cand, p)
        invariant forall p :: p in local' && p !in local ==> NotPassed(cand, rep, checkDel, p)
        decreases todo
      {
        var d :| d in todo;
        todo := todo - {d};
        local' := CheckTask(d, on, local');
      }
    }

    /** One check of one label group; a pair is checked once per round. */
    method CheckTask(d: Del, ghost on: set<Pair>, local: set<Pair>) returns (local': set<Pair>)
      requires Ready() && li <= on && local == on - li
      requires IsPair(q, G(), Pair(d.vi, d.ui)) && Pair(d.vi, d.ui) in on && d.lb in rep[d.ui]
      requires forall p :: p in local && IsPair(q, G(), p) ==> !Supported(q, cand, p)
      modifies this`li, this`isChecked
      ensures Ready() && li <= old(li) && local' == on - li
      ensures forall p :: p in local' && IsPair(q, G(), p) ==> !Supported(q, cand, p)
      ensures var p := Pair(d.vi, d.ui);
              && isChecked == old(isChecked) + {p} && old(li) - {p} <= li
              && (p in old(isChecked) ==> li == old(li))
              && (p !in old(isChecked) && p in old(li) ==> (p in li <==> Representable(cand, p, rep[d.ui][d.lb], {})))
    {
      local' := local;
      var p := Pair(d.vi, d.ui);
      if p in isChecked { return; }
      isChecked := isChecked + {p};
      var ws := rep[d.ui][d.lb];
      assert GroupOf(q, d.ui, d.lb, ws) && ws[0..] == ws;
      var ok, _ := TryNei(0, p, {}, ws);
      if !ok {
        if Supported(q, cand, p) { SupportedGroup(q, cand, p, ws, d.lb); }
        li := li - {p};
        local' := local' + {p};
      }
    }

    /** Runs delete rounds until no pair is turned off any more. */
    method DelLoop(queue: set<Pair>)
      requires Ready() && DelInv(q, G(), X(), rank, clock, queue) && Tested(rep, X())
      modifies this`li, this`cand, this`isChecked, this`deltaDel, this`rank, this`clock
      ensures Settled() && li <= old(li) && Within(cand, old(cand))
      ensures Deleted(q, G(), rep, old(X()), queue, X())
      ensures DelLogged(old(deltaDel), deltaDel, old(cand), cand)
    {
      hide DelInv, DelLogged, DelStep, Shaped, GroupsOf, Tested, DelRound, DelRounds, Deleted, DelWork;
      var work := queue;
      ghost var xs := [X()];
      DelLoggedNone(deltaDel, cand);
      DelRoundsNone(q, G(), rep, X(), queue);
      while work != {}
        invariant Ready() && DelInv(q, G(), X(), rank, clock, work) && Tested(rep, X())
        invariant li <= old(li) && Within(cand, old(cand))
        invariant xs != [] && xs[0] == old(X()) && xs[|xs| - 1] == X() && DelRounds(q, G(), rep, xs, queue) && DelWork(xs, queue, |xs| - 1) == work
        invariant DelLogged(old(deltaDel), deltaDel, old(cand), cand)
        decreases li, work
      {
        ghost var before, del0 := X(), deltaDel;
        QueueIsPairs(q, G(), before, rank, clock, work);
        var next := DelAndCheck(work);
        RoundIsStep(q, G(), rep, before, work, X(), next);
        DelStepKeeps(q, G(), before, rank, clock, work, X(), next);
        DelRoundTests(q, G(), rep, before, work, X(), next);
        DelRoundsMore(q, G(), rep, xs, queue, X(), next);
        DelShrinks(q, G(), before, work, X(), next);
        DelLoggedOn(old(deltaDel), del0, deltaDel, old(cand), before.cand, cand);
        rank, clock := Stamp(rank, before.on, li, clock), clock + 1;
        work, xs := next, xs + [X()];
      }
      DelRoundsEnd(q, G(), rep, xs, queue);
    }

    /** Filters the initial graph. */
    method StaticFilter()
      requires Ready() && Built(q, G(), X()) && liActivated == {}
      modifies this`li, this`cand, this`isChecked, this`deltaDel, this`rank, this`clock
      ensures Valid() && G() == old(G())
      ensures FilteredFrom(q, G(), rep, old(X()), X())
      ensures forall f :: Embedding(q, G(), f) ==> Retained(q, X(), f)
    {
      hide Deleted;
      var delQueue: set<Pair> := {};
      for vi := 0 to |labels|
        invariant Ready() && cand == old(cand) && li <= old(li)
        invariant delQueue == old(li) - li
        invariant forall p :: p in old(li) ==> (p in li <==> p.v >= vi || Supported(q, cand, p))
      {
        delQueue := TurnOff(vi, delQueue);
      }
      ghost var swept := X();
      SweepEstablishes(q, G(), old(X()), swept, delQueue, rank);
      SweepTests(q, G(), rep, old(X()), swept, delQueue);
      rank, clock := Stamp(rank, old(li), li, 0), 1;
      DelLoop(delQueue);
      assert SweepStep(q, G(), old(X()), swept, delQueue) && Deleted(q, G(), rep, swept, delQueue, X());
      AllRetained();
    }

    lemma AllRetained()
      requires Settled()
      ensures forall f :: Embedding(q, G(), f) ==> Retained(q, X(), f)
    {
      forall f | Embedding(q, G(), f)
        ensures Retained(q, X(), f)
      {
        NoEmbeddingLost(q, G(), X(), rank, clock, {}, f);
      }
    }

    // ---- Edge insertions ----

    /** The directed edges that the pairs of a batch bring: pairs with a pruned end and pairs that
        are edges already are skipped. */
    method ReadBatch(batch: seq<Edge>) returns (es: set<Edge>)
      requires Ready() && forall i :: 0 <= i < |batch| ==> batch[i].a < |labels| && batch[i].b < |labels|
      ensures forall e :: e in es <==> InBatch(labels, batch, e) && e.b !in nei[e.a]
    {
      es := {};
      for i := 0 to |batch|
        invariant forall e :: e in es <==> InBatch(labels, batch[..i], e) && e.b !in nei[e.a]
      {
        var Edge(v1, v2) := batch[i];
        assert batch[..i + 1] == batch[..i] + [batch[i]];
        if labels[v1] == NoLabel || labels[v2] == NoLabel || v2 in nei[v1] { continue; }
        es := es + {Edge(v1, v2), Edge(v2, v1)};
      }
      assert batch[..|batch|] == batch;
    }

    /** `turnOnCond` for every new directed edge: the slots that the edge may fill. */
    method TurnOnCond(es: set<Edge>) returns (tmp: set<Entry>)
      requires Ready() && Symmetric(G(), es)
      ensures forall t :: t in tmp <==> NewEntry(q, G(), es, t.s, t.y)
    {
      tmp := {};
      var todo := es;
      ghost var done: set<Edge> := {};
      while todo != {}
        invariant todo + done == es
        invariant forall t :: t in tmp <==> NewEntry(q, G(), done, t.s, t.y)
        decreases todo
      {
        var e :| e in todo;
        todo := todo - {e};
        var Edge(v1, v2) := e;
        var found := set ui, uj | 0 <= ui < |q.labels| && uj in q.nei[ui] &&
                                  q.labels[ui] == labels[v1] && q.labels[uj] == labels[v2] :: Entry(Slot(v1, ui, uj), v2);
        forall t: Entry
          ensures t in tmp + found <==> NewEntry(q, G(), done + {e}, t.s, t.y)
        {
          assert t in found <==> NewEntry(q, G(), {e}, t.s, t.y);
        }
        tmp := tmp + found;
        done := done + {e};
      }
    }

    method InsertEdges(es: set<Edge>)
      requires Ready() && Symmetric(G(), es)
      modifies this`nei
      ensures G() == Grow(old(G()), es)
    {
      var todo := es;
      ghost var done: set<Edge> := {};
      GrowNone(G());
      while todo != {}
        invariant todo + done == es && |nei| == |old(nei)|
        invariant nei == Grow(old(G()), done).nei
        decreases todo
      {
        var e :| e in todo;
        todo := todo - {e};
        GrowOne(old(G()), done, e);
        nei := nei[e.a := nei[e.a] + {e.b}];
        done := done + {e};
      }
      assert done == es;
    }

    // ---- The add loop ----

    method InsertTasks(tmp: set<Entry>)
      requires forall t :: t in tmp ==> t.s in cand
      modifies this`cand
      ensures cand.Keys == old(cand).Keys
      ensures forall s, y :: s in cand ==> (y in cand[s] <==> y in old(cand)[s] || Entry(s, y) in tmp)
    {
      var todo := tmp;
      ghost var done: set<Entry> := {};
      while todo != {}
        invariant todo + done == tmp && cand.Keys == old(cand).Keys
        invariant forall s, y :: s in cand ==> (y in cand[s] <==> y in old(cand)[s] || Entry(s, y) in done)
        decreases todo
      {
        var t :| t in todo;
        todo, done := todo - {t}, done + {t};
        cand := cand[t.s := cand[t.s] + {t.y}];
      }
    }

    /** Checks off pairs whose candidate sets have grown; `isChecked` lets each be checked once. */
    method CheckGrown(check: set<Pair>) returns (activated: set<Pair>, rejected: set<Pair>)
      requires Ready() && check !! isChecked && check !! li
      requires forall p :: p in check ==> IsPair(q, G(), p) && p.u < |q.nei|
      modifies this`li, this`isChecked, this`liActivated
      ensures Ready() && li == old(li) + activated && activated !! old(li)
      ensures liActivated == old(liActivated) + activated
      ensures forall p :: p in activated <==> p in check && Supported(q, cand, p)
      ensures forall p :: p in rejected <==> p in check && !Supported(q, cand, p)
    {
      hide Supported, Shaped, IsPair, GroupsOf;
      activated, rejected := {}, {};
      var todo := check;
      while todo != {}
        invariant todo <= check && Ready() && li == old(li) + activated && todo !! isChecked
        invariant liActivated == old(liActivated) + activated
        invariant Sorted(q, cand, check - todo, activated, rejected)
        decreases todo
      {
        var p :| p in todo;
        SortedMore(q, cand, check - todo, p, activated, rejected);
        assert check - todo + {p} == check - (todo - {p});
        todo := todo - {p};
        if p in isChecked { continue; }
        isChecked := isChecked + {p};
        var ok := CheckNei(p);
        ShapedWith(q, G(), X(), p);
        if ok {
          li := li + {p};
          liActivated := liActivated + {p};
          activated := activated + {p};
        } else {
          rejected := rejected + {p};
        }
      }
    }

    /** Inserts the entries that new edges bring and checks the off pairs among their owners. */
    method TurnOnCheck(es: set<Edge>, tmp: set<Entry>, ghost g0: Graph) returns (localAdd: set<Pair>)
      requires q.Valid() && GroupsOf(q, rep) && g0.Valid() && Shaped(q, g0, X()) && Symmetric(g0, es)
      requires q.Loopless() && forall u :: 0 <= u < |q.labels| ==> q.labels[u] != NoLabel
      requires G() == Grow(g0, es)
      requires forall t :: t in tmp <==> NewEntry(q, g0, es, t.s, t.y)
      modifies this`li, this`cand, this`isChecked, this`liActivated
      ensures Ready()
      ensures TurnOnStep(q, g0, es, old(X()), X(), localAdd)
      ensures liActivated == old(liActivated) + (li - old(li))
    {
      ghost var before := X();
      InsertNew(es, tmp, g0);
      var owners := set t | t in tmp :: Here(t.s);
      OwnersAreTouched(q, g0, es, tmp, owners);
      localAdd := CheckOwners(owners);
      TurnOnStepIs(q, g0, es, before, X(), tmp, owners, localAdd);
    }

    method InsertNew(ghost es: set<Edge>, tmp: set<Entry>, ghost g0: Graph)
      requires q.Valid() && GroupsOf(q, rep) && g0.Valid() && Shaped(q, g0, X()) && Symmetric(g0, es)
      requires q.Loopless() && forall u :: 0 <= u < |q.labels| ==> q.labels[u] != NoLabel
      requires G() == Grow(g0, es)
      requires forall t :: t in tmp <==> NewEntry(q, g0, es, t.s, t.y)
      modifies this`cand
      ensures Ready() && cand.Keys == old(cand).Keys
      ensures forall s, y :: s in cand ==> (y in cand[s] <==> y in old(cand)[s] || Entry(s, y) in tmp)
    {
      InsertTasks(tmp);
      TurnOnInsertShape(q, g0, es, old(X()), cand);
    }

    /** Checks the off pairs among `owners`; all of them that are on then are handed on. */
    method CheckOwners(owners: set<Pair>) returns (localAdd: set<Pair>)
      requires Ready() && forall p :: p in owners ==> IsPair(q, G(), p) && p.u < |q.nei|
      modifies this`li, this`isChecked, this`liActivated
      ensures Ready() && old(li) <= li && localAdd == owners * li
      ensures liActivated == old(liActivated) + (li - old(li))
      ensures forall p :: p in li && p !in old(li) ==> p in owners && Supported(q, cand, p)
      ensures forall p :: p in owners && p !in li ==> !Supported(q, cand, p)
    {
      localAdd := owners * li;
      var check := owners - li;
      isChecked := isChecked - check;
      var activated, _ := CheckGrown(check);
      localAdd := localAdd + activated;
    }

    /** The insertions and the checks that a queue of on pairs asks for.  Large queues leave out
        the insertions that would change nothing. */
    method GatherAdds(queue: set<Pair>) returns (tmp: set<Entry>, check: set<Pair>)
      requires Ready() && queue <= li
      modifies this`isChecked
      ensures Gathered(q, G(), X(), queue, tmp, check) && check !! isChecked
    {
      hide Shaped, GroupsOf;
      tmp, check := {}, {};
      var todo := queue;
      ghost var done: set<Pair> := {};
      while todo != {}
        invariant todo + done == queue && Gathered(q, G(), X(), done, tmp, check) && check !! isChecked
        decreases todo
      {
        var p :| p in todo;
        todo := todo - {p};
        var tmp1, check1 := GatherOne(p, |queue| >= 100000);
        isChecked := isChecked - check1;
        GatherMore(q, G(), X(), done, p, tmp, check, tmp1, check1);
        tmp, check := tmp + tmp1, check + check1;
        done := done + {p};
      }
    }

    method GatherOne(p: Pair, large: bool) returns (tmp: set<Entry>, check: set<Pair>)
      requires Ready() && p in li
      ensures Gathered(q, G(), X(), {p}, tmp, check)
    {
      forall uj | uj in q.nei[p.u]
        ensures Slot(p.v, p.u, uj) in cand
      {
        assert IsSlot(q, G(), Slot(p.v, p.u, uj));
      }
      forall uj, vj | uj in q.nei[p.u] && vj in cand[Slot(p.v, p.u, uj)]
        ensures Slot(vj, uj, p.u) in cand && IsPair(q, G(), Pair(vj, uj))
      {
        assert vj in Potential(q, G(), Slot(p.v, p.u, uj));
        assert IsSlot(q, G(), Slot(vj, uj, p.u));
      }
      tmp := set uj, vj | uj in q.nei[p.u] && vj in cand[Slot(p.v, p.u, uj)] &&
                          (large ==> p.v !in cand[Slot(vj, uj, p.u)]) :: Entry(Slot(vj, uj, p.u), p.v);
      check := set uj, vj | uj in q.nei[p.u] && vj in cand[Slot(p.v, p.u, uj)] && Pair(vj, uj) !in li :: Pair(vj, uj);
      forall s, y | s in cand && Handed(X(), {p}, s, y)
        ensures y in cand[s] || Entry(s, y) in tmp
      {
        assert IsSlot(q, G(), s);
        assert Back(s, y) == Slot(p.v, p.u, s.u);
        assert s == Slot(s.v, s.u, p.u);
      }
      forall r | Rechecked(X(), {p}, r)
        ensures r in check
      {
        var s :| s in cand && Here(s) == p && r.v in cand[s] && s.w == r.u;
        assert IsSlot(q, G(), s);
        assert s == Slot(p.v, p.u, r.u) && r == Pair(r.v, r.u);
      }
      forall r | r in check
        ensures Rechecked(X(), {p}, r)
      {
        assert Here(Slot(p.v, p.u, r.u)) == p;
      }
    }

    /** One add round: `queue` holds on pairs whose slots have to be handed around. */
    method AddAndCheck(queue: set<Pair>, failed: set<Pair>) returns (local: set<Pair>, failed': set<Pair>)
      requires Ready() && queue <= li
      modifies this`li, this`cand, this`isChecked, this`deltaIns, this`liActivated
      ensures Ready()
      ensures AddRound(q, G(), old(X()), queue, failed, X(), local, failed')
      ensures AddLog(old(deltaIns), deltaIns, old(liActivated), liActivated, old(cand), cand, old(li), li)
    {
      ghost var before := X();
      var tmp, check := GatherAdds(queue);
      InsertGathered(queue, tmp, check);
      var rejected: set<Pair>;
      local, rejected := CheckGrown(check);
      failed' := failed + rejected;
      AddStepIs(q, G(), before, queue, failed, X(), tmp, check, local, rejected);
      AddGrows(q, G(), before, queue, failed, X(), local, failed');
    }

    method InsertGathered(ghost queue: set<Pair>, tmp: set<Entry>, ghost check: set<Pair>)
      requires Ready() && Gathered(q, G(), X(), queue, tmp, check)
      modifies this`cand, this`deltaIns
      ensures Ready() && cand.Keys == old(cand).Keys
      ensures forall s, y :: s in cand ==> (y in cand[s] <==> y in old(cand)[s] || Entry(s, y) in tmp)
      ensures InsLogged(old(deltaIns), deltaIns, old(cand), cand)
    {
      InsertLogged(tmp);
      AddInsertShape(q, G(), old(X()), queue, cand);
    }

    /** Inserts the entries and logs those that were not there. */
    method InsertLogged(tmp: set<Entry>)
      requires forall t :: t in tmp ==> t.s in cand
      modifies this`cand, this`deltaIns
      ensures Within(old(cand), cand) && InsLogged(old(deltaIns), deltaIns, old(cand), cand)
      ensures forall s, y :: s in cand ==> (y in cand[s] <==> y in old(cand)[s] || Entry(s, y) in tmp)
    {
      var todo := tmp;
      ghost var done: set<Entry> := {};
      while todo != {}
        invariant todo + done == tmp && Within(old(cand), cand)
        invariant forall s, y :: s in cand ==> (y in cand[s] <==> y in old(cand)[s] || Entry(s, y) in done)
        invariant InsLogged(old(deltaIns), deltaIns, old(cand), cand)
        decreases todo
      {
        var t :| t in todo;
        ghost var ins0, cand0 := deltaIns, cand;
        todo, done := todo - {t}, done + {t};
        if t.y !in cand[t.s] { deltaIns := deltaIns + {t}; }
        cand := cand[t.s := cand[t.s] + {t.y}];
        InsLoggedOne(old(deltaIns), ins0, deltaIns, old(cand), cand0, cand, t);
      }
      assert done == tmp;
    }

    /** Runs add rounds until no pair is turned on any more; `failed` are the pairs that have failed a check. */
    method AddLoop(queue: set<Pair>) returns (failed: set<Pair>)
      requires Ready() && AddInv(q, G(), X(), rank, clock, queue, {}) && Tested(rep, X())
      modifies this`li, this`cand, this`isChecked, this`deltaIns, this`liActivated
      ensures Ready() && AddInv(q, G(), X(), rank, clock, {}, failed) && Tested(rep, X())
      ensures Added(q, G(), old(X()), queue, X(), failed)
      ensures AddLog(old(deltaIns), deltaIns, old(liActivated), liActivated, old(cand), cand, old(li), li)
    {
      hide AddInv, AddLog, AddStep, Shaped, GroupsOf, Tested, AddRound, AddRounds, Added, AddWork;
      failed := {};
      var work := queue;
      ghost var xs, faileds := [X()], [failed];
      AddLogNone(deltaIns, liActivated, cand, li);
      AddRoundsNone(q, G(), X(), queue);
      ghost var all := set v, u | 0 <= v < |labels| && 0 <= u < |q.labels| :: Pair(v, u);
      while work != {}
        invariant Ready() && AddInv(q, G(), X(), rank, clock, work, failed) && Tested(rep, X())
        invariant xs != [] && xs[0] == old(X()) && xs[|xs| - 1] == X() && AddRounds(q, G(), xs, queue, faileds)
        invariant |faileds| == |xs| && faileds[|xs| - 1] == failed && AddWork(xs, queue, |xs| - 1) == work
        invariant AddLog(old(deltaIns), deltaIns, old(liActivated), liActivated, old(cand), cand, old(li), li)
        decreases all - li, work
      {
        ghost var before, failed0, ins0, act0 := X(), failed, deltaIns, liActivated;
        QueueIsOn(q, G(), before, rank, clock, work, failed0);
        var next;
        next, failed := AddAndCheck(work, failed);
        AddRoundIsStep(q, G(), before, work, failed0, X(), next, failed);
        AddStepKeeps(q, G(), before, rank, clock, work, failed0, X(), next, failed);
        AddRoundTests(q, G(), rep, before, work, failed0, X(), next, failed);
        AddRoundsMore(q, G(), xs, queue, faileds, X(), next, failed);
        AddLogOn(old(deltaIns), ins0, deltaIns, old(liActivated), act0, liActivated, old(cand), before.cand, cand, old(li), before.on, li);
        OnPairs(q, G(), X(), all);
        work, xs, faileds := next, xs + [X()], faileds + [failed];
      }
      AddRoundsEnd(q, G(), xs, queue, faileds);
    }

    /** Inserts a batch of edges and brings the filter up to date; logs what it does to the candidate sets. */
    method UpdateIndex(batch: seq<Edge>) returns (ghost es: set<Edge>)
      requires Valid() && forall i :: 0 <= i < |batch| ==> batch[i].a < |labels| && batch[i].b < |labels|
      modifies this
      ensures Valid() && Symmetric(old(G()), es) && G() == Grow(old(G()), es)
      ensures forall e :: e in es <==> InBatch(labels, batch, e) && e.b !in old(nei)[e.a]
      ensures forall f :: Embedding(q, G(), f) ==> Retained(q, X(), f)
      ensures DeltasFor(q, old(G()), es, old(X()), X(), deltaIns, deltaDel) && deltaUpdate == []
      ensures UpdatedFrom(q, old(G()), G(), rep, es, old(X()), X())
    {
      hide Tested, Added, Deleted, UpdatedFrom, DelInv, AddInv, GroupsOf, Shaped, TurnOnStep, DeltasFor, Recorded, InBatch, Within, DelLogged, InsLogged, Retained, Embedding, Grow, Symmetric;
      deltaIns, deltaDel, deltaUpdate := {}, {}, [];
      ghost var g0, before := G(), X();
      var added := InsertBatch(batch);
      es := added.0;
      ghost var grown, queue, activated := X(), added.1, liActivated;
      var failed := AddLoop(added.1);
      ghost var inserted, insertions := X(), deltaIns;
      AddToDel(q, G(), X(), rank, clock, failed);
      var delQueue := set p | p in failed && p !in li;
      assert delQueue == failed - li;
      DelLoop(delQueue);
      UpdatedIs(q, g0, G(), rep, es, before, grown, queue, inserted, failed, X());
      RecordActivated();
      DeltasMade(q, g0, G(), es, before, grown, inserted, X(), queue, activated, liActivated, insertions, deltaIns, deltaDel);
      liActivated := {};
      AllRetained();
    }

    /** Inserts the edges of a batch into the graph and the entries over them into the candidate sets. */
    method InsertBatch(batch: seq<Edge>) returns (r: (set<Edge>, set<Pair>))
      requires Valid() && forall i :: 0 <= i < |batch| ==> batch[i].a < |labels| && batch[i].b < |labels|
      modifies this`nei, this`li, this`cand, this`isChecked, this`liActivated
      ensures Ready() && Symmetric(old(G()), r.0) && G() == Grow(old(G()), r.0)
      ensures forall e :: e in r.0 <==> InBatch(labels, batch, e) && e.b !in old(nei)[e.a]
      ensures TurnOnStep(q, old(G()), r.0, old(X()), X(), r.1) && liActivated == li - old(li)
      ensures AddInv(q, G(), X(), rank, clock, r.1, {}) && Tested(rep, X())
    {
      hide Tested;
      ghost var g0, before := G(), X();
      var es := ReadBatch(batch);
      assert Symmetric(g0, es);
      var tmp := TurnOnCond(es);
      InsertEdges(es);
      GrowIsValid(g0, es);
      var addQueue := TurnOnCheck(es, tmp, g0);
      TurnOnKeeps(q, g0, es, before, rank, clock, X(), addQueue);
      TurnOnTests(q, g0, rep, es, before, X(), addQueue);
      r := (es, addQueue);
    }

    /** Logs the whole candidate sets of the pairs that the batch has turned on and that are still on. */
    method RecordActivated()
      modifies this`deltaIns
      ensures Recorded(X(), liActivated, old(deltaIns), deltaIns)
    {
      deltaIns := deltaIns + set s, y | s in cand && Here(s) in liActivated && Here(s) in li && y in cand[s] :: Entry(s, y);
    }

    /** The entries of the index that run over batch edges, in both directions.  They are staged as
        updates and taken out of the main lists alike. */
    method ConstructUpdate(batch: seq<Edge>)
      requires Valid() && deltaUpdate == []
      modifies this`deltaUpdate, this`deltaDel
      ensures Valid()
      ensures forall t: Entry :: t in deltaUpdate <==> LiveEntry(X(), t.s, t.y) && Among(batch, Edge(t.s.v, t.y))
      ensures forall t: Entry :: t in deltaDel <==> t in old(deltaDel) || t in deltaUpdate
      ensures Unrepeated(batch) ==> Distinct(deltaUpdate)
    {
      hide DelInv, GroupsOf, Shaped;
      for i := 0 to |batch|
        invariant Valid() && Staging(X(), batch[..i], old(deltaDel), deltaDel, deltaUpdate)
      {
        assert batch[..i + 1] == batch[..i] + [batch[i]];
        ghost var del0, update0 := deltaDel, deltaUpdate;
        var found := PairEntries(batch[i]);
        deltaUpdate, deltaDel := deltaUpdate + found, deltaDel + set t | t in found;
        StagingMore(X(), batch[..i], batch[i], old(deltaDel), del0, deltaDel, update0, found);
      }
      assert batch[..|batch|] == batch;
    }

    /** The entries over one batch edge, looked up from its first end. */
    method PairEntries(e: Edge) returns (found: seq<Entry>)
      requires Valid()
      ensures forall t: Entry :: t in found <==> LiveEntry(X(), t.s, t.y) && Among([e], Edge(t.s.v, t.y))
      ensures e.a != e.b ==> Distinct(found)
    {
      hide DelInv, Shaped, GroupsOf, Distinct, Among;
      var Edge(v1, v2) := e;
      var there := set s | s in cand && s.v == v1 && Here(s) in li && v2 in cand[s];
      found := [];
      ListedNone(e);
      assert there - there == {};
      var todo := there;
      while todo != {}
        invariant todo <= there && Listed(found, there - todo, e)
        decreases todo
      {
        var s :| s in todo;
        ghost var done := there - todo;
        todo := todo - {s};
        ListedMore(found, done, e, s);
        found := found + [Entry(s, v2), Entry(Back(s, v2), v1)];
        assert there - todo == done + {s};
      }
      assert there - todo == there;
      forall t: Entry
        ensures t in found <==> LiveEntry(X(), t.s, t.y) && Among([e], Edge(t.s.v, t.y))
      {
        PairEntry(q, G(), X(), rank, clock, e, there, found, t);
      }
    }

    /** Hands the logs of the batch over to the second stage and empties them. */
    method MergeDeltas() returns (ins: set<Entry>, del: set<Entry>, update: seq<Entry>)
      requires Valid()
      modifies this`deltaIns, this`deltaDel, this`deltaUpdate
      ensures Valid() && ins == old(deltaIns) && del == old(deltaDel) && update == old(deltaUpdate)
      ensures deltaIns == {} == deltaDel && deltaUpdate == []
    {
      ins, del, update := deltaIns, deltaDel, deltaUpdate;
      deltaIns, deltaDel, deltaUpdate := {}, {}, [];
    }
  }

  /** No pair of the batch occurs twice, in either direction, and none is a loop. */
  ghost predicate Unrepeated(batch: seq<Edge>) {
    && (forall i :: 0 <= i < |batch| ==> batch[i].a != batch[i].b)
    && (forall i, j :: 0 <= i < j < |batch| ==> batch[i] != batch[j] && batch[i] != Edge(batch[j].b, batch[j].a))
  }

  /** What is staged of a batch. */
  ghost predicate Staging(x: Index, batch: seq<Edge>, del0: set<Entry>, del: set<Entry>, update: seq<Entry>) {
    && (forall t: Entry :: t in update <==> LiveEntry(x, t.s, t.y) && Among(batch, Edge(t.s.v, t.y)))
    && (forall t: Entry :: t in del <==> t in del0 || t in update)
    && (Unrepeated(batch) ==> Distinct(update))
  }

  lemma StagingMore(x: Index, batch: seq<Edge>, e: Edge, del0: set<Entry>, del1: set<Entry>, del2: set<Entry>, update: seq<Entry>, found: seq<Entry>)
    requires Staging(x, batch, del0, del1, update) && del2 == del1 + set t | t in found
    requires forall t: Entry :: t in found <==> LiveEntry(x, t.s, t.y) && Among([e], Edge(t.s.v, t.y))
    requires e.a != e.b ==> Distinct(found)
    ensures Staging(x, batch + [e], del0, del2, update + found)
  {
    if Unrepeated(batch + [e]) {
      UnrepeatedLast(batch, e);
      forall i, j | 0 <= i < |update| && 0 <= j < |found|
        ensures update[i] != found[j]
      {
        assert update[i] in update && found[j] in found;
        NotOver(batch, e, update[i], found[j]);
      }
    }
  }

  lemma UnrepeatedLast(batch: seq<Edge>, e: Edge)
    requires Unrepeated(batch + [e])
    ensures Unrepeated(batch) && e.a != e.b && e !in batch && Edge(e.b, e.a) !in batch
  {
    var all := batch + [e];
    assert all[|batch|] == e && forall i :: 0 <= i < |batch| ==> all[i] == batch[i];
  }

  /** Entries over different pairs are different. */
  lemma NotOver(batch: seq<Edge>, e: Edge, t: Entry, r: Entry)
    requires e !in batch && Edge(e.b, e.a) !in batch
    requires Among(batch, Edge(t.s.v, t.y)) && Among([e], Edge(r.s.v, r.y))
    ensures t != r
  {
    assert Edge(r.s.v, r.y) == e || Edge(r.y, r.s.v) == e;
  }

  /** The entries of the slots `done` at the first end of `e`, and their reverses. */
  ghost predicate Listed(found: seq<Entry>, done: set<Slot>, e: Edge) {
    && (forall t: Entry :: t in found <==> InPair(done, e, t))
    && (forall s :: s in done ==> s.v == e.a)
    && (e.a != e.b ==> Distinct(found))
  }

  ghost predicate InPair(done: set<Slot>, e: Edge, t: Entry) {
    (t.s in done && t.y == e.b) || (t.y == e.a && t.s.v == e.b && Slot(e.a, t.s.w, t.s.u) in done)
  }

  lemma ListedNone(e: Edge)
    ensures Listed([], {}, e)
  {
  }

  lemma ListedMore(found: seq<Entry>, done: set<Slot>, e: Edge, s: Slot)
    requires Listed(found, done, e) && s !in done && s.v == e.a
    ensures Listed(found + [Entry(s, e.b), Entry(Back(s, e.b), e.a)], done + {s}, e)
  {
    var a, b := Entry(s, e.b), Entry(Back(s, e.b), e.a);
    var all := found + [a, b];
    forall t: Entry
      ensures t in all <==> InPair(done + {s}, e, t)
    {
      assert t in all <==> t in found || t == a || t == b;
      assert Back(s, e.b) == Slot(e.b, s.w, s.u);
    }
    if e.a != e.b {
      assert !InPair(done, e, a) && !InPair(done, e, b) && a != b;
    }
  }

  /** The slots found at the first end of an edge and their reverses are all live entries over it. */
  lemma PairEntry(q: Graph, g: Graph, x: Index, rank: Pair -> nat, clock: nat, e: Edge, there: set<Slot>, found: seq<Entry>, t: Entry)
    requires DelInv(q, g, x, rank, clock, {}) && Listed(found, there, e)
    requires forall s :: s in there <==> LiveEntry(x, s, e.b) && s.v == e.a
    ensures t in found <==> LiveEntry(x, t.s, t.y) && Among([e], Edge(t.s.v, t.y))
  {
    if t in found && !(t.s in there && t.y == e.b) {
      var s := Slot(e.a, t.s.w, t.s.u);
      EntriesReverse(q, g, x, rank, clock, s, e.b);
      assert Back(s, e.b) == t.s;
    }
    if LiveEntry(x, t.s, t.y) && t.s.v == e.b && t.y == e.a {
      EntriesReverse(q, g, x, rank, clock, t.s, t.y);
      assert Back(t.s, t.y) == Slot(e.a, t.s.w, t.s.u);
    }
  }

  /** One of the checks of the pair has succeeded. */
  ghost predicate Passed(cand: map<Slot, set<nat>>, rep: Groups, checkDel: set<Del>, p: Pair) {
    exists lb :: Del(p.u, p.v, lb) in checkDel && p.u < |rep| && lb in rep[p.u] && Representable(cand, p, rep[p.u][lb], {})
  }

  /** One of the checks of the pair has failed. */
  ghost predicate NotPassed(cand: map<Slot, set<nat>>, rep: Groups, checkDel: set<Del>, p: Pair) {
    exists lb :: Del(p.u, p.v, lb) in checkDel && p.u < |rep| && lb in rep[p.u] && !Representable(cand, p, rep[p.u][lb], {})
  }

  lemma TurnOnInsertShape(q: Graph, g: Graph, es: set<Edge>, x: Index, cand: map<Slot, set<nat>>)
    requires q.Valid() && g.Valid() && Shaped(q, g, x) && Symmetric(g, es)
    requires cand.Keys == x.cand.Keys
    requires forall s, y :: s in x.cand ==> (y in cand[s] <==> y in x.cand[s] || NewEntry(q, g, es, s, y))
    ensures Grow(g, es).Valid() && Shaped(q, Grow(g, es), Index(x.on, cand))
  {
    var g' := Grow(g, es);
    GrowIsValid(g, es);
    forall s, y | s in cand && y in cand[s]
      ensures y in Potential(q, g', s)
    {
      assert IsSlot(q, g, s);
      if y in x.cand[s] { assert y in Potential(q, g, s); }
    }
  }

  lemma OwnersAreTouched(q: Graph, g: Graph, es: set<Edge>, tmp: set<Entry>, owners: set<Pair>)
    requires q.Valid()
    requires forall t :: t in tmp <==> NewEntry(q, g, es, t.s, t.y)
    requires owners == set t | t in tmp :: Here(t.s)
    ensures forall p :: p in owners <==> IsPair(q, g, p) && Touched(q, g, es, p)
  {
    forall p | p in owners
      ensures IsPair(q, g, p) && Touched(q, g, es, p)
    {
      var t :| t in tmp && Here(t.s) == p;
      assert NewEntry(q, g, es, t.s, t.y);
    }
    forall p | Touched(q, g, es, p)
      ensures p in owners
    {
      var s, y :| NewEntry(q, g, es, s, y) && Here(s) == p;
      assert Entry(s, y) in tmp && Here(Entry(s, y).s) == p;
    }
  }

  lemma AddInsertShape(q: Graph, g: Graph, x: Index, queue: set<Pair>, cand: map<Slot, set<nat>>)
    requires q.Valid() && g.Valid() && Shaped(q, g, x)
    requires cand.Keys == x.cand.Keys
    requires forall s, y :: s in x.cand ==> (y in cand[s] <==> y in x.cand[s] || Handed(x, queue, s, y))
    ensures Shaped(q, g, Index(x.on, cand))
  {
    forall s, y | s in cand && y in cand[s]
      ensures y in Potential(q, g, s)
    {
      assert IsSlot(q, g, s);
      if y !in x.cand[s] {
        var b := Back(s, y);
        assert IsSlot(q, g, b);
        assert s.v in Potential(q, g, b);
      }
    }
  }

  lemma TurnOnStepIs(q: Graph, g: Graph, es: set<Edge>, x: Index, x': Index, tmp: set<Entry>, owners: set<Pair>, localAdd: set<Pair>)
    requires q.Valid() && forall t :: t in tmp <==> NewEntry(q, g, es, t.s, t.y)
    requires forall p :: p in owners <==> IsPair(q, g, p) && Touched(q, g, es, p)
    requires forall p :: p in owners ==> p.u < |q.nei|
    requires x'.cand.Keys == x.cand.Keys && x.on <= x'.on && localAdd == owners * x'.on
    requires forall s, y :: s in x.cand ==> (y in x'.cand[s] <==> y in x.cand[s] || Entry(s, y) in tmp)
    requires forall p :: p in x'.on && p !in x.on ==> p in owners && Supported(q, x'.cand, p)
    requires forall p :: p in owners && p !in x'.on ==> !Supported(q, x'.cand, p)
    ensures TurnOnStep(q, g, es, x, x', localAdd)
  {
    forall s, y | s in x.cand
      ensures y in x'.cand[s] <==> y in x.cand[s] || NewEntry(q, g, es, s, y)
    {
      assert Entry(s, y) in tmp <==> NewEntry(q, g, es, s, y);
    }
  }

  lemma DelStepIs(q: Graph, g: Graph, x: Index, queue: set<Pair>, x': Index, tmp: set<Tmp>, local: set<Pair>)
    requires q.Valid() && x'.cand.Keys == x.cand.Keys && x'.on <= x.on && local == x.on - x'.on
    requires forall s, y :: s in x.cand ==> (TaskOf(s, y) in tmp <==> Erased(x, queue, s, y))
    requires forall s, y :: s in x.cand ==> (y in x'.cand[s] <==> y in x.cand[s] && TaskOf(s, y) !in tmp)
    requires forall p :: p in local && IsPair(q, g, p) ==> !Supported(q, x'.cand, p)
    requires forall s :: s in x.cand && Here(s) in x'.on && x.cand[s] != {} ==> x'.cand[s] != {}
    ensures DelStep(q, g, x, queue, x', local)
  {
  }

  lemma AddStepIs(q: Graph, g: Graph, x: Index, queue: set<Pair>, failed: set<Pair>, x': Index, tmp: set<Entry>, check: set<Pair>,
                  activated: set<Pair>, rejected: set<Pair>)
    requires q.Valid() && Gathered(q, g, x, queue, tmp, check)
    requires x'.cand.Keys == x.cand.Keys && x'.on == x.on + activated && activated !! x.on
    requires forall s, y :: s in x.cand ==> (y in x'.cand[s] <==> y in x.cand[s] || Entry(s, y) in tmp)
    requires forall p :: p in check ==> p.u < |q.nei|
    requires forall p :: p in activated <==> p in check && Supported(q, x'.cand, p)
    requires forall p :: p in rejected <==> p in check && !Supported(q, x'.cand, p)
    ensures AddRound(q, g, x, queue, failed, x', activated, failed + rejected)
  {
    forall s, y | s in x.cand
      ensures y in x'.cand[s] <==> y in x.cand[s] || Handed(x, queue, s, y)
    {
      assert Entry(s, y) in tmp ==> Handed(x, queue, s, y);
    }
  }

  /** The pairs checked so far, by outcome. */
  ghost predicate Sorted(q: Graph, cand: map<Slot, set<nat>>, done: set<Pair>, activated: set<Pair>, rejected: set<Pair>)
    requires forall p :: p in done ==> p.u < |q.nei|
  {
    && (forall p :: p in activated <==> p in done && Supported(q, cand, p))
    && (forall p :: p in rejected <==> p in done && !Supported(q, cand, p))
  }

  lemma SortedMore(q: Graph, cand: map<Slot, set<nat>>, done: set<Pair>, p: Pair, activated: set<Pair>, rejected: set<Pair>)
    requires (forall r :: r in done ==> r.u < |q.nei|) && p.u < |q.nei| && Sorted(q, cand, done, activated, rejected)
    ensures Supported(q, cand, p) ==> Sorted(q, cand, done + {p}, activated + {p}, rejected)
    ensures !Supported(q, cand, p) ==> Sorted(q, cand, done + {p}, activated, rejected + {p})
  {
    hide Supported;
    if p in done {
      assert Supported(q, cand, p) ==> activated + {p} == activated;
      assert !Supported(q, cand, p) ==> rejected + {p} == rejected;
    }
  }

  lemma ShapedWith(q: Graph, g: Graph, x: Index, p: Pair)
    requires q.Valid() && g.Valid() && Shaped(q, g, x) && IsPair(q, g, p)
    ensures Shaped(q, g, Index(x.on + {p}, x.cand))
  {
  }

  /** The insertions and the checks that the on pairs of `queue` ask for. */
  ghost predicate Gathered(q: Graph, g: Graph, x: Index, queue: set<Pair>, tmp: set<Entry>, check: set<Pair>) {
    && (forall s, y :: Entry(s, y) in tmp ==> s in x.cand && Handed(x, queue, s, y))
    && (forall s, y :: s in x.cand && Handed(x, queue, s, y) ==> y in x.cand[s] || Entry(s, y) in tmp)
    && (forall p :: p in check <==> Rechecked(x, queue, p))
    && (forall p :: p in check ==> IsPair(q, g, p))
  }

  lemma GatherMore(q: Graph, g: Graph, x: Index, done: set<Pair>, p: Pair, tmp: set<Entry>, check: set<Pair>, tmp1: set<Entry>, check1: set<Pair>)
    requires Gathered(q, g, x, done, tmp, check) && Gathered(q, g, x, {p}, tmp1, check1)
    ensures Gathered(q, g, x, done + {p}, tmp + tmp1, check + check1)
  {
    RecheckedSplit(x, done, p, check, check1);
  }

  lemma RecheckedSplit(x: Index, done: set<Pair>, p: Pair, check: set<Pair>, check1: set<Pair>)
    requires forall r :: r in check <==> Rechecked(x, done, r)
    requires forall r :: r in check1 <==> Rechecked(x, {p}, r)
    ensures forall r :: r in check + check1 <==> Rechecked(x, done + {p}, r)
  {
    forall r | Rechecked(x, done + {p}, r)
      ensures r in check + check1
    {
      var s :| s in x.cand && Here(s) in done + {p} && r.v in x.cand[s] && s.w == r.u;
      assert Rechecked(x, done, r) || Rechecked(x, {p}, r);
    }
  }

  predicate InBatch(labels: seq<int>, batch: seq<Edge>, e: Edge) {
    && (e in batch || Edge(e.b, e.a) in batch)
    && e.a < |labels| && e.b < |labels| && labels[e.a] != NoLabel && labels[e.b] != NoLabel
  }

  lemma GrowNone(g: Graph)
    requires |g.labels| == |g.nei|
    ensures Grow(g, {}).nei == g.nei
  {
    var none: set<Edge> := {};
    forall v | 0 <= v < |g.nei|
      ensures Grow(g, none).nei[v] == g.nei[v]
    {
      assert (set d | d in none && d.a == v :: d.b) == {};
    }
  }

  lemma GrowOne(g: Graph, es: set<Edge>, e: Edge)
    requires |g.labels| == |g.nei| && e.a < |g.nei|
    ensures Grow(g, es + {e}).nei == Grow(g, es).nei[e.a := Grow(g, es).nei[e.a] + {e.b}]
  {
    var g0, g1 := Grow(g, es), Grow(g, es + {e});
    forall v | 0 <= v < |g.nei|
      ensures g1.nei[v] == if v == e.a then g0.nei[v] + {e.b} else g0.nei[v]
    {
      var s0, s1 := set d | d in es && d.a == v :: d.b, set d | d in es + {e} && d.a == v :: d.b;
      assert s1 == if v == e.a then s0 + {e.b} else s0;
    }
  }
}
