/** Incremental counting: summed over the query edges, the searches that read update lists for one
    edge, both stages below it and main lists above it find every new match exactly once. */
module ExactlyOnce {
  import opened Sequences
  import opened MatchSearch
  import opened QueryPlan

  /** One starting row per data vertex. */
  function Seeds(dv: nat): (rows: seq<Row>)
    ensures forall r :: r in rows ==> |r| == 1
  {
    seq(dv, (v: nat) => [v])
  }

  /** All full matches of a search over `dv` data vertices. */
  function MatchesOf(p: Problem, dv: nat): seq<Row>
    requires p.Valid()
  {
    Pass(p, p.n, Seeds(dv))
  }

  /** Rows of equal length that are all different have no common completion. */
  lemma {:induction false} PassContents(p: Problem, e: nat, rows: seq<Row>, len: nat)
    requires p.Valid() && 1 <= len <= e <= p.n && forall r :: r in rows ==> |r| == len
    ensures forall f :: f in Pass(p, e, rows) <==> |f| == e && f[..len] in rows && Extends(p, f[..len], f)
    ensures ListsDistinct(p) && Distinct(rows) ==> Distinct(Pass(p, e, rows))
  {
    if rows != [] {
      PassContents(p, e, rows[1..], len);
      forall f
        ensures f in Complete(p, e, rows[0]) <==> |f| == e && f[..len] == rows[0] && Extends(p, f[..len], f)
      {
        CompleteContents(p, e, rows[0], f);
      }
      if ListsDistinct(p) && Distinct(rows) {
        CompleteNoDup(p, e, rows[0]);
        var a, b := Complete(p, e, rows[0]), Pass(p, e, rows[1..]);
        forall i, j | 0 <= i < |a| && 0 <= j < |b|
          ensures a[i] != b[j]
        {
          assert a[i] in a && b[j] in b;
          assert rows[0] !in rows[1..];
        }
      }
    }
  }

  /** The image of edge `(d, k)` is in the list read for it. */
  ghost predicate InList(p: Problem, f: Row, d: nat, k: nat)
    requires p.Valid() && |f| == p.n && IsEdge(p.bni, d, k)
  {
    f[d] in p.lists(p.bni[d][k], d, f[p.bni[d][k]])
  }

  /** An injective assignment of data vertices to the positions. */
  ghost predicate Assignment(n: nat, dv: nat, f: Row)
    requires n >= 2
  {
    |f| == n && f[0] < dv && Distinct(f)
  }

  lemma StepMeaning(p: Problem, f: Row, d: nat)
    requires p.Valid() && |f| == p.n && 1 <= d < p.n
    requires forall e, v :: p.mask(e, v)
    ensures Step(p, f, d) <==> f[d] !in f[..d] && forall k :: IsEdge(p.bni, d, k) ==> InList(p, f, d, k)
  {
    var pre := f[..d];
    forall k: nat | IsEdge(p.bni, d, k)
      ensures InList(p, f, d, k) <==> f[d] in p.lists(p.bni[d][k], d, pre[p.bni[d][k]])
    {
    }
    if Step(p, f, d) {
      forall k: nat | IsEdge(p.bni, d, k)
        ensures InList(p, f, d, k)
      {
        if k > 0 { assert Joined(p, pre, f[d]); }
      }
    }
    if forall k :: IsEdge(p.bni, d, k) ==> InList(p, f, d, k) {
      assert IsEdge(p.bni, d, 0);
      forall k | 1 <= k < |p.bni[d]|
        ensures f[d] in p.lists(p.bni[d][k], d, pre[p.bni[d][k]])
      {
        assert IsEdge(p.bni, d, k);
      }
    }
  }

  lemma DistinctByPrefix(f: Row)
    ensures Distinct(f) <==> forall d :: 1 <= d < |f| ==> f[d] !in f[..d]
  {
    if forall d :: 1 <= d < |f| ==> f[d] !in f[..d] {
      forall i, j | 0 <= i < j < |f|
        ensures f[i] != f[j]
      {
        assert f[..j][i] == f[i];
      }
    }
  }

  /** The search finds exactly the injective assignments that map every query edge into its list. */
  lemma MatchesAre(p: Problem, dv: nat, f: Row)
    requires p.Valid() && forall e, v :: p.mask(e, v)
    ensures f in MatchesOf(p, dv) <==>
      Assignment(p.n, dv, f) && forall d, k :: IsEdge(p.bni, d, k) ==> InList(p, f, d, k)
  {
    PassContents(p, p.n, Seeds(dv), 1);
    if |f| == p.n {
      assert f[..1] == [f[0]];
      if f[0] < dv { assert Seeds(dv)[f[0]] == [f[0]]; }
      DistinctByPrefix(f);
      forall d | 1 <= d < p.n
        ensures Step(p, f, d) <==> f[d] !in f[..d] && forall k :: IsEdge(p.bni, d, k) ==> InList(p, f, d, k)
      {
        StepMeaning(p, f, d);
      }
    }
  }

  // ---- The stages ----

  /** The search over the lists of both stages, and the one over the main lists alone. */
  function NewGraph(plan: Plan, main: Lists, upd: Lists): Problem {
    Problem(plan.n, plan.bni, (j, d, v) => main(plan.Dir(j, d), v) + upd(plan.Dir(j, d), v), AllTrue())
  }

  function OldGraph(plan: Plan, main: Lists): Problem {
    Problem(plan.n, plan.bni, (j, d, v) => main(plan.Dir(j, d), v), AllTrue())
  }

  function EdgeSearch(plan: Plan, main: Lists, upd: Lists, ei: nat): Problem {
    SearchFor(plan, main, upd, ei, AllTrue())
  }

  /** The image of edge `(d, k)` under `f` is in the given lists. */
  ghost predicate Hit(plan: Plan, lists: Lists, f: Row, d: nat, k: nat)
    requires plan.Valid() && |f| == plan.n && IsEdge(plan.bni, d, k)
  {
    f[d] in lists(plan.Dir(plan.bni[d][k], d), f[plan.bni[d][k]])
  }

  lemma OldMatch(plan: Plan, main: Lists, dv: nat, f: Row)
    requires plan.Valid()
    ensures f in MatchesOf(OldGraph(plan, main), dv) <==>
      Assignment(plan.n, dv, f) && forall d, k :: IsEdge(plan.bni, d, k) ==> Hit(plan, main, f, d, k)
  {
    var p := OldGraph(plan, main);
    MatchesAre(p, dv, f);
    if Assignment(plan.n, dv, f) {
      assert forall d, k :: IsEdge(plan.bni, d, k) ==> (InList(p, f, d, k) <==> Hit(plan, main, f, d, k));
    }
  }

  lemma NewMatch(plan: Plan, main: Lists, upd: Lists, dv: nat, f: Row)
    requires plan.Valid()
    ensures f in MatchesOf(NewGraph(plan, main, upd), dv) <==>
      Assignment(plan.n, dv, f) &&
      forall d, k :: IsEdge(plan.bni, d, k) ==> Hit(plan, main, f, d, k) || Hit(plan, upd, f, d, k)
  {
    var p := NewGraph(plan, main, upd);
    MatchesAre(p, dv, f);
    if Assignment(plan.n, dv, f) {
      assert forall d, k :: IsEdge(plan.bni, d, k) ==>
        (InList(p, f, d, k) <==> Hit(plan, main, f, d, k) || Hit(plan, upd, f, d, k));
    }
  }

  /** Where search `ei` looks for edge `(d, k)`. */
  ghost predicate Staging(plan: Plan, main: Lists, upd: Lists, ei: nat, f: Row, d: nat, k: nat)
    requires plan.Valid() && |f| == plan.n && IsEdge(plan.bni, d, k)
  {
    if Number(plan, d, k) == ei then Hit(plan, upd, f, d, k)
    else if Number(plan, d, k) < ei then Hit(plan, main, f, d, k) || Hit(plan, upd, f, d, k)
    else Hit(plan, main, f, d, k)
  }

  lemma EdgeMatch(plan: Plan, main: Lists, upd: Lists, ei: nat, dv: nat, f: Row)
    requires plan.Valid()
    ensures f in MatchesOf(EdgeSearch(plan, main, upd, ei), dv) <==>
      Assignment(plan.n, dv, f) && forall d, k :: IsEdge(plan.bni, d, k) ==> Staging(plan, main, upd, ei, f, d, k)
  {
    var p := EdgeSearch(plan, main, upd, ei);
    MatchesAre(p, dv, f);
    if Assignment(plan.n, dv, f) {
      assert forall d, k :: IsEdge(plan.bni, d, k) ==> (InList(p, f, d, k) <==> Staging(plan, main, upd, ei, f, d, k));
    }
  }

  /** The lists of every search are free of repetitions. */
  lemma StagedDistinct(plan: Plan, main: Lists, upd: Lists)
    requires Staged(main, upd)
    ensures ListsDistinct(NewGraph(plan, main, upd)) && ListsDistinct(OldGraph(plan, main))
    ensures forall ei :: ListsDistinct(EdgeSearch(plan, main, upd, ei))
  {
    forall idx: nat, v: nat
      ensures Distinct(main(idx, v)) && Distinct(upd(idx, v)) && Distinct(main(idx, v) + upd(idx, v))
    {
      var a, b := main(idx, v), upd(idx, v);
      assert Strict(a) && Strict(b);
      forall i, j | 0 <= i < j < |a + b|
        ensures (a + b)[i] != (a + b)[j]
      {
        if i < |a| <= j { assert b[j - |a|] in b; }
      }
    }
    var pn, po := NewGraph(plan, main, upd), OldGraph(plan, main);
    forall j: nat, d: nat, v: nat
      ensures Distinct(pn.lists(j, d, v)) && Distinct(po.lists(j, d, v))
    {
      var idx := plan.Dir(j, d);
      assert Distinct(main(idx, v)) && Distinct(main(idx, v) + upd(idx, v));
    }
    forall ei: nat, j: nat, d: nat, v: nat
      ensures Distinct(EdgeSearch(plan, main, upd, ei).lists(j, d, v))
    {
      var idx := plan.Dir(j, d);
      assert main(idx, v) + [] == main(idx, v) && upd(idx, v) + [] == upd(idx, v);
    }
  }

  // ---- Exactly once ----

  ghost function EdgeSet(plan: Plan, main: Lists, upd: Lists, ei: nat, dv: nat): set<Row>
    requires plan.Valid()
  {
    set f | f in MatchesOf(EdgeSearch(plan, main, upd, ei), dv)
  }

  /** A new match that uses a main-stage edge nowhere above `ei` is found by search `ei` only. */
  lemma FoundTwiceNever(plan: Plan, main: Lists, upd: Lists, dv: nat, ei: nat, ej: nat)
    requires plan.Valid() && Numbered(plan) && Staged(main, upd) && ei < ej < plan.m
    ensures EdgeSet(plan, main, upd, ei, dv) !! EdgeSet(plan, main, upd, ej, dv)
  {
    assert IsNumber(plan, ej);
    var d, k :| IsEdge(plan.bni, d, k) && Number(plan, d, k) == ej;
    forall f | f in EdgeSet(plan, main, upd, ei, dv)
      ensures f !in EdgeSet(plan, main, upd, ej, dv)
    {
      EdgeMatch(plan, main, upd, ei, dv, f);
      EdgeMatch(plan, main, upd, ej, dv, f);
      assert Staging(plan, main, upd, ei, f, d, k);
    }
  }

  /** Search `ei` finds new matches only. */
  lemma FoundIsNew(plan: Plan, main: Lists, upd: Lists, dv: nat, ei: nat, f: Row)
    requires plan.Valid() && Numbered(plan) && Staged(main, upd) && ei < plan.m
    requires f in EdgeSet(plan, main, upd, ei, dv)
    ensures f in MatchesOf(NewGraph(plan, main, upd), dv) && f !in MatchesOf(OldGraph(plan, main), dv)
  {
    EdgeMatch(plan, main, upd, ei, dv, f);
    NewMatch(plan, main, upd, dv, f);
    OldMatch(plan, main, dv, f);
    forall d, k | IsEdge(plan.bni, d, k)
      ensures Hit(plan, main, f, d, k) || Hit(plan, upd, f, d, k)
    {
      assert Staging(plan, main, upd, ei, f, d, k);
    }
    assert IsNumber(plan, ei);
    var d, k :| IsEdge(plan.bni, d, k) && Number(plan, d, k) == ei;
    assert Staging(plan, main, upd, ei, f, d, k);
    assert !Hit(plan, main, f, d, k);
  }

  /** The highest numbered update edge of a new match, among edges numbered below `top`. */
  lemma {:induction false} HighestUpdate(plan: Plan, main: Lists, upd: Lists, f: Row, top: nat) returns (ei: int)
    requires plan.Valid() && Numbered(plan) && |f| == plan.n && top <= plan.m
    ensures -1 <= ei < top
    ensures ei >= 0 ==> exists d, k :: IsEdge(plan.bni, d, k) && Number(plan, d, k) == ei && Hit(plan, upd, f, d, k)
    ensures forall d, k :: IsEdge(plan.bni, d, k) && ei < Number(plan, d, k) < top ==> !Hit(plan, upd, f, d, k)
  {
    if top == 0 { return -1; }
    assert IsNumber(plan, top - 1);
    var d, k :| IsEdge(plan.bni, d, k) && Number(plan, d, k) == top - 1;
    if Hit(plan, upd, f, d, k) { return top - 1; }
    ei := HighestUpdate(plan, main, upd, f, top - 1);
  }

  /** Every new match is found. */
  lemma NewIsFound(plan: Plan, main: Lists, upd: Lists, dv: nat, f: Row) returns (ei: nat)
    requires plan.Valid() && Numbered(plan) && Staged(main, upd)
    requires f in MatchesOf(NewGraph(plan, main, upd), dv) && f !in MatchesOf(OldGraph(plan, main), dv)
    ensures ei < plan.m && f in EdgeSet(plan, main, upd, ei, dv)
  {
    NewMatch(plan, main, upd, dv, f);
    OldMatch(plan, main, dv, f);
    var d0, k0 :| IsEdge(plan.bni, d0, k0) && !Hit(plan, main, f, d0, k0);
    var top := HighestUpdate(plan, main, upd, f, plan.m);
    assert Hit(plan, upd, f, d0, k0);
    ei := top;
    var d1, k1 :| IsEdge(plan.bni, d1, k1) && Number(plan, d1, k1) == ei && Hit(plan, upd, f, d1, k1);
    forall d, k | IsEdge(plan.bni, d, k)
      ensures Staging(plan, main, upd, ei, f, d, k)
    {
      if Number(plan, d, k) == ei { assert d == d1 && k == k1; }
    }
    EdgeMatch(plan, main, upd, ei, dv, f);
  }

  /** The matches found by the searches for edges below `top`, and how many they report. */
  ghost function Found(plan: Plan, main: Lists, upd: Lists, dv: nat, top: nat): set<Row>
    requires plan.Valid()
  {
    if top == 0 then {} else Found(plan, main, upd, dv, top - 1) + EdgeSet(plan, main, upd, top - 1, dv)
  }

  function Reported(plan: Plan, main: Lists, upd: Lists, dv: nat, top: nat): nat
    requires plan.Valid()
  {
    if top == 0 then 0
    else Reported(plan, main, upd, dv, top - 1) + |MatchesOf(EdgeSearch(plan, main, upd, top - 1), dv)|
  }

  lemma MatchesNoDup(p: Problem, dv: nat)
    requires p.Valid() && ListsDistinct(p)
    ensures Distinct(MatchesOf(p, dv))
  {
    forall i, j | 0 <= i < j < dv
      ensures Seeds(dv)[i] != Seeds(dv)[j]
    {
      assert Seeds(dv)[i][0] == i && Seeds(dv)[j][0] == j;
    }
    PassContents(p, p.n, Seeds(dv), 1);
  }

  lemma {:induction false} FoundContents(plan: Plan, main: Lists, upd: Lists, dv: nat, top: nat, f: Row)
    requires plan.Valid()
    ensures f in Found(plan, main, upd, dv, top) <==>
      exists ei :: 0 <= ei < top && f in EdgeSet(plan, main, upd, ei, dv)
  {
    hide EdgeSet;
    if top > 0 {
      FoundContents(plan, main, upd, dv, top - 1, f);
    }
  }

  /** No search reports what an earlier one has reported. */
  lemma {:induction false} ReportedIsFound(plan: Plan, main: Lists, upd: Lists, dv: nat, top: nat)
    requires plan.Valid() && Numbered(plan) && Staged(main, upd) && top <= plan.m
    ensures |Found(plan, main, upd, dv, top)| == Reported(plan, main, upd, dv, top)
  {
    hide EdgeSet, MatchesOf, Numbered, Staged;
    if top > 0 {
      ReportedIsFound(plan, main, upd, dv, top - 1);
      EdgeSetSize(plan, main, upd, top - 1, dv);
      var last := EdgeSet(plan, main, upd, top - 1, dv);
      forall f | f in Found(plan, main, upd, dv, top - 1)
        ensures f !in last
      {
        FoundContents(plan, main, upd, dv, top - 1, f);
        var ei :| 0 <= ei < top - 1 && f in EdgeSet(plan, main, upd, ei, dv);
        FoundTwiceNever(plan, main, upd, dv, ei, top - 1);
      }
      assert Found(plan, main, upd, dv, top - 1) !! last;
    }
  }

  lemma EdgeSetSize(plan: Plan, main: Lists, upd: Lists, ei: nat, dv: nat)
    requires plan.Valid() && Staged(main, upd)
    ensures |EdgeSet(plan, main, upd, ei, dv)| == |MatchesOf(EdgeSearch(plan, main, upd, ei), dv)|
  {
    var p := EdgeSearch(plan, main, upd, ei);
    StagedDistinct(plan, main, upd);
    MatchesNoDup(p, dv);
    DistinctSize(MatchesOf(p, dv), set x | x in MatchesOf(p, dv));
  }

  /** What all searches together find are the new matches that are not old ones. */
  lemma FoundAre(plan: Plan, main: Lists, upd: Lists, dv: nat, f: Row)
    requires plan.Valid() && Numbered(plan) && Staged(main, upd)
    ensures f in Found(plan, main, upd, dv, plan.m) <==> f in MatchesOf(NewGraph(plan, main, upd), dv) && f !in MatchesOf(OldGraph(plan, main), dv)
  {
    hide Numbered, Staged, Found, MatchesOf, EdgeSet;
    FoundContents(plan, main, upd, dv, plan.m, f);
    if ei :| 0 <= ei < plan.m && f in EdgeSet(plan, main, upd, ei, dv) {
      FoundIsNew(plan, main, upd, dv, ei, f);
    }
    if f in MatchesOf(NewGraph(plan, main, upd), dv) && f !in MatchesOf(OldGraph(plan, main), dv) {
      var ei := NewIsFound(plan, main, upd, dv, f);
    }
  }

  lemma OldIsNew(plan: Plan, main: Lists, upd: Lists, dv: nat, f: Row)
    requires plan.Valid()
    ensures f in MatchesOf(OldGraph(plan, main), dv) ==> f in MatchesOf(NewGraph(plan, main, upd), dv)
  {
    hide MatchesOf;
    if f in MatchesOf(OldGraph(plan, main), dv) {
      OldMatch(plan, main, dv, f);
      NewMatch(plan, main, upd, dv, f);
    }
  }

  /** Summed over all query edges, the searches report the number of new matches. */
  lemma CountsNewMatchesOnce(plan: Plan, main: Lists, upd: Lists, dv: nat)
    requires plan.Valid() && Numbered(plan) && Staged(main, upd)
    ensures Reported(plan, main, upd, dv, plan.m) ==
      |MatchesOf(NewGraph(plan, main, upd), dv)| - |MatchesOf(OldGraph(plan, main), dv)|
  {
    hide Numbered, Staged, Found, MatchesOf, Reported, EdgeSet;
    var pn, po := NewGraph(plan, main, upd), OldGraph(plan, main);
    StagedDistinct(plan, main, upd);
    MatchesNoDup(pn, dv);
    MatchesNoDup(po, dv);
    ReportedIsFound(plan, main, upd, dv, plan.m);
    var found := Found(plan, main, upd, dv, plan.m);
    forall f
      ensures (f in found <==> f in MatchesOf(pn, dv) && f !in MatchesOf(po, dv)) && (f in MatchesOf(po, dv) ==> f in MatchesOf(pn, dv))
    {
      FoundAre(plan, main, upd, dv, f);
      OldIsNew(plan, main, upd, dv, f);
    }
    SizeOfRest(MatchesOf(pn, dv), MatchesOf(po, dv), found);
  }

  /** Without the elements of one list, another list has as many fewer. */
  lemma SizeOfRest(all: seq<Row>, some: seq<Row>, rest: set<Row>)
    requires Distinct(all) && Distinct(some) && (forall f :: f in some ==> f in all)
    requires forall f :: f in rest <==> f in all && f !in some
    ensures |rest| == |all| - |some|
  {
    var a, b := set f | f in all, set f | f in some;
    DistinctSize(all, a);
    DistinctSize(some, b);
    assert a == b + rest && b !! rest;
  }
}
