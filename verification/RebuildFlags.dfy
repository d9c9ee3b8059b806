/** Which query edges and vertices the index construction rebuilds for an updated edge: a backtracking
    search over simple paths marks the edges, and the marks decide for whole vertices. */
module RebuildFlags {
  import opened Sequences
  import opened QueryPaths

  type Marks = set<(nat, nat)>

  const UINT8_MAX := 255

  /** All edges of `p` are marked in both directions. */
  ghost predicate Marked(marks: Marks, p: seq<nat>) {
    forall i :: 0 < i < |p| ==> (p[i - 1], p[i]) in marks && (p[i], p[i - 1]) in marks
  }

  /** The neighbour with which a path is tried next. */
  function Next(q: Query, pre: seq<nat>, c: nat): (v: nat)
    requires |pre| > 0 && pre[|pre| - 1] < q.N() && c < |q.nbrs[pre[|pre| - 1]]|
  {
    q.nbrs[pre[|pre| - 1]][c]
  }

  function Degree(q: Query, pre: seq<nat>): nat
    requires |pre| > 0
  {
    if pre[|pre| - 1] < q.N() then |q.nbrs[pre[|pre| - 1]]| else 0
  }

  /** All paths that go on from `pre` with one of the first `c` neighbours are marked. */
  ghost predicate Tried(q: Query, u0: nat, u1: nat, s: nat, pre: seq<nat>, c: nat, marks: Marks)
    requires |pre| > 0 && pre[|pre| - 1] < q.N() && c <= Degree(q, pre)
  {
    forall p :: Reaches(q, u0, u1, s, p) && |pre| < |p| && p[..|pre|] == pre && p[|pre|] in q.nbrs[pre[|pre| - 1]][..c] ==>
      Marked(marks, p)
  }

  lemma TriedSkip(q: Query, u0: nat, u1: nat, s: nat, pre: seq<nat>, c: nat, marks: Marks)
    requires |pre| > 0 && pre[|pre| - 1] < q.N() && c < Degree(q, pre) && Tried(q, u0, u1, s, pre, c, marks)
    requires Next(q, pre, c) in pre
    ensures Tried(q, u0, u1, s, pre, c + 1, marks)
  {
    var list := q.nbrs[pre[|pre| - 1]];
    assert list[..c + 1] == list[..c] + [list[c]];
    forall p | Reaches(q, u0, u1, s, p) && |pre| < |p| && p[..|pre|] == pre && p[|pre|] in list[..c + 1]
      ensures p[|pre|] in list[..c]
    {
      var k :| 0 <= k < |pre| && pre[k] == list[c];
      assert p[k] == p[..|pre|][k];
    }
  }

  lemma TriedFound(q: Query, u0: nat, u1: nat, s: nat, pre: seq<nat>, c: nat, marks: Marks, marks': Marks)
    requires |pre| > 0 && pre[|pre| - 1] < q.N() && c < Degree(q, pre) && Tried(q, u0, u1, s, pre, c, marks)
    requires !Clear(u0, u1, Next(q, pre, c)) && marks <= marks' && Marked(marks', pre + [Next(q, pre, c)])
    ensures Tried(q, u0, u1, s, pre, c + 1, marks')
  {
    var list := q.nbrs[pre[|pre| - 1]];
    assert list[..c + 1] == list[..c] + [list[c]];
    forall p | Reaches(q, u0, u1, s, p) && |pre| < |p| && p[..|pre|] == pre && p[|pre|] in list[..c + 1]
      ensures Marked(marks', p)
    {
      if p[|pre|] !in list[..c] {
        assert p == p[..|pre|] + [list[c]];
      }
    }
  }

  /** All paths below `pre + [v]` are marked, so the paths through `v` are done. */
  lemma TriedBelow(q: Query, u0: nat, u1: nat, s: nat, pre: seq<nat>, c: nat, marks: Marks)
    requires |pre| > 0 && pre[|pre| - 1] < q.N() && c < Degree(q, pre) && Tried(q, u0, u1, s, pre, c, marks)
    requires var v := Next(q, pre, c);
      Clear(u0, u1, v) && v < q.N() && Tried(q, u0, u1, s, pre + [v], Degree(q, pre + [v]), marks)
    ensures Tried(q, u0, u1, s, pre, c + 1, marks)
  {
    var list, v := q.nbrs[pre[|pre| - 1]], Next(q, pre, c);
    assert list[..c + 1] == list[..c] + [v];
    forall p | Reaches(q, u0, u1, s, p) && |pre| < |p| && p[..|pre|] == pre && p[|pre|] in list[..c + 1]
      ensures Marked(marks, p)
    {
      if p[|pre|] !in list[..c] {
        var n := |pre| + 1;
        assert p[..n] == pre + [v] && n < |p|;
        assert q.Adj(p[n - 1], p[n]);
        assert q.nbrs[v][..|q.nbrs[v]|] == q.nbrs[v];
      }
    }
  }

  // ---- Termination ----

  /** How many turns the search spends on the neighbours of `pre` from number `c` on. */
  function Turns(q: Query, u0: nat, u1: nat, pre: seq<nat>, c: nat): (t: nat)
    requires |pre| > 0
    ensures t > 0
    decreases q.N() - |pre|, Degree(q, pre) - c
  {
    if c >= Degree(q, pre) then 1
    else
      var v := Next(q, pre, c);
      1 + Turns(q, u0, u1, pre, c + 1) +
      (if v !in pre && Clear(u0, u1, v) && |pre| < q.N() then Turns(q, u0, u1, pre + [v], 0) else 0)
  }

  /** The turns owed to the shallower levels. */
  function Owed(q: Query, u0: nat, u1: nat, path: seq<nat>, cand: seq<nat>, d: nat): nat
    requires d <= |path| && d < |cand|
  {
    if d == 0 then 0 else Turns(q, u0, u1, path[..d], cand[d] + 1) + Owed(q, u0, u1, path, cand, d - 1)
  }

  lemma {:induction false} OwedLocal(q: Query, u0: nat, u1: nat, path: seq<nat>, cand: seq<nat>, path': seq<nat>, cand': seq<nat>, d: nat)
    requires d <= |path| && d < |cand| && d <= |path'| && d < |cand'| && path[..d] == path'[..d] && cand[..d + 1] == cand'[..d + 1]
    ensures Owed(q, u0, u1, path, cand, d) == Owed(q, u0, u1, path', cand', d)
  {
    if d > 0 {
      assert path[..d - 1] == path[..d][..d - 1] && path'[..d - 1] == path'[..d][..d - 1];
      assert cand[..d] == cand[..d + 1][..d] && cand'[..d] == cand'[..d + 1][..d];
      assert cand[d] == cand[..d + 1][d] && cand'[d] == cand'[..d + 1][d];
      OwedLocal(q, u0, u1, path, cand, path', cand', d - 1);
    }
  }

  // ---- The search ----

  /** The state of the backtracking search. */
  datatype Search = Search(path: seq<nat>, cand: seq<nat>, depth: nat, visited: set<nat>)
  {
    function Pre(): seq<nat>
      requires depth <= |path|
    {
      path[..depth]
    }
  }

  /** The current path with the neighbour number `c` at its end is the path up to place `d`. */
  ghost predicate Chosen(q: Query, path: seq<nat>, cand: seq<nat>, d: nat)
    requires 1 <= d < |path| && d < |cand|
  {
    path[d - 1] < q.N() && cand[d] < |q.nbrs[path[d - 1]]| && path[d] == q.nbrs[path[d - 1]][cand[d]]
  }

  ghost predicate Shaped(q: Query, u0: nat, u1: nat, s: nat, x: Search) {
    && |x.path| == |x.cand| == q.N() && 1 <= x.depth < q.N()
    && Open(q, u0, u1, s, x.Pre())
    && (forall d :: 1 <= d < x.depth ==> Chosen(q, x.path, x.cand, d))
    && x.path[x.depth - 1] < q.N() && x.cand[x.depth] <= |q.nbrs[x.path[x.depth - 1]]|
    && (forall d :: x.depth < d < q.N() ==> x.cand[d] == 0)
    && (forall v :: v in x.visited <==> v in x.Pre())
  }

  ghost predicate TriedAt(q: Query, u0: nat, u1: nat, s: nat, path: seq<nat>, cand: seq<nat>, marks: Marks, d: nat)
    requires 1 <= d <= |path| && d < |cand|
  {
    path[d - 1] < q.N() && cand[d] <= |q.nbrs[path[d - 1]]| && Tried(q, u0, u1, s, path[..d], cand[d], marks)
  }

  ghost predicate AllTried(q: Query, u0: nat, u1: nat, s: nat, x: Search, marks: Marks)
    requires Shaped(q, u0, u1, s, x)
  {
    forall d :: 1 <= d <= x.depth ==> TriedAt(q, u0, u1, s, x.path, x.cand, marks, d)
  }

  function Left(q: Query, u0: nat, u1: nat, x: Search): nat
    requires 1 <= x.depth < |x.cand| && x.depth <= |x.path|
  {
    Turns(q, u0, u1, x.Pre(), x.cand[x.depth]) + Owed(q, u0, u1, x.path, x.cand, x.depth - 1)
  }

  /** A path that avoids one of two vertices leaves the last place free. */
  lemma OpenIsShort(q: Query, u0: nat, u1: nat, s: nat, p: seq<nat>)
    requires q.Valid() && Open(q, u0, u1, s, p) && u0 < q.N() && u1 < q.N() && u0 != u1
    ensures |p| < q.N()
  {
    var u := if u0 == s then u1 else u0;
    var all := Range(q.N());
    forall i | 0 <= i < |p|
      ensures p[i] in all - {u}
    {
      if i > 0 { assert q.Adj(p[i - 1], p[i]); }
    }
    DistinctFits(p, all - {u});
  }

  /** One neighbour is done with. */
  function Skipped(x: Search): Search
    requires x.depth < |x.cand|
  {
    x.(cand := x.cand[x.depth := x.cand[x.depth] + 1])
  }

  lemma SkipKeeps(q: Query, u0: nat, u1: nat, s: nat, x: Search, marks: Marks, marks': Marks)
    requires q.Valid() && Shaped(q, u0, u1, s, x) && AllTried(q, u0, u1, s, x, marks)
    requires x.cand[x.depth] < Degree(q, x.Pre()) && marks <= marks'
    requires Tried(q, u0, u1, s, x.Pre(), x.cand[x.depth] + 1, marks')
    ensures Shaped(q, u0, u1, s, Skipped(x)) && AllTried(q, u0, u1, s, Skipped(x), marks')
  {
    hide Tried, Open;
    var y := Skipped(x);
    SkipShape(q, u0, u1, s, x);
    forall d | 1 <= d <= x.depth
      ensures TriedAt(q, u0, u1, s, y.path, y.cand, marks', d)
    {
      if d < x.depth {
        assert TriedAt(q, u0, u1, s, x.path, x.cand, marks, d);
        TriedMore(q, u0, u1, s, x.path[..d], x.cand[d], marks, marks');
      } else {
        assert y.path[..d] == x.Pre() && y.cand[d] == x.cand[d] + 1;
      }
    }
  }

  lemma TriedMore(q: Query, u0: nat, u1: nat, s: nat, pre: seq<nat>, c: nat, marks: Marks, marks': Marks)
    requires |pre| > 0 && pre[|pre| - 1] < q.N() && c <= Degree(q, pre) && Tried(q, u0, u1, s, pre, c, marks) && marks <= marks'
    ensures Tried(q, u0, u1, s, pre, c, marks')
  {
  }

  lemma SkipShape(q: Query, u0: nat, u1: nat, s: nat, x: Search)
    requires q.Valid() && Shaped(q, u0, u1, s, x) && x.cand[x.depth] < Degree(q, x.Pre())
    ensures Shaped(q, u0, u1, s, Skipped(x)) && Skipped(x).Pre() == x.Pre()
  {
    var y := Skipped(x);
    forall d | 1 <= d < x.depth
      ensures Chosen(q, y.path, y.cand, d)
    {
      assert Chosen(q, x.path, x.cand, d);
    }
  }

  lemma SkipEnds(q: Query, u0: nat, u1: nat, s: nat, x: Search)
    requires Shaped(q, u0, u1, s, x) && x.cand[x.depth] < Degree(q, x.Pre())
    ensures Left(q, u0, u1, Skipped(x)) < Left(q, u0, u1, x)
  {
    OwedLocal(q, u0, u1, x.path, x.cand, Skipped(x).path, Skipped(x).cand, x.depth - 1);
  }

  /** One vertex deeper. */
  function Pushed(x: Search, v: nat): Search
    requires x.depth < |x.path|
  {
    Search(x.path[x.depth := v], x.cand, x.depth + 1, x.visited + {v})
  }

  lemma PushKeeps(q: Query, u0: nat, u1: nat, s: nat, x: Search, marks: Marks, v: nat)
    requires q.Valid() && u0 < q.N() && u1 < q.N() && u0 != u1
    requires Shaped(q, u0, u1, s, x) && AllTried(q, u0, u1, s, x, marks)
    requires x.cand[x.depth] < Degree(q, x.Pre()) && v == Next(q, x.Pre(), x.cand[x.depth])
    requires v !in x.visited && Clear(u0, u1, v)
    ensures Shaped(q, u0, u1, s, Pushed(x, v)) && AllTried(q, u0, u1, s, Pushed(x, v), marks)
  {
    var y := Pushed(x, v);
    assert y.Pre() == x.Pre() + [v];
    Join(q, x.Pre(), [v]);
    assert Open(q, u0, u1, s, y.Pre());
    OpenIsShort(q, u0, u1, s, y.Pre());
    forall d | 1 <= d <= x.depth
      ensures Chosen(q, y.path, y.cand, d) && TriedAt(q, u0, u1, s, y.path, y.cand, marks, d)
    {
      assert TriedAt(q, u0, u1, s, x.path, x.cand, marks, d) && y.path[..d] == x.path[..d];
      assert d < x.depth ==> Chosen(q, x.path, x.cand, d);
    }
  }

  lemma PushEnds(q: Query, u0: nat, u1: nat, s: nat, x: Search, v: nat)
    requires Shaped(q, u0, u1, s, x) && Shaped(q, u0, u1, s, Pushed(x, v)) && x.cand[x.depth] < Degree(q, x.Pre())
    requires v == Next(q, x.Pre(), x.cand[x.depth]) && v !in x.visited && Clear(u0, u1, v)
    ensures Left(q, u0, u1, Pushed(x, v)) < Left(q, u0, u1, x)
  {
    var y := Pushed(x, v);
    assert y.Pre() == x.Pre() + [v] && y.path[..x.depth] == x.Pre();
    OwedLocal(q, u0, u1, x.path, x.cand, y.path, y.cand, x.depth - 1);
  }

  /** Back to the vertex before. */
  function Popped(x: Search): Search
    requires 1 < x.depth < |x.cand| && x.depth <= |x.path|
  {
    Search(x.path, x.cand[x.depth := 0][x.depth - 1 := x.cand[x.depth - 1] + 1], x.depth - 1, x.visited - {x.path[x.depth - 1]})
  }

  lemma PopKeeps(q: Query, u0: nat, u1: nat, s: nat, x: Search, marks: Marks)
    requires q.Valid() && Shaped(q, u0, u1, s, x) && AllTried(q, u0, u1, s, x, marks)
    requires x.cand[x.depth] == Degree(q, x.Pre()) && x.depth > 1
    ensures Shaped(q, u0, u1, s, Popped(x)) && AllTried(q, u0, u1, s, Popped(x), marks)
  {
    var y := Popped(x);
    var d := x.depth - 1;
    PopShape(q, u0, u1, s, x);
    PopTried(q, u0, u1, s, x, marks);
    forall e | 1 <= e < d
      ensures TriedAt(q, u0, u1, s, y.path, y.cand, marks, e)
    {
      assert TriedAt(q, u0, u1, s, x.path, x.cand, marks, e);
    }
  }

  /** The vertex that is given up has been tried. */
  lemma PopTried(q: Query, u0: nat, u1: nat, s: nat, x: Search, marks: Marks)
    requires q.Valid() && Shaped(q, u0, u1, s, x) && AllTried(q, u0, u1, s, x, marks)
    requires x.cand[x.depth] == Degree(q, x.Pre()) && x.depth > 1
    ensures TriedAt(q, u0, u1, s, x.path, Popped(x).cand, marks, x.depth - 1)
  {
    var d := x.depth - 1;
    assert Chosen(q, x.path, x.cand, d);
    assert x.path[..d + 1] == x.path[..d] + [x.path[d]];
    assert TriedAt(q, u0, u1, s, x.path, x.cand, marks, d) && TriedAt(q, u0, u1, s, x.path, x.cand, marks, d + 1);
    assert Clear(u0, u1, x.Pre()[d]);
    TriedBelow(q, u0, u1, s, x.path[..d], x.cand[d], marks);
  }

  lemma PopEnds(q: Query, u0: nat, u1: nat, s: nat, x: Search)
    requires Shaped(q, u0, u1, s, x) && x.depth > 1
    ensures Left(q, u0, u1, Popped(x)) < Left(q, u0, u1, x)
  {
    OwedLocal(q, u0, u1, x.path, x.cand, Popped(x).path, Popped(x).cand, x.depth - 2);
  }

  lemma PopShape(q: Query, u0: nat, u1: nat, s: nat, x: Search)
    requires q.Valid() && Shaped(q, u0, u1, s, x) && x.depth > 1
    ensures Shaped(q, u0, u1, s, Popped(x))
  {
    var y := Popped(x);
    var d := x.depth - 1;
    assert y.Pre() == x.Pre()[..d];
    assert forall v :: v in x.Pre() <==> v in y.Pre() || v == x.path[d] by {
      assert x.Pre() == y.Pre() + [x.path[d]];
    }
    assert forall i :: 0 <= i < d ==> x.Pre()[i] != x.Pre()[d];
    forall e | 1 <= e < d + 1
      ensures e < d ==> Chosen(q, y.path, y.cand, e)
      ensures e == d ==> y.path[e - 1] < q.N() && y.cand[e] <= |q.nbrs[y.path[e - 1]]|
    {
      assert Chosen(q, x.path, x.cand, e);
    }
  }

  /** All marks so far are justified. */
  ghost predicate Justified(q: Query, u0: nat, u1: nat, starts: seq<nat>, marks: Marks) {
    forall x, y :: (x, y) in marks ==> Rebuilt(q, u0, u1, starts, x, y)
  }

  /** Marks the edges of a path that has been found. */
  method MarkPath(p: seq<nat>, marks: Marks) returns (marks': Marks)
    ensures marks <= marks' && Marked(marks', p)
    ensures forall x, y :: (x, y) in marks' ==> (x, y) in marks || Uses(p, x, y)
  {
    marks' := marks;
    if p == [] { return; }
    for i := 0 to |p| - 1
      invariant marks <= marks'
      invariant forall k :: 0 < k <= i ==> (p[k - 1], p[k]) in marks' && (p[k], p[k - 1]) in marks'
      invariant forall x, y :: (x, y) in marks' ==> (x, y) in marks || Uses(p, x, y)
    {
      marks' := marks' + {(p[i], p[i + 1]), (p[i + 1], p[i])};
      assert Uses(p, p[i], p[i + 1]) && Uses(p, p[i + 1], p[i]) by {
        var k := i + 1;
        assert p[k - 1] == p[i];
      }
    }
  }

  /** What the search keeps: the current path, the marks, and that nothing behind it is missing. */
  ghost predicate Inv(q: Query, u0: nat, u1: nat, starts: seq<nat>, s: nat, x: Search, marks: Marks) {
    && q.Valid() && u0 < q.N() && u1 < q.N() && u0 != u1 && s in starts
    && Shaped(q, u0, u1, s, x) && AllTried(q, u0, u1, s, x, marks) && Justified(q, u0, u1, starts, marks)
  }

  /** The search starts with nothing tried. */
  lemma Begins(q: Query, u0: nat, u1: nat, starts: seq<nat>, s: nat, marks: Marks)
    requires q.Valid() && u0 < q.N() && u1 < q.N() && u0 != u1 && s in starts && s < q.N()
    requires Justified(q, u0, u1, starts, marks)
    ensures Inv(q, u0, u1, starts, s, Search(Filled(q.N(), UINT8_MAX)[0 := s], Filled(q.N(), 0), 1, {s}), marks)
  {
    var x := Search(Filled(q.N(), UINT8_MAX)[0 := s], Filled(q.N(), 0), 1, {s});
    assert x.Pre() == [s];
    assert TriedAt(q, u0, u1, s, x.path, x.cand, marks, 1);
  }

  function Filled(n: nat, v: nat): (r: seq<nat>)
    ensures |r| == n && forall i :: 0 <= i < n ==> r[i] == v
  {
    seq(n, _ => v)
  }

  /** Back at the start with no neighbour left, every path from there is marked. */
  lemma Finished(q: Query, u0: nat, u1: nat, starts: seq<nat>, s: nat, x: Search, marks: Marks)
    requires Inv(q, u0, u1, starts, s, x, marks) && x.depth == 1 && x.cand[1] == Degree(q, x.Pre())
    ensures forall p :: Reaches(q, u0, u1, s, p) ==> Marked(marks, p)
  {
    assert TriedAt(q, u0, u1, s, x.path, x.cand, marks, 1);
    assert x.Pre() == [s];
    forall p | Reaches(q, u0, u1, s, p)
      ensures Marked(marks, p)
    {
      assert p[..1] == [s] && q.Adj(p[0], p[1]);
      assert q.nbrs[s][..|q.nbrs[s]|] == q.nbrs[s];
    }
  }

  /** A path that has been found: its edges may be marked. */
  lemma FoundPath(q: Query, u0: nat, u1: nat, starts: seq<nat>, s: nat, x: Search, v: nat)
    requires q.Valid() && s in starts && Shaped(q, u0, u1, s, x) && x.cand[x.depth] < Degree(q, x.Pre())
    requires v == Next(q, x.Pre(), x.cand[x.depth]) && v !in x.visited && !Clear(u0, u1, v)
    ensures Reaches(q, u0, u1, s, x.Pre() + [v])
    ensures forall a, b :: Uses(x.Pre() + [v], a, b) ==> Rebuilt(q, u0, u1, starts, a, b)
  {
    Join(q, x.Pre(), [v]);
  }

  /** Marks the edges of all paths from `s` to the updated edge. */
  method MarkFrom(q: Query, u0: nat, u1: nat, starts: seq<nat>, s: nat, marks0: Marks) returns (marks: Marks)
    requires q.Valid() && u0 < q.N() && u1 < q.N() && u0 != u1 && s in starts && s < q.N()
    requires Justified(q, u0, u1, starts, marks0)
    ensures marks0 <= marks && Justified(q, u0, u1, starts, marks)
    ensures forall p :: Reaches(q, u0, u1, s, p) ==> Marked(marks, p)
  {
    marks := marks0;
    var x := Search(Filled(q.N(), UINT8_MAX)[0 := s], Filled(q.N(), 0), 1, {s});
    Begins(q, u0, u1, starts, s, marks);
    while true
      invariant marks0 <= marks && Inv(q, u0, u1, starts, s, x, marks)
      decreases Left(q, u0, u1, x)
    {
      x, marks := GoDown(q, u0, u1, starts, s, x, marks);
      if x.depth == 1 {
        Finished(q, u0, u1, starts, s, x, marks);
        break;
      }
      PopKeeps(q, u0, u1, s, x, marks);
      PopEnds(q, u0, u1, s, x);
      x := Popped(x);
    }
  }

  /** Goes on from the current path until its last vertex has no neighbour left. */
  method GoDown(q: Query, u0: nat, u1: nat, ghost starts: seq<nat>, ghost s: nat, x0: Search, marks0: Marks)
    returns (x: Search, marks: Marks)
    requires Inv(q, u0, u1, starts, s, x0, marks0)
    ensures marks0 <= marks && Inv(q, u0, u1, starts, s, x, marks)
    ensures x.cand[x.depth] == Degree(q, x.Pre())
    ensures Left(q, u0, u1, x) <= Left(q, u0, u1, x0)
  {
    x, marks := x0, marks0;
    while x.cand[x.depth] < |q.nbrs[x.path[x.depth - 1]]|
      invariant marks0 <= marks && Inv(q, u0, u1, starts, s, x, marks)
      invariant Left(q, u0, u1, x) <= Left(q, u0, u1, x0)
      decreases Left(q, u0, u1, x)
    {
      x, marks := TryNext(q, u0, u1, starts, s, x, marks);
    }
  }

  /** One neighbour: skip it, mark the path that it completes, or go on from it. */
  method TryNext(q: Query, u0: nat, u1: nat, ghost starts: seq<nat>, ghost s: nat, x: Search, marks: Marks)
    returns (x': Search, marks': Marks)
    requires Inv(q, u0, u1, starts, s, x, marks) && x.cand[x.depth] < |q.nbrs[x.path[x.depth - 1]]|
    ensures marks <= marks' && Inv(q, u0, u1, starts, s, x', marks')
    ensures Left(q, u0, u1, x') < Left(q, u0, u1, x)
  {
    var next := q.nbrs[x.path[x.depth - 1]][x.cand[x.depth]];
    AtTop(q, u0, u1, s, x, marks);
    if next in x.visited {
      x', marks' := Skipped(x), marks;
      SkipInv(q, u0, u1, starts, s, x, marks);
    } else if next == u0 || next == u1 {
      marks' := MarkPath(x.Pre() + [next], marks);
      x' := Skipped(x);
      FoundInv(q, u0, u1, starts, s, x, next, marks, marks');
    } else {
      x', marks' := Pushed(x, next), marks;
      PushKeeps(q, u0, u1, s, x, marks, next);
      PushEnds(q, u0, u1, s, x, next);
    }
  }

  lemma SkipInv(q: Query, u0: nat, u1: nat, starts: seq<nat>, s: nat, x: Search, marks: Marks)
    requires Inv(q, u0, u1, starts, s, x, marks) && x.cand[x.depth] < Degree(q, x.Pre())
    requires Next(q, x.Pre(), x.cand[x.depth]) in x.visited
    ensures Inv(q, u0, u1, starts, s, Skipped(x), marks) && Left(q, u0, u1, Skipped(x)) < Left(q, u0, u1, x)
  {
    AtTop(q, u0, u1, s, x, marks);
    TriedSkip(q, u0, u1, s, x.Pre(), x.cand[x.depth], marks);
    SkipKeeps(q, u0, u1, s, x, marks, marks);
    SkipEnds(q, u0, u1, s, x);
  }

  lemma FoundInv(q: Query, u0: nat, u1: nat, starts: seq<nat>, s: nat, x: Search, v: nat, marks: Marks, marks': Marks)
    requires Inv(q, u0, u1, starts, s, x, marks) && x.cand[x.depth] < Degree(q, x.Pre())
    requires v == Next(q, x.Pre(), x.cand[x.depth]) && v !in x.visited && !Clear(u0, u1, v)
    requires marks <= marks' && Marked(marks', x.Pre() + [v])
    requires forall a, b :: (a, b) in marks' ==> (a, b) in marks || Uses(x.Pre() + [v], a, b)
    ensures Inv(q, u0, u1, starts, s, Skipped(x), marks') && Left(q, u0, u1, Skipped(x)) < Left(q, u0, u1, x)
  {
    AtTop(q, u0, u1, s, x, marks);
    FoundPath(q, u0, u1, starts, s, x, v);
    TriedFound(q, u0, u1, s, x.Pre(), x.cand[x.depth], marks, marks');
    SkipKeeps(q, u0, u1, s, x, marks, marks');
    SkipEnds(q, u0, u1, s, x);
  }

  lemma AtTop(q: Query, u0: nat, u1: nat, s: nat, x: Search, marks: Marks)
    requires Shaped(q, u0, u1, s, x) && AllTried(q, u0, u1, s, x, marks)
    ensures x.Pre()[x.depth - 1] == x.path[x.depth - 1] && Degree(q, x.Pre()) == |q.nbrs[x.path[x.depth - 1]]|
    ensures Tried(q, u0, u1, s, x.Pre(), x.cand[x.depth], marks)
  {
    assert TriedAt(q, u0, u1, s, x.path, x.cand, marks, x.depth);
  }

  /** The marked edges are exactly the updated edge and the edges on simple paths from a starting
      vertex to the first touch of the updated edge. */
  method GenerateRebuildFlagsWithOrder(q: Query, u0: nat, u1: nat, starts: seq<nat>) returns (marks: Marks)
    requires q.Valid() && u0 < q.N() && u1 < q.N() && u0 != u1 && forall s :: s in starts ==> s < q.N()
    ensures forall x: nat, y: nat :: (x, y) in marks <==> Rebuilt(q, u0, u1, starts, x, y)
  {
    marks := {(u0, u1), (u1, u0)};
    for i := 0 to |starts|
      invariant (u0, u1) in marks && (u1, u0) in marks && Justified(q, u0, u1, starts, marks)
      invariant forall k, p :: 0 <= k < i && Reaches(q, u0, u1, starts[k], p) ==> Marked(marks, p)
    {
      ghost var before := marks;
      marks := MarkFrom(q, u0, u1, starts, starts[i], marks);
      forall k, p | 0 <= k < i && Reaches(q, u0, u1, starts[k], p)
        ensures Marked(marks, p)
      {
        assert Marked(before, p);
      }
    }
    AllMarked(q, u0, u1, starts, marks);
  }

  lemma AllMarked(q: Query, u0: nat, u1: nat, starts: seq<nat>, marks: Marks)
    requires (u0, u1) in marks && (u1, u0) in marks
    requires forall k, p :: 0 <= k < |starts| && Reaches(q, u0, u1, starts[k], p) ==> Marked(marks, p)
    ensures forall x: nat, y: nat :: Rebuilt(q, u0, u1, starts, x, y) ==> (x, y) in marks
  {
    forall x: nat, y: nat | OnPath(q, u0, u1, starts, x, y)
      ensures (x, y) in marks
    {
      var s, p :| s in starts && Reaches(q, u0, u1, s, p) && Uses(p, x, y);
      var k :| 0 <= k < |starts| && starts[k] == s;
      assert Marked(marks, p);
    }
  }
}
