/** The host mirror of the staged index: main lists that are merged by appending and compacted now
    and then, and update lists that are rebuilt for every batch. */
module Mirror {
  import opened Sequences
  import opened EdgeLists
  import CpuDfs

  // ---- What a set of edges says ----

  predicate Matches(e: nat, idx: nat, u: nat) { EdgeIdx(e) == idx && EdgeU(e) == u }

  /** The neighbours of `u` for directed query edge `idx`, in the order of the edges. */
  function Vs(s: seq<nat>, idx: nat, u: nat): seq<nat> {
    if s == [] then []
    else Vs(s[..|s| - 1], idx, u) + (if Matches(s[|s| - 1], idx, u) then [EdgeV(s[|s| - 1])] else [])
  }

  lemma {:induction false} VsConcat(a: seq<nat>, b: seq<nat>, idx: nat, u: nat)
    ensures Vs(a + b, idx, u) == Vs(a, idx, u) + Vs(b, idx, u)
    decreases |b|
  {
    if b == [] {
      assert a + b == a;
    } else {
      assert (a + b)[..|a + b| - 1] == a + b[..|b| - 1];
      VsConcat(a, b[..|b| - 1], idx, u);
    }
  }

  lemma {:induction false} VsContents(s: seq<nat>, idx: nat, u: nat, v: nat)
    ensures v in Vs(s, idx, u) <==> exists k :: 0 <= k < |s| && Matches(s[k], idx, u) && EdgeV(s[k]) == v
    decreases |s|
  {
    if s != [] {
      var init, last := s[..|s| - 1], s[|s| - 1];
      VsContents(init, idx, u, v);
      if k :| 0 <= k < |init| && Matches(init[k], idx, u) && EdgeV(init[k]) == v {
        assert s[k] == init[k];
      }
    }
  }

  /** In sorted edges every list is sorted. */
  lemma {:induction false} VsAscends(s: seq<nat>, idx: nat, u: nat)
    requires Ascending(s)
    ensures Ascending(Vs(s, idx, u)) && (Strict(s) ==> Strict(Vs(s, idx, u)))
    decreases |s|
  {
    if s != [] {
      var init, last := s[..|s| - 1], s[|s| - 1];
      VsAscends(init, idx, u);
      if Matches(last, idx, u) {
        forall k | 0 <= k < |Vs(init, idx, u)|
          ensures Vs(init, idx, u)[k] <= EdgeV(last) && (Strict(s) ==> Vs(init, idx, u)[k] < EdgeV(last))
        {
          VsContents(init, idx, u, Vs(init, idx, u)[k]);
          var j :| 0 <= j < |init| && Matches(init[j], idx, u) && EdgeV(init[j]) == Vs(init, idx, u)[k];
          assert init[j] == s[j];
          OrderOfParts(s[j], last);
        }
      }
    }
  }

  /** The same edges in another order say the same. */
  lemma VsSame(s: seq<nat>, t: seq<nat>, idx: nat, u: nat)
    requires forall e :: e in s <==> e in t
    ensures Elements(Vs(s, idx, u)) == Elements(Vs(t, idx, u))
  {
    forall v
      ensures v in Vs(s, idx, u) ==> v in Vs(t, idx, u)
      ensures v in Vs(t, idx, u) ==> v in Vs(s, idx, u)
    {
      VsTransfer(s, t, idx, u, v);
      VsTransfer(t, s, idx, u, v);
    }
  }

  lemma VsTransfer(s: seq<nat>, t: seq<nat>, idx: nat, u: nat, v: nat)
    requires forall e :: e in s ==> e in t
    ensures v in Vs(s, idx, u) ==> v in Vs(t, idx, u)
  {
    VsContents(s, idx, u, v);
    VsContents(t, idx, u, v);
    if v in Vs(s, idx, u) {
      var k :| 0 <= k < |s| && Matches(s[k], idx, u) && EdgeV(s[k]) == v;
      assert s[k] in t;
      var j :| 0 <= j < |t| && t[j] == s[k];
    }
  }

  /** What a merge makes of a list. */
  function Updated(old_: set<nat>, delta: set<nat>, isInsert: bool): set<nat> {
    if isInsert then old_ + delta else old_ - delta
  }

  // ---- Main lists ----

  /** The lists of one directed query edge: offset and length per data vertex, and the flat data. */
  datatype Main = Main(ptr: seq<nat>, len: seq<nat>, data: seq<nat>, live: nat)

  predicate Fits(m: Main, u: nat) {
    u < |m.ptr| == |m.len| && (m.len[u] > 0 ==> m.ptr[u] + m.len[u] <= |m.data|)
  }

  function ListAt(m: Main, u: nat): seq<nat>
    requires Fits(m, u)
  {
    if m.len[u] == 0 then [] else m.data[m.ptr[u]..m.ptr[u] + m.len[u]]
  }

  function Sum(len: seq<nat>): nat {
    if len == [] then 0 else Sum(len[..|len| - 1]) + len[|len| - 1]
  }

  lemma {:induction false} SumUpdate(len: seq<nat>, u: nat, n: nat)
    requires u < |len|
    ensures Sum(len[u := n]) == Sum(len) - len[u] + n
    decreases |len|
  {
    var last := |len| - 1;
    if u < last {
      assert len[u := n][..last] == len[..last][u := n];
      SumUpdate(len[..last], u, n);
    } else {
      assert len[u := n][..last] == len[..last];
    }
  }

  /** Every list lies in the data and is strictly ascending. */
  ghost predicate ListsOk(m: Main, n: nat) {
    |m.ptr| == |m.len| == n && forall u :: 0 <= u < n ==> Fits(m, u) && Strict(ListAt(m, u))
  }

  /** The live count is the total length, and at least half of the data is live unless all is dead. */
  ghost predicate MainOk(m: Main, n: nat) {
    ListsOk(m, n) && m.live == Sum(m.len) && (m.live > 0 ==> |m.data| <= 2 * m.live)
  }

  /** Appends a new list for `u`; the old one becomes dead space. */
  function Replaced(m: Main, u: nat, list: seq<nat>): Main
    requires u < |m.ptr| == |m.len|
  {
    Main(m.ptr[u := |m.data|], m.len[u := |list|], m.data + list, m.live)
  }

  lemma ReplacedLists(m: Main, n: nat, u: nat, list: seq<nat>)
    requires ListsOk(m, n) && u < n && Strict(list)
    ensures ListsOk(Replaced(m, u, list), n) && ListAt(Replaced(m, u, list), u) == list
    ensures forall w :: 0 <= w < n && w != u ==> ListAt(Replaced(m, u, list), w) == ListAt(m, w)
    ensures Sum(Replaced(m, u, list).len) == Sum(m.len) - |ListAt(m, u)| + |list|
  {
    var m' := Replaced(m, u, list);
    SumUpdate(m.len, u, |list|);
    forall w | 0 <= w < n
      ensures Fits(m', w) && ListAt(m', w) == if w == u then list else ListAt(m, w)
    {
      assert Fits(m, w);
      if w != u && m.len[w] > 0 {
        assert (m.data + list)[m.ptr[w]..m.ptr[w] + m.len[w]] == m.data[m.ptr[w]..m.ptr[w] + m.len[w]];
      }
    }
  }

  /** Merges one list with its part of the delta. */
  method MergeRun(m: Main, n: nat, u: nat, delta: seq<nat>, isInsert: bool) returns (m': Main, liveDelta: int)
    requires ListsOk(m, n) && u < n && Ascending(delta) && (isInsert ==> Strict(delta))
    ensures ListsOk(m', n) && m'.live == m.live && Sum(m'.len) == Sum(m.len) + liveDelta
    ensures Elements(ListAt(m', u)) == Updated(Elements(ListAt(m, u)), Elements(delta), isInsert)
    ensures forall w :: 0 <= w < n && w != u ==> ListAt(m', w) == ListAt(m, w)
  {
    var ex := ListAt(m, u);
    var tmp := MergeLists(ex, delta, isInsert);
    ReplacedLists(m, n, u, tmp);
    m', liveDelta := Replaced(m, u, tmp), |tmp| - |ex|;
  }

  /** Union or difference of two sorted lists. */
  method MergeLists(ex: seq<nat>, delta: seq<nat>, isInsert: bool) returns (tmp: seq<nat>)
    requires Strict(ex) && Ascending(delta) && (isInsert ==> Strict(delta))
    ensures Strict(tmp) && Elements(tmp) == Updated(Elements(ex), Elements(delta), isInsert)
  {
    if isInsert {
      tmp := SetUnion(ex, delta);
    } else {
      tmp := SetDifference(ex, delta);
    }
  }

  /** Where the edges of one data vertex end. */
  method RunEnd(edges: seq<nat>, gi: nat, ge: nat) returns (end: nat)
    requires gi < ge <= |edges|
    ensures gi < end <= ge && forall k :: gi <= k < end ==> EdgeU(edges[k]) == EdgeU(edges[gi])
  {
    end := gi + 1;
    while end < ge && EdgeU(edges[end]) == EdgeU(edges[gi])
      invariant gi < end <= ge && forall k :: gi <= k < end ==> EdgeU(edges[k]) == EdgeU(edges[gi])
    {
      end := end + 1;
    }
  }

  function Values(s: seq<nat>): (r: seq<nat>)
    ensures |r| == |s| && forall i :: 0 <= i < |s| ==> r[i] == EdgeV(s[i])
  {
    seq(|s|, (i: nat) requires i < |s| => EdgeV(s[i]))
  }

  /** A run of edges of `u0` says something about `u0` only. */
  lemma {:induction false} VsRun(run: seq<nat>, idx: nat, u0: nat, u: nat)
    requires forall e :: e in run ==> Matches(e, idx, u0)
    ensures Vs(run, idx, u) == if u == u0 then Values(run) else []
    decreases |run|
  {
    if run != [] {
      var init, last := run[..|run| - 1], run[|run| - 1];
      assert last in run && forall e :: e in init ==> e in run;
      VsRun(init, idx, u0, u);
      ValuesAppend(run);
    }
  }

  lemma ValuesAppend(run: seq<nat>)
    requires run != []
    ensures Values(run) == Values(run[..|run| - 1]) + [EdgeV(run[|run| - 1])]
  {
  }

  /** The values of a sorted run are sorted. */
  lemma RunAscends(s: seq<nat>, ds: nat, end: nat, idx: nat, u: nat)
    requires ds <= end <= |s| && Ascending(s) && forall k :: ds <= k < end ==> Matches(s[k], idx, u)
    ensures Ascending(Values(s[ds..end])) && (Strict(s) ==> Strict(Values(s[ds..end])))
  {
    var run := s[ds..end];
    forall i, j | 0 <= i < j < |run|
      ensures EdgeV(run[i]) <= EdgeV(run[j]) && (Strict(s) ==> EdgeV(run[i]) < EdgeV(run[j]))
    {
      assert run[i] == s[ds + i] && run[j] == s[ds + j];
      OrderOfParts(run[i], run[j]);
    }
  }

  /** After the edges `[gs, gi)` of `idx`, every list is the merge of the old one with what they say. */
  ghost predicate MergedTo(m0: Main, m: Main, n: nat, s: seq<nat>, gs: nat, gi: nat, idx: nat, isInsert: bool)
    requires ListsOk(m0, n) && ListsOk(m, n) && gs <= gi <= |s|
  {
    forall u :: 0 <= u < n ==>
      Elements(ListAt(m, u)) == Updated(Elements(ListAt(m0, u)), Elements(Vs(s[gs..gi], idx, u)), isInsert)
  }

  lemma MergedNext(m0: Main, m: Main, m': Main, n: nat, s: seq<nat>, gs: nat, ds: nat, end: nat, idx: nat, u0: nat, isInsert: bool)
    requires ListsOk(m0, n) && ListsOk(m, n) && ListsOk(m', n) && gs <= ds <= end <= |s| && u0 < n
    requires MergedTo(m0, m, n, s, gs, ds, idx, isInsert)
    requires forall k :: ds <= k < end ==> Matches(s[k], idx, u0)
    requires Elements(ListAt(m', u0)) == Updated(Elements(ListAt(m, u0)), Elements(Values(s[ds..end])), isInsert)
    requires forall w :: 0 <= w < n && w != u0 ==> ListAt(m', w) == ListAt(m, w)
    ensures MergedTo(m0, m', n, s, gs, end, idx, isInsert)
  {
    forall u | 0 <= u < n
      ensures Elements(ListAt(m', u)) == Updated(Elements(ListAt(m0, u)), Elements(Vs(s[gs..end], idx, u)), isInsert)
    {
      RunAdds(s, gs, ds, end, idx, u0, u);
      UpdateTwice(Elements(ListAt(m0, u)), Elements(Vs(s[gs..ds], idx, u)),
                  if u == u0 then Elements(Values(s[ds..end])) else {}, Elements(ListAt(m, u)), Elements(ListAt(m', u)), isInsert);
    }
  }

  lemma UpdateTwice(x: set<nat>, a: set<nat>, b: set<nat>, y: set<nat>, z: set<nat>, isInsert: bool)
    requires y == Updated(x, a, isInsert) && (z == Updated(y, b, isInsert) || (b == {} && z == y))
    ensures z == Updated(x, a + b, isInsert)
  {
  }

  lemma RunAdds(s: seq<nat>, gs: nat, ds: nat, end: nat, idx: nat, u0: nat, u: nat)
    requires gs <= ds <= end <= |s| && forall k :: ds <= k < end ==> Matches(s[k], idx, u0)
    ensures Elements(Vs(s[gs..end], idx, u)) ==
      Elements(Vs(s[gs..ds], idx, u)) + (if u == u0 then Elements(Values(s[ds..end])) else {})
  {
    var run := s[ds..end];
    assert s[gs..end] == s[gs..ds] + run;
    VsConcat(s[gs..ds], run, idx, u);
    forall e | e in run
      ensures Matches(e, idx, u0)
    {
      var k :| 0 <= k < |run| && run[k] == e;
      assert run[k] == s[ds + k];
    }
    VsRun(run, idx, u0, u);
    ElementsConcat(Vs(s[gs..ds], idx, u), Vs(run, idx, u));
  }

  /** Moves the live lists to fresh data. */
  method Compact(m: Main, n: nat) returns (m': Main)
    requires ListsOk(m, n) && m.live == Sum(m.len)
    ensures ListsOk(m', n) && m'.live == m.live == Sum(m'.len) == |m'.data|
    ensures forall u :: 0 <= u < n ==> ListAt(m', u) == ListAt(m, u)
  {
    var compacted, ptr: seq<nat> := [], m.ptr;
    for u := 0 to n
      invariant |ptr| == n && |compacted| == Sum(m.len[..u])
      invariant SameLists(m, Main(ptr, m.len, compacted, m.live), u)
    {
      assert m.len[..u + 1][..u] == m.len[..u] && Fits(m, u);
      if m.len[u] > 0 {
        MoveKeeps(m, Main(ptr, m.len, compacted, m.live), n, u);
        ptr := ptr[u := |compacted|];
        compacted := compacted + m.data[m.ptr[u]..m.ptr[u] + m.len[u]];
      } else {
        EmptyKeeps(m, Main(ptr, m.len, compacted, m.live), n, u);
      }
    }
    assert m.len[..n] == m.len;
    m' := Main(ptr, m.len, compacted, m.live);
    SameOk(m, m', n);
  }

  /** The first `top` lists are the same. */
  ghost predicate SameLists(m: Main, c: Main, top: nat) {
    forall w :: 0 <= w < top ==> Fits(m, w) && Fits(c, w) && ListAt(c, w) == ListAt(m, w)
  }

  lemma EmptyKeeps(m: Main, c: Main, n: nat, u: nat)
    requires ListsOk(m, n) && u < n && m.len[u] == 0 && |c.ptr| == n && c.len == m.len && SameLists(m, c, u)
    ensures SameLists(m, c, u + 1)
  {
    assert Fits(m, u);
  }

  lemma SameOk(m: Main, c: Main, n: nat)
    requires ListsOk(m, n) && |c.ptr| == |c.len| == n && SameLists(m, c, n)
    ensures ListsOk(c, n) && forall u :: 0 <= u < n ==> ListAt(c, u) == ListAt(m, u)
  {
    forall u | 0 <= u < n
      ensures Fits(c, u) && Strict(ListAt(c, u)) && ListAt(c, u) == ListAt(m, u)
    {
      assert Fits(m, u);
    }
  }

  lemma MoveKeeps(m: Main, c: Main, n: nat, u: nat)
    requires ListsOk(m, n) && u < n && m.len[u] > 0 && |c.ptr| == n && c.len == m.len && SameLists(m, c, u)
    ensures Fits(m, u)
    ensures SameLists(m, Main(c.ptr[u := |c.data|], c.len, c.data + m.data[m.ptr[u]..m.ptr[u] + m.len[u]], c.live), u + 1)
  {
    assert Fits(m, u);
    var part := m.data[m.ptr[u]..m.ptr[u] + m.len[u]];
    var c' := Main(c.ptr[u := |c.data|], c.len, c.data + part, c.live);
    forall w | 0 <= w < u + 1
      ensures Fits(m, w) && Fits(c', w) && ListAt(c', w) == ListAt(m, w)
    {
      if w < u {
        assert Fits(m, w) && Fits(c, w) && ListAt(c, w) == ListAt(m, w);
        assert c.len[w] > 0 ==> (c.data + part)[c.ptr[w]..c.ptr[w] + c.len[w]] == c.data[c.ptr[w]..c.ptr[w] + c.len[w]];
      } else {
        assert (c.data + part)[|c.data|..|c.data| + |part|] == part;
      }
    }
  }

  /** The live count has no part in the lists. */
  lemma LiveApart(m: Main, n: nat, live: nat)
    requires ListsOk(m, n)
    ensures ListsOk(m.(live := live), n) && forall u :: 0 <= u < n ==> ListAt(m.(live := live), u) == ListAt(m, u)
  {
    forall u | 0 <= u < n
      ensures Fits(m.(live := live), u) && ListAt(m.(live := live), u) == ListAt(m, u)
    {
      assert Fits(m, u);
    }
  }

  /** Merges the sorted edges `[gs, ge)`, all of query edge `idx`, into its lists. */
  method MergeIdxMain(m: Main, n: nat, idx: nat, edges: seq<nat>, gs: nat, ge: nat, isInsert: bool) returns (m': Main)
    requires MainOk(m, n) && gs <= ge <= |edges| && Ascending(edges) && (isInsert ==> Strict(edges))
    requires forall k :: gs <= k < ge ==> EdgeIdx(edges[k]) == idx && EdgeU(edges[k]) < n
    ensures MainOk(m', n) && MergedTo(m, m', n, edges, gs, ge, idx, isInsert)
  {
    var liveDelta;
    m', liveDelta := MergeRuns(m, n, idx, edges, gs, ge, isInsert);
    var live := if liveDelta >= 0 || m'.live > -liveDelta then m'.live + liveDelta else 0;
    LiveApart(m', n, live);
    m' := m'.(live := live);
    if m'.live > 0 && |m'.data| > 2 * m'.live {
      m' := Compact(m', n);
    }
  }

  /** Merges the runs of the data vertices one after the other. */
  method MergeRuns(m: Main, n: nat, idx: nat, edges: seq<nat>, gs: nat, ge: nat, isInsert: bool) returns (m': Main, liveDelta: int)
    requires ListsOk(m, n) && m.live == Sum(m.len) && gs <= ge <= |edges| && Ascending(edges) && (isInsert ==> Strict(edges))
    requires forall k :: gs <= k < ge ==> EdgeIdx(edges[k]) == idx && EdgeU(edges[k]) < n
    ensures ListsOk(m', n) && m'.live == m.live && m.live + liveDelta == Sum(m'.len)
    ensures MergedTo(m, m', n, edges, gs, ge, idx, isInsert)
  {
    m' := m;
    liveDelta := 0;
    var gi := gs;
    NothingMerged(m, n, edges, gs, idx, isInsert);
    while gi < ge
      invariant gs <= gi <= ge && ListsOk(m', n) && m'.live == m.live && m.live + liveDelta == Sum(m'.len)
      invariant MergedTo(m, m', n, edges, gs, gi, idx, isInsert)
    {
      var u := EdgeU(edges[gi]);
      var end := RunEnd(edges, gi, ge);
      RunAscends(edges, gi, end, idx, u);
      var before := m';
      var delta;
      m', delta := MergeRun(before, n, u, Values(edges[gi..end]), isInsert);
      MergedNext(m, before, m', n, edges, gs, gi, end, idx, u, isInsert);
      liveDelta, gi := liveDelta + delta, end;
    }
  }

  lemma NothingMerged(m: Main, n: nat, s: seq<nat>, gs: nat, idx: nat, isInsert: bool)
    requires ListsOk(m, n) && gs <= |s|
    ensures MergedTo(m, m, n, s, gs, gs, idx, isInsert)
  {
    assert s[gs..gs] == [];
  }

  // ---- Groups ----

  /** A maximal range of edges of one query edge. */
  datatype Group = Group(idx: nat, start: nat, end: nat)

  /** The groups cover `s[..top]` one after the other. */
  ghost predicate Grouped(s: seq<nat>, groups: seq<Group>, top: nat) {
    && top <= |s|
    && (forall g :: 0 <= g < |groups| ==> GroupOk(s, groups[g]))
    && (forall g :: 0 <= g < |groups| ==> Adjoins(groups, g))
    && top == (if groups == [] then 0 else groups[|groups| - 1].end)
  }

  /** No group can be continued. */
  ghost predicate Maximal(s: seq<nat>, groups: seq<Group>) {
    forall g :: 0 <= g < |groups| && groups[g].end < |s| ==> EdgeIdx(s[groups[g].end]) != groups[g].idx
  }

  /** A group starts where the one before it ends. */
  ghost predicate Adjoins(groups: seq<Group>, g: nat)
    requires g < |groups|
  {
    groups[g].start == if g == 0 then 0 else groups[g - 1].end
  }

  ghost predicate GroupOk(s: seq<nat>, g: Group) {
    g.start < g.end <= |s| && forall k :: g.start <= k < g.end ==> EdgeIdx(s[k]) == g.idx
  }

  lemma GroupNext(s: seq<nat>, groups: seq<Group>, g: Group)
    requires Grouped(s, groups, g.start) && GroupOk(s, g)
    ensures Grouped(s, groups + [g], g.end)
  {
    var all := groups + [g];
    forall k | 0 <= k < |all|
      ensures GroupOk(s, all[k]) && Adjoins(all, k)
    {
      if k < |groups| { assert GroupOk(s, groups[k]) && Adjoins(groups, k); }
    }
  }

  method GroupByIdx(s: seq<nat>) returns (groups: seq<Group>)
    ensures Grouped(s, groups, |s|)
    ensures Maximal(s, groups)
  {
    groups := [];
    var i := 0;
    while i < |s|
      invariant Grouped(s, groups, i)
      invariant Maximal(s, groups)
    {
      var idx, start := EdgeIdx(s[i]), i;
      while i < |s| && EdgeIdx(s[i]) == idx
        invariant start <= i <= |s| && (i == start ==> i < |s| && EdgeIdx(s[i]) == idx)
        invariant forall k :: start <= k < i ==> EdgeIdx(s[k]) == idx
      {
        i := i + 1;
      }
      GroupNext(s, groups, Group(idx, start, i));
      groups := groups + [Group(idx, start, i)];
    }
  }

  /** In sorted edges the groups before a group belong to smaller query edges. */
  lemma GroupsAscend(s: seq<nat>, groups: seq<Group>, g: nat, k: nat)
    requires Ascending(s) && Grouped(s, groups, |s|) && g < |groups| && k < groups[g].start
    requires Maximal(s, groups)
    ensures EdgeIdx(s[k]) < groups[g].idx
  {
    assert Adjoins(groups, g);
    assert GroupOk(s, groups[g]) && GroupOk(s, groups[g - 1]);
    var e := groups[g].start;
    OrderOfParts(s[k], s[e - 1]);
    OrderOfParts(s[e - 1], s[e]);
  }

  lemma {:induction false} VsNone(s: seq<nat>, idx: nat, u: nat)
    requires forall k :: 0 <= k < |s| ==> EdgeIdx(s[k]) != idx
    ensures Vs(s, idx, u) == []
    decreases |s|
  {
    if s != [] { VsNone(s[..|s| - 1], idx, u); }
  }

  /** A group says nothing about other query edges. */
  lemma GroupAdds(s: seq<nat>, g: Group, idx: nat, u: nat)
    requires GroupOk(s, g)
    ensures Vs(s[..g.end], idx, u) == Vs(s[..g.start], idx, u) + (if idx == g.idx then Vs(s[g.start..g.end], idx, u) else [])
  {
    assert s[..g.end] == s[..g.start] + s[g.start..g.end];
    VsConcat(s[..g.start], s[g.start..g.end], idx, u);
    if idx != g.idx {
      forall k | 0 <= k < g.end - g.start
        ensures EdgeIdx(s[g.start..g.end][k]) != idx
      {
        assert s[g.start..g.end][k] == s[g.start + k];
      }
      VsNone(s[g.start..g.end], idx, u);
    }
  }

  /** Every place in a list of edges and how often a value occurs in the lists made of them. */
  lemma {:induction false} VsCount(s: seq<nat>, idx: nat, u: nat, v: nat)
    requires u < U_RANGE && v < V_RANGE
    ensures multiset(Vs(s, idx, u))[v] == multiset(s)[Encode(idx, u, v)]
    decreases |s|
  {
    if s != [] {
      var init, last := s[..|s| - 1], s[|s| - 1];
      VsCount(init, idx, u, v);
      assert s == init + [last];
      EncodeRoundTrip(idx, u, v);
      DecodeRoundTrip(last);
      assert (Matches(last, idx, u) && EdgeV(last) == v) <==> last == Encode(idx, u, v);
    }
  }

  // ---- First build ----

  /** A fresh list structure. */
  ghost predicate Blank(m: Main, n: nat) {
    |m.ptr| == |m.len| == n && m.data == [] && m.live == 0 && forall u :: 0 <= u < n ==> m.len[u] == 0
  }

  /** The list of `u` is what `t` says of it. */
  ghost predicate ListSays(m: Main, u: nat, t: seq<nat>, idx: nat) {
    Fits(m, u) && ListAt(m, u) == Vs(t, idx, u)
  }

  /** The data ends with the list of `u`. */
  ghost predicate EndsWith(m: Main, u: nat) {
    u < |m.ptr| == |m.len| && m.len[u] > 0 && m.ptr[u] + m.len[u] == |m.data|
  }

  /** The lists hold what the edges `[gs, gi)` say, one behind the other. */
  ghost predicate Built(m: Main, n: nat, s: seq<nat>, gs: nat, gi: nat, idx: nat)
    requires gs <= gi <= |s|
  {
    && |m.ptr| == |m.len| == n && Sum(m.len) == |m.data|
    && (forall u :: 0 <= u < n ==> ListSays(m, u, s[gs..gi], idx))
    && (gs < gi ==> EndsWith(m, EdgeU(s[gi - 1])))
  }

  /** One more edge for `u`. */
  function Appended(m: Main, u: nat, v: nat): Main
    requires u < |m.ptr| == |m.len|
  {
    Main(if m.len[u] == 0 then m.ptr[u := |m.data|] else m.ptr, m.len[u := m.len[u] + 1], m.data + [v], m.live)
  }

  lemma BuildOne(m: Main, n: nat, s: seq<nat>, gs: nat, gi: nat, idx: nat)
    requires gs <= gi < |s| && Ascending(s) && (forall k :: gs <= k <= gi ==> EdgeIdx(s[k]) == idx && EdgeU(s[k]) < n)
    requires Built(m, n, s, gs, gi, idx)
    ensures Built(Appended(m, EdgeU(s[gi]), EdgeV(s[gi])), n, s, gs, gi + 1, idx)
  {
    var u0, v := EdgeU(s[gi]), EdgeV(s[gi]);
    var m' := Appended(m, u0, v);
    SumUpdate(m.len, u0, m.len[u0] + 1);
    LastIsOpen(m, n, s, gs, gi, idx);
    var t := s[gs..gi + 1];
    forall u | 0 <= u < n
      ensures ListSays(m', u, t, idx)
    {
      assert ListSays(m, u, s[gs..gi], idx) && ListSays(m, u0, s[gs..gi], idx);
      AppendedList(m, u0, v, u);
      OneEdgeMore(s, gs, gi, idx, u);
    }
  }

  lemma OneEdgeMore(s: seq<nat>, gs: nat, gi: nat, idx: nat, u: nat)
    requires gs <= gi < |s| && EdgeIdx(s[gi]) == idx
    ensures Vs(s[gs..gi + 1], idx, u) == Vs(s[gs..gi], idx, u) + (if u == EdgeU(s[gi]) then [EdgeV(s[gi])] else [])
  {
    var t := s[gs..gi + 1];
    assert t[..|t| - 1] == s[gs..gi];
  }

  /** If `u` of the next edge has a list already, it is the last one in the data. */
  lemma LastIsOpen(m: Main, n: nat, s: seq<nat>, gs: nat, gi: nat, idx: nat)
    requires gs <= gi < |s| && Ascending(s) && (forall k :: gs <= k <= gi ==> EdgeIdx(s[k]) == idx && EdgeU(s[k]) < n)
    requires Built(m, n, s, gs, gi, idx)
    ensures var u := EdgeU(s[gi]); m.len[u] > 0 ==> m.ptr[u] + m.len[u] == |m.data|
  {
    var u := EdgeU(s[gi]);
    assert ListSays(m, u, s[gs..gi], idx);
    if m.len[u] > 0 {
      VsContents(s[gs..gi], idx, u, Vs(s[gs..gi], idx, u)[0]);
      var k :| 0 <= k < gi - gs && Matches(s[gs..gi][k], idx, u);
      OrderOfParts(s[gs + k], s[gi - 1]);
      OrderOfParts(s[gi - 1], s[gi]);
    }
  }

  lemma AppendedList(m: Main, u0: nat, v: nat, u: nat)
    requires Fits(m, u) && Fits(m, u0) && (m.len[u0] > 0 ==> m.ptr[u0] + m.len[u0] == |m.data|)
    ensures Fits(Appended(m, u0, v), u)
    ensures ListAt(Appended(m, u0, v), u) == ListAt(m, u) + (if u == u0 then [v] else [])
  {
    var m' := Appended(m, u0, v);
    if u != u0 && m.len[u] > 0 {
      assert (m.data + [v])[m.ptr[u]..m.ptr[u] + m.len[u]] == m.data[m.ptr[u]..m.ptr[u] + m.len[u]];
    }
  }

  /** A group of sorted edges between known data vertices. */
  ghost predicate GroupReady(s: seq<nat>, g: Group, n: nat) {
    GroupOk(s, g) && Strict(s) && forall k :: 0 <= k < |s| ==> EdgeU(s[k]) < n
  }

  /** Every list has as many more places as `t` has edges for it. */
  ghost predicate Longer(m0: Main, m: Main, n: nat, t: seq<nat>, idx: nat) {
    |m0.len| == |m.ptr| == |m.len| == n && forall u :: 0 <= u < n ==> m.len[u] == m0.len[u] + |Vs(t, idx, u)|
  }

  /** Builds the lists of one query edge from its sorted edges.  Lengths that are left from before are counted on. */
  method BuildGroup(m: Main, n: nat, s: seq<nat>, g: Group) returns (m': Main)
    requires |m.ptr| == |m.len| == n && GroupReady(s, g, n)
    ensures Longer(m, m', n, s[g.start..g.end], g.idx)
    ensures Blank(m, n) ==> MainOk(m', n) && forall u :: 0 <= u < n ==> ListAt(m', u) == Vs(s[g.start..g.end], g.idx, u)
  {
    var built := AppendEdges(m, n, s, g);
    if Blank(m, n) { BuiltIsOk(built, n, s, g); }
    m' := built.(live := |built.data|);
  }

  method AppendEdges(m: Main, n: nat, s: seq<nat>, g: Group) returns (m': Main)
    requires |m.ptr| == |m.len| == n && GroupReady(s, g, n)
    ensures g.start <= g.end <= |s| && Longer(m, m', n, s[g.start..g.end], g.idx)
    ensures Blank(m, n) ==> Built(m', n, s, g.start, g.end, g.idx)
  {
    hide Blank, Built, Longer, Strict;
    m' := m;
    AsLong(m, n, s, g.start, g.idx);
    if Blank(m, n) { BlankIsBuilt(m, n, s, g.start, g.idx); }
    for gi := g.start to g.end
      invariant Longer(m, m', n, s[g.start..gi], g.idx)
      invariant Blank(m, n) ==> Built(m', n, s, g.start, gi, g.idx)
    {
      m' := AppendEdge(m, m', n, s, g, gi);
    }
  }

  method AppendEdge(ghost m0: Main, m: Main, n: nat, s: seq<nat>, ghost g: Group, gi: nat) returns (m': Main)
    requires GroupReady(s, g, n) && g.start <= gi < g.end && Longer(m0, m, n, s[g.start..gi], g.idx)
    ensures Longer(m0, m', n, s[g.start..gi + 1], g.idx)
    ensures Built(m, n, s, g.start, gi, g.idx) ==> Built(m', n, s, g.start, gi + 1, g.idx)
  {
    hide Built, Vs, Strict;
    LongerByOne(m0, m, n, s, g.start, gi, g.idx);
    if Built(m, n, s, g.start, gi, g.idx) { BuildNextEdge(m, n, s, g, gi); }
    m' := Appended(m, EdgeU(s[gi]), EdgeV(s[gi]));
  }

  lemma BuildNextEdge(m: Main, n: nat, s: seq<nat>, g: Group, gi: nat)
    requires GroupReady(s, g, n) && g.start <= gi < g.end && Built(m, n, s, g.start, gi, g.idx)
    ensures Built(Appended(m, EdgeU(s[gi]), EdgeV(s[gi])), n, s, g.start, gi + 1, g.idx)
  {
    hide Built;
    BuildOne(m, n, s, g.start, gi, g.idx);
  }

  lemma AsLong(m: Main, n: nat, s: seq<nat>, gs: nat, idx: nat)
    requires |m.ptr| == |m.len| == n && gs <= |s|
    ensures Longer(m, m, n, s[gs..gs], idx)
  {
    assert s[gs..gs] == [];
  }

  lemma LongerByOne(m0: Main, m: Main, n: nat, s: seq<nat>, gs: nat, gi: nat, idx: nat)
    requires gs <= gi < |s| && EdgeIdx(s[gi]) == idx && EdgeU(s[gi]) < n && Longer(m0, m, n, s[gs..gi], idx)
    ensures Longer(m0, Appended(m, EdgeU(s[gi]), EdgeV(s[gi])), n, s[gs..gi + 1], idx)
  {
    hide Vs;
    forall u | 0 <= u < n
      ensures |Vs(s[gs..gi + 1], idx, u)| == |Vs(s[gs..gi], idx, u)| + if u == EdgeU(s[gi]) then 1 else 0
    {
      OneEdgeMore(s, gs, gi, idx, u);
    }
  }

  lemma BlankIsBuilt(m: Main, n: nat, s: seq<nat>, gs: nat, idx: nat)
    requires Blank(m, n) && gs <= |s|
    ensures Built(m, n, s, gs, gs, idx)
  {
    var t := s[gs..gs];
    assert t == [];
    SumZero(m.len);
    forall u | 0 <= u < n
      ensures ListSays(m, u, t, idx)
    {
    }
  }

  lemma {:induction false} SumZero(len: seq<nat>)
    requires forall u :: 0 <= u < |len| ==> len[u] == 0
    ensures Sum(len) == 0
    decreases |len|
  {
    if len != [] { SumZero(len[..|len| - 1]); }
  }

  lemma BuiltIsOk(m: Main, n: nat, s: seq<nat>, g: Group)
    requires GroupOk(s, g) && Strict(s) && Built(m, n, s, g.start, g.end, g.idx)
    ensures MainOk(m.(live := |m.data|), n)
    ensures forall u :: 0 <= u < n ==> ListAt(m.(live := |m.data|), u) == Vs(s[g.start..g.end], g.idx, u)
  {
    BuiltLists(m, n, s, g);
    LiveApart(m, n, |m.data|);
  }

  lemma BuiltLists(m: Main, n: nat, s: seq<nat>, g: Group)
    requires GroupOk(s, g) && Strict(s) && Built(m, n, s, g.start, g.end, g.idx)
    ensures ListsOk(m, n) && forall u :: 0 <= u < n ==> ListAt(m, u) == Vs(s[g.start..g.end], g.idx, u)
  {
    var t := s[g.start..g.end];
    forall u | 0 <= u < n
      ensures Fits(m, u) && Strict(ListAt(m, u)) && ListAt(m, u) == Vs(t, g.idx, u)
    {
      assert ListSays(m, u, t, g.idx);
      VsAscends(t, g.idx, u);
    }
  }

  // ---- Update lists ----

  /** The sparse lists of one query edge: the data vertices that have one, where each begins, and the flat data. */
  datatype Upd = Upd(keys: seq<nat>, off: seq<nat>, data: seq<nat>)

  const CLEARED := Upd([], [], [])

  /** Where the `p`-th list ends; the last one may still be open. */
  function EndOf(d: Upd, p: nat): nat
    requires p < |d.keys|
  {
    if p + 1 < |d.off| then d.off[p + 1] else |d.data|
  }

  ghost predicate KeyOk(d: Upd, p: nat) {
    p < |d.keys| && p < |d.off| && d.off[p] <= EndOf(d, p) <= |d.data|
  }

  function Part(d: Upd, p: nat): seq<nat>
    requires KeyOk(d, p)
  {
    d.data[d.off[p]..EndOf(d, p)]
  }

  /** The `p`-th list is what `s` says of its key. */
  ghost predicate PartSays(d: Upd, s: seq<nat>, idx: nat, p: nat) {
    KeyOk(d, p) && Part(d, p) == Vs(s, idx, d.keys[p])
  }

  /** `s` says nothing of a data vertex without a key. */
  ghost predicate Silent(d: Upd, s: seq<nat>, idx: nat, u: nat) {
    u in d.keys || Vs(s, idx, u) == []
  }

  /** The lists hold what `s` says: one for every data vertex that it speaks of. */
  ghost predicate Says(d: Upd, s: seq<nat>, idx: nat) {
    && Strict(d.keys)
    && (forall p :: 0 <= p < |d.keys| ==> PartSays(d, s, idx, p))
    && (forall u: nat :: Silent(d, s, idx, u))
  }

  /** The lists are complete. */
  ghost predicate UpdOk(d: Upd) {
    && Strict(d.keys) && (d.keys != [] ==> |d.off| == |d.keys| + 1)
    && forall p :: 0 <= p < |d.keys| ==> KeyOk(d, p)
  }

  /** The update list of `u`, by binary search among the keys. */
  method UpdateListOf(d: Upd, u: nat, ghost s: seq<nat>, ghost idx: nat) returns (list: seq<nat>)
    requires UpdOk(d) && Says(d, s, idx)
    ensures list == Vs(s, idx, u)
  {
    assert Strict(d.keys);
    var p := CpuDfs.LbIndex(d.keys, u);
    assert Silent(d, s, idx, u);
    if p < |d.keys| && d.keys[p] == u {
      assert KeyOk(d, p) && PartSays(d, s, idx, p);
      list := d.data[d.off[p]..d.off[p + 1]];
    } else {
      list := [];
    }
  }

  /** One more edge behind the last list, or at the start of a new one. */
  function Extended(d: Upd, u: nat, v: nat): Upd {
    if d.off == [] || d.keys == [] || d.keys[|d.keys| - 1] != u
    then Upd(d.keys + [u], d.off + [|d.data|], d.data + [v])
    else Upd(d.keys, d.off, d.data + [v])
  }

  /** The lists while the edges `[gs, gi)` have been taken in. */
  ghost predicate Growing(d: Upd, s: seq<nat>, gs: nat, gi: nat, idx: nat)
    requires gs <= gi <= |s|
  {
    && |d.off| == |d.keys| && Says(d, s[gs..gi], idx)
    && (gs == gi ==> d.keys == []) && (gs < gi ==> d.keys != [] && d.keys[|d.keys| - 1] == EdgeU(s[gi - 1]))
  }

  lemma GrowOne(d: Upd, s: seq<nat>, gs: nat, gi: nat, idx: nat)
    requires gs <= gi < |s| && Ascending(s) && (forall k :: gs <= k <= gi ==> EdgeIdx(s[k]) == idx) && Growing(d, s, gs, gi, idx)
    ensures Growing(Extended(d, EdgeU(s[gi]), EdgeV(s[gi])), s, gs, gi + 1, idx)
  {
    var u0, v := EdgeU(s[gi]), EdgeV(s[gi]);
    var d' := Extended(d, u0, v);
    var t := s[gs..gi + 1];
    assert t[..gi - gs] == s[gs..gi];
    KeysBelow(d, s, gs, gi, idx);
    if d'.keys != d.keys { StrictAppend(d.keys, u0); }
    forall p | 0 <= p < |d'.keys|
      ensures PartSays(d', t, idx, p)
    {
      if p < |d.keys| {
        assert PartSays(d, s[gs..gi], idx, p);
        ExtendedPart(d, u0, v, p);
      } else {
        assert Silent(d, s[gs..gi], idx, u0) && Part(d', p) == [v];
      }
    }
    forall u: nat
      ensures Silent(d', t, idx, u)
    {
      assert Silent(d, s[gs..gi], idx, u);
    }
  }

  /** The keys so far are no larger than the next data vertex, and only the last one can be equal to it. */
  lemma KeysBelow(d: Upd, s: seq<nat>, gs: nat, gi: nat, idx: nat)
    requires gs <= gi < |s| && Ascending(s) && (forall k :: gs <= k <= gi ==> EdgeIdx(s[k]) == idx) && Growing(d, s, gs, gi, idx)
    ensures d.keys != [] ==> d.keys[|d.keys| - 1] <= EdgeU(s[gi])
    ensures d.keys == [] || d.keys[|d.keys| - 1] != EdgeU(s[gi]) ==> forall y :: y in d.keys ==> y < EdgeU(s[gi])
  {
    if gs < gi { OrderOfParts(s[gi - 1], s[gi]); }
  }

  /** Appending changes no slice that ends before, and extends one that ends at the end. */
  lemma AppendBehind(s: seq<nat>, v: nat, i: nat, j: nat)
    requires i <= j <= |s|
    ensures (s + [v])[i..j] == s[i..j]
  {
  }

  lemma AppendTo(s: seq<nat>, v: nat, i: nat)
    requires i <= |s|
    ensures (s + [v])[i..|s| + 1] == s[i..|s|] + [v]
  {
  }

  lemma ExtendedPart(d: Upd, u0: nat, v: nat, p: nat)
    requires |d.off| == |d.keys| && Strict(d.keys) && KeyOk(d, p)
    requires d.keys[|d.keys| - 1] != u0 ==> u0 !in d.keys
    ensures KeyOk(Extended(d, u0, v), p)
    ensures Part(Extended(d, u0, v), p) == Part(d, p) + (if d.keys[p] == u0 then [v] else [])
  {
    var d' := Extended(d, u0, v);
    assert d.keys[p] in d.keys;
    if p + 1 < |d.off| || d.keys[|d.keys| - 1] != u0 {
      AppendBehind(d.data, v, d.off[p], EndOf(d, p));
    } else {
      AppendTo(d.data, v, d.off[p]);
    }
  }

  /** Rebuilds the lists of one query edge from its sorted edges. */
  method RebuildGroup(s: seq<nat>, g: Group) returns (d: Upd)
    requires Ascending(s) && GroupOk(s, g)
    ensures UpdOk(d) && Says(d, s[g.start..g.end], g.idx)
  {
    d := TakeIn(s, g);
    CloseKeeps(d, s[g.start..g.end], g.idx);
    d := d.(off := d.off + [|d.data|]);
  }

  method TakeIn(s: seq<nat>, g: Group) returns (d: Upd)
    requires Ascending(s) && GroupOk(s, g)
    ensures Growing(d, s, g.start, g.end, g.idx)
  {
    d := CLEARED;
    GrowNone(s, g.start, g.idx);
    for gi := g.start to g.end
      invariant Growing(d, s, g.start, gi, g.idx)
    {
      GrowOne(d, s, g.start, gi, g.idx);
      d := Extended(d, EdgeU(s[gi]), EdgeV(s[gi]));
    }
  }

  lemma GrowNone(s: seq<nat>, gs: nat, idx: nat)
    requires gs <= |s|
    ensures Growing(CLEARED, s, gs, gs, idx)
  {
    assert s[gs..gs] == [];
  }

  lemma CloseKeeps(d: Upd, s: seq<nat>, idx: nat)
    requires |d.off| == |d.keys| && Says(d, s, idx)
    ensures UpdOk(d.(off := d.off + [|d.data|])) && Says(d.(off := d.off + [|d.data|]), s, idx)
  {
    var c := d.(off := d.off + [|d.data|]);
    forall p | 0 <= p < |c.keys|
      ensures KeyOk(c, p) && PartSays(c, s, idx, p)
    {
      assert PartSays(d, s, idx, p);
    }
    forall u: nat
      ensures Silent(c, s, idx, u)
    {
      assert Silent(d, s, idx, u);
    }
  }

  // ---- The mirror ----

  /** All edges are between known vertices, for known query edges. */
  ghost predicate Known(s: seq<nat>, dirs: nat, n: nat) {
    forall e :: e in s ==> EdgeIdx(e) < dirs && EdgeU(e) < n
  }

  /** Every list of `main` is the merge of the one in `main0` with what `t` says. */
  ghost predicate AllMerged(main0: seq<Main>, main: seq<Main>, n: nat, t: seq<nat>, isInsert: bool) {
    |main| == |main0| && forall idx, u :: 0 <= idx < |main| && 0 <= u < n ==> ListMerged(main0[idx], main[idx], u, t, idx, isInsert)
  }

  ghost predicate ListMerged(m0: Main, m: Main, u: nat, t: seq<nat>, idx: nat, isInsert: bool) {
    Fits(m0, u) && Fits(m, u) && Elements(ListAt(m, u)) == Updated(Elements(ListAt(m0, u)), Elements(Vs(t, idx, u)), isInsert)
  }

  ghost predicate AllOk(main: seq<Main>, n: nat) {
    forall idx :: 0 <= idx < |main| ==> MainOk(main[idx], n)
  }

  /** Taking out what has been put in gives the lists back exactly when none of it was in them before. */
  lemma MergeUndone(main0: seq<Main>, main1: seq<Main>, main2: seq<Main>, n: nat, edges: seq<nat>)
    requires AllOk(main0, n) && AllOk(main2, n) && AllMerged(main0, main1, n, edges, true) && AllMerged(main1, main2, n, edges, false)
    ensures forall idx, u :: 0 <= idx < |main0| && 0 <= u < n ==> Fits(main0[idx], u) && Fits(main2[idx], u)
    ensures (forall idx, u :: 0 <= idx < |main0| && 0 <= u < n ==> ListAt(main2[idx], u) == ListAt(main0[idx], u)) <==>
      forall idx, u, y :: 0 <= idx < |main0| && 0 <= u < n && y in Vs(edges, idx, u) ==> y !in ListAt(main0[idx], u)
  {
    forall idx, u | 0 <= idx < |main0| && 0 <= u < n
      ensures Fits(main0[idx], u) && Fits(main2[idx], u)
      ensures ListAt(main2[idx], u) == ListAt(main0[idx], u) <==> forall y :: y in Vs(edges, idx, u) ==> y !in ListAt(main0[idx], u)
    {
      assert ListMerged(main0[idx], main1[idx], u, edges, idx, true) && ListMerged(main1[idx], main2[idx], u, edges, idx, false);
      assert MainOk(main0[idx], n) && MainOk(main2[idx], n);
      ListRestored(ListAt(main0[idx], u), ListAt(main2[idx], u), Vs(edges, idx, u));
    }
  }

  lemma ListRestored(before: seq<nat>, after: seq<nat>, delta: seq<nat>)
    requires Strict(before) && Strict(after)
    requires Elements(after) == Updated(Updated(Elements(before), Elements(delta), true), Elements(delta), false)
    ensures after == before <==> forall y :: y in delta ==> y !in before
  {
    if forall y :: y in delta ==> y !in before { StrictIsUnique(after, before); }
    if after == before {
      forall y | y in delta
        ensures y !in before
      {
        assert y in Elements(delta) && y !in Elements(after);
      }
    }
  }

  lemma GroupMerged(main0: seq<Main>, main: seq<Main>, m': Main, n: nat, s: seq<nat>, g: Group, isInsert: bool)
    requires GroupOk(s, g) && g.idx < |main| && AllOk(main, n) && AllMerged(main0, main, n, s[..g.start], isInsert)
    requires MainOk(m', n) && MergedTo(main[g.idx], m', n, s, g.start, g.end, g.idx, isInsert)
    ensures AllOk(main[g.idx := m'], n) && AllMerged(main0, main[g.idx := m'], n, s[..g.end], isInsert)
  {
    var main', t := main[g.idx := m'], s[..g.end];
    forall idx, u | 0 <= idx < |main| && 0 <= u < n
      ensures ListMerged(main0[idx], main'[idx], u, t, idx, isInsert)
    {
      hide ListMerged, MainOk, MergedTo;
      assert ListMerged(main0[idx], main[idx], u, s[..g.start], idx, isInsert) && MainOk(main[idx], n);
      if idx == g.idx {
        ListMergedNext(main0[idx], main[idx], m', n, u, s, g, isInsert);
      } else {
        ListMergedOther(main0[idx], main[idx], u, s, g, idx, isInsert);
      }
    }
  }

  lemma ListMergedOther(m0: Main, m: Main, u: nat, s: seq<nat>, g: Group, idx: nat, isInsert: bool)
    requires GroupOk(s, g) && idx != g.idx && ListMerged(m0, m, u, s[..g.start], idx, isInsert)
    ensures ListMerged(m0, m, u, s[..g.end], idx, isInsert)
  {
    hide Updated, ListAt;
    GroupAdds(s, g, idx, u);
    assert Vs(s[..g.end], idx, u) == Vs(s[..g.start], idx, u);
  }

  lemma ListMergedNext(m0: Main, m: Main, m': Main, n: nat, u: nat, s: seq<nat>, g: Group, isInsert: bool)
    requires GroupOk(s, g) && u < n && MainOk(m, n) && MainOk(m', n)
    requires ListMerged(m0, m, u, s[..g.start], g.idx, isInsert) && MergedTo(m, m', n, s, g.start, g.end, g.idx, isInsert)
    ensures ListMerged(m0, m', u, s[..g.end], g.idx, isInsert)
  {
    GroupAdds(s, g, g.idx, u);
    assert Fits(m', u);
    var a, b := Vs(s[..g.start], g.idx, u), Vs(s[g.start..g.end], g.idx, u);
    ElementsConcat(a, b);
    UpdateTwice(Elements(ListAt(m0, u)), Elements(a), Elements(b), Elements(ListAt(m, u)), Elements(ListAt(m', u)), isInsert);
  }

  /** The first `k` edges are of other query edges. */
  ghost predicate NoneOf(s: seq<nat>, k: nat, idx: nat) {
    forall i :: 0 <= i < k && i < |s| ==> EdgeIdx(s[i]) != idx
  }

  lemma GroupFresh(s: seq<nat>, groups: seq<Group>, g: nat)
    requires Ascending(s) && Grouped(s, groups, |s|) && Maximal(s, groups) && g < |groups|
    ensures GroupOk(s, groups[g]) && NoneOf(s, groups[g].start, groups[g].idx)
  {
    assert GroupOk(s, groups[g]);
    forall k | 0 <= k < groups[g].start && k < |s|
      ensures EdgeIdx(s[k]) != groups[g].idx
    {
      GroupsAscend(s, groups, g, k);
    }
  }

  /** The groups before a fresh one say nothing of its query edge. */
  lemma FreshSays(s: seq<nat>, g: Group, idx: nat, u: nat)
    requires GroupOk(s, g) && NoneOf(s, g.start, g.idx)
    ensures Vs(s[..g.end], idx, u) == if idx == g.idx then Vs(s[g.start..g.end], idx, u) else Vs(s[..g.start], idx, u)
  {
    GroupAdds(s, g, idx, u);
    if idx == g.idx { VsNone(s[..g.start], idx, u); }
  }

  /** The lists hold what the first `top` edges say; query edges without edges have none. */
  ghost predicate AllBuilt(main: seq<Main>, n: nat, s: seq<nat>, top: nat)
    requires top <= |s|
  {
    && (forall idx, u :: 0 <= idx < |main| && 0 <= u < n ==> ListSays(main[idx], u, s[..top], idx))
    && (forall idx :: 0 <= idx < |main| && NoneOf(s, top, idx) ==> Blank(main[idx], n))
  }

  lemma GroupBuilt(main: seq<Main>, m': Main, n: nat, s: seq<nat>, g: Group)
    requires GroupOk(s, g) && NoneOf(s, g.start, g.idx) && g.idx < |main| && AllBuilt(main, n, s, g.start)
    requires MainOk(m', n) && forall u :: 0 <= u < n ==> ListAt(m', u) == Vs(s[g.start..g.end], g.idx, u)
    ensures AllBuilt(main[g.idx := m'], n, s, g.end)
  {
    var main', t := main[g.idx := m'], s[..g.end];
    forall idx, u | 0 <= idx < |main| && 0 <= u < n
      ensures ListSays(main'[idx], u, t, idx)
    {
      assert ListSays(main[idx], u, s[..g.start], idx) && Fits(m', u);
      FreshSays(s, g, idx, u);
    }
    forall idx | 0 <= idx < |main| && NoneOf(s, g.end, idx)
      ensures Blank(main'[idx], n)
    {
      assert EdgeIdx(s[g.start]) == g.idx != idx && NoneOf(s, g.start, idx);
    }
  }

  /** Every list has as many more places as the first `top` edges say. */
  ghost predicate AllLonger(main0: seq<Main>, main: seq<Main>, n: nat, s: seq<nat>, top: nat)
    requires top <= |s|
  {
    |main0| == |main| && forall idx :: 0 <= idx < |main| ==> Longer(main0[idx], main[idx], n, s[..top], idx)
  }

  lemma GroupLonger(main0: seq<Main>, main: seq<Main>, m': Main, n: nat, s: seq<nat>, g: Group)
    requires GroupOk(s, g) && g.idx < |main| && AllLonger(main0, main, n, s, g.start)
    requires Longer(main[g.idx], m', n, s[g.start..g.end], g.idx)
    ensures AllLonger(main0, main[g.idx := m'], n, s, g.end)
  {
    hide Vs;
    var main' := main[g.idx := m'];
    forall idx | 0 <= idx < |main|
      ensures Longer(main0[idx], main'[idx], n, s[..g.end], idx)
    {
      assert Longer(main0[idx], main[idx], n, s[..g.start], idx);
      forall u | 0 <= u < n
        ensures main'[idx].len[u] == main0[idx].len[u] + |Vs(s[..g.end], idx, u)|
      {
        GroupAdds(s, g, idx, u);
      }
    }
  }

  /** No list has a place. */
  ghost predicate AllEmpty(main: seq<Main>, n: nat) {
    forall idx, u :: 0 <= idx < |main| && 0 <= u < n ==> ListEmpty(main[idx], u)
  }

  ghost predicate ListEmpty(m: Main, u: nat) { Fits(m, u) && ListAt(m, u) == [] }

  /** The update lists hold what the first `top` edges say; query edges without edges have none. */
  ghost predicate AllSay(upd: seq<Upd>, s: seq<nat>, top: nat)
    requires top <= |s|
  {
    && (forall idx :: 0 <= idx < |upd| ==> UpdOk(upd[idx]) && Says(upd[idx], s[..top], idx))
    && (forall idx :: 0 <= idx < |upd| && NoneOf(s, top, idx) ==> upd[idx] == CLEARED)
  }

  /** Only what is said of one query edge matters to its lists. */
  lemma SaysSame(d: Upd, s: seq<nat>, t: seq<nat>, idx: nat)
    requires Says(d, s, idx) && forall u: nat :: Vs(s, idx, u) == Vs(t, idx, u)
    ensures Says(d, t, idx)
  {
    forall p | 0 <= p < |d.keys|
      ensures PartSays(d, t, idx, p)
    {
      assert PartSays(d, s, idx, p);
    }
    forall u: nat
      ensures Silent(d, t, idx, u)
    {
      assert Silent(d, s, idx, u);
    }
  }

  lemma GroupSaid(upd: seq<Upd>, d: Upd, s: seq<nat>, g: Group)
    requires GroupOk(s, g) && NoneOf(s, g.start, g.idx) && g.idx < |upd| && AllSay(upd, s, g.start)
    requires UpdOk(d) && Says(d, s[g.start..g.end], g.idx)
    ensures AllSay(upd[g.idx := d], s, g.end)
  {
    var upd', t := upd[g.idx := d], s[..g.end];
    forall idx | 0 <= idx < |upd|
      ensures UpdOk(upd'[idx]) && Says(upd'[idx], t, idx)
    {
      forall u: nat
        ensures Vs(t, idx, u) == if idx == g.idx then Vs(s[g.start..g.end], idx, u) else Vs(s[..g.start], idx, u)
      {
        FreshSays(s, g, idx, u);
      }
      SaysSame(upd'[idx], if idx == g.idx then s[g.start..g.end] else s[..g.start], t, idx);
    }
    forall idx | 0 <= idx < |upd| && NoneOf(s, g.end, idx)
      ensures upd'[idx] == CLEARED
    {
      assert EdgeIdx(s[g.start]) == g.idx != idx && NoneOf(s, g.start, idx);
    }
  }

  class CPUIndexMirror {
    const numDirEdges: nat
    var dvCount: nat
    var main: seq<Main>
    var upd: seq<Upd>
    /** The edges of the current batch, sorted. */
    ghost var batch: seq<nat>

    ghost predicate Valid()
      reads this
    {
      && |main| == |upd| == numDirEdges && AllOk(main, dvCount)
      && forall idx :: 0 <= idx < numDirEdges ==> UpdOk(upd[idx]) && Says(upd[idx], batch, idx)
    }

    constructor (numDirEdges: nat)
      ensures Valid() && this.numDirEdges == numDirEdges && dvCount == 0 && batch == []
    {
      this.numDirEdges := numDirEdges;
      dvCount, batch := 0, [];
      main := seq(numDirEdges, _ => Main([], [], [], 0));
      upd := seq(numDirEdges, _ => CLEARED);
    }

    /** The main list of a data vertex. */
    function MainList(idx: nat, u: nat): seq<nat>
      requires Valid() && idx < numDirEdges && u < dvCount
      reads this
    {
      assert MainOk(main[idx], dvCount) && Fits(main[idx], u);
      ListAt(main[idx], u)
    }

    /** The lists that readers see are strictly ascending, and at least half of the data that is kept is live. */
    lemma ListsAreSorted(idx: nat, u: nat)
      requires Valid() && idx < numDirEdges && u < dvCount
      ensures Strict(MainList(idx, u))
      ensures main[idx].live == Sum(main[idx].len)
      ensures main[idx].live > 0 ==> |main[idx].data| <= 2 * main[idx].live
    {
      assert MainOk(main[idx], dvCount) && Fits(main[idx], u);
    }

    /** The update list of a data vertex: it holds a neighbour as often as the batch has the edge. */
    method UpdateList(idx: nat, u: nat) returns (list: seq<nat>)
      requires Valid() && idx < numDirEdges
      ensures list == Vs(batch, idx, u)
    {
      list := UpdateListOf(upd[idx], u, batch, idx);
    }

    /** Makes room for more data vertices, with empty lists, or cuts the last ones off.  Lists that are cut off go on
        being counted as live, so the mirror stays as it should be exactly when these were empty. */
    method ResizeForDVCount(count: nat)
      requires Valid()
      modifies this`dvCount, this`main
      ensures dvCount == count && |main| == numDirEdges
      ensures forall idx, u :: 0 <= idx < numDirEdges && 0 <= u < count ==> Fits(main[idx], u)
      ensures forall idx, u :: 0 <= idx < numDirEdges && 0 <= u < count ==>
        ListAt(main[idx], u) == if u < old(dvCount) then old(MainList(idx, u)) else []
      ensures Valid() <==> forall idx, u :: 0 <= idx < numDirEdges && count <= u < old(dvCount) ==> old(MainList(idx, u)) == []
    {
      ghost var main0, n := main, dvCount;
      var resized := seq(numDirEdges, (idx: nat) requires idx < numDirEdges && idx < |main| reads this => Resized(main[idx], count));
      forall idx | 0 <= idx < numDirEdges
        ensures forall u :: 0 <= u < count ==> Fits(resized[idx], u)
        ensures forall u :: 0 <= u < count ==> ListAt(resized[idx], u) == if u < dvCount then MainList(idx, u) else []
        ensures MainOk(resized[idx], count) <==> EmptyFrom(main0[idx], count, n)
      {
        assert MainOk(main[idx], dvCount);
        ResizedLists(main[idx], dvCount, count);
        ResizedOk(main[idx], dvCount, count);
      }
      CutLists(count);
      main, dvCount := resized, count;
      StillValid();
      assert AllOk(main, count) <==> forall idx :: 0 <= idx < numDirEdges ==> EmptyFrom(main0[idx], count, n);
    }

    lemma CutLists(count: nat)
      requires Valid()
      ensures (forall idx :: 0 <= idx < numDirEdges ==> EmptyFrom(main[idx], count, dvCount)) <==>
        forall idx, u :: 0 <= idx < numDirEdges && count <= u < dvCount ==> MainList(idx, u) == []
    {
      forall idx, u | 0 <= idx < numDirEdges && count <= u < dvCount
        ensures ListEmpty(main[idx], u) <==> MainList(idx, u) == []
      {
        assert MainOk(main[idx], dvCount) && Fits(main[idx], u);
      }
      forall idx | 0 <= idx < numDirEdges
        ensures EmptyFrom(main[idx], count, dvCount) <==> forall u :: count <= u < dvCount ==> MainList(idx, u) == []
      {
      }
    }

    twostate lemma StillValid()
      requires old(Valid()) && upd == old(upd) && batch == old(batch) && |main| == numDirEdges
      ensures Valid() <==> AllOk(main, dvCount)
    {
      hide AllOk, UpdOk, Says;
    }

    /** Merges the sorted edges into the main lists, or takes them out, group by group. */
    method Merge(s: seq<nat>, isInsert: bool)
      requires Valid() && Known(s, numDirEdges, dvCount) && Ascending(s) && (isInsert ==> Strict(s))
      modifies this`main
      ensures Valid() && AllMerged(old(main), main, dvCount, s, isInsert)
    {
      var groups := GroupByIdx(s);
      NoneMerged(s, groups, isInsert);
      for g := 0 to |groups|
        invariant Valid() && MergedBefore(old(main), s, groups, g, isInsert)
      {
        MergeNext(s, groups, g, isInsert, old(main));
      }
      EveryMerged(old(main), s, groups, isInsert);
    }

    lemma NoneMerged(s: seq<nat>, groups: seq<Group>, isInsert: bool)
      requires Valid() && Grouped(s, groups, |s|)
      ensures MergedBefore(main, s, groups, 0, isInsert)
    {
      if groups != [] { assert Adjoins(groups, 0); }
      NothingAtAll(main, dvCount, s, isInsert);
    }

    lemma EveryMerged(main0: seq<Main>, s: seq<nat>, groups: seq<Group>, isInsert: bool)
      requires MergedBefore(main0, s, groups, |groups|, isInsert)
      ensures AllMerged(main0, main, dvCount, s, isInsert)
    {
      assert s[..|s|] == s;
    }

    /** The groups before `g` have been merged. */
    ghost predicate MergedBefore(main0: seq<Main>, s: seq<nat>, groups: seq<Group>, g: nat, isInsert: bool)
      reads this
    {
      Start(s, groups, g) <= |s| && AllMerged(main0, main, dvCount, s[..Start(s, groups, g)], isInsert)
    }

    method MergeNext(s: seq<nat>, groups: seq<Group>, g: nat, isInsert: bool, ghost main0: seq<Main>)
      requires Valid() && Known(s, numDirEdges, dvCount) && Ascending(s) && (isInsert ==> Strict(s))
      requires Grouped(s, groups, |s|) && g < |groups| && MergedBefore(main0, s, groups, g, isInsert)
      modifies this`main
      ensures Valid() && MergedBefore(main0, s, groups, g + 1, isInsert)
    {
      var m' := MergeGroup(s, groups, g, isInsert);
      GroupMerged(main0, main, m', dvCount, s, groups[g], isInsert);
      main := main[groups[g].idx := m'];
    }

    method MergeGroup(s: seq<nat>, groups: seq<Group>, g: nat, isInsert: bool) returns (m': Main)
      requires Valid() && Known(s, numDirEdges, dvCount) && Ascending(s) && (isInsert ==> Strict(s))
      requires Grouped(s, groups, |s|) && g < |groups|
      ensures GroupOk(s, groups[g]) && groups[g].idx < |main| && Start(s, groups, g) == groups[g].start && Start(s, groups, g + 1) == groups[g].end
      ensures MainOk(m', dvCount) && MergedTo(main[groups[g].idx], m', dvCount, s, groups[g].start, groups[g].end, groups[g].idx, isInsert)
    {
      GroupKnown(s, groups, g, numDirEdges, dvCount);
      var idx, start, end := groups[g].idx, groups[g].start, groups[g].end;
      m' := MergeIdxMain(main[idx], dvCount, idx, s, start, end, isInsert);
    }

    /** Adds the edges to the main lists; edges may come in any order and more than once. */
    method MergeInsert(edges: seq<nat>)
      requires Valid() && Known(edges, numDirEdges, dvCount)
      modifies this`main
      ensures Valid() && AllMerged(old(main), main, dvCount, edges, true)
    {
      var sorted := Sort(edges);
      SameElements(sorted, edges);
      var s := Unique(sorted);
      Merge(s, true);
      MergedContents(old(main), main, dvCount, s, edges, true);
    }

    /** Takes the edges out of the main lists; it is no matter whether they are in. */
    method MergeRemove(edges: seq<nat>)
      requires Valid() && Known(edges, numDirEdges, dvCount)
      modifies this`main
      ensures Valid() && AllMerged(old(main), main, dvCount, edges, false)
    {
      var s := Sort(edges);
      SameElements(s, edges);
      Merge(s, false);
      MergedContents(old(main), main, dvCount, s, edges, false);
    }

    /** Builds the main lists from sorted edges without repetition.  The code clears the data but not the lengths, so
        this gives the lists of the edges exactly when all lists were empty. */
    method InitFromSortedEdges(s: seq<nat>)
      requires Valid() && Known(s, numDirEdges, dvCount) && Strict(s)
      modifies this`main
      ensures |main| == numDirEdges && AllLonger(old(main), main, dvCount, s, |s|)
      ensures Valid() && (forall idx, u :: 0 <= idx < numDirEdges && 0 <= u < dvCount ==> MainList(idx, u) == Vs(s, idx, u)) <==>
        forall idx, u :: 0 <= idx < numDirEdges && 0 <= u < dvCount ==> old(MainList(idx, u)) == []
    {
      ghost var main0, empty := main, AllEmpty(main, dvCount);
      assert empty <==> forall idx, u :: 0 <= idx < numDirEdges && 0 <= u < dvCount ==> MainList(idx, u) == [] by { EmptyLists(); }
      ClearData(s);
      var groups := GroupByIdx(s);
      AtStart(s, groups);
      for g := 0 to |groups|
        invariant |main| == numDirEdges && Start(s, groups, g) <= |s| && AllLonger(main0, main, dvCount, s, Start(s, groups, g))
        invariant empty ==> Valid() && AllBuilt(main, dvCount, s, Start(s, groups, g))
      {
        BuildNext(s, groups, g, main0, empty);
      }
      if empty {
        AllRead(s);
      } else if Valid() {
        TooLong(main0, s);
      }
    }

    lemma EmptyLists()
      requires Valid()
      ensures AllEmpty(main, dvCount) <==> forall idx, u :: 0 <= idx < numDirEdges && 0 <= u < dvCount ==> MainList(idx, u) == []
    {
      forall idx, u | 0 <= idx < numDirEdges && 0 <= u < dvCount
        ensures ListEmpty(main[idx], u) <==> MainList(idx, u) == []
      {
        assert MainOk(main[idx], dvCount) && Fits(main[idx], u);
      }
    }

    /** A list that was not empty has become too long. */
    lemma TooLong(main0: seq<Main>, s: seq<nat>)
      requires Valid() && AllOk(main0, dvCount) && !AllEmpty(main0, dvCount) && AllLonger(main0, main, dvCount, s, |s|)
      ensures exists idx, u :: 0 <= idx < numDirEdges && 0 <= u < dvCount && MainList(idx, u) != Vs(s, idx, u)
    {
      hide Vs, MainOk, Longer;
      var idx, u :| 0 <= idx < |main0| && 0 <= u < dvCount && !ListEmpty(main0[idx], u);
      assert MainOk(main0[idx], dvCount) && MainOk(main[idx], dvCount);
      assert s[..|s|] == s && Longer(main0[idx], main[idx], dvCount, s[..|s|], idx);
      OneTooLong(main0[idx], main[idx], dvCount, s, idx, u);
    }

    lemma AtStart(s: seq<nat>, groups: seq<Group>)
      requires Grouped(s, groups, |s|)
      ensures Start(s, groups, 0) == 0
    {
      if groups != [] { assert Adjoins(groups, 0); }
    }

    lemma AllRead(s: seq<nat>)
      requires Valid() && AllBuilt(main, dvCount, s, |s|)
      ensures forall idx, u :: 0 <= idx < numDirEdges && 0 <= u < dvCount ==> MainList(idx, u) == Vs(s, idx, u)
    {
      var t := s[..|s|];
      assert t == s;
      forall idx, u | 0 <= idx < numDirEdges && 0 <= u < dvCount
        ensures MainList(idx, u) == Vs(s, idx, u)
      {
        assert ListSays(main[idx], u, t, idx);
      }
    }

    method ClearData(ghost s: seq<nat>)
      requires Valid()
      modifies this`main
      ensures |main| == numDirEdges && AllLonger(old(main), main, dvCount, s, 0)
      ensures AllEmpty(old(main), dvCount) ==> Valid() && AllBuilt(main, dvCount, s, 0)
    {
      ghost var main0, empty := main, AllEmpty(main, dvCount);
      var cleared := seq(numDirEdges, (idx: nat) requires idx < numDirEdges && idx < |main| reads this => main[idx].(data := []));
      var t := s[..0];
      forall idx | 0 <= idx < numDirEdges
        ensures Longer(main[idx], cleared[idx], dvCount, t, idx)
        ensures empty ==> MainOk(cleared[idx], dvCount) && Blank(cleared[idx], dvCount)
        ensures empty ==> forall u :: 0 <= u < dvCount ==> ListSays(cleared[idx], u, t, idx)
      {
        assert MainOk(main[idx], dvCount);
        if empty {
          forall u | 0 <= u < dvCount
            ensures main[idx].len[u] == 0
          {
            assert ListEmpty(main[idx], u);
          }
          ClearOk(main[idx], dvCount, t, idx);
        }
      }
      main := cleared;
    }

    method BuildNext(s: seq<nat>, groups: seq<Group>, g: nat, ghost main0: seq<Main>, ghost empty: bool)
      requires |main| == numDirEdges && Known(s, numDirEdges, dvCount) && Strict(s)
      requires Grouped(s, groups, |s|) && Maximal(s, groups) && g < |groups|
      requires Start(s, groups, g) <= |s| && AllLonger(main0, main, dvCount, s, Start(s, groups, g))
      requires empty ==> Valid() && AllBuilt(main, dvCount, s, Start(s, groups, g))
      modifies this`main
      ensures |main| == numDirEdges && Start(s, groups, g + 1) <= |s| && AllLonger(main0, main, dvCount, s, Start(s, groups, g + 1))
      ensures empty ==> Valid() && AllBuilt(main, dvCount, s, Start(s, groups, g + 1))
    {
      hide Blank, Vs, Grouped, Maximal, NoneOf, AllOk, MainOk, UpdOk, Says, AllBuilt, Strict, Ascending;
      GroupReadyFor(s, groups, g, numDirEdges, dvCount);
      var group := groups[g];
      assert Longer(main0[group.idx], main[group.idx], dvCount, s[..group.start], group.idx);
      var m' := BuildGroup(main[group.idx], dvCount, s, group);
      GroupLonger(main0, main, m', dvCount, s, group);
      if empty { NextBuilt(main, m', dvCount, s, group); }
      main := main[group.idx := m'];
    }

    /** Replaces the update lists by those of a new batch, in any order and with its repetitions. */
    method RebuildUpdate(edges: seq<nat>)
      requires Valid() && Known(edges, numDirEdges, dvCount)
      modifies this`upd, this`batch
      ensures Valid() && Ascending(batch) && multiset(batch) == multiset(edges)
    {
      var s := Sort(edges);
      SameElements(s, edges);
      upd := seq(numDirEdges, _ => CLEARED);
      var groups := GroupByIdx(s);
      AtStart(s, groups);
      ClearedSays(s);
      for g := 0 to |groups|
        invariant |upd| == numDirEdges && Start(s, groups, g) <= |s| && AllSay(upd, s, Start(s, groups, g))
      {
        RebuildNext(s, groups, g);
      }
      batch := s;
      assert s[..|s|] == s;
    }

    lemma ClearedSays(s: seq<nat>)
      requires |upd| == numDirEdges && forall idx :: 0 <= idx < numDirEdges ==> upd[idx] == CLEARED
      ensures AllSay(upd, s, 0)
    {
      var t := s[..0];
      forall idx | 0 <= idx < numDirEdges
        ensures UpdOk(upd[idx]) && Says(upd[idx], t, idx)
      {
        forall u: nat
          ensures Silent(upd[idx], t, idx, u)
        {
        }
      }
    }

    method RebuildNext(s: seq<nat>, groups: seq<Group>, g: nat)
      requires |upd| == numDirEdges && Known(s, numDirEdges, dvCount) && Ascending(s)
      requires Grouped(s, groups, |s|) && Maximal(s, groups) && g < |groups|
      requires Start(s, groups, g) <= |s| && AllSay(upd, s, Start(s, groups, g))
      modifies this`upd
      ensures |upd| == numDirEdges && Start(s, groups, g + 1) <= |s| && AllSay(upd, s, Start(s, groups, g + 1))
    {
      GroupFresh(s, groups, g);
      GroupKnown(s, groups, g, numDirEdges, dvCount);
      var d := RebuildGroup(s, groups[g]);
      GroupSaid(upd, d, s, groups[g]);
      upd := upd[groups[g].idx := d];
    }

    /** After a rebuild, an update list holds a neighbour as often as the batch has the edge. */
    lemma UpdateListCounts(edges: seq<nat>, idx: nat, u: nat, v: nat)
      requires multiset(batch) == multiset(edges) && Ascending(batch) && u < U_RANGE && v < V_RANGE
      ensures Ascending(Vs(batch, idx, u))
      ensures multiset(Vs(batch, idx, u))[v] == multiset(edges)[Encode(idx, u, v)]
    {
      VsAscends(batch, idx, u);
      VsCount(batch, idx, u, v);
    }
  }

  lemma GroupReadyFor(s: seq<nat>, groups: seq<Group>, g: nat, dirs: nat, n: nat)
    requires Known(s, dirs, n) && Strict(s) && Grouped(s, groups, |s|) && Maximal(s, groups) && g < |groups|
    ensures GroupReady(s, groups[g], n) && NoneOf(s, groups[g].start, groups[g].idx) && groups[g].idx < dirs
    ensures Start(s, groups, g) == groups[g].start && Start(s, groups, g + 1) == groups[g].end <= |s|
  {
    GroupFresh(s, groups, g);
    GroupKnown(s, groups, g, dirs, n);
    assert forall k :: 0 <= k < |s| ==> s[k] in s;
  }

  lemma NextBuilt(main: seq<Main>, m': Main, n: nat, s: seq<nat>, g: Group)
    requires GroupOk(s, g) && NoneOf(s, g.start, g.idx) && g.idx < |main| && AllOk(main, n) && AllBuilt(main, n, s, g.start)
    requires Blank(main[g.idx], n) ==> MainOk(m', n) && forall u :: 0 <= u < n ==> ListAt(m', u) == Vs(s[g.start..g.end], g.idx, u)
    ensures AllOk(main[g.idx := m'], n) && AllBuilt(main[g.idx := m'], n, s, g.end)
  {
    hide Vs, Blank, ListSays, MainOk;
    assert Blank(main[g.idx], n);
    GroupBuilt(main, m', n, s, g);
  }

  lemma OneTooLong(m0: Main, m: Main, n: nat, s: seq<nat>, idx: nat, u: nat)
    requires MainOk(m0, n) && MainOk(m, n) && u < n && !ListEmpty(m0, u) && Longer(m0, m, n, s, idx)
    ensures Fits(m, u) && ListAt(m, u) != Vs(s, idx, u)
  {
    assert Fits(m0, u) && Fits(m, u);
    assert |ListAt(m, u)| == m.len[u] > |Vs(s, idx, u)|;
  }

  lemma ClearOk(m: Main, n: nat, t: seq<nat>, idx: nat)
    requires MainOk(m, n) && t == [] && forall u :: 0 <= u < n ==> m.len[u] == 0
    ensures MainOk(m.(data := []), n) && Blank(m.(data := []), n)
    ensures forall u :: 0 <= u < n ==> ListSays(m.(data := []), u, t, idx)
  {
    SumZero(m.len);
  }

  /** Where group `g` starts; behind the last group, the end of the edges. */
  function Start(s: seq<nat>, groups: seq<Group>, g: nat): nat {
    if g < |groups| then groups[g].start else |s|
  }

  lemma GroupKnown(s: seq<nat>, groups: seq<Group>, g: nat, dirs: nat, n: nat)
    requires Known(s, dirs, n) && Grouped(s, groups, |s|) && g < |groups|
    ensures GroupOk(s, groups[g]) && groups[g].idx < dirs && Start(s, groups, g + 1) == groups[g].end
    ensures forall k :: groups[g].start <= k < groups[g].end ==> EdgeU(s[k]) < n
  {
    assert GroupOk(s, groups[g]);
    if g + 1 < |groups| { assert Adjoins(groups, g + 1); }
    assert s[groups[g].start] in s;
    forall k | groups[g].start <= k < groups[g].end
      ensures EdgeU(s[k]) < n
    {
      assert s[k] in s;
    }
  }

  lemma NothingAtAll(main: seq<Main>, n: nat, s: seq<nat>, isInsert: bool)
    requires AllOk(main, n)
    ensures AllMerged(main, main, n, [], isInsert) && s[..0] == []
  {
    forall idx, u | 0 <= idx < |main| && 0 <= u < n
      ensures ListMerged(main[idx], main[idx], u, [], idx, isInsert)
    {
      assert MainOk(main[idx], n) && Fits(main[idx], u);
    }
  }

  lemma SameElements(s: seq<nat>, t: seq<nat>)
    requires multiset(s) == multiset(t)
    ensures forall e :: e in s <==> e in t
  {
    forall e
      ensures e in s <==> e in t
    {
      assert e in multiset(s) <==> e in multiset(t);
    }
  }

  /** Merging sorted edges is merging the edges. */
  lemma MergedContents(main0: seq<Main>, main: seq<Main>, n: nat, s: seq<nat>, edges: seq<nat>, isInsert: bool)
    requires AllMerged(main0, main, n, s, isInsert) && forall e :: e in s <==> e in edges
    ensures AllMerged(main0, main, n, edges, isInsert)
  {
    forall idx, u | 0 <= idx < |main| && 0 <= u < n
      ensures ListMerged(main0[idx], main[idx], u, edges, idx, isInsert)
    {
      assert ListMerged(main0[idx], main[idx], u, s, idx, isInsert);
      VsSame(s, edges, idx, u);
    }
  }

  /** More data vertices, with empty lists, or fewer. */
  function Resized(m: Main, count: nat): Main {
    Main(Cut(m.ptr, count), Cut(m.len, count), m.data, m.live)
  }

  function Cut(s: seq<nat>, count: nat): seq<nat> {
    if count <= |s| then s[..count] else s + Zeros(count - |s|)
  }

  function Zeros(n: int): (r: seq<nat>)
    ensures |r| == (if n < 0 then 0 else n) && forall i :: 0 <= i < |r| ==> r[i] == 0
  {
    if n <= 0 then [] else seq(n, _ => 0)
  }

  lemma ResizedLists(m: Main, n: nat, count: nat)
    requires MainOk(m, n)
    ensures |m.len| == n && forall u :: 0 <= u < n ==> Fits(m, u)
    ensures forall u :: 0 <= u < count ==> Fits(Resized(m, count), u)
    ensures forall u :: 0 <= u < count ==> ListAt(Resized(m, count), u) == if u < n then ListAt(m, u) else []
    ensures ListsOk(Resized(m, count), count)
  {
    var c := Resized(m, count);
    forall u | 0 <= u < count
      ensures Fits(c, u) && Strict(ListAt(c, u)) && ListAt(c, u) == if u < n then ListAt(m, u) else []
    {
      if u < n { assert Fits(m, u); }
    }
  }

  /** No list from `count` on has a place. */
  ghost predicate EmptyFrom(m: Main, count: nat, n: nat) {
    forall u :: count <= u < n ==> ListEmpty(m, u)
  }

  lemma ResizedOk(m: Main, n: nat, count: nat)
    requires MainOk(m, n)
    ensures MainOk(Resized(m, count), count) <==> EmptyFrom(m, count, n)
  {
    hide ListsOk;
    ResizedLists(m, n, count);
    ResizedSum(m.len, count);
    forall u | count <= u < n
      ensures ListEmpty(m, u) <==> m.len[u] == 0
    {
    }
  }

  lemma ResizedSum(len: seq<nat>, count: nat)
    ensures Sum(Cut(len, count)) == Sum(len) <==> forall u :: count <= u < |len| ==> len[u] == 0
  {
    hide Sum;
    if |len| < count {
      SumZeros(len, count - |len|);
    } else {
      SumFront(len, count);
    }
  }

  /** The front of the numbers has the whole sum exactly when the others are 0. */
  lemma {:induction false} SumFront(len: seq<nat>, k: nat)
    requires k <= |len|
    ensures Sum(len[..k]) <= Sum(len)
    ensures Sum(len[..k]) == Sum(len) <==> forall u :: k <= u < |len| ==> len[u] == 0
    decreases |len|
  {
    if k < |len| {
      var init := len[..|len| - 1];
      assert init[..k] == len[..k];
      SumFront(init, k);
      assert forall u :: k <= u < |init| ==> init[u] == len[u];
    } else {
      assert len[..k] == len;
    }
  }

  lemma {:induction false} SumZeros(len: seq<nat>, n: nat)
    ensures Sum(len + Zeros(n)) == Sum(len)
    decreases n
  {
    if n == 0 {
      assert len + Zeros(0) == len;
    } else {
      assert (len + Zeros(n))[..|len| + n - 1] == len + Zeros(n - 1);
      SumZeros(len, n - 1);
    }
  }
}
