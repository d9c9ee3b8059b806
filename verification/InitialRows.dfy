/** The first frontier: for every query edge with updates, the pairs of data vertices that the first
    two positions of the matching order can take. */
module InitialRows {
  import opened Sequences
  import Graphs
  import opened MatchSearch
  import opened QueryPlan
  import opened ExactlyOnce
  import opened CpuDfs
  import opened Frontier

  /** The support masks keep every vertex of every match that a search has to report. */
  ghost predicate Covers(b: Batch)
    requires b.Valid()
  {
    forall ei, f, d :: 0 <= ei < b.plan.m && f in MatchesOf(EdgeSearch(b.plan, b.main, b.upd, ei), b.dv) && 0 <= d < |f| ==>
      d < |b.plan.vs| && b.support(ei, b.plan.vs[d], f[d])
  }

  /** No data edge is a loop. */
  ghost predicate NoLoops(b: Batch) {
    forall idx, v :: v !in b.main(idx, v) && v !in b.upd(idx, v)
  }

  /** The batch has no update for the directed query edge `idx`. */
  ghost predicate NoUpdates(b: Batch, idx: nat) {
    forall v :: b.upd(idx, v) == []
  }

  /** A query edge is skipped only when it has no update in one of its two directions. */
  ghost predicate SkipsIdle(b: Batch, edgeOk: seq<bool>)
    requires b.plan.Valid()
  {
    && |edgeOk| == b.plan.m
    && forall d: nat, k: nat :: IsEdge(b.plan.bni, d, k) && Number(b.plan, d, k) < b.plan.m && !edgeOk[Number(b.plan, d, k)] ==>
        NoUpdates(b, b.plan.Dir(b.plan.bni[d][k], d)) || NoUpdates(b, b.plan.Dir(d, b.plan.bni[d][k]))
  }

  /** The two directions of a query edge have the same updates. */
  ghost predicate Mirrored(b: Batch)
    requires b.plan.Valid()
  {
    forall d: nat, k: nat, v: nat, y: nat :: IsEdge(b.plan.bni, d, k) ==>
      (y in b.upd(b.plan.Dir(b.plan.bni[d][k], d), v) <==> v in b.upd(b.plan.Dir(d, b.plan.bni[d][k]), y))
  }

  ghost predicate Ready(b: Batch, edgeOk: seq<bool>) {
    b.Valid() && |b.plan.bni[1]| == 1 && Numbered(b.plan) && Covers(b) && NoLoops(b) && Mirrored(b) && SkipsIdle(b, edgeOk)
  }

  /** The matches of edge `ei` that map the first position to a vertex below `v`. */
  function UpTo(b: Batch, ei: nat, v: nat): nat
    requires b.plan.Valid()
  {
    |MatchesOf(EdgeSearch(b.plan, b.main, b.upd, ei), v)|
  }

  /** A row of the first frontier: the query edge and the images of the first two positions. */
  datatype Start = Start(ei: nat, v: nat, y: nat)

  /** Both vertices pass the mask of the query edge, and the second one is in a visible list of the first one. */
  predicate CanStart(b: Batch, t: Start)
    requires b.plan.Valid()
  {
    && t.v < b.dv && b.support(t.ei, b.plan.vs[0], t.v) && b.support(t.ei, b.plan.vs[1], t.y)
    && t.y in Visible(b.plan, b.main, b.upd, t.ei, b.plan.Dir(0, 1), t.v)
  }

  /** What the first frontier has to hold. */
  ghost function Starts(b: Batch, edgeOk: seq<bool>): set<Start>
    requires b.plan.Valid()
  {
    set ei, v, y | 0 <= ei < |edgeOk| && edgeOk[ei] && 0 <= v < b.dv && y in Visible(b.plan, b.main, b.upd, ei, b.plan.Dir(0, 1), v) &&
                   CanStart(b, Start(ei, v, y)) :: Start(ei, v, y)
  }

  /** The words are the packed rows, in this order. */
  ghost predicate Packs(words: seq<nat>, starts: seq<Start>) {
    && |words| == 2 * |starts|
    && forall k :: 0 <= k < |starts| ==> words[2 * k] == Pack(starts[k].ei, starts[k].v) && words[2 * k + 1] == starts[k].y
  }

  lemma PacksConcat(words: seq<nat>, starts: seq<Start>, more: seq<nat>, rest: seq<Start>)
    requires Packs(words, starts) && Packs(more, rest)
    ensures Packs(words + more, starts + rest)
  {
    forall k | 0 <= k < |starts + rest|
      ensures (words + more)[2 * k] == Pack((starts + rest)[k].ei, (starts + rest)[k].v) && (words + more)[2 * k + 1] == (starts + rest)[k].y
    {
      if k >= |starts| {
        var i := k - |starts|;
        assert rest[i] == (starts + rest)[k] && (words + more)[2 * k] == more[2 * i] && (words + more)[2 * k + 1] == more[2 * i + 1];
      }
    }
  }

  lemma PacksOne(words: seq<nat>, starts: seq<Start>, t: Start)
    requires Packs(words, starts)
    ensures Packs(words + [Pack(t.ei, t.v), t.y], starts + [t])
  {
    PacksConcat(words, starts, [Pack(t.ei, t.v), t.y], [t]);
  }

  /** The rows of query edge `ei` with first vertices from `lo` up to `hi`, each once. */
  ghost predicate Rows(b: Batch, ei: nat, lo: nat, hi: nat, starts: seq<Start>)
    requires b.plan.Valid()
  {
    Distinct(starts) && forall t :: t in starts <==> t.ei == ei && lo <= t.v < hi && CanStart(b, t)
  }

  lemma RowsConcat(b: Batch, ei: nat, lo: nat, mid: nat, hi: nat, starts: seq<Start>, rest: seq<Start>)
    requires b.plan.Valid() && lo <= mid <= hi && Rows(b, ei, lo, mid, starts) && Rows(b, ei, mid, hi, rest)
    ensures Rows(b, ei, lo, hi, starts + rest)
  {
    hide CanStart;
    DistinctConcat(starts, rest);
  }

  lemma DistinctConcat(s: seq<Start>, r: seq<Start>)
    requires Distinct(s) && Distinct(r) && forall t :: t in s ==> t !in r
    ensures Distinct(s + r)
  {
    forall i, j | 0 <= i < j < |s + r|
      ensures (s + r)[i] != (s + r)[j]
    {
      if i < |s| <= j { assert s[i] in s && r[j - |s|] in r; }
    }
  }

  /** The rows of the query edges below `top` that are not skipped, each once. */
  ghost predicate AllRows(b: Batch, edgeOk: seq<bool>, top: nat, starts: seq<Start>)
    requires b.plan.Valid()
  {
    Distinct(starts) && forall t :: t in starts <==> t.ei < top && t.ei < |edgeOk| && edgeOk[t.ei] && CanStart(b, t)
  }

  lemma AllRowsNext(b: Batch, edgeOk: seq<bool>, ei: nat, starts: seq<Start>, rest: seq<Start>)
    requires b.plan.Valid() && ei < |edgeOk| && AllRows(b, edgeOk, ei, starts)
    requires if edgeOk[ei] then Rows(b, ei, 0, b.dv, rest) else rest == []
    ensures AllRows(b, edgeOk, ei + 1, starts + rest)
  {
    hide Visible;
    DistinctConcat(starts, rest);
  }

  lemma AllRowsAre(b: Batch, edgeOk: seq<bool>, starts: seq<Start>)
    requires b.plan.Valid() && AllRows(b, edgeOk, |edgeOk|, starts)
    ensures |starts| == |Starts(b, edgeOk)| && forall t :: t in starts <==> t in Starts(b, edgeOk)
  {
    hide Visible;
    forall t: Start
      ensures t in Starts(b, edgeOk) <==> t.ei < |edgeOk| && edgeOk[t.ei] && CanStart(b, t)
    {
      assert t == Start(t.ei, t.v, t.y);
    }
    DistinctSize(starts, Starts(b, edgeOk));
  }

  /** One data vertex more at the first position. */
  lemma OneVertex(b: Batch, ei: nat, v: nat)
    requires b.plan.Valid()
    ensures var p := EdgeSearch(b.plan, b.main, b.upd, ei);
      && UpTo(b, ei, v + 1) == UpTo(b, ei, v) + |Complete(p, p.n, [v])|
      && (forall f :: f in Complete(p, p.n, [v]) ==> f in MatchesOf(p, v + 1))
  {
    var p := EdgeSearch(b.plan, b.main, b.upd, ei);
    assert Seeds(v + 1) == Seeds(v) + [[v]];
    PassConcat(p, p.n, Seeds(v), [[v]]);
    assert Pass(p, p.n, [[v]]) == Complete(p, p.n, [v]) + Pass(p, p.n, []);
  }

  lemma {:induction false} MatchesGrow(b: Batch, ei: nat, v: nat, w: nat, f: Row)
    requires b.plan.Valid() && v <= w && f in MatchesOf(EdgeSearch(b.plan, b.main, b.upd, ei), v)
    ensures f in MatchesOf(EdgeSearch(b.plan, b.main, b.upd, ei), w)
  {
    var p := EdgeSearch(b.plan, b.main, b.upd, ei);
    PassContents(p, p.n, Seeds(v), 1);
    PassContents(p, p.n, Seeds(w), 1);
    assert f[..1] in Seeds(v);
    var k :| 0 <= k < v && Seeds(v)[k] == f[..1];
    assert Seeds(w)[k] == f[..1];
  }

  lemma SeedMatch(b: Batch, ei: nat, v: nat, f: Row)
    requires b.plan.Valid() && v < b.dv && f in Complete(EdgeSearch(b.plan, b.main, b.upd, ei), b.plan.n, [v])
    ensures f in MatchesOf(EdgeSearch(b.plan, b.main, b.upd, ei), b.dv) && |f| == b.plan.n && f[0] == v
  {
    hide Complete, MatchesOf;
    var q := EdgeSearch(b.plan, b.main, b.upd, ei);
    OneVertex(b, ei, v);
    MatchesGrow(b, ei, v + 1, b.dv, f);
    CompleteContents(q, q.n, [v], f);
  }

  /** A masked search from one seed finds what the unmasked one finds. */
  lemma MaskedSeed(b: Batch, ei: nat, v: nat)
    requires b.Valid() && Covers(b) && ei < b.plan.m && v < b.dv
    ensures b.support(ei, b.plan.vs[0], v) ==>
      |Complete(b.P(ei), b.plan.n, [v])| == |Complete(EdgeSearch(b.plan, b.main, b.upd, ei), b.plan.n, [v])|
    ensures !b.support(ei, b.plan.vs[0], v) ==> Complete(EdgeSearch(b.plan, b.main, b.upd, ei), b.plan.n, [v]) == []
  {
    hide Complete, MatchesOf;
    var p, q := b.P(ei), EdgeSearch(b.plan, b.main, b.upd, ei);
    forall f | f in Complete(q, q.n, [v])
      ensures f in MatchesOf(q, b.dv) && |f| == q.n && f[0] == v
    {
      SeedMatch(b, ei, v, f);
    }
    if b.support(ei, b.plan.vs[0], v) {
      assert Unmasked(p) == q;
      assert MaskCovers(p, [v]);
      MaskIsInvisible(p, [v]);
    } else {
      if Complete(q, q.n, [v]) != [] {
        var f := Some(Complete(q, q.n, [v]));
        assert false;
      }
    }
  }

  lemma Some(rows: seq<Row>) returns (r: Row)
    requires rows != []
    ensures r in rows
  {
    r := rows[0];
  }

  /** A match runs over an update for its seed edge, in both directions. */
  lemma SeedHasUpdates(b: Batch, ei: nat, d: nat, k: nat, f: Row)
    requires b.plan.Valid() && Mirrored(b) && IsEdge(b.plan.bni, d, k) && Number(b.plan, d, k) == ei
    requires f in MatchesOf(EdgeSearch(b.plan, b.main, b.upd, ei), b.dv)
    ensures !NoUpdates(b, b.plan.Dir(b.plan.bni[d][k], d)) && !NoUpdates(b, b.plan.Dir(d, b.plan.bni[d][k]))
  {
    EdgeMatch(b.plan, b.main, b.upd, ei, b.dv, f);
    var j := b.plan.bni[d][k];
    assert f[d] in b.upd(b.plan.Dir(j, d), f[j]);
    assert f[j] in b.upd(b.plan.Dir(d, j), f[d]);
  }

  /** A skipped edge has nothing to report. */
  lemma IdleEdge(b: Batch, edgeOk: seq<bool>, ei: nat)
    requires Ready(b, edgeOk) && ei < b.plan.m && !edgeOk[ei]
    ensures UpTo(b, ei, b.dv) == 0 == Below(b, [], 2)
  {
    var all := MatchesOf(EdgeSearch(b.plan, b.main, b.upd, ei), b.dv);
    assert IsNumber(b.plan, ei);
    var d: nat, k: nat :| IsEdge(b.plan.bni, d, k) && Number(b.plan, d, k) == ei;
    if all != [] {
      var f := Some(all);
      SeedHasUpdates(b, ei, d, k, f);
      assert false;
    }
  }

  /** The rows of one data vertex, in the order of its lists. */
  method WriteVertex(b: Batch, edgeOk: seq<bool>, ei: nat, v: nat) returns (words: seq<nat>, count: nat, ghost starts: seq<Start>)
    requires Ready(b, edgeOk) && ei < b.plan.m && v < b.dv
    ensures |words| == Words(count, 2) && count == |starts| && Packs(words, starts) && Rows(b, ei, v, v + 1, starts)
    ensures Below(b, words, 2) == UpTo(b, ei, v + 1) - UpTo(b, ei, v)
  {
    hide UpTo, Below, Visible, Words;
    OneVertex(b, ei, v);
    MaskedSeed(b, ei, v);
    if b.support(ei, b.plan.vs[0], v) {
      words, count, starts := WritePairs(b, edgeOk, ei, v);
      PairsAre(b, ei, v, starts);
    } else {
      words, count, starts := [], 0, [];
      NoPairs(b, ei);
    }
  }

  /** The rows of one data vertex that pass the mask at the second position. */
  ghost predicate Pairs(b: Batch, ei: nat, v: nat, list: seq<nat>, starts: seq<Start>)
    requires b.plan.Valid()
  {
    Distinct(starts) && forall t :: t in starts <==> t.ei == ei && t.v == v && t.y in list && b.support(ei, b.plan.vs[1], t.y)
  }

  lemma PairsAre(b: Batch, ei: nat, v: nat, starts: seq<Start>)
    requires b.plan.Valid() && v < b.dv && b.support(ei, b.plan.vs[0], v)
    requires Pairs(b, ei, v, Visible(b.plan, b.main, b.upd, ei, b.plan.Dir(0, 1), v), starts)
    ensures Rows(b, ei, v, v + 1, starts)
  {
    hide Visible;
  }

  lemma PairsMore(b: Batch, ei: nat, v: nat, list: seq<nat>, j: nat, starts: seq<Start>)
    requires b.plan.Valid() && Distinct(list) && j < |list| && Pairs(b, ei, v, list[..j], starts)
    ensures Pairs(b, ei, v, list[..j + 1], starts + if b.support(ei, b.plan.vs[1], list[j]) then [Start(ei, v, list[j])] else [])
  {
    assert list[..j + 1] == list[..j] + [list[j]];
    assert list[j] !in list[..j];
  }

  /** One row per candidate that passes the mask. */
  method WritePairs(b: Batch, edgeOk: seq<bool>, ei: nat, v: nat) returns (words: seq<nat>, count: nat, ghost starts: seq<Start>)
    requires Ready(b, edgeOk) && ei < b.plan.m && v < b.dv
    ensures |words| == Words(count, 2) && count == |starts| && Packs(words, starts)
    ensures Pairs(b, ei, v, Visible(b.plan, b.main, b.upd, ei, b.plan.Dir(0, 1), v), starts)
    ensures Below(b, words, 2) == |Complete(b.P(ei), b.plan.n, [v])|
  {
    hide Pairs, Distinct, Packs, Visible, Complete, CompleteFrom, Below, Words, Covers, NoLoops, Mirrored, SkipsIdle;
    words, count, starts := [], 0, [];
    var list := Visible(b.plan, b.main, b.upd, ei, b.plan.Dir(0, 1), v);
    VisibleDistinct(b, ei, v);
    NoPairsYet(b, ei, v, list);
    ghost var rows := [];
    for j := 0 to |list|
      invariant rows == CompleteFrom(b.P(ei), 2, [v], list[..j])
      invariant forall r :: r in rows ==> |r| > 0
      invariant words == EncodeAll(ei, rows) && |rows| == count == |starts|
      invariant Packs(words, starts) && Pairs(b, ei, v, list[..j], starts)
    {
      var nbr := list[j];
      OneCandidate(b, ei, v, list, j);
      PairsMore(b, ei, v, list, j, starts);
      if b.support(ei, b.plan.vs[1], nbr) {
        EncodeAppend(ei, rows, [v, nbr]);
        PacksOne(words, starts, Start(ei, v, nbr));
        assert EncodeRow(ei, [v, nbr]) == [Pack(ei, v), nbr];
        words, count, starts := words + [Pack(ei, v), nbr], count + 1, starts + [Start(ei, v, nbr)];
        rows := rows + [[v, nbr]];
      } else {
        assert starts + [] == starts;
      }
    }
    assert list[..|list|] == list;
    SeedRows(b, ei, v, list, rows);
  }

  lemma VisibleDistinct(b: Batch, ei: nat, v: nat)
    requires b.Valid()
    ensures Distinct(Visible(b.plan, b.main, b.upd, ei, b.plan.Dir(0, 1), v))
  {
    StagedDistinct(b.plan, b.main, b.upd);
    assert Distinct(EdgeSearch(b.plan, b.main, b.upd, ei).lists(0, 1, v));
  }

  lemma NoPairsYet(b: Batch, ei: nat, v: nat, list: seq<nat>)
    requires b.Valid() && |b.plan.bni[1]| == 1
    ensures Pairs(b, ei, v, list[..0], []) && Packs([], [])
    ensures CompleteFrom(b.P(ei), 2, [v], list[..0]) == []
  {
  }

  lemma EncodeAppend(ei: nat, rows: seq<Row>, row: Row)
    requires |row| > 0 && forall r :: r in rows ==> |r| > 0
    ensures forall r :: r in rows + [row] ==> |r| > 0
    ensures EncodeAll(ei, rows + [row]) == EncodeAll(ei, rows) + EncodeRow(ei, row)
    decreases |rows|
  {
    if rows == [] {
      assert EncodeAll(ei, [row]) == EncodeRow(ei, row) + EncodeAll(ei, []);
    } else {
      assert (rows + [row])[1..] == rows[1..] + [row];
      EncodeAppend(ei, rows[1..], row);
    }
  }

  /** Candidate `j` of the first edge is kept exactly when the mask allows it. */
  lemma OneCandidate(b: Batch, ei: nat, v: nat, list: seq<nat>, j: nat)
    requires b.Valid() && NoLoops(b) && |b.plan.bni[1]| == 1 && j < |list|
    requires list == Visible(b.plan, b.main, b.upd, ei, b.plan.Dir(0, 1), v)
    ensures CompleteFrom(b.P(ei), 2, [v], list[..j + 1]) ==
      CompleteFrom(b.P(ei), 2, [v], list[..j]) + (if b.support(ei, b.plan.vs[1], list[j]) then [[v, list[j]]] else [])
  {
    var p := b.P(ei);
    assert list[..j + 1] == list[..j] + [list[j]];
    CompleteFromConcat(p, 2, [v], list[..j], [list[j]]);
    OneSeed(b, ei, v, list[j]);
  }

  lemma OneSeed(b: Batch, ei: nat, v: nat, y: nat)
    requires b.Valid() && NoLoops(b) && |b.plan.bni[1]| == 1 && y in Visible(b.plan, b.main, b.upd, ei, b.plan.Dir(0, 1), v)
    ensures CompleteFrom(b.P(ei), 2, [v], [y]) == if b.support(ei, b.plan.vs[1], y) then [[v, y]] else []
  {
    var p := b.P(ei);
    assert v != y;
    assert Joined(p, [v], y);
    assert [v] + [y] == [v, y];
    assert CompleteFrom(p, 2, [v], [y][1..]) == [];
  }

  lemma SeedRows(b: Batch, ei: nat, v: nat, list: seq<nat>, rows: seq<Row>)
    requires b.Valid() && |b.plan.bni[1]| == 1 && v < b.dv
    requires list == Visible(b.plan, b.main, b.upd, ei, b.plan.Dir(0, 1), v)
    requires rows == CompleteFrom(b.P(ei), 2, [v], list[..|list|])
    ensures rows == Complete(b.P(ei), 2, [v]) && forall r :: r in rows ==> |r| == 2
    ensures |EncodeAll(ei, rows)| == Words(|rows|, 2)
    ensures Below(b, EncodeAll(ei, rows), 2) == |Complete(b.P(ei), b.plan.n, [v])|
  {
    assert list[..|list|] == list == Candidates(b.P(ei), [v]);
    RowsKeepFirst(b.P(ei), 2, [v]);
    CompleteInTwo(b.P(ei), 2, b.plan.n, [v]);
    EncodedBelow(b, ei, rows, 2);
  }

  lemma Appended(b: Batch, words: seq<nat>, count: nat, more: seq<nat>, c: nat)
    requires b.Valid() && |words| == Words(count, 2) && |more| == Words(c, 2)
    ensures |words + more| == Words(count + c, 2)
    ensures Below(b, words + more, 2) == Below(b, words, 2) + Below(b, more, 2)
  {
    BelowConcat(b, words, count, more, 2);
    WordsAdd(count, c, 2);
  }

  /** The words hold the pairs of edge `ei` with first vertices below `v`. */
  ghost predicate Written(b: Batch, ei: nat, v: nat, words: seq<nat>, starts: seq<Start>)
    requires b.plan.Valid()
  {
    |words| == Words(|starts|, 2) && Below(b, words, 2) == UpTo(b, ei, v) && Packs(words, starts) && Rows(b, ei, 0, v, starts)
  }

  lemma NothingWritten(b: Batch, ei: nat)
    requires b.plan.Valid()
    ensures Written(b, ei, 0, [], [])
  {
    NoWords(2);
  }

  lemma WrittenMore(b: Batch, ei: nat, v: nat, words: seq<nat>, starts: seq<Start>, more: seq<nat>, rest: seq<Start>)
    requires b.Valid() && Written(b, ei, v, words, starts) && |more| == Words(|rest|, 2)
    requires Below(b, more, 2) == UpTo(b, ei, v + 1) - UpTo(b, ei, v) && Packs(more, rest) && Rows(b, ei, v, v + 1, rest)
    ensures Written(b, ei, v + 1, words + more, starts + rest)
  {
    hide UpTo, Below, Words, Packs, Rows;
    Appended(b, words, |starts|, more, |rest|);
    PacksConcat(words, starts, more, rest);
    RowsConcat(b, ei, 0, v, v + 1, starts, rest);
  }

  /** All initial rows of one query edge. */
  method WriteEdge(b: Batch, edgeOk: seq<bool>, ei: nat) returns (words: seq<nat>, count: nat, ghost starts: seq<Start>)
    requires Ready(b, edgeOk) && ei < b.plan.m
    ensures |words| == Words(count, 2) && count == |starts| && Packs(words, starts)
    ensures if edgeOk[ei] then Rows(b, ei, 0, b.dv, starts) else starts == []
    ensures Below(b, words, 2) == UpTo(b, ei, b.dv)
  {
    hide Written, UpTo, Below, Words, Packs, Rows, NoLoops, Mirrored, Covers;
    words, count, starts := [], 0, [];
    NothingWritten(b, ei);
    if !edgeOk[ei] {
      NoPairs(b, ei);
      IdleEdge(b, edgeOk, ei);
      return;
    }
    for v := 0 to b.dv
      invariant Written(b, ei, v, words, starts) && count == |starts|
    {
      var more, c;
      ghost var rest;
      more, c, rest := WriteVertex(b, edgeOk, ei, v);
      WrittenMore(b, ei, v, words, starts, more, rest);
      words, count, starts := words + more, count + c, starts + rest;
    }
    IsWritten(b, ei, b.dv, words, starts);
  }

  lemma NoPairs(b: Batch, ei: nat)
    requires b.plan.Valid()
    ensures Below(b, [], 2) == 0 == Words(0, 2) && Packs([], [])
  {
  }

  lemma IsWritten(b: Batch, ei: nat, v: nat, words: seq<nat>, starts: seq<Start>)
    requires b.plan.Valid() && Written(b, ei, v, words, starts)
    ensures |words| == Words(|starts|, 2) && Below(b, words, 2) == UpTo(b, ei, v) && Packs(words, starts) && Rows(b, ei, 0, v, starts)
  {
  }

  /** What the first `top` edge searches report. */
  function Through(b: Batch, top: nat): nat
    requires b.plan.Valid()
  {
    Reported(b.plan, b.main, b.upd, b.dv, top)
  }

  lemma ThroughNext(b: Batch, top: nat)
    requires b.plan.Valid()
    ensures Through(b, 0) == 0 == Below(b, [], 2)
    ensures Through(b, top + 1) == Through(b, top) + UpTo(b, top, b.dv)
  {
  }

  /** The rows of one more query edge. */
  method WriteNext(b: Batch, edgeOk: seq<bool>, ei: nat, words: seq<nat>, count: nat, ghost starts: seq<Start>)
    returns (words': seq<nat>, count': nat, ghost starts': seq<Start>)
    requires Ready(b, edgeOk) && ei < b.plan.m && AllRows(b, edgeOk, ei, starts) && Packs(words, starts)
    requires |words| == Words(count, 2) && Below(b, words, 2) == Through(b, ei) && count == |starts|
    ensures |words'| == Words(count', 2) && Below(b, words', 2) == Through(b, ei + 1)
    ensures count' == |starts'| && AllRows(b, edgeOk, ei + 1, starts') && Packs(words', starts')
  {
    hide Packs, Rows, AllRows, Below, Words, Through, UpTo, NoLoops, Mirrored, Covers;
    var more, c;
    ghost var rest;
    more, c, rest := WriteEdge(b, edgeOk, ei);
    ThroughNext(b, ei);
    Appended(b, words, count, more, c);
    PacksConcat(words, starts, more, rest);
    AllRowsNext(b, edgeOk, ei, starts, rest);
    words', count', starts' := words + more, count + c, starts + rest;
  }

  lemma NoRowsYet(b: Batch, edgeOk: seq<bool>)
    requires b.plan.Valid()
    ensures AllRows(b, edgeOk, 0, []) && Packs([], []) && Words(0, 2) == 0
  {
  }

  /** The first frontier holds exactly the rows that it has to hold, each once, and leads to exactly the matches that
      all edge searches together report. */
  method WriteInitial(b: Batch, edgeOk: seq<bool>) returns (words: seq<nat>, count: nat, ghost starts: seq<Start>)
    requires Ready(b, edgeOk)
    ensures Packs(words, starts) && Distinct(starts) && forall t :: t in starts <==> t in Starts(b, edgeOk)
    ensures |words| == Words(count, 2) && count == |Starts(b, edgeOk)|
    ensures Below(b, words, 2) == Through(b, b.plan.m)
  {
    hide Packs, AllRows, Below, Words, Through, NoLoops, Mirrored, Covers, Starts;
    words, count, starts := [], 0, [];
    ThroughNext(b, 0);
    NoRowsYet(b, edgeOk);
    for ei := 0 to b.plan.m
      invariant |words| == Words(count, 2) && count == |starts| && AllRows(b, edgeOk, ei, starts) && Packs(words, starts)
      invariant Below(b, words, 2) == Through(b, ei)
    {
      words, count, starts := WriteNext(b, edgeOk, ei, words, count, starts);
    }
    AllRowsAre(b, edgeOk, starts);
    RowsDistinct(b, edgeOk, b.plan.m, starts);
  }

  lemma RowsDistinct(b: Batch, edgeOk: seq<bool>, top: nat, starts: seq<Start>)
    requires b.plan.Valid() && AllRows(b, edgeOk, top, starts)
    ensures Distinct(starts)
  {
  }

  // ---- How large the first frontier can be ----

  /** Every listed neighbour is a neighbour in the data graph. */
  ghost predicate Within(b: Batch, nei: seq<set<nat>>) {
    forall idx: nat, v: nat, y: nat :: y in b.main(idx, v) || y in b.upd(idx, v) ==> v < |nei| && y in nei[v]
  }

  /** The directed edges at the first `n` data vertices, as rows of edge `ei`. */
  ghost function EdgeStarts(ei: nat, nei: seq<set<nat>>, n: nat): set<Start>
    requires n <= |nei|
  {
    set v, y | 0 <= v < n && y in nei[v] :: Start(ei, v, y)
  }

  lemma {:induction false} EdgeStartsSize(ei: nat, nei: seq<set<nat>>, n: nat)
    requires n <= |nei|
    ensures |EdgeStarts(ei, nei, n)| == Graphs.Degrees(nei, n)
    decreases n
  {
    if n > 0 {
      EdgeStartsSize(ei, nei, n - 1);
      AtVertexSize(ei, n - 1, nei[n - 1]);
      assert EdgeStarts(ei, nei, n) == EdgeStarts(ei, nei, n - 1) + AtVertex(ei, n - 1, nei[n - 1]);
    } else {
      assert EdgeStarts(ei, nei, n) == {};
    }
  }

  ghost function AtVertex(ei: nat, v: nat, ys: set<nat>): set<Start> {
    set y | y in ys :: Start(ei, v, y)
  }

  lemma {:induction false} AtVertexSize(ei: nat, v: nat, ys: set<nat>)
    ensures |AtVertex(ei, v, ys)| == |ys|
    decreases ys
  {
    if ys != {} {
      var y :| y in ys;
      AtVertexSize(ei, v, ys - {y});
      assert AtVertex(ei, v, ys) == AtVertex(ei, v, ys - {y}) + {Start(ei, v, y)};
    }
  }

  /** Different rows below `top` are at most as many as query edges and directed data edges allow. */
  lemma {:induction false} RowsBound(starts: set<Start>, top: nat, nei: seq<set<nat>>)
    requires forall t :: t in starts ==> t.ei < top && t.v < |nei| && t.y in nei[t.v]
    ensures |starts| <= top * Graphs.Degrees(nei, |nei|)
    decreases top
  {
    hide Graphs.Degrees, EdgeStarts;
    var d := Graphs.Degrees(nei, |nei|);
    if top > 0 {
      var rest := set t | t in starts && t.ei < top - 1;
      RowsBound(rest, top - 1, nei);
      RowsOfEdge(starts - rest, top - 1, nei);
      assert starts == rest + (starts - rest);
      assert top * d == (top - 1) * d + d;
    } else {
      assert starts == {};
    }
  }

  lemma RowsOfEdge(starts: set<Start>, ei: nat, nei: seq<set<nat>>)
    requires forall t :: t in starts ==> t.ei == ei && t.v < |nei| && t.y in nei[t.v]
    ensures |starts| <= Graphs.Degrees(nei, |nei|)
  {
    hide Graphs.Degrees;
    EdgeStartsSize(ei, nei, |nei|);
    forall t | t in starts
      ensures t in EdgeStarts(ei, nei, |nei|)
    {
      assert t == Start(ei, t.v, t.y);
    }
    SubsetSize(starts, EdgeStarts(ei, nei, |nei|));
  }

  /** The first frontier has at most one row per query edge and directed data edge. */
  lemma InitialBound(b: Batch, edgeOk: seq<bool>, nei: seq<set<nat>>)
    requires b.Valid() && Within(b, nei) && |nei| == b.dv
    ensures |Starts(b, edgeOk)| <= |edgeOk| * Graphs.Degrees(nei, b.dv)
  {
    RowsBound(Starts(b, edgeOk), |edgeOk|, nei);
  }
}
