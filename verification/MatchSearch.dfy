/** Depth-first extension of partial matches along a matching order: the list of completions in
    the order in which the search meets them, and what that list contains. */
module MatchSearch {
  import opened Sequences

  /** One search problem.  Position `d` of the order has the backward positions `bni[d]`;
      `lists(j, d, v)` is the neighbour list read for the query edge from position `j` to `d`
      when position `j` is matched to `v`; `mask(d, v)` is the support bit of `v` at `d`. */
  datatype Problem = Problem(
    n: nat,
    bni: seq<seq<nat>>,
    lists: (nat, nat, nat) -> seq<nat>,
    mask: (nat, nat) -> bool)
  {
    predicate Valid() {
      && n >= 2 && |bni| == n
      && (forall d :: 1 <= d < n ==> |bni[d]| > 0)
      && (forall d, k :: 0 <= d < n && 0 <= k < |bni[d]| ==> bni[d][k] < d)
    }
  }

  type Row = seq<nat>

  /** The candidates enumerated for the next position: the list of the first backward neighbour. */
  function Candidates(p: Problem, pre: Row): seq<nat>
    requires p.Valid() && 1 <= |pre| < p.n
  {
    p.lists(p.bni[|pre|][0], |pre|, pre[p.bni[|pre|][0]])
  }

  /** The support bit is set and `c` is not matched yet. */
  predicate Fresh(p: Problem, pre: Row, c: nat) {
    p.mask(|pre|, c) && c !in pre
  }

  /** `c` is in the lists of all other backward neighbours. */
  predicate Joined(p: Problem, pre: Row, c: nat)
    requires p.Valid() && 1 <= |pre| < p.n
  {
    forall k :: 1 <= k < |p.bni[|pre|]| ==> c in p.lists(p.bni[|pre|][k], |pre|, pre[p.bni[|pre|][k]])
  }

  predicate Accepts(p: Problem, pre: Row, c: nat)
    requires p.Valid() && 1 <= |pre| < p.n
  {
    Fresh(p, pre, c) && Joined(p, pre, c)
  }

  /** All extensions of `pre` to length `e`, in search order. */
  function Complete(p: Problem, e: nat, pre: Row): seq<Row>
    requires p.Valid() && 1 <= |pre| <= e <= p.n
    decreases e - |pre|, 1, 0
  {
    if |pre| == e then [pre] else CompleteFrom(p, e, pre, Candidates(p, pre))
  }

  function CompleteFrom(p: Problem, e: nat, pre: Row, cs: seq<nat>): seq<Row>
    requires p.Valid() && 1 <= |pre| < e <= p.n
    decreases e - |pre|, 0, |cs|
  {
    if cs == [] then []
    else (if Accepts(p, pre, cs[0]) then Complete(p, e, pre + [cs[0]]) else []) + CompleteFrom(p, e, pre, cs[1..])
  }

  lemma {:induction false} CompleteFromConcat(p: Problem, e: nat, pre: Row, a: seq<nat>, b: seq<nat>)
    requires p.Valid() && 1 <= |pre| < e <= p.n
    ensures CompleteFrom(p, e, pre, a + b) == CompleteFrom(p, e, pre, a) + CompleteFrom(p, e, pre, b)
    decreases |a|
  {
    if a == [] {
      assert a + b == b;
    } else {
      CompleteFromConcat(p, e, pre, a[1..], b);
      assert (a + b)[1..] == a[1..] + b;
    }
  }

  /** What a single candidate leads to. */
  lemma OneChild(p: Problem, pre: Row, c: nat)
    requires p.Valid() && 1 <= |pre| < p.n
    ensures CompleteFrom(p, p.n, pre, [c]) == if Accepts(p, pre, c) then Complete(p, p.n, pre + [c]) else []
    ensures |pre| == p.n - 1 ==> Complete(p, p.n, pre + [c]) == [pre + [c]]
  {
    assert [c][1..] == [];
  }

  // ---- Contents ----

  /** Position `d` of `f` is a legal extension of `f[..d]`. */
  predicate Step(p: Problem, f: Row, d: nat)
    requires p.Valid() && 1 <= d < |f| <= p.n
  {
    f[d] in Candidates(p, f[..d]) && Accepts(p, f[..d], f[d])
  }

  /** `f` extends `pre` by legal steps. */
  ghost predicate Extends(p: Problem, pre: Row, f: Row)
    requires p.Valid() && 1 <= |pre|
  {
    pre <= f && |f| <= p.n && forall d :: |pre| <= d < |f| ==> Step(p, f, d)
  }

  lemma {:induction false} CompleteContents(p: Problem, e: nat, pre: Row, f: Row)
    requires p.Valid() && 1 <= |pre| <= e <= p.n
    ensures f in Complete(p, e, pre) <==> |f| == e && Extends(p, pre, f)
    decreases e - |pre|, 1, 0
  {
    if |pre| == e {
      if |f| == e && pre <= f { assert f == pre; }
    } else {
      CompleteFromContents(p, e, pre, Candidates(p, pre), f);
      if |f| == e && Extends(p, pre, f) {
        assert f[..|pre|] == pre && Step(p, f, |pre|);
      }
    }
  }

  lemma {:induction false} CompleteFromContents(p: Problem, e: nat, pre: Row, cs: seq<nat>, f: Row)
    requires p.Valid() && 1 <= |pre| < e <= p.n
    ensures f in CompleteFrom(p, e, pre, cs) <==>
      |f| == e && pre <= f && f[|pre|] in cs && Accepts(p, pre, f[|pre|]) && Extends(p, pre + [f[|pre|]], f)
    ensures forall c :: c in Candidates(p, pre) && Accepts(p, pre, c) && |f| == e && Extends(p, pre + [c], f) ==> Extends(p, pre, f)
    decreases e - |pre|, 0, |cs|
  {
    forall c | c in Candidates(p, pre) && Accepts(p, pre, c) && |f| == e && Extends(p, pre + [c], f)
      ensures Extends(p, pre, f)
    {
      assert f[..|pre|] == pre && f[|pre|] == c;
    }
    if cs != [] {
      CompleteFromContents(p, e, pre, cs[1..], f);
      if Accepts(p, pre, cs[0]) { CompleteContents(p, e, pre + [cs[0]], f); }
      if |f| == e && Extends(p, pre + [cs[0]], f) { assert f[|pre|] == cs[0]; }
    }
  }

  ghost predicate ListsDistinct(p: Problem) {
    forall j, d, v :: Distinct(p.lists(j, d, v))
  }

  /** Every completion is listed once. */
  lemma {:induction false} CompleteNoDup(p: Problem, e: nat, pre: Row)
    requires p.Valid() && ListsDistinct(p) && 1 <= |pre| <= e <= p.n
    ensures Distinct(Complete(p, e, pre))
    decreases e - |pre|, 1, 0
  {
    if |pre| < e { CompleteFromNoDup(p, e, pre, Candidates(p, pre)); }
  }

  lemma {:induction false} CompleteFromNoDup(p: Problem, e: nat, pre: Row, cs: seq<nat>)
    requires p.Valid() && ListsDistinct(p) && 1 <= |pre| < e <= p.n && Distinct(cs)
    ensures Distinct(CompleteFrom(p, e, pre, cs))
    decreases e - |pre|, 0, |cs|
  {
    if cs != [] {
      CompleteFromNoDup(p, e, pre, cs[1..]);
      if Accepts(p, pre, cs[0]) {
        CompleteNoDup(p, e, pre + [cs[0]]);
        var a, b := Complete(p, e, pre + [cs[0]]), CompleteFrom(p, e, pre, cs[1..]);
        forall i, j | 0 <= i < |a| && 0 <= j < |b|
          ensures a[i] != b[j]
        {
          CompleteContents(p, e, pre + [cs[0]], a[i]);
          CompleteFromContents(p, e, pre, cs[1..], b[j]);
        }
      }
    }
  }

  // ---- Breadth first passes ----

  /** Extends every row of a frontier to length `e`. */
  function Pass(p: Problem, e: nat, rows: seq<Row>): seq<Row>
    requires p.Valid() && e <= p.n && forall r :: r in rows ==> 1 <= |r| <= e
  {
    if rows == [] then [] else Complete(p, e, rows[0]) + Pass(p, e, rows[1..])
  }

  lemma InConcat<T>(a: seq<T>, b: seq<T>)
    ensures (forall r :: r in a ==> r in a + b) && (forall r :: r in b ==> r in a + b)
  {
  }

  lemma {:induction false} PassConcat(p: Problem, e: nat, a: seq<Row>, b: seq<Row>)
    requires p.Valid() && e <= p.n && forall r :: r in a + b ==> 1 <= |r| <= e
    ensures (forall r :: r in a ==> r in a + b) && (forall r :: r in b ==> r in a + b)
    ensures Pass(p, e, a + b) == Pass(p, e, a) + Pass(p, e, b)
    decreases |a|
  {
    hide Complete;
    InConcat(a, b);
    if a == [] {
      assert a + b == b;
    } else {
      assert (a + b)[1..] == a[1..] + b;
      InConcat([a[0]], a[1..] + b);
      assert [a[0]] + (a[1..] + b) == a + b;
      PassConcat(p, e, a[1..], b);
    }
  }

  lemma LengthOf(p: Problem, e: nat, pre: Row)
    requires p.Valid() && 1 <= |pre| <= e <= p.n
    ensures forall r :: r in Complete(p, e, pre) ==> |r| == e
  {
    forall r | r in Complete(p, e, pre)
      ensures |r| == e
    {
      CompleteContents(p, e, pre, r);
    }
  }

  /** Stopping at an intermediate depth and going on from there gives the same completions. */
  lemma {:induction false} CompleteInTwo(p: Problem, m: nat, e: nat, pre: Row)
    requires p.Valid() && 1 <= |pre| <= m <= e <= p.n
    ensures forall r :: r in Complete(p, m, pre) ==> |r| == m
    ensures Pass(p, e, Complete(p, m, pre)) == Complete(p, e, pre)
    decreases m - |pre|, 1, 0
  {
    LengthOf(p, m, pre);
    if |pre| == m {
      assert Complete(p, m, pre) == [pre];
      assert Pass(p, e, [pre]) == Complete(p, e, pre) + Pass(p, e, []);
    } else {
      CompleteFromInTwo(p, m, e, pre, Candidates(p, pre));
    }
  }

  lemma {:induction false} CompleteFromInTwo(p: Problem, m: nat, e: nat, pre: Row, cs: seq<nat>)
    requires p.Valid() && 1 <= |pre| < m <= e <= p.n
    ensures forall r :: r in CompleteFrom(p, m, pre, cs) ==> |r| == m
    ensures Pass(p, e, CompleteFrom(p, m, pre, cs)) == CompleteFrom(p, e, pre, cs)
    decreases m - |pre|, 0, |cs|
  {
    forall r | r in CompleteFrom(p, m, pre, cs)
      ensures |r| == m
    {
      CompleteFromContents(p, m, pre, cs, r);
    }
    if cs != [] {
      CompleteFromInTwo(p, m, e, pre, cs[1..]);
      if Accepts(p, pre, cs[0]) {
        CompleteInTwo(p, m, e, pre + [cs[0]]);
        PassConcat(p, e, Complete(p, m, pre + [cs[0]]), CompleteFrom(p, m, pre, cs[1..]));
      } else {
        assert CompleteFrom(p, m, pre, cs) == CompleteFrom(p, m, pre, cs[1..]);
      }
    }
  }

  /** A frontier pass loses and repeats nothing. */
  lemma {:induction false} PassInTwo(p: Problem, m: nat, e: nat, rows: seq<Row>)
    requires p.Valid() && m <= e <= p.n && forall r :: r in rows ==> 1 <= |r| <= m
    ensures forall r :: r in Pass(p, m, rows) ==> |r| == m && 1 <= m
    ensures Pass(p, e, Pass(p, m, rows)) == Pass(p, e, rows)
    decreases |rows|
  {
    if rows != [] {
      CompleteInTwo(p, m, e, rows[0]);
      PassInTwo(p, m, e, rows[1..]);
      PassConcat(p, e, Complete(p, m, rows[0]), Pass(p, m, rows[1..]));
    }
  }

  // ---- Support masks ----

  function AllTrue(): (nat, nat) -> bool { (d, v) => true }

  function Unmasked(p: Problem): Problem {
    p.(mask := AllTrue())
  }

  /** The mask keeps every vertex that occurs in a full match extending `pre`. */
  ghost predicate MaskCovers(p: Problem, pre: Row)
    requires p.Valid() && 1 <= |pre| <= p.n
  {
    forall f, d :: f in Complete(Unmasked(p), p.n, pre) && |pre| <= d < |f| ==> p.mask(d, f[d])
  }

  /** Pruning with any superset mask leaves the matches unchanged. */
  lemma {:induction false} MaskIsInvisible(p: Problem, pre: Row)
    requires p.Valid() && 1 <= |pre| <= p.n && MaskCovers(p, pre)
    ensures Complete(p, p.n, pre) == Complete(Unmasked(p), p.n, pre)
    decreases p.n - |pre|, 1, 0
  {
    if |pre| < p.n { MaskInvisibleFrom(p, pre, Candidates(p, pre)); }
  }

  lemma {:induction false} MaskInvisibleFrom(p: Problem, pre: Row, cs: seq<nat>)
    requires p.Valid() && 1 <= |pre| < p.n
    requires forall f, d :: f in CompleteFrom(Unmasked(p), p.n, pre, cs) && |pre| <= d < |f| ==> p.mask(d, f[d])
    ensures CompleteFrom(p, p.n, pre, cs) == CompleteFrom(Unmasked(p), p.n, pre, cs)
    decreases p.n - |pre|, 0, |cs|
  {
    if cs != [] {
      var q := Unmasked(p);
      var c := cs[0];
      var head := if Accepts(q, pre, c) then Complete(q, p.n, pre + [c]) else [];
      assert CompleteFrom(q, p.n, pre, cs) == head + CompleteFrom(q, p.n, pre, cs[1..]);
      assert forall f :: f in head || f in CompleteFrom(q, p.n, pre, cs[1..]) ==> f in CompleteFrom(q, p.n, pre, cs);
      MaskInvisibleFrom(p, pre, cs[1..]);
      if Accepts(q, pre, c) {
        MaskIsInvisible(p, pre + [c]);
        if head != [] {
          CompleteContents(q, p.n, pre + [c], head[0]);
          assert head[0] in CompleteFrom(q, p.n, pre, cs) && head[0][|pre|] == c;
          assert p.mask(|pre|, c);
        }
      }
    }
  }
}
