/** The CPU port of the final search: binary searches in sorted lists, the recursive runner over
    one partial match, and the loop over the rows of a frontier. */
module CpuDfs {
  import opened Sequences
  import opened MatchSearch
  import opened QueryPlan

  /** Index of the first element that is at least `v`, or the length. */
  method LbIndex(a: seq<nat>, v: nat) returns (p: nat)
    requires Strict(a)
    ensures p <= |a|
    ensures forall i :: 0 <= i < p ==> a[i] < v
    ensures forall i :: p <= i < |a| ==> v <= a[i]
  {
    var low, count := 0, |a|;
    while count > 0
      invariant 0 <= low && 0 <= count && low + count <= |a|
      invariant forall i :: 0 <= i < low ==> a[i] < v
      invariant forall i :: low + count <= i < |a| ==> v <= a[i]
    {
      var step := count / 2;
      if a[low + step] < v {
        low, count := low + step + 1, count - step - 1;
      } else {
        count := step;
      }
    }
    p := low;
  }

  method ListContains(base: seq<nat>, app: seq<nat>, v: nat) returns (found: bool)
    requires Strict(base) && Strict(app)
    ensures found <==> v in base + app
  {
    if |base| > 0 {
      var p := LbIndex(base, v);
      if p < |base| && base[p] == v { return true; }
    }
    if |app| > 0 {
      var p := LbIndex(app, v);
      if p < |app| && app[p] == v { return true; }
    }
    return false;
  }

  /** The first word of a row packs the query edge above 27 bits of vertex id. */
  const TAG := 0x800_0000

  function Pack(ei: nat, v0: nat): nat { ei * TAG + v0 }

  function EdgeOf(w: nat): nat { w / TAG }

  function VertexOf(w: nat): nat { w % TAG }

  /** Packing is lossless, and fits in 32 bits, for edge numbers below 32 and ids below 2^27. */
  lemma PackRoundTrip(ei: nat, v0: nat)
    requires ei < 32 && v0 < TAG
    ensures Pack(ei, v0) < 0x1_0000_0000
    ensures EdgeOf(Pack(ei, v0)) == ei && VertexOf(Pack(ei, v0)) == v0
  {
  }

  class DFSRunner {
    const plan: Plan
    const main: Lists
    const upd: Lists
    const hasMask: bool
    const support: (nat, nat, nat) -> bool
    var ei: nat
    const matched: array<nat>

    ghost predicate Valid()
      reads this
    {
      plan.Valid() && Staged(main, upd) && matched.Length == plan.n
    }

    constructor (plan: Plan, main: Lists, upd: Lists, hasMask: bool, support: (nat, nat, nat) -> bool)
      requires plan.Valid() && Staged(main, upd)
      ensures Valid() && fresh(matched)
      ensures this.plan == plan && this.main == main && this.upd == upd && this.hasMask == hasMask && this.support == support
    {
      this.plan, this.main, this.upd, this.hasMask, this.support := plan, main, upd, hasMask, support;
      ei := 0;
      matched := new nat[plan.n];
    }

    /** The search problem that the runner solves for the current edge. */
    ghost function P(): (p: Problem)
      requires Valid()
      reads this
      ensures p.Valid()
    {
      SearchProblem(plan, main, upd, ei, hasMask, support)
    }

    /** `b2` and `a2` are the two parts of the lists of the other backward neighbours of `d`. */
    ghost predicate Hoisted(d: nat, b2: seq<seq<nat>>, a2: seq<seq<nat>>)
      requires Valid() && 2 <= d < plan.n
      reads this, matched
    {
      HoistedFor(P(), d, matched[..d], b2, a2)
    }

    /** Pre-resolved lists of the other backward neighbours of position `d`. */
    method Hoist(d: nat) returns (b2: seq<seq<nat>>, a2: seq<seq<nat>>)
      requires Valid() && 2 <= d < plan.n
      ensures Hoisted(d, b2, a2)
    {
      b2, a2 := [], [];
      for k := 1 to |plan.bni[d]|
        invariant |b2| == |a2| == k - 1
        invariant forall i :: 0 <= i < |b2| ==> Strict(b2[i]) && Strict(a2[i])
        invariant forall i :: 0 <= i < |b2| ==>
          b2[i] + a2[i] == P().lists(plan.bni[d][i + 1], d, matched[plan.bni[d][i + 1]])
      {
        var j := plan.bni[d][k];
        var idx := plan.Dir(j, d);
        b2 := b2 + [Base(plan, main, upd, ei, idx, matched[j])];
        a2 := a2 + [App(plan, upd, ei, idx, matched[j])];
      }
    }

    /** Counts the completions of `matched[..d]`. */
    method Run(d: nat) returns (cnt: nat)
      requires Valid() && 2 <= d < plan.n
      modifies matched
      ensures matched[..d] == old(matched[..d])
      ensures cnt == |Complete(P(), plan.n, matched[..d])|
      decreases plan.n - d, 2
    {
      var preQv := plan.bni[d][0];
      var idx := plan.Dir(preQv, d);
      var base := Base(plan, main, upd, ei, idx, matched[preQv]);
      var app := App(plan, upd, ei, idx, matched[preQv]);
      var b2, a2 := Hoist(d);
      ghost var pre := matched[..d];
      assert Candidates(P(), pre) == base + app;
      CompleteFromConcat(P(), plan.n, pre, base, app);
      var inBase := TryAll(d, base, b2, a2);
      var inApp := TryAll(d, app, b2, a2);
      cnt := inBase + inApp;
    }

    /** Tries the candidates of one list in order. */
    method TryAll(d: nat, list: seq<nat>, b2: seq<seq<nat>>, a2: seq<seq<nat>>) returns (cnt: nat)
      requires Valid() && 2 <= d < plan.n
      requires Hoisted(d, b2, a2)
      modifies matched
      ensures matched[..d] == old(matched[..d])
      ensures cnt == |CompleteFrom(P(), plan.n, matched[..d], list)|
      decreases plan.n - d, 1
    {
      cnt := 0;
      ghost var pre := matched[..d];
      for k := 0 to |list|
        invariant matched[..d] == pre && Hoisted(d, b2, a2)
        invariant cnt == |CompleteFrom(P(), plan.n, pre, list[..k])|
      {
        var c := TryNbr(d, list[k], b2, a2);
        cnt := cnt + c;
        assert list[..k + 1] == list[..k] + [list[k]];
        CompleteFromConcat(P(), plan.n, pre, list[..k], [list[k]]);
      }
      assert list[..|list|] == list;
    }

    /** Tries one candidate for position `d`. */
    method TryNbr(d: nat, nbr: nat, b2: seq<seq<nat>>, a2: seq<seq<nat>>) returns (c: nat)
      requires Valid() && 2 <= d < plan.n
      requires Hoisted(d, b2, a2)
      modifies matched
      ensures matched[..d] == old(matched[..d])
      ensures c == |CompleteFrom(P(), plan.n, matched[..d], [nbr])|
      decreases plan.n - d, 0
    {
      hide Complete, CompleteFrom;
      ghost var pre := matched[..d];
      OneChild(P(), pre, nbr);
      if hasMask && !support(ei, plan.vs[d], nbr) { return 0; }
      for i := 0 to d
        invariant matched[..d] == pre && nbr !in pre[..i]
      {
        if matched[i] == nbr {
          assert nbr in pre;
          return 0;
        }
      }
      for k := 0 to |b2|
        invariant matched[..d] == pre
        invariant forall i :: 0 <= i < k ==> nbr in b2[i] + a2[i]
      {
        var found := ListContains(b2[k], a2[k], nbr);
        if !found {
          assert !Joined(P(), pre, nbr) by {
            assert nbr !in P().lists(plan.bni[d][k + 1], d, pre[plan.bni[d][k + 1]]);
          }
          return 0;
        }
      }
      assert Joined(P(), pre, nbr) by {
        forall k | 1 <= k < |plan.bni[d]|
          ensures nbr in P().lists(plan.bni[d][k], d, pre[plan.bni[d][k]])
        {
          assert nbr in b2[k - 1] + a2[k - 1];
        }
      }
      if d == plan.n - 1 {
        c := 1;
      } else {
        matched[d] := nbr;
        assert matched[..d + 1] == pre + [nbr];
        c := Run(d + 1);
        assert matched[..d] == matched[..d + 1][..d];
      }
    }

    /** Counts the full matches that the rows of a frontier of depth `depth` lead to. */
    method CountRows(frontier: seq<nat>, resSize: nat, depth: nat) returns (total: nat)
      requires Valid() && 2 <= depth <= plan.n && |frontier| == Words(resSize, depth)
      modifies this`ei, matched
      ensures total == RowTotal(plan, main, upd, hasMask, support, frontier, depth)
    {
      total := CountLoop(frontier, resSize, depth);
      CountedEnds(total, frontier, depth);
    }

    lemma CountedEnds(total: nat, frontier: seq<nat>, depth: nat)
      requires plan.Valid() && 2 <= depth <= plan.n
      ensures Counted(0, frontier, frontier, depth)
      ensures Counted(total, [], frontier, depth) ==> total == RowTotal(plan, main, upd, hasMask, support, frontier, depth)
    {
    }

    /** One row after the other. */
    method CountLoop(frontier: seq<nat>, resSize: nat, depth: nat) returns (total: nat)
      requires Valid() && 2 <= depth <= plan.n && |frontier| == Words(resSize, depth)
      modifies this`ei, matched
      ensures Counted(total, [], frontier, depth)
    {
      hide Counted, Words;
      total := 0;
      var rest := frontier;
      assert Words(0, depth) == 0 by { NoWords(depth); }
      CountedEnds(0, frontier, depth);
      for r := 0 to resSize
        invariant |rest| == Words(resSize - r, depth)
        invariant Counted(total, rest, frontier, depth)
      {
        total, rest := CountNext(total, rest, frontier, resSize - r, depth);
      }
      assert rest == [];
    }

    /** What has been counted and what is left make up the frontier. */
    ghost predicate Counted(total: nat, rest: seq<nat>, frontier: seq<nat>, depth: nat)
      requires plan.Valid() && 2 <= depth <= plan.n
    {
      total + RowTotal(plan, main, upd, hasMask, support, rest, depth) == RowTotal(plan, main, upd, hasMask, support, frontier, depth)
    }

    method CountNext(total: nat, rest: seq<nat>, ghost frontier: seq<nat>, ghost left: nat, depth: nat)
      returns (total': nat, rest': seq<nat>)
      requires Valid() && 2 <= depth <= plan.n && left > 0 && |rest| == Words(left, depth) && Counted(total, rest, frontier, depth)
      modifies this`ei, matched
      ensures |rest'| == Words(left - 1, depth) && Counted(total', rest', frontier, depth)
    {
      OneRow(left, depth);
      var c := CountRow(rest[..depth]);
      total', rest' := total + c, rest[depth..];
    }

    method CountRow(row: seq<nat>) returns (c: nat)
      requires Valid() && 2 <= |row| <= plan.n
      modifies this`ei, matched
      ensures c == |RowMatches(plan, main, upd, hasMask, support, row)|
    {
      LoadRow(row);
      if |row| >= plan.n {
        c := 1;
      } else {
        c := Run(|row|);
      }
    }

    /** Decodes a packed row into the edge number and the matched vertices. */
    method LoadRow(row: seq<nat>)
      requires Valid() && 2 <= |row| <= plan.n
      modifies this`ei, matched
      ensures ei == EdgeOf(row[0]) && matched[..|row|] == Unpack(row)
    {
      ei := EdgeOf(row[0]);
      matched[0] := VertexOf(row[0]);
      for i := 1 to |row|
        invariant ei == EdgeOf(row[0])
        invariant forall k :: 0 <= k < i ==> matched[k] == Unpack(row)[k]
      {
        matched[i] := row[i];
      }
    }
  }

  /** The support mask of edge `ei` by position; without a synced mask everything passes. */
  function MaskFor(plan: Plan, ei: nat, hasMask: bool, support: (nat, nat, nat) -> bool): (nat, nat) -> bool {
    (d: nat, v: nat) => hasMask && d < |plan.vs| ==> support(ei, plan.vs[d], v)
  }

  /** The search problem of the rows that carry edge number `ei`. */
  function SearchProblem(plan: Plan, main: Lists, upd: Lists, ei: nat, hasMask: bool, support: (nat, nat, nat) -> bool): Problem {
    SearchFor(plan, main, upd, ei, MaskFor(plan, ei, hasMask, support))
  }

  /** The matched vertices of a packed row. */
  function Unpack(row: seq<nat>): Row
    requires |row| > 0
  {
    [VertexOf(row[0])] + row[1..]
  }

  ghost predicate HoistedFor(p: Problem, d: nat, pre: Row, b2: seq<seq<nat>>, a2: seq<seq<nat>>)
    requires p.Valid() && 2 <= d < p.n && |pre| == d
  {
    && |b2| == |a2| == |p.bni[d]| - 1
    && (forall k :: 0 <= k < |b2| ==> Strict(b2[k]) && Strict(a2[k]))
    && (forall k :: 0 <= k < |b2| ==> b2[k] + a2[k] == p.lists(p.bni[d][k + 1], d, pre[p.bni[d][k + 1]]))
  }

  /** The words that `rows` rows of length `depth` take. */
  function Words(rows: nat, depth: nat): nat { rows * depth }

  lemma NoWords(depth: nat)
    ensures Words(0, depth) == 0
  {
  }

  lemma OneRow(rows: nat, depth: nat)
    requires rows > 0
    ensures Words(rows, depth) == depth + Words(rows - 1, depth)
  {
  }

  /** The full matches that a packed row leads to. */
  function RowMatches(plan: Plan, main: Lists, upd: Lists, hasMask: bool, support: (nat, nat, nat) -> bool, row: seq<nat>): seq<Row>
    requires plan.Valid() && 2 <= |row| <= plan.n
  {
    Complete(SearchProblem(plan, main, upd, EdgeOf(row[0]), hasMask, support), plan.n, Unpack(row))
  }

  /** The number of full matches below the rows of a frontier. */
  function RowTotal(plan: Plan, main: Lists, upd: Lists, hasMask: bool, support: (nat, nat, nat) -> bool,
                    frontier: seq<nat>, depth: nat): nat
    requires plan.Valid() && 2 <= depth <= plan.n
  {
    if |frontier| < depth then 0
    else |RowMatches(plan, main, upd, hasMask, support, frontier[..depth])| +
         RowTotal(plan, main, upd, hasMask, support, frontier[depth..], depth)
  }
}
