/** Counting the matches of tree-shaped tails without a search: every number below the product of the
    list sizes is decoded, digit by digit, into one candidate per remaining leaf. */
module Cartesian {
  import opened MatchSearch
  import opened GpuSearch

  /** From depth `m` on, every position has one backward neighbour, which lies before `m`. */
  ghost predicate LeafTail(p: Problem, m: nat)
    requires p.Valid()
  {
    forall d :: m <= d < p.n ==> |p.bni[d]| == 1 && p.bni[d][0] < m
  }

  /** The list that position `d` is drawn from; `row` holds at least the first `m` vertices. */
  function Leaf(p: Problem, row: Row, d: nat): seq<nat>
    requires p.Valid() && 1 <= d < p.n && p.bni[d][0] < |row|
  {
    p.lists(p.bni[d][0], d, row[p.bni[d][0]])
  }

  /** The number of candidate tuples for the positions from `d` on. */
  function Tuples(p: Problem, m: nat, row: Row, d: nat): nat
    requires p.Valid() && 1 <= m <= d <= p.n && m <= |row|
    requires forall e :: m <= e < p.n ==> p.bni[e][0] < m
    decreases p.n - d
  {
    if d == p.n then 1 else |Leaf(p, row, d)| * Tuples(p, m, row, d + 1)
  }

  /** The tuple numbered `i`, drawn after `pre`, is injective and passes the mask. */
  predicate Decodes(p: Problem, m: nat, pre: Row, i: nat)
    requires p.Valid() && 1 <= m <= |pre| <= p.n
    requires forall e :: m <= e < p.n ==> p.bni[e][0] < m
    decreases p.n - |pre|
  {
    |pre| == p.n ||
    var leaf := Leaf(p, pre, |pre|);
    |leaf| > 0 && Fresh(p, pre, leaf[i % |leaf|]) && Decodes(p, m, pre + [leaf[i % |leaf|]], i / |leaf|)
  }

  /** How many of the numbers below `r` decode. */
  function Decoded(p: Problem, m: nat, pre: Row, r: nat): nat
    requires p.Valid() && 1 <= m <= |pre| <= p.n
    requires forall e :: m <= e < p.n ==> p.bni[e][0] < m
  {
    if r == 0 then 0 else Decoded(p, m, pre, r - 1) + (if Decodes(p, m, pre, r - 1) then 1 else 0)
  }

  /** The `q`-th round of the first digit: how many of its first `k` values decode. */
  function Round(p: Problem, m: nat, pre: Row, k: nat, q: nat): nat
    requires p.Valid() && 1 <= m <= |pre| < p.n && k <= |Leaf(p, pre, |pre|)|
    requires forall e :: m <= e < p.n ==> p.bni[e][0] < m
  {
    if k == 0 then 0
    else
      var c := Leaf(p, pre, |pre|)[k - 1];
      Round(p, m, pre, k - 1, q) + (if Fresh(p, pre, c) && Decodes(p, m, pre + [c], q) then 1 else 0)
  }

  /** The same pairs counted by value of the first digit, over `r` rounds. */
  function ByDigit(p: Problem, m: nat, pre: Row, k: nat, r: nat): nat
    requires p.Valid() && 1 <= m <= |pre| < p.n && k <= |Leaf(p, pre, |pre|)|
    requires forall e :: m <= e < p.n ==> p.bni[e][0] < m
  {
    if k == 0 then 0
    else
      var c := Leaf(p, pre, |pre|)[k - 1];
      ByDigit(p, m, pre, k - 1, r) + (if Fresh(p, pre, c) then Decoded(p, m, pre + [c], r) else 0)
  }

  lemma DivMod(s: nat, q: nat, r: nat)
    requires r < s
    ensures (s * q + r) / s == q && (s * q + r) % s == r
  {
    var x := s * q + r;
    assert x == s * (x / s) + x % s;
    if x / s < q { Times(s, x / s + 1, q); } else if x / s > q { Times(s, q + 1, x / s); }
  }

  lemma Times(s: nat, a: nat, b: nat)
    requires a <= b
    ensures s * a <= s * b
  {
  }

  lemma {:induction false} RoundAdds(p: Problem, m: nat, pre: Row, k: nat, q: nat)
    requires p.Valid() && 1 <= m <= |pre| < p.n && k <= |Leaf(p, pre, |pre|)|
    requires forall e :: m <= e < p.n ==> p.bni[e][0] < m
    ensures Decoded(p, m, pre, |Leaf(p, pre, |pre|)| * q + k) == Decoded(p, m, pre, |Leaf(p, pre, |pre|)| * q) + Round(p, m, pre, k, q)
    decreases k
  {
    if k > 0 {
      RoundAdds(p, m, pre, k - 1, q);
      DivMod(|Leaf(p, pre, |pre|)|, q, k - 1);
    }
  }

  lemma {:induction false} DigitAdds(p: Problem, m: nat, pre: Row, k: nat, r: nat)
    requires p.Valid() && 1 <= m <= |pre| < p.n && k <= |Leaf(p, pre, |pre|)|
    requires forall e :: m <= e < p.n ==> p.bni[e][0] < m
    ensures ByDigit(p, m, pre, k, r + 1) == ByDigit(p, m, pre, k, r) + Round(p, m, pre, k, r)
    ensures ByDigit(p, m, pre, k, 0) == 0
    decreases k
  {
    if k > 0 { DigitAdds(p, m, pre, k - 1, r); }
  }

  /** Exchange of the two sums. */
  lemma {:induction false} Exchange(p: Problem, m: nat, pre: Row, r: nat)
    requires p.Valid() && 1 <= m <= |pre| < p.n
    requires forall e :: m <= e < p.n ==> p.bni[e][0] < m
    ensures Decoded(p, m, pre, |Leaf(p, pre, |pre|)| * r) == ByDigit(p, m, pre, |Leaf(p, pre, |pre|)|, r)
    decreases r
  {
    var s := |Leaf(p, pre, |pre|)|;
    DigitAdds(p, m, pre, s, if r == 0 then 0 else r - 1);
    if r > 0 {
      Exchange(p, m, pre, r - 1);
      RoundAdds(p, m, pre, s, r - 1);
      assert s * (r - 1) + s == s * r;
    }
  }

  lemma {:induction false} TuplesLocal(p: Problem, m: nat, row: Row, row': Row, d: nat)
    requires p.Valid() && 1 <= m <= d <= p.n && m <= |row| && m <= |row'| && row[..m] == row'[..m]
    requires forall e :: m <= e < p.n ==> p.bni[e][0] < m
    ensures Tuples(p, m, row, d) == Tuples(p, m, row', d)
    decreases p.n - d
  {
    if d < p.n {
      var j := p.bni[d][0];
      assert row[..m][j] == row'[..m][j];
      TuplesLocal(p, m, row, row', d + 1);
    }
  }

  /** The decoded numbers are as many as the completions that the search finds. */
  lemma {:induction false} DecodeCounts(p: Problem, m: nat, pre: Row)
    requires p.Valid() && LeafTail(p, m) && 1 <= m <= |pre| <= p.n
    ensures Decoded(p, m, pre, Tuples(p, m, pre, |pre|)) == |Complete(p, p.n, pre)|
    decreases p.n - |pre|, 1, 0
  {
    if |pre| == p.n {
      assert Decoded(p, m, pre, 0) == 0 && Decodes(p, m, pre, 0);
      assert Decoded(p, m, pre, 1) == 1;
    } else {
      var leaf, rest := Leaf(p, pre, |pre|), Tuples(p, m, pre, |pre| + 1);
      Exchange(p, m, pre, rest);
      DigitCounts(p, m, pre, |leaf|, rest);
      assert leaf[..|leaf|] == leaf == Candidates(p, pre);
    }
  }

  lemma {:induction false} DigitCounts(p: Problem, m: nat, pre: Row, k: nat, rest: nat)
    requires p.Valid() && LeafTail(p, m) && 1 <= m <= |pre| < p.n && k <= |Leaf(p, pre, |pre|)|
    requires rest == Tuples(p, m, pre, |pre| + 1)
    ensures ByDigit(p, m, pre, k, rest) == |CompleteFrom(p, p.n, pre, Leaf(p, pre, |pre|)[..k])|
    decreases p.n - |pre|, 0, k
  {
    if k > 0 {
      var leaf := Leaf(p, pre, |pre|);
      var c := leaf[k - 1];
      DigitCounts(p, m, pre, k - 1, rest);
      assert leaf[..k] == leaf[..k - 1] + [c];
      CompleteFromConcat(p, p.n, pre, leaf[..k - 1], [c]);
      assert Joined(p, pre, c);
      if Fresh(p, pre, c) {
        DecodeCounts(p, m, pre + [c]);
        TuplesLocal(p, m, pre, pre + [c], |pre| + 1);
      }
    }
  }

  // ---- The numbering ----

  /** The digits of a number: which candidate it picks for each of the remaining positions. */
  function Digits(p: Problem, m: nat, pre: Row, i: nat): seq<nat>
    requires p.Valid() && 1 <= m <= |pre| <= p.n
    requires forall e :: m <= e < p.n ==> p.bni[e][0] < m
    requires i < Tuples(p, m, pre, |pre|)
    decreases p.n - |pre|
  {
    if |pre| == p.n then []
    else
      var leaf := Leaf(p, pre, |pre|);
      DigitStep(p, m, pre, i);
      [i % |leaf|] + Digits(p, m, pre + [leaf[i % |leaf|]], i / |leaf|)
  }

  /** One candidate is picked for each of the remaining positions. */
  predicate IsTuple(p: Problem, m: nat, pre: Row, digits: seq<nat>)
    requires p.Valid() && 1 <= m <= |pre| <= p.n
    requires forall e :: m <= e < p.n ==> p.bni[e][0] < m
    decreases p.n - |pre|
  {
    if |pre| == p.n then digits == []
    else digits != [] && digits[0] < |Leaf(p, pre, |pre|)| && IsTuple(p, m, pre + [Leaf(p, pre, |pre|)[digits[0]]], digits[1..])
  }

  /** The number that picks these candidates. */
  function NumberOf(p: Problem, m: nat, pre: Row, digits: seq<nat>): nat
    requires p.Valid() && 1 <= m <= |pre| <= p.n
    requires forall e :: m <= e < p.n ==> p.bni[e][0] < m
    requires IsTuple(p, m, pre, digits)
    decreases p.n - |pre|
  {
    if |pre| == p.n then 0
    else
      var leaf := Leaf(p, pre, |pre|);
      digits[0] + |leaf| * NumberOf(p, m, pre + [leaf[digits[0]]], digits[1..])
  }

  /** The row with the picked candidates. */
  function Picked(p: Problem, m: nat, pre: Row, digits: seq<nat>): (f: Row)
    requires p.Valid() && 1 <= m <= |pre| <= p.n
    requires forall e :: m <= e < p.n ==> p.bni[e][0] < m
    requires IsTuple(p, m, pre, digits)
    ensures |f| == p.n && pre <= f
    decreases p.n - |pre|
  {
    if |pre| == p.n then pre else Picked(p, m, pre + [Leaf(p, pre, |pre|)[digits[0]]], digits[1..])
  }

  /** Every number picks a tuple, and the tuple has that number. */
  lemma {:induction false} NumberRoundTrip(p: Problem, m: nat, pre: Row, i: nat)
    requires p.Valid() && 1 <= m <= |pre| <= p.n
    requires forall e :: m <= e < p.n ==> p.bni[e][0] < m
    requires i < Tuples(p, m, pre, |pre|)
    ensures IsTuple(p, m, pre, Digits(p, m, pre, i)) && NumberOf(p, m, pre, Digits(p, m, pre, i)) == i
    decreases p.n - |pre|
  {
    if |pre| < p.n {
      hide Leaf, Tuples;
      var leaf := Leaf(p, pre, |pre|);
      DigitStep(p, m, pre, i);
      var pre', rest := pre + [leaf[i % |leaf|]], Digits(p, m, pre + [leaf[i % |leaf|]], i / |leaf|);
      NumberRoundTrip(p, m, pre', i / |leaf|);
      assert Digits(p, m, pre, i)[1..] == rest;
      assert i == i % |leaf| + |leaf| * (i / |leaf|);
    }
  }

  /** Every tuple, injective or not, has a number below the product, and the number picks that tuple. */
  lemma {:induction false} TupleRoundTrip(p: Problem, m: nat, pre: Row, digits: seq<nat>)
    requires p.Valid() && 1 <= m <= |pre| <= p.n
    requires forall e :: m <= e < p.n ==> p.bni[e][0] < m
    requires IsTuple(p, m, pre, digits)
    ensures NumberOf(p, m, pre, digits) < Tuples(p, m, pre, |pre|) && Digits(p, m, pre, NumberOf(p, m, pre, digits)) == digits
    decreases p.n - |pre|
  {
    if |pre| < p.n {
      hide Tuples, Digits, Leaf, LeafTail;
      var pre' := pre + [Leaf(p, pre, |pre|)[digits[0]]];
      TupleRoundTrip(p, m, pre', digits[1..]);
      DigitPut(p, m, pre, digits[0], NumberOf(p, m, pre', digits[1..]));
      assert digits == [digits[0]] + digits[1..];
    }
  }

  /** A number is put together from its first digit and the number of the rest. */
  lemma DigitPut(p: Problem, m: nat, pre: Row, d: nat, q: nat)
    requires p.Valid() && 1 <= m <= |pre| < p.n
    requires forall e :: m <= e < p.n ==> p.bni[e][0] < m
    requires d < |Leaf(p, pre, |pre|)| && q < Tuples(p, m, pre + [Leaf(p, pre, |pre|)[d]], |pre| + 1)
    ensures var s := |Leaf(p, pre, |pre|)|; var pre' := pre + [Leaf(p, pre, |pre|)[d]];
      d + s * q < Tuples(p, m, pre, |pre|) && Digits(p, m, pre, d + s * q) == [d] + Digits(p, m, pre', q)
  {
    hide Leaf;
    var leaf := Leaf(p, pre, |pre|);
    TuplesLocal(p, m, pre, pre + [leaf[d]], |pre| + 1);
    DivMod(|leaf|, q, d);
    Times(|leaf|, q + 1, Tuples(p, m, pre, |pre| + 1));
  }

  /** The numbers that count are those whose row the search lists. */
  lemma {:induction false} DecodedRow(p: Problem, m: nat, pre: Row, i: nat)
    requires p.Valid() && LeafTail(p, m) && 1 <= m <= |pre| <= p.n && i < Tuples(p, m, pre, |pre|)
    ensures IsTuple(p, m, pre, Digits(p, m, pre, i))
    ensures Decodes(p, m, pre, i) <==> Picked(p, m, pre, Digits(p, m, pre, i)) in Complete(p, p.n, pre)
    decreases p.n - |pre|
  {
    NumberRoundTrip(p, m, pre, i);
    if |pre| < p.n {
      hide Leaf, Tuples, NumberOf, Complete, Fresh;
      assert |p.bni[|pre|]| == 1;
      var leaf := Leaf(p, pre, |pre|);
      DigitStep(p, m, pre, i);
      var c := leaf[i % |leaf|];
      assert c in Candidates(p, pre) by { LeafIsCandidates(p, pre); }
      DecodedRow(p, m, pre + [c], i / |leaf|);
      assert Digits(p, m, pre, i)[1..] == Digits(p, m, pre + [c], i / |leaf|);
      var f := Picked(p, m, pre + [c], Digits(p, m, pre + [c], i / |leaf|));
      assert f[..|pre| + 1] == pre + [c] && f[|pre|] == c;
      ListedBelow(p, pre, c, f);
    }
  }

  lemma LeafIsCandidates(p: Problem, pre: Row)
    requires p.Valid() && 1 <= |pre| < p.n
    ensures Leaf(p, pre, |pre|) == Candidates(p, pre)
  {
  }

  /** A row goes on from `pre` with `c` exactly when it goes on from there. */
  lemma ListedBelow(p: Problem, pre: Row, c: nat, f: Row)
    requires p.Valid() && 1 <= |pre| < p.n && |p.bni[|pre|]| == 1 && |f| == p.n && pre + [c] <= f && c in Candidates(p, pre)
    ensures f in Complete(p, p.n, pre) <==> Fresh(p, pre, c) && f in Complete(p, p.n, pre + [c])
  {
    assert Joined(p, pre, c) && f[|pre|] == c;
    CompleteFromContents(p, p.n, pre, Candidates(p, pre), f);
    CompleteContents(p, p.n, pre + [c], f);
  }

  // ---- Over a frontier ----

  /** A row of a frontier with the search problem of its query edge. */
  datatype Task = Task(p: Problem, row: Row)

  ghost predicate Ready(t: Task, m: nat) {
    t.p.Valid() && LeafTail(t.p, m) && 1 <= m == |t.row| <= t.p.n
  }

  ghost predicate AllReady(tasks: seq<Task>, m: nat) {
    forall i :: 0 <= i < |tasks| ==> Ready(tasks[i], m)
  }

  ghost function Size(t: Task, m: nat): nat
    requires Ready(t, m)
  {
    Tuples(t.p, m, t.row, m)
  }

  /** `offs` are the exclusive prefix sums of the sizes, with the total at the end. */
  ghost predicate Offsets(tasks: seq<Task>, m: nat, offs: seq<nat>)
    requires AllReady(tasks, m)
  {
    |offs| == |tasks| + 1 && offs[0] == 0 && forall r :: 0 <= r < |tasks| ==> offs[r + 1] == offs[r] + Size(tasks[r], m)
  }

  lemma {:induction false} OffsetsAscend(tasks: seq<Task>, m: nat, offs: seq<nat>, i: nat, j: nat)
    requires AllReady(tasks, m) && Offsets(tasks, m, offs) && i <= j < |offs|
    ensures offs[i] <= offs[j]
    decreases j
  {
    if i < j { OffsetsAscend(tasks, m, offs, i, j - 1); }
  }

  function TaskMatches(t: Task, m: nat): seq<Row>
    requires t.p.Valid() && 1 <= m == |t.row| <= t.p.n
  {
    Complete(t.p, t.p.n, t.row)
  }

  /** Matches of the first `k` rows of a frontier. */
  ghost function Matches(tasks: seq<Task>, m: nat, k: nat): nat
    requires AllReady(tasks, m) && k <= |tasks|
  {
    if k == 0 then 0 else Matches(tasks, m, k - 1) + |TaskMatches(tasks[k - 1], m)|
  }

  /** The part of row `r` that the numbers below `ii` cover. */
  ghost function Covered(offs: seq<nat>, r: nat, ii: nat): nat
    requires r + 1 < |offs| && offs[r] <= offs[r + 1]
  {
    if ii <= offs[r] then 0 else if ii <= offs[r + 1] then ii - offs[r] else offs[r + 1] - offs[r]
  }

  /** What the numbers below `ii` contribute to the first `k` rows. */
  ghost function CountTo(tasks: seq<Task>, m: nat, offs: seq<nat>, k: nat, ii: nat): nat
    requires AllReady(tasks, m) && Offsets(tasks, m, offs) && k <= |tasks|
  {
    if k == 0 then 0
    else
      CountTo(tasks, m, offs, k - 1, ii) + Decoded(tasks[k - 1].p, m, tasks[k - 1].row, Covered(offs, k - 1, ii))
  }

  lemma {:induction false} CountToEnds(tasks: seq<Task>, m: nat, offs: seq<nat>, k: nat, ii: nat)
    requires AllReady(tasks, m) && Offsets(tasks, m, offs) && k <= |tasks|
    ensures ii == 0 ==> CountTo(tasks, m, offs, k, ii) == 0
    ensures ii >= offs[k] ==> CountTo(tasks, m, offs, k, ii) == Matches(tasks, m, k)
    decreases k
  {
    hide Decodes, Tuples, Complete;
    if k > 0 {
      OffsetsAscend(tasks, m, offs, k - 1, k);
      CountToEnds(tasks, m, offs, k - 1, ii);
      DecodeCounts(tasks[k - 1].p, m, tasks[k - 1].row);
    }
  }

  /** Number `ii` belongs to the one row whose interval contains it. */
  lemma {:induction false} CountToStep(tasks: seq<Task>, m: nat, offs: seq<nat>, k: nat, ii: nat, r: nat)
    requires AllReady(tasks, m) && Offsets(tasks, m, offs) && k <= |tasks| && r < |tasks|
    requires offs[r] <= ii < offs[r + 1]
    ensures CountTo(tasks, m, offs, k, ii + 1) == CountTo(tasks, m, offs, k, ii) +
      (if r < k && Decodes(tasks[r].p, m, tasks[r].row, ii - offs[r]) then 1 else 0)
    decreases k
  {
    hide Decodes, Tuples, Complete;
    if k > 0 {
      CountToStep(tasks, m, offs, k - 1, ii, r);
      OffsetsAscend(tasks, m, offs, k - 1, k);
      if k - 1 < r { OffsetsAscend(tasks, m, offs, k, r); }
      if k - 1 > r { OffsetsAscend(tasks, m, offs, r + 1, k - 1); }
      CoveredNext(offs, k - 1, ii, r);
    }
  }

  /** One number more covers one place more of its own row, and none of the other rows. */
  lemma CoveredNext(offs: seq<nat>, k: nat, ii: nat, r: nat)
    requires k + 1 < |offs| && r + 1 < |offs| && offs[k] <= offs[k + 1] && offs[r] <= ii < offs[r + 1]
    requires k < r ==> offs[k + 1] <= offs[r]
    requires k > r ==> offs[r + 1] <= offs[k]
    ensures Covered(offs, k, ii + 1) == Covered(offs, k, ii) + (if k == r then 1 else 0)
    ensures k == r ==> Covered(offs, k, ii) == ii - offs[r]
  {
  }

  /** Every number of every row has its own place below the total. */
  lemma PlaceOfNumber(tasks: seq<Task>, m: nat, offs: seq<nat>, r: nat, i: nat)
    requires AllReady(tasks, m) && Offsets(tasks, m, offs) && r < |tasks| && i < Size(tasks[r], m)
    ensures offs[r] + i < offs[|tasks|]
    ensures forall k :: 0 <= k < |tasks| && offs[k] <= offs[r] + i < offs[k + 1] ==> k == r
  {
    OffsetsAscend(tasks, m, offs, r + 1, |tasks|);
    forall k | 0 <= k < |tasks| && k != r
      ensures !(offs[k] <= offs[r] + i < offs[k + 1])
    {
      if k < r { OffsetsAscend(tasks, m, offs, k + 1, r); } else { OffsetsAscend(tasks, m, offs, r + 1, k); }
    }
  }

  /** The products of the list sizes of one row. */
  method NumTree(t: Task, m: nat) returns (num: nat)
    requires Ready(t, m)
    ensures num == Size(t, m)
  {
    num := 1;
    for j := m to t.p.n
      invariant num * Tuples(t.p, m, t.row, j) == Size(t, m)
    {
      assert t.p.bni[j][0] < m;
      var size := |t.p.lists(t.p.bni[j][0], j, t.row[t.p.bni[j][0]])|;
      Regroup(num, size, Tuples(t.p, m, t.row, j + 1));
      num := num * size;
    }
  }

  lemma Regroup(a: nat, b: nat, c: nat)
    ensures a * (b * c) == (a * b) * c
  {
  }

  /** Decodes one number of one row and tests the tuple. */
  method DecodeOne(t: Task, m: nat, i: nat) returns (found: bool)
    requires Ready(t, m) && i < Size(t, m)
    ensures found <==> Decodes(t.p, m, t.row, i)
  {
    var visited: Row, index: nat := t.row, i;
    for j := m to t.p.n
      invariant |visited| == j && visited[..m] == t.row
      invariant index < Tuples(t.p, m, visited, j)
      invariant Decodes(t.p, m, t.row, i) <==> Decodes(t.p, m, visited, index)
    {
      var ok;
      ok, visited, index := DecodeDigit(t.p, m, visited, index);
      if !ok { return false; }
      assert visited[..j][..m] == visited[..m];
    }
    return true;
  }

  /** Decodes the first digit and appends its candidate. */
  method DecodeDigit(p: Problem, m: nat, pre: Row, index: nat) returns (ok: bool, pre': Row, index': nat)
    requires p.Valid() && 1 <= m <= |pre| < p.n
    requires forall e :: m <= e < p.n ==> p.bni[e][0] < m
    requires index < Tuples(p, m, pre, |pre|)
    ensures |pre'| == |pre| + 1 && pre'[..|pre|] == pre
    ensures index' < Tuples(p, m, pre', |pre'|)
    ensures Decodes(p, m, pre, index) <==> ok && Decodes(p, m, pre', index')
  {
    var j := |pre|;
    var v := pre[p.bni[j][0]];
    var list := p.lists(p.bni[j][0], j, v);
    DigitStep(p, m, pre, index);
    var mapV := list[index % |list|];
    ok := p.mask(j, mapV) && mapV !in pre;
    pre', index' := pre + [mapV], index / |list|;
  }

  /** Peeling off the first digit. */
  lemma DigitStep(p: Problem, m: nat, pre: Row, i: nat)
    requires p.Valid() && 1 <= m <= |pre| < p.n
    requires forall e :: m <= e < p.n ==> p.bni[e][0] < m
    requires i < Tuples(p, m, pre, |pre|)
    ensures var leaf := Leaf(p, pre, |pre|);
      && |leaf| > 0
      && i / |leaf| < Tuples(p, m, pre + [leaf[i % |leaf|]], |pre| + 1)
      && (Decodes(p, m, pre, i) <==> Fresh(p, pre, leaf[i % |leaf|]) && Decodes(p, m, pre + [leaf[i % |leaf|]], i / |leaf|))
  {
    var leaf := Leaf(p, pre, |pre|);
    DigitBound(|leaf|, Tuples(p, m, pre, |pre| + 1), i);
    TuplesLocal(p, m, pre, pre + [leaf[i % |leaf|]], |pre| + 1);
  }

  lemma DigitBound(s: nat, rest: nat, i: nat)
    requires i < s * rest
    ensures s > 0 && i / s < rest
  {
    if s > 0 {
      assert i == s * (i / s) + i % s;
      if i / s >= rest { Times(s, rest, i / s); }
    }
  }

  /** The exclusive prefix sums of the products, with the total at the end. */
  method PrefixSums(tasks: seq<Task>, m: nat) returns (offs: seq<nat>)
    requires AllReady(tasks, m)
    ensures Offsets(tasks, m, offs)
  {
    offs := [0];
    for r := 0 to |tasks|
      invariant |offs| == r + 1 && offs[0] == 0
      invariant forall k :: 0 <= k < r ==> offs[k + 1] == offs[k] + Size(tasks[k], m)
    {
      var num := NumTree(tasks[r], m);
      offs := offs + [offs[r] + num];
    }
  }

  /** Counts the matches of a frontier by decoding every number below the total. */
  method Enumerate(tasks: seq<Task>, m: nat) returns (count: nat)
    requires AllReady(tasks, m)
    ensures count == Matches(tasks, m, |tasks|)
  {
    hide Decodes, Complete, Tuples, Decoded;
    var offs := PrefixSums(tasks, m);
    var ends := offs[1..];
    forall i, j | 0 <= i < j < |ends|
      ensures ends[i] <= ends[j]
    {
      OffsetsAscend(tasks, m, offs, i + 1, j + 1);
    }
    count := 0;
    CountToEnds(tasks, m, offs, |tasks|, 0);
    for ii := 0 to offs[|tasks|]
      invariant count == CountTo(tasks, m, offs, |tasks|, ii)
    {
      var r := LowerBound(ends, ii + 1);
      RowOf(tasks, m, offs, ends, ii, r);
      var found := DecodeOne(tasks[r], m, ii - offs[r]);
      CountToStep(tasks, m, offs, |tasks|, ii, r);
      if found { count := count + 1; }
    }
    CountToEnds(tasks, m, offs, |tasks|, offs[|tasks|]);
  }

  /** The search in the prefix sums finds the row of a number, also among rows of size zero. */
  lemma RowOf(tasks: seq<Task>, m: nat, offs: seq<nat>, ends: seq<nat>, ii: nat, r: nat)
    requires AllReady(tasks, m) && Offsets(tasks, m, offs) && ends == offs[1..] && ii < offs[|tasks|] && r <= |ends|
    requires forall i :: 0 <= i < r ==> ends[i] < ii + 1
    requires forall i :: r <= i < |ends| ==> ii + 1 <= ends[i]
    ensures r < |tasks| && offs[r] <= ii < offs[r + 1]
  {
    assert |tasks| > 0 && ends[|ends| - 1] == offs[|tasks|];
    if r > 0 { assert ends[r - 1] == offs[r]; }
    assert r < |ends| ==> ends[r] == offs[r + 1];
  }
}
